/** Replaying a log of start and complete records into the pending and the
    lost operations. The enqueue log and the dequeue log use the same rules. */
module Replay {
  import opened Records

  datatype Outcome<+P> = Outcome(pending: map<OpId, P>, lost: set<OpId>)

  /** A start first looks for a complete that was read before it, and `insert`
      never overwrites; a complete that finds no start is remembered as lost. */
  function Absorb<P>(s: Outcome<P>, r: Record<P>): Outcome<P> {
    match r
    case Start(op, p) =>
      if op in s.lost then s.(lost := s.lost - {op})
      else if op in s.pending then s
      else s.(pending := s.pending[op := p])
    case Complete(op) =>
      if op in s.pending then s.(pending := s.pending - {op})
      else s.(lost := s.lost + {op})
  }

  function Run<P>(s: Outcome<P>, rs: seq<Record<P>>): Outcome<P> {
    if rs == [] then s
    else Absorb(Run(s, rs[..|rs| - 1]), rs[|rs| - 1])
  }

  function Pending<P>(rs: seq<Record<P>>): map<OpId, P> {
    Run(Outcome(map[], {}), rs).pending
  }

  function Lost<P>(rs: seq<Record<P>>): set<OpId> {
    Run(Outcome(map[], {}), rs).lost
  }

  lemma RunSnoc<P>(s: Outcome<P>, rs: seq<Record<P>>, r: Record<P>)
    ensures Run(s, rs + [r]) == Absorb(Run(s, rs), r)
  {
    assert (rs + [r])[..|rs|] == rs;
  }

  lemma {:induction false} RunConcat<P>(s: Outcome<P>, a: seq<Record<P>>, b: seq<Record<P>>)
    ensures Run(s, a + b) == Run(Run(s, a), b)
    decreases |b|
  {
    if b == [] {
      assert a + b == a;
    } else {
      var b' := b[..|b| - 1];
      RunConcat(s, a, b');
      RunSnoc(s, a + b', b[|b| - 1]);
      assert (a + b') + [b[|b| - 1]] == a + b;
    }
  }

  // ---------------------------------------------------------------------
  // What a replay computes, independently of the order of the records

  /** No operation is started twice. Stated on the multiset of records, so it
      says nothing about order, and allows any number of completes. */
  ghost predicate OneStart<P(!new)>(m: multiset<Record<P>>) {
    forall op, p, q ::
      Start(op, p) in m && Start(op, q) in m ==> p == q && m[Start(op, p)] == 1
  }

  /** `st` is exactly the starts without a complete, and `lost` lies between
      the completes without a start and all completes. */
  ghost predicate Settles<P(!new)>(rs: seq<Record<P>>, st: Outcome<P>) {
    && (forall op, p :: (op in st.pending && st.pending[op] == p) <==>
                        (Start(op, p) in rs && Complete(op) !in rs))
    && (forall op :: op in st.lost ==> Complete(op) in rs && op !in st.pending)
    && (forall op :: Complete(op) in rs && (forall p :: Start(op, p) !in rs) ==> op in st.lost)
  }

  lemma OneStartPrefix<P(!new)>(rs: seq<Record<P>>, r: Record<P>)
    requires OneStart(multiset(rs + [r]))
    ensures OneStart(multiset(rs))
    ensures r.Start? ==> forall p :: Start(r.op, p) !in rs
  {
    var m := multiset(rs + [r]);
    assert m == multiset(rs) + multiset{r};
    assert r in m;
    forall op, p, q | Start(op, p) in multiset(rs) && Start(op, q) in multiset(rs)
      ensures p == q && multiset(rs)[Start(op, p)] == 1
    {
      assert Start(op, p) in m && Start(op, q) in m;
      assert m[Start(op, p)] == 1;
    }
    if r.Start? {
      forall p ensures Start(r.op, p) !in rs {
        assert Start(r.op, p) in rs ==> Start(r.op, p) in multiset(rs);
      }
    }
  }

  /** Replay is exact: for every sequence of records with at most one start per
      operation and any number of completes anywhere. */
  lemma {:induction false} ReplayIsExact<P(!new)>(rs: seq<Record<P>>)
    requires OneStart(multiset(rs))
    ensures Settles(rs, Run(Outcome(map[], {}), rs))
    decreases |rs|
  {
    if rs != [] {
      var rs' := rs[..|rs| - 1];
      var r := rs[|rs| - 1];
      assert rs == rs' + [r];
      OneStartPrefix(rs', r);
      ReplayIsExact(rs');
      AbsorbSettles(rs', Run(Outcome(map[], {}), rs'), r);
    }
  }

  lemma AbsorbSettles<P(!new)>(rs: seq<Record<P>>, st: Outcome<P>, r: Record<P>)
    requires Settles(rs, st)
    requires r.Start? ==> forall p :: Start(r.op, p) !in rs
    ensures Settles(rs + [r], Absorb(st, r))
  {
    var st' := Absorb(st, r);
    assert forall x :: x in rs + [r] <==> x in rs || x == r;
    assert forall o | o in st.pending :: Start(o, st.pending[o]) in rs;
    forall op, p
      ensures (op in st'.pending && st'.pending[op] == p) <==>
              (Start(op, p) in rs + [r] && Complete(op) !in rs + [r])
    {
      if op == r.op && r.Start? {
        if op !in st.lost {
          assert Complete(op) !in rs;
        }
      }
    }
    forall op | Complete(op) in rs + [r] && (forall p :: Start(op, p) !in rs + [r])
      ensures op in st'.lost
    {
      assert forall p :: Start(op, p) !in rs by {
        forall p ensures Start(op, p) !in rs {
          assert Start(op, p) !in rs + [r];
        }
      }
    }
  }

  /** The pending operations do not depend on the order of the records. */
  lemma ReplayIgnoresOrder<P(!new)>(a: seq<Record<P>>, b: seq<Record<P>>)
    requires multiset(a) == multiset(b)
    requires OneStart(multiset(a))
    ensures Pending(a) == Pending(b)
  {
    ReplayIsExact(a);
    ReplayIsExact(b);
    assert forall r :: r in a <==> r in b by {
      forall r ensures r in a <==> r in b {
        assert r in a <==> r in multiset(a);
        assert r in b <==> r in multiset(b);
      }
    }
    var pa, pb := Pending(a), Pending(b);
    forall op ensures op in pa <==> op in pb {
      if op in pa { assert Start(op, pa[op]) in b && Complete(op) !in b; }
      if op in pb { assert Start(op, pb[op]) in a && Complete(op) !in a; }
    }
    forall op | op in pa ensures pa[op] == pb[op] {
      assert Start(op, pa[op]) in b && Complete(op) !in b;
    }
  }

  // ---------------------------------------------------------------------
  // Rewriting a pending set as start records

  /** The complete of `op` is lost exactly when it has no start. */
  ghost predicate LostIff<P(!new)>(rs: seq<Record<P>>, lost: set<OpId>, op: OpId) {
    op in lost <==> Complete(op) in rs && forall p :: Start(op, p) !in rs
  }

  lemma LostStep<P(!new)>(rs: seq<Record<P>>, st: Outcome<P>, r: Record<P>, op: OpId)
    requires Settles(rs, st) && LostIff(rs, st.lost, op)
    requires r == Complete(op) ==> Complete(op) !in rs
    requires r.Start? ==> forall p :: Start(r.op, p) !in rs
    ensures LostIff(rs + [r], Absorb(st, r).lost, op)
  {
    assert forall x :: x in rs + [r] <==> x in rs || x == r;
    if r.op == op {
      if r.Start? {
        assert Start(op, r.payload) in rs + [r];
      } else if op in st.pending {
        assert Start(op, st.pending[op]) in rs + [r];
      } else {
        assert forall p :: Start(op, p) !in rs;
        assert forall p :: Start(op, p) !in rs + [r];
      }
    } else {
      assert forall p :: Start(op, p) in rs + [r] <==> Start(op, p) in rs;
    }
  }

  /** That holds of every operation with one complete at most. */
  lemma {:induction false} LostOnce<P(!new)>(rs: seq<Record<P>>, op: OpId)
    requires OneStart(multiset(rs)) && multiset(rs)[Record<P>.Complete(op)] <= 1
    ensures LostIff(rs, Lost(rs), op)
    decreases |rs|
  {
    if rs != [] {
      var rs', r := rs[..|rs| - 1], rs[|rs| - 1];
      assert rs == rs' + [r];
      OneStartPrefix(rs', r);
      LostOnce(rs', op);
      ReplayIsExact(rs');
      assert r == Complete(op) ==> Record<P>.Complete(op) !in multiset(rs');
      LostStep(rs', Run(Outcome(map[], {}), rs'), r, op);
    }
  }

  /** The start records of a pending set, in the order of the nested maps. */
  function Listing<P>(m: map<OpId, P>): seq<Record<P>>
    decreases |m|
  {
    if m == map[] then []
    else
      var o := LeastOp(m.Keys);
      [Start(o, m[o])] + Listing(m - {o})
  }

  lemma {:induction false} ListingHolds<P(!new)>(m: map<OpId, P>)
    ensures forall r :: r in Listing(m) <==> r.Start? && r.op in m && r.payload == m[r.op]
    ensures OneStart(multiset(Listing(m)))
    decreases |m|
  {
    if m != map[] {
      var o := LeastOp(m.Keys);
      var rest := m - {o};
      ListingHolds(rest);
      var l := Listing(m);
      assert l == [Start(o, m[o])] + Listing(rest);
      assert multiset(l) == multiset{Start(o, m[o])} + multiset(Listing(rest));
      assert forall r :: r in l <==> r == Start(o, m[o]) || r in Listing(rest);
      forall op, p, q | Start(op, p) in multiset(l) && Start(op, q) in multiset(l)
        ensures p == q && multiset(l)[Start(op, p)] == 1
      {
        assert Start(op, p) in l && Start(op, q) in l;
        if op == o {
          assert Start(op, p) !in Listing(rest);
        }
      }
    }
  }

  /** Rewriting a pending set and replaying the rewrite gives it back. */
  lemma ListingReplays<P(!new)>(m: map<OpId, P>)
    ensures Pending(Listing(m)) == m
    ensures Lost(Listing(m)) == {}
  {
    ListingHolds(m);
    var l := Listing(m);
    ReplayIsExact(l);
    var st := Run(Outcome(map[], {}), l);
    forall op ensures op in st.pending <==> op in m {
      assert op in st.pending ==> Start(op, st.pending[op]) in l;
      assert op in m ==> Start(op, m[op]) in l && Complete(op) !in l;
    }
    forall op | op in m ensures st.pending[op] == m[op] {
      assert Start(op, m[op]) in l && Complete(op) !in l;
    }
  }
}
