/** What recovery promises: which messages the broker gets back, that none is
    kept or dropped besides, and when none is handed over twice. */
module RecoveryTheorems {
  import opened Records
  import opened Journal
  import opened Recovery

  /** Ids of the messages of `q` that are not transient. */
  ghost function InJournal(db: map<uint64, Msg>): set<uint64> {
    set p | p in db && !db[p].transient
  }

  ghost function InEnqueues(ae: Enqueues, q: uint64): set<uint64> {
    set o | o in ae && o.qid == q && !ae[o].transient :: o.pid
  }

  ghost function InDequeues(ad: set<OpId>, q: uint64): set<uint64> {
    set o | o in ad && o.qid == q :: o.pid
  }

  /** The journal and the enqueue log hold the same message under one id. */
  ghost predicate SameMessages(db: map<uint64, Msg>, ae: Enqueues, q: uint64) {
    forall p | p in db && OpId(p, q) in ae :: db[p] == ae[OpId(p, q)]
  }

  /** Every id the broker gets back from the pass over one queue. */
  ghost function Delivered(db: map<uint64, Msg>, ae: Enqueues, ad: set<OpId>, q: uint64): set<uint64> {
    FromJournal(Uncancelled(ae, ad), db, q).Keys + OnQueue(EnqueuesAfter(ae, ad, db, q), q).Keys
  }

  /** Reconciliation is exact: with the journal DB, the pending enqueues PE and
      the pending dequeues PD, the broker gets (DB + PE) - PD, together with
      DB * PE * PD, because a pending pair is cancelled before the journal is
      looked at. */
  lemma ReconciliationIsExact(db: map<uint64, Msg>, ae: Enqueues, ad: set<OpId>, q: uint64)
    requires SameMessages(db, ae, q)
    ensures var d, e, x := InJournal(db), InEnqueues(ae, q), InDequeues(ad, q);
            Delivered(db, ae, ad, q) == ((d + e) - x) + (d * e * x)
  {
    var d, e, x := InJournal(db), InEnqueues(ae, q), InDequeues(ad, q);
    forall p: uint64
      ensures p in Delivered(db, ae, ad, q) <==> p in ((d + e) - x) + (d * e * x)
    {
      InSets(db, ae, ad, q, p);
    }
  }

  lemma InSets(db: map<uint64, Msg>, ae: Enqueues, ad: set<OpId>, q: uint64, p: uint64)
    ensures p in InEnqueues(ae, q) <==> OpId(p, q) in ae && !ae[OpId(p, q)].transient
    ensures p in InDequeues(ad, q) <==> OpId(p, q) in ad
    ensures p in OnQueue(EnqueuesAfter(ae, ad, db, q), q).Keys <==>
              OpId(p, q) in Kept(ae, ad) && OpId(p, q) !in Caught(Kept(ae, ad), db, q)
    ensures OpId(p, q) in Caught(Kept(ae, ad), db, q) ==> p in db
  {
    assert OpId(p, q).pid == p;
  }

  /** Nothing is lost or kept besides: what the broker got is what the journal
      still holds after the discards, and the enqueues left to be rescheduled. */
  lemma DeliveredIsRetained(db: map<uint64, Msg>, ae: Enqueues, ad: set<OpId>, q: uint64, accepted: set<uint64>)
    requires forall p: uint64 :: p in accepted <==> OpId(p, q) in Accepted(Uncancelled(ae, ad), db, q)
    ensures db - TransientIds(db) - accepted == FromJournal(Uncancelled(ae, ad), db, q)
    ensures Delivered(db, ae, ad, q) ==
            (db - TransientIds(db) - accepted).Keys + OnQueue(EnqueuesAfter(ae, ad, db, q), q).Keys
  {
    var left := Uncancelled(ae, ad);
    forall p: uint64 ensures p in db - TransientIds(db) - accepted <==> p in FromJournal(left, db, q) {
      assert OpId(p, q).pid == p;
    }
  }

  /** Every pending enqueue of the queue that already is in the journal is among
      the first ten that are looked up. */
  ghost predicate ChecksSuffice(db: map<uint64, Msg>, ae: Enqueues, ad: set<OpId>, q: uint64) {
    forall o | o in Kept(ae, ad) && o.qid == q && o.pid in db :: |Before(Kept(ae, ad), o)| < 10
  }

  /** No message is handed over twice exactly when the ten checks suffice. */
  lemma NoDuplicateIff(db: map<uint64, Msg>, ae: Enqueues, ad: set<OpId>, q: uint64)
    requires SameMessages(db, ae, q)
    ensures FromJournal(Uncancelled(ae, ad), db, q).Keys !! OnQueue(EnqueuesAfter(ae, ad, db, q), q).Keys
       <==> ChecksSuffice(db, ae, ad, q)
  {
    var kept, left, after := Kept(ae, ad), Uncancelled(ae, ad), EnqueuesAfter(ae, ad, db, q);
    if ChecksSuffice(db, ae, ad, q) {
      forall p: uint64 | p in OnQueue(after, q) ensures p !in FromJournal(left, db, q) {
        assert OpId(p, q) in kept && OpId(p, q) !in Caught(kept, db, q);
      }
    } else {
      var o :| o in kept && o.qid == q && o.pid in db && |Before(kept, o)| >= 10;
      assert o == OpId(o.pid, q);
      assert o.pid in OnQueue(after, q) && o.pid in FromJournal(left, db, q);
    }
  }

  // ---------------------------------------------------------------------
  // All queues, one pass after the other

  /** After a pass nothing is left to cancel. */
  lemma PassSettles(db: map<uint64, Msg>, ae: Enqueues, ad: set<OpId>, q: uint64)
    ensures var ae', ad' := EnqueuesAfter(ae, ad, db, q), DequeuesAfter(ae, ad, db, q);
            && ae'.Keys !! ad'
            && Kept(ae', ad') == ae' && Uncancelled(ae', ad') == ad'
  {
    var ae', ad' := EnqueuesAfter(ae, ad, db, q), DequeuesAfter(ae, ad, db, q);
    assert Kept(ae', ad') == ae';
  }

  /** For the other queues both states mean the same. */
  ghost predicate SameFor(ae: Enqueues, ad: set<OpId>, ae': Enqueues, ad': set<OpId>, q: uint64) {
    && (forall o: OpId | o.qid == q :: o in Kept(ae, ad) <==> o in Kept(ae', ad'))
    && (forall o: OpId | o.qid == q && o in Kept(ae, ad) :: Kept(ae, ad)[o] == Kept(ae', ad')[o])
    && (forall o: OpId | o.qid == q :: o in Uncancelled(ae, ad) <==> o in Uncancelled(ae', ad'))
  }

  lemma PassLeavesOthers(db: map<uint64, Msg>, ae: Enqueues, ad: set<OpId>, q: uint64, r: uint64)
    requires r != q
    ensures SameFor(ae, ad, EnqueuesAfter(ae, ad, db, q), DequeuesAfter(ae, ad, db, q), r)
  {
    PassSettles(db, ae, ad, q);
  }

  /** ... so the pass over another queue gives the same. */
  lemma PassIsLocal(db: map<uint64, Msg>, ae: Enqueues, ad: set<OpId>, ae': Enqueues, ad': set<OpId>, q: uint64)
    requires SameFor(ae, ad, ae', ad', q)
    ensures FromJournal(Uncancelled(ae, ad), db, q) == FromJournal(Uncancelled(ae', ad'), db, q)
    ensures OnQueue(EnqueuesAfter(ae, ad, db, q), q) == OnQueue(EnqueuesAfter(ae', ad', db, q), q)
    ensures Accepted(Uncancelled(ae, ad), db, q) == Accepted(Uncancelled(ae', ad'), db, q)
  {
    forall p: uint64
      ensures p in OnQueue(EnqueuesAfter(ae, ad, db, q), q) <==> p in OnQueue(EnqueuesAfter(ae', ad', db, q), q)
    {
      SameCaught(db, ae, ad, ae', ad', OpId(p, q));
      InSets(db, ae, ad, q, p);
      InSets(db, ae', ad', q, p);
    }
  }

  lemma SameCaught(db: map<uint64, Msg>, ae: Enqueues, ad: set<OpId>, ae': Enqueues, ad': set<OpId>, o: OpId)
    requires SameFor(ae, ad, ae', ad', o.qid)
    ensures o in Caught(Kept(ae, ad), db, o.qid) <==> o in Caught(Kept(ae', ad'), db, o.qid)
  {
    assert Before(Kept(ae, ad), o) == Before(Kept(ae', ad'), o);
  }

  // ---------------------------------------------------------------------
  // Recovery twice

  /** A crash right after recovery: from the journal without what it discarded
      and the operations still pending, the broker gets the same ids again, and
      the same messages. */
  lemma RecoveryIsIdempotent(db: map<uint64, Msg>, ae: Enqueues, ad: set<OpId>, q: uint64)
    ensures var db' := FromJournal(Uncancelled(ae, ad), db, q);
            var ae', ad' := EnqueuesAfter(ae, ad, db, q), DequeuesAfter(ae, ad, db, q);
            && FromJournal(Uncancelled(ae', ad'), db', q) == db'
            && Delivered(db', ae', ad', q) == Delivered(db, ae, ad, q)
            && (forall p | p in OnQueue(EnqueuesAfter(ae', ad', db', q), q) ::
                  p in OnQueue(ae', q) && OnQueue(EnqueuesAfter(ae', ad', db', q), q)[p] == OnQueue(ae', q)[p])
  {
    var db' := FromJournal(Uncancelled(ae, ad), db, q);
    var ae', ad' := EnqueuesAfter(ae, ad, db, q), DequeuesAfter(ae, ad, db, q);
    PassSettles(db, ae, ad, q);
    assert FromJournal(Uncancelled(ae', ad'), db', q) == db';
    forall p: uint64 ensures p in Delivered(db', ae', ad', q) <==> p in Delivered(db, ae, ad, q) {
      InSets(db', ae', ad', q, p);
      InSets(db, ae, ad, q, p);
    }
  }

  /** A crash after the pass and before the discards: the completes of the dequeues
      are logged, the messages are still in the journal. The broker gets what the
      pass gave, and the messages accepted in it. */
  lemma CrashBeforeDiscards(db: map<uint64, Msg>, ae: Enqueues, ad: set<OpId>, q: uint64, p: uint64)
    requires SameMessages(db, ae, q)
    ensures var ae', ad' := EnqueuesAfter(ae, ad, db, q), DequeuesAfter(ae, ad, db, q);
            p in Delivered(db, ae', ad', q) <==>
              p in Delivered(db, ae, ad, q) || OpId(p, q) in Accepted(Uncancelled(ae, ad), db, q)
  {
    var ae', ad' := EnqueuesAfter(ae, ad, db, q), DequeuesAfter(ae, ad, db, q);
    PassSettles(db, ae, ad, q);
    InSets(db, ae', ad', q, p);
    InSets(db, ae, ad, q, p);
  }
}
