/** Maps nested by queue id and persistence id, as the tracker and the readers of
    the logs keep them. A set of ids is a map to the empty tuple. */
module QueueMaps {
  import opened Records

  type Nested<P> = map<uint64, map<uint64, P>>

  predicate Has<P>(n: Nested<P>, o: OpId) {
    o.qid in n && o.pid in n[o.qid]
  }

  ghost predicate NoEmptyQueue<P(!new)>(n: Nested<P>) {
    forall q | q in n :: n[q] != map[]
  }

  /** `insert`, which never overwrites, into the map of the queue or a new one. */
  function Insert<P>(n: Nested<P>, o: OpId, p: P): Nested<P> {
    var own: map<uint64, P> := if o.qid in n then n[o.qid] else map[];
    var more: map<uint64, P> := if o.pid in own then own else own[o.pid := p];
    n[o.qid := more]
  }

  /** `erase`; the map of the queue stays, empty or not. */
  function Erase<P>(n: Nested<P>, o: OpId): Nested<P>
    requires Has(n, o)
  {
    n[o.qid := n[o.qid] - {o.pid}]
  }

  /** `erase`, and the map of the queue with it once it is empty. */
  function EraseAndDrop<P>(n: Nested<P>, o: OpId): Nested<P>
    requires Has(n, o)
  {
    var left := n[o.qid] - {o.pid};
    if left == map[] then n - {o.qid} else n[o.qid := left]
  }

  lemma InsertHas<P(!new)>(n: Nested<P>, o: OpId, p: P)
    ensures NoEmptyQueue(n) ==> NoEmptyQueue(Insert(n, o, p))
    ensures forall x :: Has(Insert(n, o, p), x) <==> Has(n, x) || x == o
  {
    assert o.pid in Insert(n, o, p)[o.qid];
  }

  lemma EraseHas<P(!new)>(n: Nested<P>, o: OpId)
    requires Has(n, o)
    ensures forall x :: Has(Erase(n, o), x) <==> Has(n, x) && x != o
  {
    var left := n[o.qid] - {o.pid};
    forall x ensures Has(Erase(n, o), x) <==> Has(n, x) && x != o {
      if x.qid == o.qid {
        assert x.pid in left <==> x.pid in n[o.qid] && x != o;
      }
    }
  }

  lemma EraseAndDropHas<P(!new)>(n: Nested<P>, o: OpId)
    requires Has(n, o)
    ensures NoEmptyQueue(n) ==> NoEmptyQueue(EraseAndDrop(n, o))
    ensures forall x :: Has(EraseAndDrop(n, o), x) <==> Has(n, x) && x != o
  {
    var left := n[o.qid] - {o.pid};
    forall x ensures Has(EraseAndDrop(n, o), x) <==> Has(n, x) && x != o {
      if x.qid == o.qid {
        assert x.pid in left <==> x.pid in n[o.qid] && x != o;
      }
    }
  }

  /** The operations that have an entry. */
  ghost function Flat<P>(n: Nested<P>): set<OpId> {
    set q, p | q in n && p in n[q] :: OpId(p, q)
  }

  lemma FlatHas<P(!new)>(n: Nested<P>)
    ensures forall o :: o in Flat(n) <==> Has(n, o)
  {
    forall o | Has(n, o) ensures o in Flat(n) {
      assert o == OpId(o.pid, o.qid);
    }
  }
}
