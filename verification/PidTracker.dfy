/** The contiguous watermark of stored persistence ids: the arithmetic of
    `addPid` on values, with its 32-bit comparison. */
module Watermark {
  import opened Records

  datatype Mark = Mark(last: uint64, gap: set<uint64>)

  /** Advance over the smallest remembered ids for as long as they follow on. */
  function Drain(m: Mark): Mark
    decreases |m.gap|
  {
    if m.gap == {} then m
    else
      var x := Least(m.gap);
      if Int32(x - m.last) <= 1 then Drain(Mark(Max(x, m.last), m.gap - {x})) else m
  }

  /** True when the new id is not taken to lie beyond the next one. */
  predicate Advances(m: Mark, pid: uint64) {
    Int32(pid - m.last) <= 1
  }

  function Add(m: Mark, pid: uint64): Mark {
    if Advances(m, pid) then Drain(Mark(Max(pid, m.last), m.gap))
    else if pid > m.last then m.(gap := m.gap + {pid})
    else m
  }

  /** Starting from `base`, exactly the ids in `added` were added: `last` is the
      largest n with all of base+1..n added and `gap` is the rest of them. */
  ghost predicate Exact(base: uint64, added: set<uint64>, m: Mark) {
    && base <= m.last
    && (forall i: uint64 | base < i <= m.last :: i in added)
    && m.last + 1 !in added
    && (forall x :: x in m.gap <==> x in added && x > m.last)
  }

  ghost predicate Near(m: Mark) {
    forall x | x in m.gap :: x - m.last < TWO_31
  }

  lemma {:induction false} DrainIsExact(base: uint64, added: set<uint64>, m: Mark)
    requires base <= m.last && Near(m)
    requires forall i: uint64 | base < i <= m.last :: i in added
    requires forall x :: x in m.gap <==> x in added && x > m.last
    ensures Exact(base, added, Drain(m))
    ensures Drain(m).last >= m.last && Drain(m).gap <= m.gap && Near(Drain(m))
    decreases |m.gap|
  {
    if m.gap != {} {
      var x := Least(m.gap);
      Int32InWindow(x - m.last);
      if Int32(x - m.last) <= 1 {
        DrainIsExact(base, added, Mark(Max(x, m.last), m.gap - {x}));
      } else {
        assert m.last + 1 !in m.gap;
      }
    }
  }

  /** Adding an id, new or not, keeps the watermark exact if and only if it is not
      beyond the next one, or the 32-bit comparison takes it for a later one. */
  lemma AddIsExactIff(base: uint64, added: set<uint64>, m: Mark, pid: uint64)
    requires Exact(base, added, m) && Near(m)
    ensures Exact(base, added + {pid}, Add(m, pid)) <==> pid <= m.last + 1 || !Advances(m, pid)
  {
    if pid <= m.last {
      PassedIdKeeps(base, added, m, pid);
    } else if pid == m.last + 1 {
      DrainIsExact(base, added + {pid}, Mark(pid, m.gap));
    } else if Advances(m, pid) {
      DrainRises(Mark(Max(pid, m.last), m.gap));
      var next: uint64 := m.last + 1;
      assert base < next <= Add(m, pid).last && next !in added + {pid};
    }
  }

  /** The watermark never falls, whatever the mark and the id. */
  lemma AddNeverFalls(m: Mark, pid: uint64)
    ensures Add(m, pid).last >= m.last
  {
    DrainRises(Mark(Max(pid, m.last), m.gap));
  }

  /** An id that the watermark has passed, as those of the enqueues that recovery
      schedules again, leaves an exact mark as it is if and only if the 32-bit
      comparison does not take the first remembered id for the next one. */
  lemma PassedIdKeepsIff(base: uint64, added: set<uint64>, m: Mark, pid: uint64)
    requires Exact(base, added, m) && pid <= m.last
    ensures Add(m, pid) == m <==> (Advances(m, pid) && m.gap != {} ==> !Advances(m, Least(m.gap)))
  {
    if Advances(m, pid) && m.gap != {} && Advances(m, Least(m.gap)) {
      DrainRises(Mark(Least(m.gap), m.gap - {Least(m.gap)}));
    }
  }

  /** Within the window it never does, and whoever waits is told. */
  lemma PassedIdKeeps(base: uint64, added: set<uint64>, m: Mark, pid: uint64)
    requires Exact(base, added, m) && Near(m) && pid <= m.last
    ensures Add(m, pid) == m && Exact(base, added + {pid}, m)
    ensures m.last - pid <= TWO_31 ==> Advances(m, pid)
  {
    PassedIdKeepsIff(base, added, m, pid);
    if m.gap != {} {
      Int32InWindow(Least(m.gap) - m.last);
    }
    if m.last - pid <= TWO_31 {
      Int32InWindow(pid - m.last);
    }
  }

  lemma {:induction false} DrainRises(m: Mark)
    ensures Drain(m).last >= m.last
    decreases |m.gap|
  {
    if m.gap != {} {
      var x := Least(m.gap);
      if Int32(x - m.last) <= 1 {
        DrainRises(Mark(Max(x, m.last), m.gap - {x}));
      }
    }
  }

  /** For ids less than 2^31 above the watermark, or below it, it is always exact. */
  lemma AddIsExact(base: uint64, added: set<uint64>, m: Mark, pid: uint64)
    requires Exact(base, added, m) && Near(m)
    requires pid < m.last + TWO_31
    ensures Exact(base, added + {pid}, Add(m, pid)) && Near(Add(m, pid))
    ensures Add(m, pid).last >= m.last
    ensures pid == m.last + 1 ==> Add(m, pid).last >= pid
    ensures m.last < pid ==> (Advances(m, pid) <==> pid == m.last + 1)
    ensures !Advances(m, pid) ==> Add(m, pid).last == m.last
  {
    if pid <= m.last {
      PassedIdKeeps(base, added, m, pid);
    } else {
      Int32InWindow(pid - m.last);
      if pid == m.last + 1 {
        DrainIsExact(base, added + {pid}, Mark(pid, m.gap));
      }
    }
  }

  /** 2^31 ids ahead the comparison is wrong: the store would believe that all
      the ids below are stored. */
  lemma WatermarkOverrun()
    ensures var m := Mark(0, {});
            Exact(0, {}, m) && Add(m, 0x8000_0000).last == 0x8000_0000 &&
            !Exact(0, {0x8000_0000}, Add(m, 0x8000_0000))
  {
    var m := Mark(0, {});
    AddIsExactIff(0, {}, m, 0x8000_0000);
    assert {} + {0x8000_0000} == {0x8000_0000};
  }

  function AddAll(m: Mark, pids: seq<uint64>): Mark
    decreases |pids|
  {
    if pids == [] then m else AddAll(Add(m, pids[0]), pids[1..])
  }

  ghost predicate InWindow(m: Mark, pids: seq<uint64>)
    decreases |pids|
  {
    pids == [] || (pids[0] < m.last + TWO_31 && InWindow(Add(m, pids[0]), pids[1..]))
  }

  lemma {:induction false} AddAllIsExact(base: uint64, added: set<uint64>, m: Mark, pids: seq<uint64>)
    requires Exact(base, added, m) && Near(m)
    requires InWindow(m, pids)
    ensures Exact(base, added + Ids(pids), AddAll(m, pids))
    decreases |pids|
  {
    if pids == [] {
      assert added + Ids(pids) == added;
    } else {
      AddIsExact(base, added, m, pids[0]);
      AddAllIsExact(base, added + {pids[0]}, Add(m, pids[0]), pids[1..]);
      assert added + {pids[0]} + Ids(pids[1..]) == added + Ids(pids);
    }
  }

  lemma ExactIsUnique(base: uint64, added: set<uint64>, m: Mark, n: Mark)
    requires Exact(base, added, m) && Exact(base, added, n)
    ensures m == n
  {
    assert m.last == n.last;
    assert m.gap == n.gap;
  }

  /** After `reset` any ids may be added, below the base or above it, and again. */
  lemma ResetThenAdd(base: uint64, pids: seq<uint64>)
    requires InWindow(Mark(base, {}), pids)
    ensures Exact(base, Ids(pids), AddAll(Mark(base, {}), pids))
  {
    AddAllIsExact(base, {}, Mark(base, {}), pids);
    assert {} + Ids(pids) == Ids(pids);
  }

  /** The tracker's state after `reset` depends only on which ids were added,
      never on the order in which the store tasks finished. */
  lemma AddOrderIsIrrelevant(base: uint64, a: seq<uint64>, b: seq<uint64>)
    requires Ids(a) == Ids(b)
    requires InWindow(Mark(base, {}), a) && InWindow(Mark(base, {}), b)
    ensures AddAll(Mark(base, {}), a) == AddAll(Mark(base, {}), b)
  {
    var m, ids := Mark(base, {}), Ids(a);
    ResetThenAdd(base, a);
    ResetThenAdd(base, b);
    ExactIsUnique(base, ids, AddAll(m, a), AddAll(m, b));
  }
}

/** The tracker object: the watermark, the duplicates still to be stored and
    the enqueues that a dequeue may still cancel. */
module Tracker {
  import opened Records
  import opened Watermark
  import opened QueueMaps

  /** Persistence ids by queue, as the two maps of the tracker keep them. */
  type QueueIds = Nested<()>

  lemma FlatInsert(m: QueueIds, op: OpId)
    ensures Flat(Insert(m, op, ())) == Flat(m) + {op}
    ensures NoEmptyQueue(m) ==> NoEmptyQueue(Insert(m, op, ()))
  {
    InsertHas(m, op, ());
    FlatHas(m);
    FlatHas(Insert(m, op, ()));
  }

  lemma FlatErase(m: QueueIds, op: OpId)
    requires Has(m, op)
    ensures Flat(Erase(m, op)) == Flat(m) - {op}
    ensures Flat(EraseAndDrop(m, op)) == Flat(m) - {op}
    ensures NoEmptyQueue(m) ==> NoEmptyQueue(EraseAndDrop(m, op))
  {
    EraseHas(m, op);
    EraseAndDropHas(m, op);
    FlatHas(m);
    FlatHas(Erase(m, op));
    FlatHas(EraseAndDrop(m, op));
  }

  class PidTracker {
    var lastPid: uint64
    var gapPidSet: set<uint64>
    var dupMap: QueueIds
    var pendMap: QueueIds

    ghost predicate Valid()
      reads this
    {
      NoEmptyQueue(dupMap)
    }

    ghost function State(): Mark
      reads this
    {
      Mark(lastPid, gapPidSet)
    }

    constructor ()
      ensures Valid() && State() == Mark(0, {})
      ensures Flat(dupMap) == {} && Flat(pendMap) == {}
    {
      lastPid, gapPidSet, dupMap, pendMap := 0, {}, map[], map[];
    }

    method Reset(pid: uint64)
      requires Valid()
      modifies this`lastPid, this`gapPidSet
      ensures Valid() && State() == Mark(pid, {}) && Exact(pid, {}, State())
    {
      lastPid := pid;
      gapPidSet := {};
    }

    method AddDuplicate(op: OpId)
      requires Valid()
      modifies this`dupMap
      ensures Valid() && Flat(dupMap) == old(Flat(dupMap)) + {op}
    {
      FlatInsert(dupMap, op);
      dupMap := Insert(dupMap, op, ());
    }

    /** `true` exactly when a waiter must be woken. */
    method AddPid(op: OpId) returns (updated: bool)
      requires Valid()
      modifies this`lastPid, this`gapPidSet, this`dupMap
      ensures Valid() && Flat(dupMap) == old(Flat(dupMap)) - {op}
      ensures State() == if op in old(Flat(dupMap)) then old(State()) else Add(old(State()), op.pid)
      ensures updated == (op in old(Flat(dupMap)) || Advances(old(State()), op.pid))
      ensures lastPid >= old(lastPid)
    {
      AddNeverFalls(State(), op.pid);
      FlatHas(dupMap);
      updated := Has(dupMap, op);
      if updated {
        FlatErase(dupMap, op);
        dupMap := EraseAndDrop(dupMap, op);
        return;
      }
      if Int32(op.pid - lastPid) > 1 {
        if op.pid > lastPid {
          gapPidSet := gapPidSet + {op.pid};
        }
      } else {
        lastPid := Max(op.pid, lastPid);
        DrainGap();
        updated := true;
      }
    }

    /** The inner loop: take over the remembered ids that now follow on. */
    method DrainGap()
      modifies this`lastPid, this`gapPidSet
      ensures State() == Drain(old(State()))
    {
      while gapPidSet != {} && Int32(Least(gapPidSet) - lastPid) <= 1
        invariant Drain(State()) == Drain(old(State()))
        decreases |gapPidSet|
      {
        var first := Least(gapPidSet);
        lastPid := Max(first, lastPid);
        gapPidSet := gapPidSet - {first};
      }
    }

    method WillEnqueue(op: OpId) returns (inserted: bool)
      requires Valid()
      modifies this`pendMap
      ensures Valid() && Flat(pendMap) == old(Flat(pendMap)) + {op}
      ensures inserted == (op !in old(Flat(pendMap)))
    {
      FlatHas(pendMap);
      inserted := !Has(pendMap, op);
      FlatInsert(pendMap, op);
      pendMap := Insert(pendMap, op, ());
    }

    /** A dequeue is required unless it takes the pending enqueue away. */
    method DequeueCheck(op: OpId) returns (required: bool)
      requires Valid()
      modifies this`pendMap
      ensures Valid() && Flat(pendMap) == old(Flat(pendMap)) - {op}
      ensures required == (op !in old(Flat(pendMap)))
    {
      FlatHas(pendMap);
      required := !Has(pendMap, op);
      if !required {
        FlatErase(pendMap, op);
        pendMap := Erase(pendMap, op);
      }
    }

    /** An enqueue is required if it takes its own pending entry away. */
    method EnqueueCheck(op: OpId) returns (required: bool)
      requires Valid()
      modifies this`pendMap
      ensures Valid() && Flat(pendMap) == old(Flat(pendMap)) - {op}
      ensures required == (op in old(Flat(pendMap)))
    {
      FlatHas(pendMap);
      required := Has(pendMap, op);
      if required {
        FlatErase(pendMap, op);
        pendMap := Erase(pendMap, op);
      }
    }
  }
}
