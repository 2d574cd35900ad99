/** What a crash leaves to the epoch that follows: two runs after which recovery
    gives ids and a watermark that the next epoch cannot rely on. */
module NextEpoch {
  import opened Records
  import opened Protocol
  import opened ProtocolInvariant
  import opened Recovery
  import opened RecoverStore
  import opened Crash
  import opened Once
  import opened Repeats
  import IdSequence
  import OperationLog

  // ---------------------------------------------------------------------
  // An id that is issued again

  function RemovedOp(msg: Msg): Op {
    Op(msg, false, Scheduled, Finished, true, Dequeued, false, Deleted)
  }

  lemma StartDequeue(c: Config, steps: seq<Step>, s: State, op: OpId) returns (more: seq<Step>)
    requires IsRun(c, steps) && s == Final(c, steps) && op in s.ops && s.ops[op] == StoredOp(s.ops[op].msg)
    requires s.pends == {} && s.deletes == []
    ensures IsRun(c, more)
    ensures Final(c, more) ==
            s.(ops := s.ops[op := s.ops[op].(deq := Dequeued, del := DelQueued)], deletes := [op],
               deq := OperationLog.Start(s.deq, op, ()))
  {
    more := Then(c, steps, Dequeue(DeqCheck(op)));
    more := Then(c, more, Dequeue(DeqLogStart(op)));
    more := Then(c, more, Dequeue(DeqSchedule(op)));
    assert s.deletes + [op] == [op];
  }

  lemma RemoveMessage(c: Config, steps: seq<Step>, s: State, op: OpId) returns (more: seq<Step>)
    requires IsRun(c, steps) && s == Final(c, steps) && op in s.ops && s.ops[op].del == DelQueued && c.deleters >= 1
    requires s.deletes == [op] && s.deleting == {} && op !in s.dups && op.pid <= s.mark.last
    ensures IsRun(c, more)
    ensures Final(c, more) ==
            s.(ops := s.ops[op := s.ops[op].(del := Deleted)], deletes := [], deleting := {op},
               journal := s.journal - {op})
  {
    more := TakeDelete(c, steps, s, op);
    more := Then(c, more, Wait(CheckMain(op)));
    more := Then(c, more, Delete(DelRemove(op)));
  }

  lemma TakeDelete(c: Config, steps: seq<Step>, s: State, op: OpId) returns (more: seq<Step>)
    requires IsRun(c, steps) && s == Final(c, steps) && op in s.ops && s.ops[op].del == DelQueued && c.deleters >= 1
    requires s.deletes == [op] && s.deleting == {} && op !in s.dups
    ensures IsRun(c, more)
    ensures Final(c, more) == s.(ops := s.ops[op := s.ops[op].(del := WaitMain(0))], deletes := [], deleting := {op})
  {
    more := Then(c, steps, Delete(DelTake));
    assert s.deletes[1..] == [];
    more := Then(c, more, Wait(CheckDup(op)));
  }

  /** One message is stored, dequeued and removed from its journal; the complete
      record of the dequeue is not written. */
  ghost predicate Removed(s: State, op: OpId, msg: Msg) {
    && s.ops == map[op := RemovedOp(msg)] && s.enq.cleaner.Resting? && s.deq.cleaner.Resting?
  }

  lemma StoredOne(c: Config, q: uint64, msg: Msg) returns (steps: seq<Step>)
    requires c.workers >= 1 && q != 0
    ensures IsRun(c, steps) && Row(Final(c, steps), 1, 1, q, msg) && Final(c, steps).enq.cleaner.Resting?
  {
    steps := LoggedRun(c, 1, q, msg);
    steps := PutNext(c, steps, 1, 0, 1, q, msg);
    steps := FinishNext(c, steps, 1, 0, q, msg);
  }

  lemma RemovedRun(c: Config, q: uint64, msg: Msg) returns (steps: seq<Step>)
    requires c.workers >= 1 && c.deleters >= 1 && q != 0
    ensures IsRun(c, steps) && Removed(Final(c, steps), OpId(1, q), msg)
  {
    var op := OpId(1, q);
    steps := StoredOne(c, q, msg);
    assert UpTo(1, q) == {op};
    steps := StartDequeue(c, steps, Final(c, steps), op);
    steps := RemoveMessage(c, steps, Final(c, steps), op);
  }

  lemma OnlyKnown(c: Config, steps: seq<Step>)
    requires IsRun(c, steps)
    ensures var s := Final(c, steps);
            PE(s).Keys <= s.ops.Keys && PD(s) <= s.ops.Keys && s.journal.Keys <= s.ops.Keys
  {
    RunKeeps(c, steps);
    KnownOnly(Final(c, steps));
  }

  lemma KnownOnly(s: State)
    requires DomainOk(s) && OperationLog.Valid(s.enq) && OperationLog.Valid(s.deq)
    ensures PE(s).Keys <= s.ops.Keys && PD(s) <= s.ops.Keys && s.journal.Keys <= s.ops.Keys
  {
    OperationLog.RecoveryIsBounded(s.enq);
    OperationLog.RecoveryIsBounded(s.deq);
  }

  lemma RemovedLeaves(c: Config, steps: seq<Step>, s: State, op: OpId, msg: Msg)
    requires IsRun(c, steps) && s == Final(c, steps) && Removed(s, op, msg)
    ensures PE(s) == map[] && PD(s) == {op} && DB(s, op.qid) == map[]
  {
    AfterRun(c, steps, op);
    RemovedIs(c, s, op, msg);
    OnlyKnown(c, steps);
  }

  lemma RemovedIs(c: Config, s: State, op: OpId, msg: Msg)
    requires Removed(s, op, msg) && OpOk(c, ViewOf(s, op)) && Replayed(s, op)
    ensures op !in PE(s) && op in PD(s) && op !in s.journal
  {
    assert s.enq.Gap() == {} && s.deq.Gap() == {};
  }

  /** After this run recovery schedules a dequeue again, and whatever the pass gives,
      its id is the first one that will be issued. */
  lemma StaleDequeue(c: Config, q: uint64, msg: Msg) returns (steps: seq<Step>, op: OpId)
    requires c.workers >= 1 && c.deleters >= 1 && q != 0
    ensures IsRun(c, steps) && op in Final(c, steps).ops
    ensures op in DequeuesAfter(PE(Final(c, steps)), PD(Final(c, steps)), DB(Final(c, steps), q), q)
    ensures forall r | Recovery.Passed(PE(Final(c, steps)), PD(Final(c, steps)), DB(Final(c, steps), q), q, r) ::
              IdSequence.Nth(FirstId([r]), 0) == op.pid
  {
    op := OpId(1, q);
    steps := RemovedRun(c, q, msg);
    RemovedLeaves(c, steps, Final(c, steps), op, msg);
    NothingLeft(q, op);
  }

  lemma NothingLeft(q: uint64, op: OpId)
    requires op == OpId(1, q)
    ensures op in DequeuesAfter(map[], {op}, map[], q)
    ensures forall r | Recovery.Passed(map[], {op}, map[], q, r) :: IdSequence.Nth(FirstId([r]), 0) == 1
  {
    forall r | Recovery.Passed(map[], {op}, map[], q, r) ensures IdSequence.Nth(FirstId([r]), 0) == 1 {
      assert r.top == 0;
      assert Tops([r]) == [0];
      assert IdSequence.Fold(0, [0]) == IdSequence.Fold(0, []);
    }
  }

  // ---------------------------------------------------------------------
  // A deletion that does not wait

  /** Whatever one pass gives, these enqueues are scheduled again, and the watermark
      is set beyond them. */
  ghost predicate Overtaken(ae: Enqueues, ad: set<OpId>, db: map<uint64, Msg>, n: uint64, q: uint64) {
    && (forall p: uint64 | 1 <= p < n :: OpId(p, q) in EnqueuesAfter(ae, ad, db, q))
    && (forall r | Recovery.Passed(ae, ad, db, q, r) :: n <= LastPid([r]))
  }

  /** The last of several messages is put, the others are only logged. Recovery
      schedules these again, and sets the watermark beyond them: deletions do not
      wait for their puts. */
  lemma EarlyWatermark(c: Config, n: uint64, q: uint64, msg: Msg) returns (steps: seq<Step>)
    requires c.workers >= 1 && q != 0 && 2 <= n < TWO_31 - 1 && !msg.transient
    ensures IsRun(c, steps)
    ensures Overtaken(PE(Final(c, steps)), PD(Final(c, steps)), DB(Final(c, steps), q), n, q)
  {
    steps := LoggedRun(c, n, q, msg);
    steps := PutNext(c, steps, n, 0, n, q, msg);
    LeftByPut(c, steps, n, q, msg);
    AllOvertaken(PE(Final(c, steps)), DB(Final(c, steps), q), n, q, msg);
  }

  /** What the crash leaves. */
  lemma LeftByPut(c: Config, steps: seq<Step>, n: uint64, q: uint64, msg: Msg)
    requires IsRun(c, steps) && RowPut(Final(c, steps), n, 0, n, q, msg) && Final(c, steps).enq.cleaner.Resting?
    ensures var s := Final(c, steps);
            && PE(s).Keys == UpTo(n, q) && (forall o | o in PE(s) :: PE(s)[o] == msg)
            && PD(s) == {} && DB(s, q) == map[n := msg]
  {
    HistoryOfPut(c, steps, n, 0, q, msg);
    LogIsValid(c, steps);
    PendingAtRest(Final(c, steps).enq, n, q, msg);
    OnlyLastInPlace(c, steps, n, q, msg);
  }

  lemma AllOvertaken(ae: Enqueues, db: map<uint64, Msg>, n: uint64, q: uint64, msg: Msg)
    requires ae.Keys == UpTo(n, q) && (forall o | o in ae :: ae[o] == msg) && !msg.transient && db == map[n := msg]
    ensures Overtaken(ae, {}, db, n, q)
  {
    forall p: uint64 | 1 <= p < n ensures OpId(p, q) in EnqueuesAfter(ae, {}, db, q) {
      NotCaught(ae, n, q, msg, p);
    }
    AllBeyond(ae, db, n, q, msg);
  }

  lemma AllBeyond(ae: Enqueues, db: map<uint64, Msg>, n: uint64, q: uint64, msg: Msg)
    requires db == map[n := msg] && !msg.transient
    ensures forall r | Recovery.Passed(ae, {}, db, q, r) :: n <= LastPid([r])
  {
    forall r | Recovery.Passed(ae, {}, db, q, r) ensures n <= LastPid([r]) {
      Beyond(db, r, n, msg);
    }
  }

  lemma Beyond(db: map<uint64, Msg>, r: Pass, n: uint64, msg: Msg)
    requires IsLast(db, r.last) && db == map[n := msg] && !msg.transient
    ensures n <= LastPid([r])
  {
    LastOfOne(r);
    assert n in db && !db[n].transient;
  }

  lemma OnlyLastInPlace(c: Config, steps: seq<Step>, n: uint64, q: uint64, msg: Msg)
    requires IsRun(c, steps) && RowPut(Final(c, steps), n, 0, n, q, msg)
    ensures DB(Final(c, steps), q) == map[n := msg]
  {
    RunKeeps(c, steps);
    PlacedInRow(c, Final(c, steps), n, q, msg);
  }

  lemma PlacedInRow(c: Config, s: State, n: uint64, q: uint64, msg: Msg)
    requires OpsOk(c, s) && DomainOk(s) && RowPut(s, n, 0, n, q, msg)
    ensures DB(s, q) == map[n := msg]
  {
    forall p: uint64 ensures OpId(p, q) in s.journal <==> p == n {
      if OpId(p, q) in s.ops {
        Placed(c, s, OpId(p, q), msg);
      }
    }
    Placed(c, s, OpId(n, q), msg);
  }

  lemma Placed(c: Config, s: State, o: OpId, msg: Msg)
    requires OpsOk(c, s) && o in s.ops && (s.ops[o] == LoggedOp(msg) || s.ops[o] == PutOp(msg))
    ensures o in s.journal <==> s.ops[o] == PutOp(msg)
    ensures o in s.journal ==> s.journal[o] == msg
  {
    assert OpOk(c, ViewOf(s, o));
  }

  lemma NotCaught(ae: Enqueues, n: uint64, q: uint64, msg: Msg, p: uint64)
    requires ae.Keys == UpTo(n, q) && (forall o | o in ae :: ae[o] == msg) && !msg.transient && 1 <= p < n
    ensures OpId(p, q) in EnqueuesAfter(ae, {}, map[n := msg], q)
  {
  }

  lemma LastOfOne(r: Pass)
    ensures LastPid([r]) == r.last
  {
    assert Lasts([r]) == [r.last];
    assert IdSequence.Fold(0, [r.last]) == IdSequence.Fold(IdSequence.SerialMax(0, r.last), []);
  }
}
