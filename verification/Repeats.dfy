/** Runs in which ten look-ups are not enough. */
module Repeats {
  import opened Records
  import opened Watermark
  import opened Protocol
  import opened ProtocolInvariant
  import opened Recovery
  import opened Crash
  import opened Checks
  import OperationLog

  ghost function UpTo(n: uint64, q: uint64): set<OpId> {
    set p: uint64 | 1 <= p <= n :: OpId(p, q)
  }

  lemma {:induction false} UpToSize(n: uint64, q: uint64)
    ensures |UpTo(n, q)| == n
    decreases n
  {
    if n > 0 {
      UpToSize(n - 1, q);
      assert UpTo(n, q) == UpTo(n - 1, q) + {OpId(n, q)};
    } else {
      assert UpTo(n, q) == {};
    }
  }

  function LoggedOp(msg: Msg): Op {
    Op(msg, false, Logged, NoTask, false, NotBegun, false, NoDelete)
  }

  function PutOp(msg: Msg): Op {
    Op(msg, false, Scheduled, Stored, true, NotBegun, false, NoDelete)
  }

  function StoredOp(msg: Msg): Op {
    Op(msg, false, Scheduled, Finished, true, NotBegun, false, NoDelete)
  }

  function Tasks(k: uint64, q: uint64): seq<OpId> {
    seq(k, i requires 0 <= i < k => OpId(i + 1, q))
  }

  /** Messages 1 to `n` are enqueued on one queue as far as their start record;
      the first `k` of them are stored. */
  ghost predicate Row(s: State, n: uint64, k: uint64, q: uint64, msg: Msg) {
    && k <= n && s.ops.Keys == UpTo(n, q)
    && (forall o | o in s.ops :: s.ops[o] == if o.pid <= k then StoredOp(msg) else LoggedOp(msg))
    && s.nextId == n + 1 && s.mark == Mark(k, {}) && s.dups == {} && s.pends == {}
    && s.deletes == [] && s.deleting == {}
    && s.fifo == [] && s.running == {} && s.scheduled == Tasks(k, q) && s.deq == OperationLog.Empty()
  }

  /** ... and message `j` beyond them is put and its completion not logged. */
  ghost predicate RowPut(s: State, n: uint64, k: uint64, j: uint64, q: uint64, msg: Msg) {
    && k < j <= n && s.ops.Keys == UpTo(n, q)
    && (forall o | o in s.ops :: s.ops[o] ==
          if o.pid <= k then StoredOp(msg) else if o.pid == j then PutOp(msg) else LoggedOp(msg))
    && s.nextId == n + 1 && s.mark == Mark(k, {}) && s.dups == {} && s.pends == {}
    && s.deletes == [] && s.deleting == {}
    && s.fifo == [] && s.running == {OpId(j, q)} && s.scheduled == Tasks(k, q) + [OpId(j, q)]
    && s.deq == OperationLog.Empty()
  }

  /** The log holds nothing but starts, in its first file. */
  ghost predicate OnlyStarts(l: Log<Msg>) {
    l.cleaner.Resting? && !l.second && l.file1 == [] && forall r | r in l.file0 :: r.Start?
  }

  lemma {:induction false} LoggedRun(c: Config, n: uint64, q: uint64, msg: Msg) returns (steps: seq<Step>)
    requires q != 0 && n < TWO_31 - 1
    ensures IsRun(c, steps) && Row(Final(c, steps), n, 0, q, msg) && OnlyStarts(Final(c, steps).enq)
    decreases n
  {
    if n == 0 {
      steps := [];
      assert UpTo(0, q) == {};
    } else {
      steps := LoggedRun(c, n - 1, q, msg);
      steps := OneMore(c, steps, n, q, msg);
    }
  }

  lemma OneMore(c: Config, steps: seq<Step>, n: uint64, q: uint64, msg: Msg) returns (more: seq<Step>)
    requires q != 0 && 1 <= n < TWO_31 - 1
    requires IsRun(c, steps) && Row(Final(c, steps), n - 1, 0, q, msg) && OnlyStarts(Final(c, steps).enq)
    ensures IsRun(c, more) && Row(Final(c, more), n, 0, q, msg) && OnlyStarts(Final(c, more).enq)
  {
    var op := OpId(n, q);
    assert UpTo(n, q) == UpTo(n - 1, q) + {op};
    more := NewSteps(c, steps, Final(c, steps), op, msg);
    assert forall r | r in Final(c, more).enq.file0 :: r.Start?;
  }

  lemma NewSteps(c: Config, steps: seq<Step>, s: State, op: OpId, msg: Msg) returns (more: seq<Step>)
    requires op.qid != 0 && op.pid == s.nextId && s.nextId < TWO_31 && IsRun(c, steps) && s == Final(c, steps)
    ensures IsRun(c, more)
    ensures Final(c, more) ==
            s.(ops := s.ops[op := LoggedOp(msg)], nextId := s.nextId + 1, first := s.first[op.pid := op.qid],
               enq := OperationLog.Start(s.enq, op, msg))
  {
    more := Then(c, steps, Enqueue(EnqNew(op.qid, msg)));
    more := Then(c, more, Enqueue(EnqLog(op)));
  }

  /** One logged message goes through the pool up to its put. */
  ghost predicate Puts(s: State, s': State, op: OpId) {
    && op in s.ops && op !in s.pends
    && s'.ops == s.ops[op := PutOp(s.ops[op].msg)]
    && s'.nextId == s.nextId && s'.mark == s.mark && s'.dups == s.dups && s'.pends == s.pends
    && s'.enq == s.enq && s'.deq == s.deq && s'.deletes == s.deletes && s'.deleting == s.deleting
    && s'.fifo == [] && s'.running == {op} && s'.scheduled == s.scheduled + [op]
  }

  function QueuedOp(msg: Msg): Op {
    Op(msg, false, Scheduled, Queued, false, NotBegun, false, NoDelete)
  }

  lemma QueueSteps(c: Config, steps: seq<Step>, s: State, op: OpId) returns (more: seq<Step>)
    requires IsRun(c, steps) && s == Final(c, steps)
    requires op in s.ops && s.ops[op] == LoggedOp(s.ops[op].msg) && s.fifo == []
    ensures IsRun(c, more)
    ensures Final(c, more) ==
            s.(ops := s.ops[op := QueuedOp(s.ops[op].msg)], pends := if c.smart then s.pends + {op} else s.pends,
               fifo := [op], scheduled := s.scheduled + [op])
  {
    more := Then(c, steps, Enqueue(EnqWill(op)));
    more := Then(c, more, Enqueue(EnqSchedule(op)));
    assert s.fifo + [op] == [op];
  }

  lemma TaskSteps(c: Config, steps: seq<Step>, s: State, op: OpId) returns (more: seq<Step>)
    requires c.workers >= 1 && IsRun(c, steps) && s == Final(c, steps) && op in s.ops
    requires s.ops[op] == QueuedOp(s.ops[op].msg) && s.fifo == [op] && s.running == {} && (c.smart ==> op in s.pends)
    ensures IsRun(c, more)
    ensures var j := Final(c, more).journal;
            Final(c, more) ==
            s.(ops := s.ops[op := PutOp(s.ops[op].msg)], pends := if c.smart then s.pends - {op} else s.pends,
               fifo := [], running := {op}, journal := j)
  {
    more := Then(c, steps, Store(StoreTake));
    assert s.fifo[1..] == [];
    more := Then(c, more, Store(StoreCheck(op)));
    more := Then(c, more, Store(StorePut(op)));
  }

  lemma PutSteps(c: Config, steps: seq<Step>, op: OpId) returns (more: seq<Step>)
    requires c.workers >= 1 && IsRun(c, steps)
    requires var s := Final(c, steps);
             op in s.ops && s.ops[op] == LoggedOp(s.ops[op].msg) && op !in s.pends && s.fifo == [] && s.running == {}
    ensures IsRun(c, more) && Puts(Final(c, steps), Final(c, more), op)
  {
    more := QueueSteps(c, steps, Final(c, steps), op);
    more := TaskSteps(c, more, Final(c, more), op);
  }

  lemma PutInRow(s: State, s': State, n: uint64, k: uint64, j: uint64, q: uint64, msg: Msg)
    requires k < j <= n && Row(s, n, k, q, msg) && Puts(s, s', OpId(j, q))
    ensures RowPut(s', n, k, j, q, msg)
  {
  }

  /** Message `j` is scheduled and put. */
  lemma PutNext(c: Config, steps: seq<Step>, n: uint64, k: uint64, j: uint64, q: uint64, msg: Msg)
    returns (more: seq<Step>)
    requires c.workers >= 1 && k < j <= n && IsRun(c, steps) && Row(Final(c, steps), n, k, q, msg)
    ensures IsRun(c, more) && RowPut(Final(c, more), n, k, j, q, msg) && Final(c, more).enq == Final(c, steps).enq
  {
    more := PutSteps(c, steps, OpId(j, q));
    PutInRow(Final(c, steps), Final(c, more), n, k, j, q, msg);
  }

  /** The rest of its store task, if its id is the next one. */
  ghost predicate Finishes(s: State, s': State, op: OpId) {
    && op in s.ops
    && s'.ops == s.ops[op := StoredOp(s.ops[op].msg)]
    && s'.nextId == s.nextId && s'.mark == Mark(op.pid, {}) && s'.dups == s.dups && s'.pends == s.pends
    && s'.enq == OperationLog.Complete(s.enq, op) && s'.deq == s.deq
    && s'.deletes == s.deletes && s'.deleting == s.deleting
    && s'.fifo == s.fifo && s'.running == s.running - {op} && s'.scheduled == s.scheduled
  }

  lemma LogSteps(c: Config, steps: seq<Step>, s: State, op: OpId) returns (more: seq<Step>)
    requires IsRun(c, steps) && s == Final(c, steps) && op in s.ops
    requires s.ops[op] == PutOp(s.ops[op].msg) && op !in s.dups
    ensures IsRun(c, more)
    ensures Final(c, more) ==
            s.(ops := s.ops[op := s.ops[op].(store := MainPending)], enq := OperationLog.Complete(s.enq, op))
  {
    more := Then(c, steps, Store(StoreLog(op)));
    more := Then(c, more, AddPid(EraseDup(op)));
  }

  lemma MarkSteps(c: Config, steps: seq<Step>, s: State, op: OpId) returns (more: seq<Step>)
    requires IsRun(c, steps) && s == Final(c, steps) && op in s.ops && s.ops[op].store == MainPending
    requires op.pid >= 1 && s.mark == Mark(op.pid - 1, {})
    ensures IsRun(c, more)
    ensures Final(c, more) ==
            s.(ops := s.ops[op := s.ops[op].(store := Finished)], mark := Mark(op.pid, {}), added := s.added + {op.pid},
               running := s.running - {op}, asleepMain := {})
  {
    NextAdds(op.pid);
    more := Then(c, steps, AddPid(AddMain(op)));
    more := Then(c, more, AddPid(NotifyMain(op)));
  }

  lemma FinishSteps(c: Config, steps: seq<Step>, op: OpId) returns (more: seq<Step>)
    requires IsRun(c, steps) && op.pid >= 1
    requires var s := Final(c, steps);
             op in s.ops && s.ops[op] == PutOp(s.ops[op].msg) && op !in s.dups && s.mark == Mark(op.pid - 1, {})
    ensures IsRun(c, more) && Finishes(Final(c, steps), Final(c, more), op)
  {
    more := LogSteps(c, steps, Final(c, steps), op);
    more := MarkSteps(c, more, Final(c, more), op);
  }

  lemma NextAdds(pid: uint64)
    requires pid >= 1
    ensures Advances(Mark(pid - 1, {}), pid) && Add(Mark(pid - 1, {}), pid) == Mark(pid, {})
  {
  }

  lemma FinishInRow(s: State, s': State, n: uint64, k: uint64, q: uint64, msg: Msg)
    requires k < n && RowPut(s, n, k, k + 1, q, msg) && Finishes(s, s', OpId(k + 1, q))
    ensures Row(s', n, k + 1, q, msg)
  {
    assert Tasks(k + 1, q) == Tasks(k, q) + [OpId(k + 1, q)];
  }

  lemma FinishNext(c: Config, steps: seq<Step>, n: uint64, k: uint64, q: uint64, msg: Msg) returns (more: seq<Step>)
    requires k < n && IsRun(c, steps) && RowPut(Final(c, steps), n, k, k + 1, q, msg)
    ensures IsRun(c, more) && Row(Final(c, more), n, k + 1, q, msg)
    ensures Final(c, more).enq == OperationLog.Complete(Final(c, steps).enq, OpId(k + 1, q))
  {
    more := FinishSteps(c, steps, OpId(k + 1, q));
    FinishInRow(Final(c, steps), Final(c, more), n, k, q, msg);
  }

  // ---------------------------------------------------------------------
  // What the log holds

  ghost predicate History(l: Log<Msg>, n: uint64, k: uint64, q: uint64, msg: Msg) {
    && l.started.Keys == UpTo(n, q) && (forall o | o in l.started :: l.started[o] == msg)
    && l.completed == UpTo(k, q)
  }

  lemma OpHistory(c: Config, s: State, o: OpId, msg: Msg)
    requires OpsOk(c, s) && o in s.ops
    requires s.ops[o] == LoggedOp(msg) || s.ops[o] == PutOp(msg) || s.ops[o] == StoredOp(msg)
    ensures o in s.enq.started && s.enq.started[o] == msg
    ensures o in s.enq.completed <==> s.ops[o] == StoredOp(msg)
    ensures s.ops[o] == PutOp(msg) ==> o in s.journal
  {
    assert OpOk(c, ViewOf(s, o));
  }

  lemma RowHistory(c: Config, s: State, n: uint64, k: uint64, q: uint64, msg: Msg)
    requires OpsOk(c, s) && DomainOk(s) && Row(s, n, k, q, msg)
    ensures History(s.enq, n, k, q, msg)
  {
    forall o | o in s.ops
      ensures o in s.enq.started && s.enq.started[o] == msg && (o in s.enq.completed <==> o.pid <= k)
    {
      OpHistory(c, s, o, msg);
    }
  }

  lemma PutHistory(c: Config, s: State, n: uint64, k: uint64, j: uint64, q: uint64, msg: Msg)
    requires OpsOk(c, s) && DomainOk(s) && RowPut(s, n, k, j, q, msg)
    ensures History(s.enq, n, k, q, msg) && OpId(j, q) in s.journal
  {
    forall o | o in s.ops
      ensures o in s.enq.started && s.enq.started[o] == msg && (o in s.enq.completed <==> o.pid <= k)
    {
      OpHistory(c, s, o, msg);
    }
    assert OpId(j, q) in s.ops;
    OpHistory(c, s, OpId(j, q), msg);
  }

  /** With every one of more than ten messages pending and the last of them in the
      journal, this one is handed over twice. */
  lemma LastTwice(c: Config, steps: seq<Step>, s: State, n: uint64, q: uint64, msg: Msg)
    requires IsRun(c, steps) && s == Final(c, steps) && 10 < n && !msg.transient
    requires PE(s).Keys == UpTo(n, q) && (forall o | o in PE(s) :: PE(s)[o] == msg) && s.deq == OperationLog.Empty()
    requires OpId(n, q) in s.journal
    ensures HandedTwice(s, OpId(n, q))
  {
    assert PD(s) == {};
    TenBefore(PE(s), n, q, msg);
    HandedTwiceIff(c, steps, s, OpId(n, q));
  }

  lemma TenBefore(ae: Enqueues, n: uint64, q: uint64, msg: Msg)
    requires 10 < n && !msg.transient && ae.Keys == UpTo(n, q) && (forall o | o in ae :: ae[o] == msg)
    ensures OpId(n, q) in Kept(ae, {}) && |Before(Kept(ae, {}), OpId(n, q))| >= 10
  {
    assert Kept(ae, {}) == ae;
    assert Before(ae, OpId(n, q)) == UpTo(n - 1, q);
    UpToSize(n - 1, q);
  }

  // ---------------------------------------------------------------------
  // Out of order

  /** The callers schedule the last message first: one worker is enough. */
  lemma OutOfOrderRepeats(c: Config, n: uint64, q: uint64, msg: Msg) returns (steps: seq<Step>)
    requires c.workers >= 1 && q != 0 && 10 < n < TWO_31 - 1 && !msg.transient
    ensures IsRun(c, steps) && Final(c, steps).enq.cleaner.Resting? && HandedTwice(Final(c, steps), OpId(n, q))
  {
    steps := LoggedRun(c, n, q, msg);
    steps := PutNext(c, steps, n, 0, n, q, msg);
    HistoryOfPut(c, steps, n, 0, q, msg);
    LogIsValid(c, steps);
    PendingAtRest(Final(c, steps).enq, n, q, msg);
    LastTwice(c, steps, Final(c, steps), n, q, msg);
  }

  lemma PendingAtRest(l: Log<Msg>, n: uint64, q: uint64, msg: Msg)
    requires OperationLog.Valid(l) && l.cleaner.Resting? && History(l, n, 0, q, msg)
    ensures l.Recovered().Keys == UpTo(n, q) && (forall o | o in l.Recovered() :: l.Recovered()[o] == msg)
  {
    assert UpTo(0, q) == {};
    OperationLog.RecoveryIsExact(l);
  }

  // ---------------------------------------------------------------------
  // In order, with the cleaner holding back

  lemma RotateNow(c: Config, steps: seq<Step>, n: uint64, q: uint64, msg: Msg) returns (more: seq<Step>)
    requires IsRun(c, steps) && Row(Final(c, steps), n, 0, q, msg) && OnlyStarts(Final(c, steps).enq)
    ensures IsRun(c, more) && Row(Final(c, more), n, 0, q, msg) && OperationLog.Parted(Final(c, more).enq)
  {
    var l := Final(c, steps).enq;
    LogOfRow(c, steps, n, 0, q, msg);
    PartedNow(l, n, q, msg);
    more := Then(c, steps, CleanEnq(OperationLog.CleanRotate));
  }

  lemma LogOfRow(c: Config, steps: seq<Step>, n: uint64, k: uint64, q: uint64, msg: Msg)
    requires IsRun(c, steps) && Row(Final(c, steps), n, k, q, msg)
    ensures History(Final(c, steps).enq, n, k, q, msg) && OperationLog.Valid(Final(c, steps).enq)
  {
    RunKeeps(c, steps);
    RowHistory(c, Final(c, steps), n, k, q, msg);
  }

  lemma PartedNow(l: Log<Msg>, n: uint64, q: uint64, msg: Msg)
    requires OperationLog.Valid(l) && OnlyStarts(l) && History(l, n, 0, q, msg)
    ensures OperationLog.Parted(OperationLog.Rotate(l))
  {
    OperationLog.RotateKeeps(l);
    assert UpTo(0, q) == {};
    assert l.All() == l.file0;
  }

  lemma PartedStays(l: Log<Msg>, op: OpId)
    requires OperationLog.Parted(l) && op in l.started
    ensures OperationLog.Parted(OperationLog.Complete(l, op))
  {
    OperationLog.CompleteKeeps(l, op);
    assert OperationLog.Complete(l, op).Idle() == l.Idle();
  }

  lemma {:induction false} StoreAll(c: Config, steps: seq<Step>, n: uint64, k: uint64, q: uint64, msg: Msg)
    returns (more: seq<Step>)
    requires c.workers >= 1 && k <= n && IsRun(c, steps)
    requires Row(Final(c, steps), n, 0, q, msg) && OperationLog.Parted(Final(c, steps).enq)
    ensures IsRun(c, more) && Row(Final(c, more), n, k, q, msg) && OperationLog.Parted(Final(c, more).enq)
    decreases k
  {
    if k == 0 {
      more := steps;
    } else {
      more := StoreAll(c, steps, n, k - 1, q, msg);
      PartedNext(c, more, n, k, q, msg);
      more := StoreNext(c, more, n, k, q, msg);
    }
  }

  lemma StoreNext(c: Config, steps: seq<Step>, n: uint64, k: uint64, q: uint64, msg: Msg) returns (more: seq<Step>)
    requires c.workers >= 1 && 1 <= k <= n && IsRun(c, steps) && Row(Final(c, steps), n, k - 1, q, msg)
    ensures IsRun(c, more) && Row(Final(c, more), n, k, q, msg)
    ensures Final(c, more).enq == OperationLog.Complete(Final(c, steps).enq, OpId(k, q))
  {
    more := PutNext(c, steps, n, k - 1, k, q, msg);
    more := FinishNext(c, more, n, k - 1, q, msg);
  }

  lemma PartedNext(c: Config, steps: seq<Step>, n: uint64, k: uint64, q: uint64, msg: Msg)
    requires 1 <= k <= n && IsRun(c, steps)
    requires Row(Final(c, steps), n, k - 1, q, msg) && OperationLog.Parted(Final(c, steps).enq)
    ensures OperationLog.Parted(OperationLog.Complete(Final(c, steps).enq, OpId(k, q)))
  {
    LogOfRow(c, steps, n, k - 1, q, msg);
    PartedStays(Final(c, steps).enq, OpId(k, q));
  }

  /** Two turns of the cleaner, up to the point where the completes are dropped. */
  lemma CleanTwice(c: Config, steps: seq<Step>, s: State) returns (more: seq<Step>)
    requires IsRun(c, steps) && s == Final(c, steps) && OperationLog.Parted(s.enq)
    ensures IsRun(c, more) && Final(c, more) == s.(enq := Final(c, more).enq)
    ensures Final(c, more).enq.Window() == s.enq.completed && PE(Final(c, more)) == s.enq.started
  {
    OperationLog.WindowOpens(s.enq);
    more := Then(c, steps, CleanEnq(OperationLog.CleanRemove));
    more := Then(c, more, CleanEnq(OperationLog.CleanRename));
    more := Then(c, more, CleanEnq(OperationLog.CleanRest));
    more := Then(c, more, CleanEnq(OperationLog.CleanRotate));
    more := Then(c, more, CleanEnq(OperationLog.CleanRemove));
    more := Then(c, more, CleanEnq(OperationLog.CleanRename));
  }

  lemma RowInOrder(s: State, n: uint64, k: uint64, q: uint64, msg: Msg)
    requires RowPut(s, n, k, n, q, msg) && n == k + 1
    ensures InOrder(s, q)
  {
  }

  lemma StoredRun(c: Config, n: uint64, q: uint64, msg: Msg) returns (steps: seq<Step>)
    requires c.workers >= 1 && q != 0 && 1 <= n < TWO_31 - 1
    ensures IsRun(c, steps) && RowPut(Final(c, steps), n, n - 1, n, q, msg) && OperationLog.Parted(Final(c, steps).enq)
  {
    steps := LoggedRun(c, n, q, msg);
    steps := RotateNow(c, steps, n, q, msg);
    steps := StoreAll(c, steps, n, n - 1, q, msg);
    steps := PutNext(c, steps, n, n - 1, n, q, msg);
  }

  /** Tasks in the order of the ids and one worker: every message but the last is
      stored and its completion logged, but the cleaner has dropped the records. */
  lemma InOrderRepeats(c: Config, n: uint64, q: uint64, msg: Msg) returns (steps: seq<Step>)
    requires c.workers >= 1 && q != 0 && 10 < n < TWO_31 - 1 && !msg.transient
    ensures IsRun(c, steps) && InOrder(Final(c, steps), q) && HeldBack(Final(c, steps), q) == UpTo(n - 1, q)
    ensures HandedTwice(Final(c, steps), OpId(n, q))
  {
    var stored := StoredRun(c, n, q, msg);
    HistoryOfPut(c, stored, n, n - 1, q, msg);
    steps := CleanTwice(c, stored, Final(c, stored));
    HeldInRow(Final(c, stored), Final(c, steps), n, q, msg);
    LastTwice(c, steps, Final(c, steps), n, q, msg);
  }

  lemma HeldInRow(s: State, s': State, n: uint64, q: uint64, msg: Msg)
    requires n >= 1 && RowPut(s, n, n - 1, n, q, msg) && History(s.enq, n, n - 1, q, msg)
    requires s' == s.(enq := s'.enq) && s'.enq.Window() == s.enq.completed
    ensures InOrder(s', q) && HeldBack(s', q) == UpTo(n - 1, q)
  {
    RowInOrder(s, n, n - 1, q, msg);
  }

  lemma HistoryOfPut(c: Config, steps: seq<Step>, n: uint64, k: uint64, q: uint64, msg: Msg)
    requires IsRun(c, steps) && RowPut(Final(c, steps), n, k, n, q, msg)
    ensures History(Final(c, steps).enq, n, k, q, msg) && OpId(n, q) in Final(c, steps).journal
  {
    RunKeeps(c, steps);
    PutHistory(c, Final(c, steps), n, k, n, q, msg);
  }
}
