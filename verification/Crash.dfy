/** A crash after any run of the protocol, followed by recovery: which messages
    the broker gets back. */
module Crash {
  import opened Records
  import opened Protocol
  import opened ProtocolInvariant
  import opened Once
  import OperationLog
  import Recovery
  import opened RecoveryTheorems

  /** What the crash leaves: the pending enqueues and dequeues that replaying
      the two logs gives, and the messages each journal holds. */
  ghost function PE(s: State): Recovery.Enqueues {
    s.enq.Recovered()
  }

  ghost function PD(s: State): set<OpId> {
    s.deq.Recovered().Keys
  }

  ghost function DB(s: State, q: uint64): map<uint64, Msg> {
    map p: uint64 | 0 <= p < TWO_64 && OpId(p, q) in s.journal :: s.journal[OpId(p, q)]
  }

  /** The broker gets the message back. */
  ghost predicate Returns(s: State, op: OpId) {
    op.pid in Delivered(DB(s, op.qid), PE(s), PD(s), op.qid)
  }

  /** ... and whatever it gets under this id is this message. */
  ghost predicate ReturnsOnly(s: State, op: OpId, msg: Msg) {
    var db, ae, ad, q := DB(s, op.qid), PE(s), PD(s), op.qid;
    var journal, log := Recovery.FromJournal(Recovery.Uncancelled(ae, ad), db, q),
                        Recovery.OnQueue(Recovery.EnqueuesAfter(ae, ad, db, q), q);
    && (op.pid in journal ==> journal[op.pid] == msg)
    && (op.pid in log ==> log[op.pid] == msg)
  }

  // ---------------------------------------------------------------------
  // One operation

  /** The message is in its journal. */
  predicate InPlace(o: Op) {
    PastPut(o.store) && o.exec && o.del != Deleted && o.del != DelFinished
  }

  /** The enqueue is pending: its start is in a file that recovery reads, and its
      complete record is not written or was dropped by the cleaner. */
  ghost predicate EnqueuePending(s: State, op: OpId)
    requires op in s.ops
  {
    var o := s.ops[op];
    && o.enq != Ided && op !in s.enq.Gap()
    && (PastLog(o.store) || (o.cancelled && o.deq == Dequeued) ==> op in s.enq.Window())
  }

  /** The same for the dequeue. */
  ghost predicate DequeuePending(s: State, op: OpId)
    requires op in s.ops
  {
    var o := s.ops[op];
    && !o.cancelled && (o.deq == StartLogged || o.deq == Dequeued)
    && op !in s.deq.Gap() && (o.del == DelFinished ==> op in s.deq.Window())
  }

  /** What replaying the logs says of one operation. */
  ghost predicate Replayed(s: State, op: OpId)
    requires op in s.ops
  {
    && (op in PE(s) ==> EnqueuePending(s, op) && PE(s)[op] == s.ops[op].msg)
    && (EnqueuePending(s, op) && !Twice(s.ops[op]) ==> op in PE(s))
    && (op in PE(s) <==> OperationLog.Finds(s.enq, s.enq.Disk(), op))
    && (op in PD(s) <==> DequeuePending(s, op))
  }

  lemma EnqueueReplayed(c: Config, s: State, op: OpId)
    requires op in s.ops && OpOk(c, ViewOf(s, op)) && OperationLog.Valid(s.enq) && OnceOk(s)
    ensures op in PE(s) ==> EnqueuePending(s, op) && PE(s)[op] == s.ops[op].msg
    ensures EnqueuePending(s, op) && !Twice(s.ops[op]) ==> op in PE(s)
    ensures op in PE(s) <==> OperationLog.Finds(s.enq, s.enq.Disk(), op)
  {
    OperationLog.RecoveryIsBounded(s.enq);
    OperationLog.RecoveryByFiles(s.enq, op);
    if op in s.enq.started && !Twice(s.ops[op]) {
      OperationLog.SingleIsExact(s.enq, op);
    }
  }

  lemma DequeueReplayed(c: Config, s: State, op: OpId)
    requires op in s.ops && OpOk(c, ViewOf(s, op)) && OperationLog.Valid(s.deq) && OnceOk(s)
    ensures op in PD(s) <==> DequeuePending(s, op)
  {
    OperationLog.RecoveryIsBounded(s.deq);
    if op in s.deq.started {
      OperationLog.SingleIsExact(s.deq, op);
    }
  }

  /** What the reconciliation makes of the journal and the two logs. */
  ghost predicate Reconciled(s: State, op: OpId) {
    if op in PD(s) then op in s.journal && op in PE(s) else op in s.journal || op in PE(s)
  }

  /** The reconciliation formula for one operation. */
  lemma ReturnsIff(c: Config, s: State, op: OpId)
    requires op in s.ops && OpOk(c, ViewOf(s, op)) && Replayed(s, op) && !s.ops[op].msg.transient
    ensures Returns(s, op) <==> Reconciled(s, op)
    ensures ReturnsOnly(s, op, s.ops[op].msg)
  {
    var db, ae, ad, q := DB(s, op.qid), PE(s), PD(s), op.qid;
    assert op == OpId(op.pid, q);
    assert op.pid in db <==> op in s.journal;
    InSets(db, ae, ad, q, op.pid);
  }

  /** A transient message never comes back. */
  lemma TransientIsGone(c: Config, s: State, op: OpId)
    requires op in s.ops && OpOk(c, ViewOf(s, op)) && Replayed(s, op) && s.ops[op].msg.transient
    ensures !Returns(s, op)
  {
    var db, ae, ad, q := DB(s, op.qid), PE(s), PD(s), op.qid;
    assert op == OpId(op.pid, q);
    InSets(db, ae, ad, q, op.pid);
  }

  /** The cleaner of the enqueue log has removed the file with the start of this
      enqueue and not yet renamed the new one, and the message is not in the
      journal. */
  ghost predicate Forgotten(s: State, op: OpId)
    requires op in s.ops
  {
    op in s.enq.Gap() && !PastPut(s.ops[op].store)
  }

  /** The ways in which a message that was dequeued comes back: the crash fell
      between the journal put and the enqueue-complete record; the cleaner of the
      enqueue log had dropped that record and not yet written it again, and the
      deletion has not run or its own record is not in the way; the cleaner of
      the dequeue log had removed the file with the start of the dequeue and not
      yet renamed the new one. A message whose enqueue was cancelled comes back
      from the window only; if two complete records were written of it, when its
      start is in one of the two log files and neither of these records is. */
  ghost predicate InDoubt(s: State, op: OpId)
    requires op in s.ops
  {
    var o := s.ops[op];
    if o.cancelled && Twice(o) then OperationLog.Finds(s.enq, s.enq.Disk(), op)
    else if o.cancelled then op in s.enq.Window() && op !in s.enq.Gap()
    else
      || (o.store == Stored && op !in s.enq.Gap())
      || (op in s.enq.Window() && op !in s.enq.Gap() && o.del != Deleted && op !in s.deq.Window())
      || (op in s.deq.Gap() && (InPlace(o) || EnqueuePending(s, op)))
  }

  /** Which messages come back, by how far enqueue and dequeue have come. */
  ghost predicate Expected(s: State, op: OpId)
    requires op in s.ops
  {
    match s.ops[op].deq
    case NotBegun => s.ops[op].enq != Ided && !Forgotten(s, op)
    case Starting => !Forgotten(s, op)
    case Cancelling => EnqueuePending(s, op)
    case _ => InDoubt(s, op)
  }

  lemma InDoubtIff(c: Config, s: State, op: OpId)
    requires op in s.ops && OpOk(c, ViewOf(s, op)) && Replayed(s, op) && !s.ops[op].cancelled
    requires s.ops[op].deq == StartLogged || s.ops[op].deq == Dequeued
    requires s.enq.Window() <= s.enq.completed && s.deq.Window() <= s.deq.completed
    ensures Reconciled(s, op) <==> InDoubt(s, op)
  {
    assert op in s.journal <==> InPlace(s.ops[op]);
  }

  lemma CancelledIff(c: Config, s: State, op: OpId)
    requires op in s.ops && OpOk(c, ViewOf(s, op)) && Replayed(s, op) && s.ops[op].cancelled
    requires s.enq.Window() <= s.enq.completed
    ensures Reconciled(s, op) <==> Expected(s, op)
  {
    assert op in s.journal <==> InPlace(s.ops[op]);
  }

  lemma ReturnsAsExpected(c: Config, s: State, op: OpId)
    requires op in s.ops && OpOk(c, ViewOf(s, op)) && Replayed(s, op) && !s.ops[op].msg.transient
    requires s.enq.Window() <= s.enq.completed && s.deq.Window() <= s.deq.completed
    ensures Returns(s, op) <==> Expected(s, op)
  {
    ReturnsIff(c, s, op);
    if s.ops[op].cancelled {
      CancelledIff(c, s, op);
    } else if s.ops[op].deq == StartLogged || s.ops[op].deq == Dequeued {
      InDoubtIff(c, s, op);
    } else {
      assert op in s.journal <==> InPlace(s.ops[op]);
    }
  }

  // ---------------------------------------------------------------------
  // Whole runs

  lemma AfterRun(c: Config, steps: seq<Step>, op: OpId)
    requires IsRun(c, steps) && op in Final(c, steps).ops
    ensures OpOk(c, ViewOf(Final(c, steps), op)) && Replayed(Final(c, steps), op)
    ensures Final(c, steps).enq.Window() <= Final(c, steps).enq.completed
    ensures Final(c, steps).deq.Window() <= Final(c, steps).deq.completed
  {
    RunKeeps(c, steps);
    RunOnce(c, steps);
    EnqueueReplayed(c, Final(c, steps), op);
    DequeueReplayed(c, Final(c, steps), op);
  }

  /** Whatever the interleaving and wherever the crash falls, exactly the
      expected messages are handed to the broker again, unchanged. */
  lemma CrashIsExact(c: Config, steps: seq<Step>, s: State, op: OpId)
    requires IsRun(c, steps) && s == Final(c, steps) && op in s.ops
    ensures Returns(s, op) <==> !s.ops[op].msg.transient && Expected(s, op)
    ensures Returns(s, op) ==> ReturnsOnly(s, op, s.ops[op].msg)
  {
    AfterRun(c, steps, op);
    if s.ops[op].msg.transient {
      TransientIsGone(c, s, op);
    } else {
      ReturnsAsExpected(c, s, op);
      ReturnsIff(c, s, op);
    }
  }

  /** No loss: a message whose enqueue has been logged and whose dequeue has not
      begun comes back, unless it is forgotten, and then it does not. */
  lemma NoLossIff(c: Config, steps: seq<Step>, s: State, op: OpId)
    requires IsRun(c, steps) && s == Final(c, steps) && op in s.ops
    requires s.ops[op].enq != Ided && s.ops[op].deq == NotBegun && !s.ops[op].msg.transient
    ensures Returns(s, op) <==> !Forgotten(s, op)
    ensures Returns(s, op) ==> ReturnsOnly(s, op, s.ops[op].msg)
    ensures !s.enq.cleaner.Removed? ==> Returns(s, op)
  {
    CrashIsExact(c, steps, s, op);
  }

  /** Bounded redelivery: when a message whose dequeue has returned comes back. */
  lemma RedeliveryIff(c: Config, steps: seq<Step>, s: State, op: OpId)
    requires IsRun(c, steps) && s == Final(c, steps) && op in s.ops
    requires s.ops[op].deq == Dequeued && !s.ops[op].msg.transient
    ensures Returns(s, op) <==> InDoubt(s, op)
    ensures op in s.enq.completed && op !in s.enq.Window() && !s.deq.cleaner.Removed? ==> !Returns(s, op)
  {
    CrashIsExact(c, steps, s, op);
    AfterRun(c, steps, op);
  }

  /** Nothing is invented: what the broker gets was enqueued on that queue. */
  lemma NothingInvented(c: Config, steps: seq<Step>, s: State, op: OpId)
    requires IsRun(c, steps) && s == Final(c, steps) && Returns(s, op)
    ensures op in s.ops && s.ops[op].enq != Ided && ReturnsOnly(s, op, s.ops[op].msg)
  {
    RunKeeps(c, steps);
    InSets(DB(s, op.qid), PE(s), PD(s), op.qid, op.pid);
    OperationLog.RecoveryIsBounded(s.enq);
    assert op == OpId(op.pid, op.qid);
    assert op in s.ops;
    CrashIsExact(c, steps, s, op);
    AfterRun(c, steps, op);
  }

  // ---------------------------------------------------------------------
  // A redelivery that does happen

  /** One message enqueued and taken by a worker that has just put it. */
  lemma PutRun(c: Config, op: OpId, msg: Msg) returns (steps: seq<Step>)
    requires c.workers >= 1 && op == OpId(1, 1)
    ensures IsRun(c, steps) && op in Final(c, steps).ops && op !in Final(c, steps).pends
    ensures Final(c, steps).ops[op] == Op(msg, false, Scheduled, Stored, true, NotBegun, false, NoDelete)
    ensures Final(c, steps).enq.cleaner.Resting? && Final(c, steps).deq == OperationLog.Empty()
  {
    steps := [];
    steps := Then(c, steps, Enqueue(EnqNew(1, msg)));
    steps := Then(c, steps, Enqueue(EnqLog(op)));
    steps := Then(c, steps, Enqueue(EnqWill(op)));
    steps := Then(c, steps, Enqueue(EnqSchedule(op)));
    assert Final(c, steps).fifo == [op];
    steps := Then(c, steps, Store(StoreTake));
    steps := Then(c, steps, Store(StoreCheck(op)));
    steps := Then(c, steps, Store(StorePut(op)));
  }

  /** A dequeue that returns before the enqueue-complete record is written does
      not keep the message from coming back, with any configuration. */
  lemma RedeliveryHappens(c: Config, msg: Msg) returns (steps: seq<Step>, op: OpId)
    requires c.workers >= 1 && !msg.transient
    ensures IsRun(c, steps) && op in Final(c, steps).ops
    ensures Final(c, steps).ops[op].deq == Dequeued && Returns(Final(c, steps), op)
  {
    op := OpId(1, 1);
    steps := PutRun(c, op, msg);
    steps := Then(c, steps, Dequeue(DeqCheck(op)));
    steps := Then(c, steps, Dequeue(DeqLogStart(op)));
    steps := Then(c, steps, Dequeue(DeqSchedule(op)));
    assert Final(c, steps).enq.Spare() == [];
    RedeliveryIff(c, steps, Final(c, steps), op);
  }

  /** One message stored, its completion logged, and dequeued; the cleaner of the
      dequeue log is ready to compact the file with the start. */
  lemma DequeuedRun(c: Config, op: OpId, msg: Msg) returns (steps: seq<Step>)
    requires c.workers >= 1 && op == OpId(1, 1)
    ensures IsRun(c, steps) && op in Final(c, steps).ops && Final(c, steps).enq.cleaner.Resting?
    ensures Final(c, steps).ops[op] == Op(msg, false, Scheduled, Recorded, true, Dequeued, false, DelQueued)
    ensures Final(c, steps).deq == OperationLog.Rotate(OperationLog.Start(OperationLog.Empty(), op, ()))
  {
    steps := PutRun(c, op, msg);
    steps := Then(c, steps, Store(StoreLog(op)));
    steps := Then(c, steps, Dequeue(DeqCheck(op)));
    steps := Then(c, steps, Dequeue(DeqLogStart(op)));
    steps := Then(c, steps, Dequeue(DeqSchedule(op)));
    steps := Then(c, steps, CleanDeq(OperationLog.CleanRotate));
  }

  /** The cleaner of the dequeue log opens the third window: put and completion are
      there, the start of the dequeue is only in the temporary file. */
  lemma DequeueCleanerRedelivers(c: Config, msg: Msg) returns (steps: seq<Step>, op: OpId)
    requires c.workers >= 1 && !msg.transient
    ensures IsRun(c, steps) && op in Final(c, steps).ops && Final(c, steps).enq.cleaner.Resting?
    ensures Final(c, steps).ops[op].deq == Dequeued && PastLog(Final(c, steps).ops[op].store)
    ensures Returns(Final(c, steps), op)
  {
    op := OpId(1, 1);
    steps := DequeuedRun(c, op, msg);
    StartInGap(op, (), Final(c, steps).deq);
    steps := Then(c, steps, CleanDeq(OperationLog.CleanRemove));
    GapRedelivers(c, steps, Final(c, steps), op);
  }

  lemma GapRedelivers(c: Config, steps: seq<Step>, s: State, op: OpId)
    requires IsRun(c, steps) && s == Final(c, steps) && op in s.ops && !s.ops[op].msg.transient
    requires s.ops[op].deq == Dequeued && !s.ops[op].cancelled && InPlace(s.ops[op]) && op in s.deq.Gap()
    ensures Returns(s, op)
  {
    RedeliveryIff(c, steps, s, op);
  }

  /** One message enqueued and dequeued again before any worker took it. */
  lemma CancelRun(c: Config, op: OpId, msg: Msg) returns (steps: seq<Step>)
    requires c.smart && op == OpId(1, 1)
    ensures IsRun(c, steps) && op in Final(c, steps).ops
    ensures Final(c, steps).ops[op].deq == Dequeued && Final(c, steps).ops[op].msg == msg
    ensures !PastLog(Final(c, steps).ops[op].store) && Final(c, steps).ops[op].cancelled
    ensures var empty: Log<Msg> := OperationLog.Empty();
            Final(c, steps).enq == OperationLog.Complete(OperationLog.Rotate(OperationLog.Start(empty, op, msg)), op)
  {
    steps := [];
    steps := Then(c, steps, Enqueue(EnqNew(1, msg)));
    steps := Then(c, steps, Enqueue(EnqLog(op)));
    steps := Then(c, steps, Enqueue(EnqWill(op)));
    steps := Then(c, steps, Enqueue(EnqSchedule(op)));
    steps := Then(c, steps, CleanEnq(OperationLog.CleanRotate));
    steps := Then(c, steps, Dequeue(DeqCheck(op)));
    steps := Then(c, steps, Dequeue(DeqCancelLog(op)));
  }

  /** The other way: with nothing left to do, two turns of the cleaner open the
      window for a message whose enqueue and dequeue are both complete. */
  lemma CleanerRedelivers(c: Config, msg: Msg) returns (steps: seq<Step>, op: OpId)
    requires c.smart && !msg.transient
    ensures IsRun(c, steps) && op in Final(c, steps).ops && op in Final(c, steps).enq.completed
    ensures Final(c, steps).ops[op].deq == Dequeued && Returns(Final(c, steps), op)
  {
    op := OpId(1, 1);
    steps := CancelRun(c, op, msg);
    LogIsValid(c, steps);
    WindowOpensFor(op, msg, Final(c, steps).enq);
    steps := Then(c, steps, CleanEnq(OperationLog.CleanRemove));
    steps := Then(c, steps, CleanEnq(OperationLog.CleanRename));
    steps := Then(c, steps, CleanEnq(OperationLog.CleanRest));
    steps := Then(c, steps, CleanEnq(OperationLog.CleanRotate));
    steps := Then(c, steps, CleanEnq(OperationLog.CleanRemove));
    steps := Then(c, steps, CleanEnq(OperationLog.CleanRename));
    WindowRedelivers(c, steps, Final(c, steps), op);
  }

  lemma WindowRedelivers(c: Config, steps: seq<Step>, s: State, op: OpId)
    requires IsRun(c, steps) && s == Final(c, steps) && op in s.ops && !s.ops[op].msg.transient
    requires s.ops[op].deq == Dequeued && s.ops[op].cancelled && !Twice(s.ops[op])
    requires op in s.enq.Window() && !s.enq.cleaner.Removed?
    ensures Returns(s, op)
  {
    assert s.enq.Gap() == {};
    RedeliveryIff(c, steps, s, op);
  }

  lemma LogIsValid(c: Config, steps: seq<Step>)
    requires IsRun(c, steps)
    ensures OperationLog.Valid(Final(c, steps).enq)
  {
    RunKeeps(c, steps);
  }

  lemma WindowOpensFor(op: OpId, msg: Msg, l: Log<Msg>)
    requires var empty: Log<Msg> := OperationLog.Empty();
             l == OperationLog.Complete(OperationLog.Rotate(OperationLog.Start(empty, op, msg)), op)
    requires OperationLog.Valid(l)
    ensures var r := OperationLog.Replace(l);
            var l' := OperationLog.Replace(OperationLog.Rotate(OperationLog.Rest(r)));
            r.cleaner == OperationLog.Relogging({}) && l'.Window() == {op} && !l'.cleaner.Removed?
  {
    OneIsParted(op, msg, l);
    assert l.completed == {op};
    OpenWindow(l);
  }

  lemma OpenWindow(l: Log<Msg>)
    requires OperationLog.Parted(l)
    ensures var r := OperationLog.Replace(l);
            var l' := OperationLog.Replace(OperationLog.Rotate(OperationLog.Rest(r)));
            r.cleaner == OperationLog.Relogging({}) && l'.Window() == l.completed && !l'.cleaner.Removed?
  {
    OperationLog.WindowOpens(l);
  }

  lemma OneIsParted(op: OpId, msg: Msg, l: Log<Msg>)
    requires l.Idle() == [Record.Start(op, msg)] && l.Active() == [Record.Complete(op)] && l.cleaner.Rotated?
    requires l.started == map[op := msg] && l.completed == {op} && OperationLog.Valid(l)
    ensures OperationLog.Parted(l)
  {
  }

  // ---------------------------------------------------------------------
  // A loss that does happen

  /** One message enqueued, with the cleaner ready to compact the file that holds
      its start. */
  lemma RotatedRun(c: Config, op: OpId, msg: Msg) returns (steps: seq<Step>)
    requires op == OpId(1, 1)
    ensures IsRun(c, steps) && op in Final(c, steps).ops
    ensures Final(c, steps).ops[op] == Op(msg, false, Scheduled, Queued, false, NotBegun, false, NoDelete)
    ensures var empty: Log<Msg> := OperationLog.Empty();
            Final(c, steps).enq == OperationLog.Rotate(OperationLog.Start(empty, op, msg))
  {
    steps := [];
    steps := Then(c, steps, Enqueue(EnqNew(1, msg)));
    steps := Then(c, steps, Enqueue(EnqLog(op)));
    steps := Then(c, steps, Enqueue(EnqWill(op)));
    steps := Then(c, steps, Enqueue(EnqSchedule(op)));
    steps := Then(c, steps, CleanEnq(OperationLog.CleanRotate));
  }

  /** Between the removal of the old log file and the renaming of the new one, a
      crash loses a message whose enqueue has returned. */
  lemma LossHappens(c: Config, msg: Msg) returns (steps: seq<Step>, op: OpId)
    requires !msg.transient
    ensures IsRun(c, steps) && op in Final(c, steps).ops
    ensures Final(c, steps).ops[op].enq == Scheduled && Final(c, steps).ops[op].deq == NotBegun
    ensures !Returns(Final(c, steps), op)
  {
    op := OpId(1, 1);
    steps := RotatedRun(c, op, msg);
    StartInGap(op, msg, Final(c, steps).enq);
    steps := Then(c, steps, CleanEnq(OperationLog.CleanRemove));
    NoLossIff(c, steps, Final(c, steps), op);
  }

  lemma StartInGap<P(!new)>(op: OpId, p: P, l: Log<P>)
    requires var empty: Log<P> := OperationLog.Empty(); l == OperationLog.Rotate(OperationLog.Start(empty, op, p))
    ensures op in OperationLog.Remove(l).Gap()
  {
    OperationLog.OneRecord(Record.Start(op, p));
    OperationLog.OneListed(op, p);
    assert l.Idle() == [Record.Start(op, p)];
    assert Record.Start(op, p) in OperationLog.Remove(l).Spare();
  }
}
