/** A second invariant of the protocol: unless a store task and a dequeue that
    cancelled it have both completed it, an enqueue is completed once, and a
    dequeue always. So windows and program counters decide what recovery finds. */
module Once {
  import opened Records
  import opened Protocol
  import opened ProtocolInvariant
  import opened OperationLog

  /** Both the dequeue that cancelled the enqueue and its store task have logged
      its completion. */
  predicate Twice(o: Op) {
    o.cancelled && o.deq == Dequeued && PastLog(o.store)
  }

  ghost predicate OnceOk(s: State) {
    forall op | op in s.ops :: (!Twice(s.ops[op]) ==> Single(s.enq, op)) && Single(s.deq, op)
  }

  lemma NotCompleted<P(!new)>(l: OperationLog.Log<P>, op: OpId)
    requires Valid(l) && op !in l.completed
    ensures Single(l, op)
  {
    assert Record<P>.Complete(op) !in l.All();
  }

  /** A step that leaves both logs alone and touches one operation. */
  ghost predicate LogsStand(s: State, s': State, op: OpId) {
    && s'.enq == s.enq && s'.deq == s.deq && op in s'.ops && s'.ops == s.ops[op := s'.ops[op]]
    && (op in s.ops && Twice(s.ops[op]) ==> Twice(s'.ops[op]))
  }

  lemma StandKeeps(s: State, s': State, op: OpId)
    requires OnceOk(s) && LogsStand(s, s', op) && (op !in s.ops ==> Single(s.enq, op) && Single(s.deq, op))
    ensures OnceOk(s')
  {
  }

  /** A step that changes logs, and of the operations nothing that matters. */
  ghost predicate OpsStand(s: State, s': State) {
    s'.ops.Keys == s.ops.Keys && forall op | op in s.ops :: Twice(s.ops[op]) ==> Twice(s'.ops[op])
  }

  lemma SetStands(s: State, s': State, op: OpId, o: Op)
    requires op in s.ops && s'.ops == s.ops[op := o] && (Twice(s.ops[op]) ==> Twice(o))
    ensures OpsStand(s, s')
  {
  }

  lemma EnqStart(s: State, s': State, o: OpId, m: Msg)
    requires OnceOk(s) && OpsStand(s, s') && Valid(s.enq) && o !in s.enq.started
    requires s'.enq == OperationLog.Start(s.enq, o, m) && s'.deq == s.deq
    ensures OnceOk(s')
  {
    forall op | op in s.ops && !Twice(s'.ops[op]) ensures Single(s'.enq, op) {
      StartSingle(s.enq, o, m, op);
    }
  }

  lemma DeqStart(s: State, s': State, o: OpId)
    requires OnceOk(s) && OpsStand(s, s') && Valid(s.deq) && o !in s.deq.started
    requires s'.deq == OperationLog.Start(s.deq, o, ()) && s'.enq == s.enq
    ensures OnceOk(s')
  {
    forall op | op in s.ops ensures Single(s'.deq, op) {
      StartSingle(s.deq, o, (), op);
    }
  }

  lemma EnqComplete(s: State, s': State, o: OpId)
    requires OnceOk(s) && OpsStand(s, s') && Valid(s.enq) && o in s.ops
    requires !Twice(s'.ops[o]) ==> o in s.enq.started && o !in s.enq.completed
    requires s'.enq == OperationLog.Complete(s.enq, o) && s'.deq == s.deq
    ensures OnceOk(s')
  {
    forall op | op in s.ops && !Twice(s'.ops[op]) ensures Single(s'.enq, op) {
      CompleteSingle(s.enq, o, op);
    }
  }

  lemma DeqComplete(s: State, s': State, o: OpId)
    requires OnceOk(s) && OpsStand(s, s') && Valid(s.deq) && o in s.deq.started && o !in s.deq.completed
    requires s'.deq == OperationLog.Complete(s.deq, o) && s'.enq == s.enq
    ensures OnceOk(s')
  {
    forall op | op in s.ops ensures Single(s'.deq, op) {
      CompleteSingle(s.deq, o, op);
    }
  }

  // ---------------------------------------------------------------------

  lemma NewOnce(c: Config, s: State, e: EnqueueStep, op: OpId)
    requires EnqueueEnabled(s, e) && OnceOk(s) && op !in s.ops && Single(s.enq, op) && Single(s.deq, op)
    requires if e.EnqNew? then op == OpId(s.nextId, e.qid) else e.EnqDup? && op == e.op
    ensures OnceOk(EnqueueNext(c, s, e))
  {
    StandKeeps(s, EnqueueNext(c, s, e), op);
  }

  lemma EnqLogOnce(c: Config, s: State, op: OpId)
    requires EnqueueEnabled(s, EnqLog(op)) && OnceOk(s) && Valid(s.enq) && op !in s.enq.started
    ensures OnceOk(EnqueueNext(c, s, EnqLog(op)))
  {
    SetStands(s, EnqueueNext(c, s, EnqLog(op)), op, s.ops[op].(enq := Logged));
    EnqStart(s, EnqueueNext(c, s, EnqLog(op)), op, s.ops[op].msg);
  }

  lemma EnqueueOnce(c: Config, s: State, e: EnqueueStep)
    requires Inv(c, s) && OnceOk(s) && EnqueueEnabled(s, e)
    ensures OnceOk(EnqueueNext(c, s, e))
  {
    EnqueueFacts(c, s, e);
    match e
    case EnqNew(q, _) =>
      NewSingle(s, OpId(s.nextId, q));
      NewOnce(c, s, e, OpId(s.nextId, q));
    case EnqDup(op, _) =>
      NewSingle(s, op);
      NewOnce(c, s, e, op);
    case EnqLog(op) => EnqLogOnce(c, s, op);
    case EnqWill(op) => MovedOnce(c, s, e);
    case EnqSchedule(op) => MovedOnce(c, s, e);
  }

  lemma NewSingle(s: State, op: OpId)
    requires DomainOk(s) && Valid(s.enq) && Valid(s.deq) && op !in s.ops
    ensures Single(s.enq, op) && Single(s.deq, op)
  {
    NotCompleted(s.enq, op);
    NotCompleted(s.deq, op);
  }

  lemma MovedOnce(c: Config, s: State, e: EnqueueStep)
    requires OnceOk(s) && EnqueueEnabled(s, e) && (e.EnqWill? || e.EnqSchedule?) && s.ops[e.op].store == NoTask
    ensures OnceOk(EnqueueNext(c, s, e))
  {
    StandKeeps(s, EnqueueNext(c, s, e), e.op);
  }

  lemma StoreMoves(c: Config, s: State, t: StoreStep)
    requires OnceOk(s) && StoreEnabled(c, s, t) && !t.StoreLog?
    requires t.StoreTake? ==> s.ops[s.fifo[0]].store == Queued
    ensures OnceOk(StoreNext(c, s, t))
  {
    StandKeeps(s, StoreNext(c, s, t), if t.StoreTake? then s.fifo[0] else t.op);
  }

  lemma StoreLogOnce(c: Config, s: State, op: OpId)
    requires OnceOk(s) && StoreEnabled(c, s, StoreLog(op)) && Valid(s.enq)
    requires op in s.enq.started && (op in s.enq.completed ==> s.ops[op].cancelled && s.ops[op].deq == Dequeued)
    ensures OnceOk(StoreNext(c, s, StoreLog(op)))
  {
    RecordedTwice(s.ops[op]);
    StoreLogIs(c, s, op);
    LoggedOnce(s, StoreNext(c, s, StoreLog(op)), op, s.ops[op].(store := Recorded));
  }

  lemma RecordedTwice(o: Op)
    ensures Twice(o.(store := Recorded)) <==> o.cancelled && o.deq == Dequeued
  {
  }

  lemma StoreLogIs(c: Config, s: State, op: OpId)
    requires StoreEnabled(c, s, StoreLog(op))
    ensures var s' := StoreNext(c, s, StoreLog(op));
            && s'.ops == s.ops[op := s.ops[op].(store := Recorded)]
            && s'.enq == OperationLog.Complete(s.enq, op) && s'.deq == s.deq
  {
  }

  lemma LoggedOnce(s: State, s': State, op: OpId, o: Op)
    requires OnceOk(s) && Valid(s.enq) && op in s.ops && s'.ops == s.ops[op := o]
    requires op in s.enq.started && (op in s.enq.completed ==> Twice(o)) && (Twice(s.ops[op]) ==> Twice(o))
    requires s'.enq == OperationLog.Complete(s.enq, op) && s'.deq == s.deq
    ensures OnceOk(s')
  {
    SetStands(s, s', op, o);
    EnqComplete(s, s', op);
  }

  lemma StoreOnce(c: Config, s: State, t: StoreStep)
    requires OpsOk(c, s) && QueueOk(s) && Valid(s.enq) && OnceOk(s) && StoreEnabled(c, s, t)
    ensures OnceOk(StoreNext(c, s, t))
  {
    if t.StoreLog? {
      StoreLogFacts(c, ViewOf(s, t.op));
      StoreLogOnce(c, s, t.op);
    } else {
      assert t.StoreTake? ==> s.fifo[0] in s.fifo;
      StoreMoves(c, s, t);
    }
  }

  lemma StoreLogFacts(c: Config, v: View)
    requires OpOk(c, v) && v.o.store == Stored
    ensures v.logged.Some? && (v.completed ==> v.o.cancelled && v.o.deq == Dequeued)
  {
  }

  lemma AddPidStands(s: State, a: AddPidStep)
    requires AddPidEnabled(s, a)
    ensures LogsStand(s, AddPidNext(s, a), a.op)
  {
    match a
    case EraseDup(_) =>
    case NotifyDup(_) =>
    case AddMain(_) =>
    case NotifyMain(_) =>
  }

  lemma AddPidOnce(s: State, a: AddPidStep)
    requires OnceOk(s) && AddPidEnabled(s, a)
    ensures OnceOk(AddPidNext(s, a))
  {
    AddPidStands(s, a);
    StandKeeps(s, AddPidNext(s, a), a.op);
  }

  lemma DeqMoves(c: Config, s: State, d: DequeueStep)
    requires OnceOk(s) && DequeueEnabled(s, d) && (d.DeqCheck? || d.DeqSchedule?)
    ensures OnceOk(DequeueNext(c, s, d))
  {
    StandKeeps(s, DequeueNext(c, s, d), d.op);
  }

  lemma DeqLogOnce(c: Config, s: State, op: OpId)
    requires OnceOk(s) && DequeueEnabled(s, DeqLogStart(op)) && Valid(s.deq) && op !in s.deq.started
    ensures OnceOk(DequeueNext(c, s, DeqLogStart(op)))
  {
    SetStands(s, DequeueNext(c, s, DeqLogStart(op)), op, s.ops[op].(deq := StartLogged));
    DeqStart(s, DequeueNext(c, s, DeqLogStart(op)), op);
  }

  lemma CancelOnce(c: Config, s: State, op: OpId)
    requires OnceOk(s) && DequeueEnabled(s, DeqCancelLog(op)) && Valid(s.enq) && s.ops[op].cancelled
    requires op in s.enq.started && (op in s.enq.completed ==> PastLog(s.ops[op].store))
    ensures OnceOk(DequeueNext(c, s, DeqCancelLog(op)))
  {
    LoggedOnce(s, DequeueNext(c, s, DeqCancelLog(op)), op, s.ops[op].(deq := Dequeued));
  }

  lemma DequeueFacts(c: Config, v: View)
    requires OpOk(c, v)
    ensures v.o.deq == Starting ==> !v.deqStarted
    ensures v.o.deq == Cancelling ==> v.o.cancelled && v.logged.Some? && (v.completed ==> PastLog(v.o.store))
    ensures v.o.del == Deleted ==> v.deqStarted && !v.deqCompleted
  {
  }

  lemma DequeueOnce(c: Config, s: State, d: DequeueStep)
    requires OpsOk(c, s) && Valid(s.enq) && Valid(s.deq) && OnceOk(s) && DequeueEnabled(s, d)
    ensures OnceOk(DequeueNext(c, s, d))
  {
    DequeueFacts(c, ViewOf(s, d.op));
    match d
    case DeqCheck(_) => DeqMoves(c, s, d);
    case DeqLogStart(op) => DeqLogOnce(c, s, op);
    case DeqSchedule(_) => DeqMoves(c, s, d);
    case DeqCancelLog(op) => CancelOnce(c, s, op);
  }

  lemma WaitStands(s: State, w: WaitStep)
    requires WaitEnabled(s, w) && w.op in s.ops
    ensures LogsStand(s, WaitNext(s, w), w.op)
  {
    match w
    case CheckDup(_) =>
    case CheckMain(_) =>
    case Wake(_) =>
    case Spurious(_) =>
  }

  lemma WaitOnce(s: State, w: WaitStep)
    requires OnceOk(s) && WaitEnabled(s, w) && w.op in s.ops
    ensures OnceOk(WaitNext(s, w))
  {
    WaitStands(s, w);
    StandKeeps(s, WaitNext(s, w), w.op);
  }

  lemma DeleteMoves(c: Config, s: State, x: DeleteStep)
    requires OnceOk(s) && DeleteEnabled(c, s, x) && !x.DelLog?
    ensures OnceOk(DeleteNext(c, s, x))
  {
    StandKeeps(s, DeleteNext(c, s, x), DeleteOp(s, x));
  }

  lemma DelLogOnce(c: Config, s: State, op: OpId)
    requires OnceOk(s) && DeleteEnabled(c, s, DelLog(op))
    requires Valid(s.deq) && op in s.deq.started && op !in s.deq.completed
    ensures OnceOk(DeleteNext(c, s, DelLog(op)))
  {
    SetStands(s, DeleteNext(c, s, DelLog(op)), op, s.ops[op].(del := DelFinished));
    DeqComplete(s, DeleteNext(c, s, DelLog(op)), op);
  }

  lemma DeleteOnce(c: Config, s: State, x: DeleteStep)
    requires OpsOk(c, s) && Valid(s.deq) && OnceOk(s) && DeleteEnabled(c, s, x)
    ensures OnceOk(DeleteNext(c, s, x))
  {
    if x.DelLog? {
      DequeueFacts(c, ViewOf(s, x.op));
      DelLogOnce(c, s, x.op);
    } else {
      DeleteMoves(c, s, x);
    }
  }

  lemma CleanEnqOnce(s: State, l: LogStep<Msg>)
    requires Valid(s.enq) && OnceOk(s) && IsClean(l) && OperationLog.Enabled(s.enq, l)
    ensures OnceOk(s.(enq := OperationLog.Next(s.enq, l)))
  {
    forall op | op in s.ops && !Twice(s.ops[op]) ensures Single(OperationLog.Next(s.enq, l), op) {
      CleanSingle(s.enq, l, op);
    }
  }

  lemma CleanDeqOnce(s: State, l: LogStep<()>)
    requires Valid(s.deq) && OnceOk(s) && IsClean(l) && OperationLog.Enabled(s.deq, l)
    ensures OnceOk(s.(deq := OperationLog.Next(s.deq, l)))
  {
    forall op | op in s.ops ensures Single(OperationLog.Next(s.deq, l), op) {
      CleanSingle(s.deq, l, op);
    }
  }

  lemma StepOnce(c: Config, s: State, step: Step)
    requires Inv(c, s) && OnceOk(s) && Protocol.Enabled(c, s, step)
    ensures OnceOk(Apply(c, s, step))
  {
    match step
    case Enqueue(e) => EnqueueOnce(c, s, e);
    case Store(t) => StoreOnce(c, s, t);
    case AddPid(a) => AddPidOnce(s, a);
    case Dequeue(d) => DequeueOnce(c, s, d);
    case Wait(w) =>
      WaitFacts(s, w);
      WaitOnce(s, w);
    case Delete(x) => DeleteOnce(c, s, x);
    case CleanEnq(l) => CleanEnqOnce(s, l);
    case CleanDeq(l) => CleanDeqOnce(s, l);
  }

  lemma {:induction false} RunOnce(c: Config, steps: seq<Step>)
    requires IsRun(c, steps)
    ensures OnceOk(Final(c, steps))
    decreases |steps|
  {
    if steps != [] {
      RunOnce(c, steps[..|steps| - 1]);
      ProtocolInvariant.RunKeeps(c, steps[..|steps| - 1]);
      StepOnce(c, Final(c, steps[..|steps| - 1]), steps[|steps| - 1]);
    }
  }
}
