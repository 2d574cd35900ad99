/** The inductive invariant of the write-behind protocol: what every step of
    every interleaving keeps. */
module ProtocolInvariant {
  import opened Records
  import opened Watermark
  import OperationLog
  import opened Protocol

  function Rank(pc: StorePc): int {
    match pc
    case NoTask => 0
    case Queued => 1
    case Taken => 2
    case Checked => 3
    case Stored => 4
    case Recorded => 5
    case DupErased => 6
    case MainPending => 6
    case MainNotify => 7
    case Finished => 8
  }

  predicate BeforeCheck(pc: StorePc) { Rank(pc) <= 2 }

  predicate PastPut(pc: StorePc) { Rank(pc) >= 4 }

  predicate PastLog(pc: StorePc) { Rank(pc) >= 5 }

  predicate PastDup(pc: StorePc) { Rank(pc) >= 6 }

  predicate PastMain(pc: StorePc) { Rank(pc) >= 7 }

  predicate PassedDup(del: DelPc) {
    del.WaitMain? || del.SleepMain? || Passed(del)
  }

  /** `waitForPid` has returned a non-negative value. */
  predicate Passed(del: DelPc) {
    del == Ready || del == Deleted || del == DelFinished
  }

  /** Wake-ups so far in the current attempt of `waitForPid`. */
  function WakeUps(del: DelPc): nat {
    if del.WaitDup? || del.SleepDup? || del.WaitMain? || del.SleepMain? then del.tries else 0
  }

  /** One operation and all that the shared state holds of it. */
  datatype View = View(
    o: Op,
    logged: Option<Msg>, completed: bool,
    deqStarted: bool, deqCompleted: bool,
    stored: Option<Msg>,
    pend: bool, dup: bool, added: bool,
    asleepDup: bool, asleepMain: bool)

  function Find<K, V>(m: map<K, V>, k: K): Option<V> {
    if k in m then Some(m[k]) else None
  }

  ghost function ViewOf(s: State, op: OpId): View
    requires op in s.ops
  {
    View(s.ops[op],
         Find(s.enq.started, op), op in s.enq.completed,
         op in s.deq.started, op in s.deq.completed,
         Find(s.journal, op),
         op in s.pends, op in s.dups, op.pid in s.added,
         op in s.asleepDup, op in s.asleepMain)
  }

  /** What the program counters of one operation say of the shared state. */
  predicate OpOk(c: Config, v: View) {
    var o := v.o;
    // program counters against each other
    && (o.enq != Scheduled <==> o.store == NoTask)
    && (o.enq != Scheduled ==> o.deq == NotBegun)
    && (o.deq != Dequeued || o.cancelled <==> o.del == NoDelete)
    && (o.deq == Cancelling ==> o.cancelled)
    && (o.cancelled ==> c.smart && (o.deq == Cancelling || o.deq == Dequeued))
    && (c.smart && o.deq != NotBegun && !o.cancelled ==> !BeforeCheck(o.store))
    && (!BeforeCheck(o.store) ==> (o.exec <==> !o.cancelled))
    && (o.dup ==> o.store != MainPending)
    && (!o.dup ==> o.store != DupErased)
    && WakeUps(o.del) <= TRIES
    // the two logs
    && v.logged == (if o.enq == Ided then None else Some(o.msg))
    && (v.completed <==> PastLog(o.store) || (o.cancelled && o.deq == Dequeued))
    && (v.deqStarted <==> !o.cancelled && (o.deq == StartLogged || o.deq == Dequeued))
    && (v.deqCompleted <==> o.del == DelFinished)
    // the journal
    && v.stored == (if PastPut(o.store) && o.exec && o.del != Deleted && o.del != DelFinished
                    then Some(o.msg) else None)
    // the tracker
    && (v.pend <==> c.smart && (o.enq == Registered || o.enq == Scheduled)
                    && BeforeCheck(o.store) && !o.cancelled)
    && (v.dup <==> o.dup && !PastDup(o.store))
    && (!o.dup ==> (v.added <==> PastMain(o.store)))
    && (PassedDup(o.del) ==> !v.dup)
    && (Passed(o.del) ==> PastDup(o.store) && (!o.dup ==> PastMain(o.store)))
    && (v.asleepDup ==> o.del.SleepDup? && (v.dup || o.store == DupErased))
    && (v.asleepMain ==> o.del.SleepMain?)
  }

  ghost predicate OpsOk(c: Config, s: State) {
    forall op | op in s.ops :: OpOk(c, ViewOf(s, op))
  }

  /** Nothing is recorded of an operation that was never enqueued. */
  ghost predicate DomainOk(s: State) {
    && s.enq.started.Keys <= s.ops.Keys && s.enq.completed <= s.ops.Keys
    && s.deq.started.Keys <= s.ops.Keys && s.deq.completed <= s.ops.Keys
    && s.journal.Keys <= s.ops.Keys
    && s.pends <= s.ops.Keys && s.dups <= s.ops.Keys
    && s.asleepDup <= s.ops.Keys && s.asleepMain <= s.ops.Keys
  }

  /** Ids are issued without gaps, and each one has one first enqueue. */
  ghost predicate IdsOk(s: State) {
    && 1 <= s.nextId < TWO_64
    && (forall p :: p in s.first <==> 1 <= p < s.nextId)
    && (forall p | p in s.first :: OpId(p, s.first[p]) in s.ops && !s.ops[OpId(p, s.first[p])].dup)
    && (forall op | op in s.ops ::
          op.pid in s.first && (!s.ops[op].dup ==> s.first[op.pid] == op.qid))
  }

  ghost predicate MarkOk(s: State) {
    && Exact(0, s.added, s.mark)
    && s.nextId - s.mark.last <= TWO_31
    && (forall p | p in s.added :: 1 <= p < s.nextId)
  }

  /** The queue of the enqueue pool is a suffix of everything scheduled. */
  ghost predicate FifoOk(s: State) {
    && |s.fifo| <= |s.scheduled| && s.fifo == s.scheduled[|s.scheduled| - |s.fifo|..]
    && (forall op :: op in s.fifo <==> op in s.ops && s.ops[op].store == Queued)
  }

  ghost predicate ScheduledOk(s: State) {
    && Distinct(s.scheduled)
    && (forall op :: op in s.scheduled <==> op in s.ops && s.ops[op].enq == Scheduled)
  }

  ghost predicate QueueOk(s: State) {
    FifoOk(s) && ScheduledOk(s)
  }

  ghost predicate WorkersOk(c: Config, s: State) {
    && |s.running| <= c.workers
    && (forall op :: op in s.running <==> op in s.ops && Running(s.ops[op].store))
  }

  ghost predicate PoolOk(c: Config, s: State) {
    QueueOk(s) && WorkersOk(c, s)
  }

  /** The dequeue pool. */
  ghost predicate DeletesOk(s: State) {
    && Distinct(s.deletes)
    && (forall op :: op in s.deletes <==> op in s.ops && s.ops[op].del == DelQueued)
  }

  ghost predicate DeletersOk(c: Config, s: State) {
    && |s.deleting| <= c.deleters
    && (forall op :: op in s.deleting <==> op in s.ops && Deleting(s.ops[op].del))
  }

  /** No lost wake-up: whoever sleeps on the watermark although it has passed
      will still be notified. */
  ghost predicate SleepOk(s: State) {
    forall op | op in s.asleepMain ::
      op.pid > s.mark.last || exists t :: t in s.ops && s.ops[t].store == MainNotify
  }

  ghost predicate Inv(c: Config, s: State) {
    && OpsOk(c, s) && DomainOk(s) && IdsOk(s) && MarkOk(s) && PoolOk(c, s) && SleepOk(s)
    && DeletesOk(s) && DeletersOk(c, s)
    && OperationLog.Valid(s.enq) && OperationLog.Valid(s.deq)
  }

  // ---------------------------------------------------------------------
  // Preservation, one part of the invariant at a time

  /** What a step does to an operation it does not work on: nothing, except
      that a notification may wake it, and that the id of a duplicate may reach
      the watermark through its first enqueue. */
  predicate Undisturbed(v: View, v': View) {
    && v' == v.(added := v'.added, asleepDup := v'.asleepDup, asleepMain := v'.asleepMain)
    && (v'.asleepDup ==> v.asleepDup) && (v'.asleepMain ==> v.asleepMain)
    && (v'.added == v.added || v.o.dup)
  }

  lemma EnqueueTarget(c: Config, s: State, step: EnqueueStep)
    requires EnqueueEnabled(s, step) && !step.EnqNew? && !step.EnqDup?
    requires OpOk(c, ViewOf(s, step.op))
    ensures OpOk(c, ViewOf(EnqueueNext(c, s, step), step.op))
  {
    match step
    case EnqLog(_) =>
    case EnqWill(_) =>
    case EnqSchedule(_) =>
  }

  lemma EnqueueFresh(c: Config, s: State, step: EnqueueStep, op: OpId)
    requires EnqueueEnabled(s, step) && DomainOk(s) && op !in s.ops
    requires step.EnqNew? ==> op == OpId(s.nextId, step.qid) && s.nextId !in s.added
    requires !step.EnqNew? ==> step.EnqDup? && step.op == op
    ensures OpOk(c, ViewOf(EnqueueNext(c, s, step), op))
  {
    match step
    case EnqNew(_, _) =>
    case EnqDup(_, _) =>
  }

  /** A step on one operation shows of another one only what the shared state
      holds of it. */
  lemma OtherView(s: State, s': State, t: OpId, o: Op, op: OpId)
    requires s'.ops == s.ops[t := o] && op in s.ops && op != t
    requires Find(s'.enq.started, op) == Find(s.enq.started, op) && (op in s'.enq.completed <==> op in s.enq.completed)
    requires (op in s'.deq.started <==> op in s.deq.started) && (op in s'.deq.completed <==> op in s.deq.completed)
    requires Find(s'.journal, op) == Find(s.journal, op)
    requires (op in s'.pends <==> op in s.pends) && (op in s'.dups <==> op in s.dups)
    requires s'.added == s.added && s'.asleepDup == s.asleepDup && s'.asleepMain == s.asleepMain
    ensures op in s'.ops && Undisturbed(ViewOf(s, op), ViewOf(s', op))
  {
  }

  lemma EnqueueOthers(c: Config, s: State, step: EnqueueStep, op: OpId)
    requires EnqueueEnabled(s, step) && op in s.ops
    requires if step.EnqNew? then op != OpId(s.nextId, step.qid) else op != step.op
    ensures op in EnqueueNext(c, s, step).ops
    ensures Undisturbed(ViewOf(s, op), ViewOf(EnqueueNext(c, s, step), op))
  {
    var s' := EnqueueNext(c, s, step);
    var t := if step.EnqNew? then OpId(s.nextId, step.qid) else step.op;
    OtherView(s, s', t, s'.ops[t], op);
  }

  lemma StoreTakeOk(c: Config, s: State, op: OpId)
    requires StoreEnabled(c, s, StoreTake) && op == s.fifo[0] && s.ops[op].store == Queued
    requires OpOk(c, ViewOf(s, op))
    ensures OpOk(c, ViewOf(StoreNext(c, s, StoreTake), op))
  {
  }

  lemma StoreCheckOk(c: Config, s: State, op: OpId)
    requires StoreEnabled(c, s, StoreCheck(op)) && OpOk(c, ViewOf(s, op))
    ensures OpOk(c, ViewOf(StoreNext(c, s, StoreCheck(op)), op))
  {
  }

  lemma StorePutOk(c: Config, s: State, op: OpId)
    requires StoreEnabled(c, s, StorePut(op)) && OpOk(c, ViewOf(s, op))
    ensures OpOk(c, ViewOf(StoreNext(c, s, StorePut(op)), op))
  {
  }

  lemma StoreLogOk(c: Config, s: State, op: OpId)
    requires StoreEnabled(c, s, StoreLog(op)) && OpOk(c, ViewOf(s, op))
    ensures OpOk(c, ViewOf(StoreNext(c, s, StoreLog(op)), op))
  {
  }

  lemma StoreTarget(c: Config, s: State, step: StoreStep, op: OpId)
    requires StoreEnabled(c, s, step) && op in s.ops && OpOk(c, ViewOf(s, op)) && QueueOk(s)
    requires op == if step.StoreTake? then s.fifo[0] else step.op
    ensures OpOk(c, ViewOf(StoreNext(c, s, step), op))
  {
    match step
    case StoreTake =>
      assert op in s.fifo;
      StoreTakeOk(c, s, op);
    case StoreCheck(_) => StoreCheckOk(c, s, op);
    case StorePut(_) => StorePutOk(c, s, op);
    case StoreLog(_) => StoreLogOk(c, s, op);
  }

  lemma StoreOthers(c: Config, s: State, step: StoreStep, op: OpId)
    requires StoreEnabled(c, s, step) && op in s.ops
    requires op != if step.StoreTake? then s.fifo[0] else step.op
    ensures op in StoreNext(c, s, step).ops
    ensures Undisturbed(ViewOf(s, op), ViewOf(StoreNext(c, s, step), op))
  {
    var s' := StoreNext(c, s, step);
    var t := if step.StoreTake? then s.fifo[0] else step.op;
    OtherView(s, s', t, s'.ops[t], op);
  }

  lemma EraseDupOk(c: Config, s: State, op: OpId)
    requires AddPidEnabled(s, EraseDup(op)) && OpOk(c, ViewOf(s, op))
    ensures OpOk(c, ViewOf(AddPidNext(s, EraseDup(op)), op))
  {
  }

  lemma NotifyDupOk(c: Config, s: State, op: OpId)
    requires AddPidEnabled(s, NotifyDup(op)) && OpOk(c, ViewOf(s, op))
    ensures OpOk(c, ViewOf(AddPidNext(s, NotifyDup(op)), op))
  {
  }

  lemma AddMainView(s: State, op: OpId)
    requires AddPidEnabled(s, AddMain(op))
    ensures var v, v' := ViewOf(s, op), ViewOf(AddPidNext(s, AddMain(op)), op);
            && v' == v.(o := v.o.(store := v'.o.store), added := true)
            && (v'.o.store == MainNotify || v'.o.store == Finished)
  {
  }

  lemma AddedOk(c: Config, v: View, pc: StorePc)
    requires OpOk(c, v) && v.o.store == MainPending && (pc == MainNotify || pc == Finished)
    ensures OpOk(c, v.(o := v.o.(store := pc), added := true))
  {
  }

  lemma AddMainOk(c: Config, s: State, op: OpId)
    requires AddPidEnabled(s, AddMain(op)) && OpOk(c, ViewOf(s, op))
    ensures OpOk(c, ViewOf(AddPidNext(s, AddMain(op)), op))
  {
    AddMainView(s, op);
    AddedOk(c, ViewOf(s, op), ViewOf(AddPidNext(s, AddMain(op)), op).o.store);
  }

  lemma NotifyMainOk(c: Config, s: State, op: OpId)
    requires AddPidEnabled(s, NotifyMain(op)) && OpOk(c, ViewOf(s, op))
    ensures OpOk(c, ViewOf(AddPidNext(s, NotifyMain(op)), op))
  {
  }

  lemma AddPidTarget(c: Config, s: State, step: AddPidStep)
    requires AddPidEnabled(s, step) && OpOk(c, ViewOf(s, step.op))
    ensures OpOk(c, ViewOf(AddPidNext(s, step), step.op))
  {
    match step
    case EraseDup(op) => EraseDupOk(c, s, op);
    case NotifyDup(op) => NotifyDupOk(c, s, op);
    case AddMain(op) => AddMainOk(c, s, op);
    case NotifyMain(op) => NotifyMainOk(c, s, op);
  }

  lemma AddPidOthers(s: State, step: AddPidStep, op: OpId)
    requires AddPidEnabled(s, step) && op in s.ops && op != step.op
    requires step.AddMain? ==> op.pid != step.op.pid || s.ops[op].dup
    ensures op in AddPidNext(s, step).ops
    ensures Undisturbed(ViewOf(s, op), ViewOf(AddPidNext(s, step), op))
  {
    match step
    case EraseDup(_) =>
    case NotifyDup(_) =>
    case AddMain(_) =>
    case NotifyMain(_) =>
  }

  lemma DequeueTarget(c: Config, s: State, step: DequeueStep)
    requires DequeueEnabled(s, step) && OpOk(c, ViewOf(s, step.op))
    ensures OpOk(c, ViewOf(DequeueNext(c, s, step), step.op))
  {
    match step
    case DeqCheck(_) =>
    case DeqLogStart(_) =>
    case DeqSchedule(_) =>
    case DeqCancelLog(_) =>
  }

  lemma DequeueOthers(c: Config, s: State, step: DequeueStep, op: OpId)
    requires DequeueEnabled(s, step) && op in s.ops && op != step.op
    ensures op in DequeueNext(c, s, step).ops
    ensures Undisturbed(ViewOf(s, op), ViewOf(DequeueNext(c, s, step), op))
  {
    var s' := DequeueNext(c, s, step);
    OtherView(s, s', step.op, s'.ops[step.op], op);
  }

  lemma WaitTargetCheck(c: Config, s: State, step: WaitStep)
    requires step.CheckDup? || step.CheckMain?
    requires WaitEnabled(s, step) && step.op in s.ops && OpOk(c, ViewOf(s, step.op))
    requires step.op.pid <= s.mark.last ==> step.op.pid in s.added
    ensures OpOk(c, ViewOf(WaitNext(s, step), step.op))
  {
    match step
    case CheckDup(_) =>
    case CheckMain(_) =>
  }

  lemma WaitTargetWake(c: Config, s: State, step: WaitStep)
    requires step.Wake? || step.Spurious?
    requires WaitEnabled(s, step) && step.op in s.ops && OpOk(c, ViewOf(s, step.op))
    requires step.op.pid <= s.mark.last ==> step.op.pid in s.added
    ensures OpOk(c, ViewOf(WaitNext(s, step), step.op))
  {
    match step
    case Wake(_) =>
    case Spurious(_) =>
  }

  lemma WaitOthers(s: State, step: WaitStep, op: OpId)
    requires WaitEnabled(s, step) && op in s.ops && op != step.op
    ensures op in WaitNext(s, step).ops
    ensures Undisturbed(ViewOf(s, op), ViewOf(WaitNext(s, step), op))
  {
    match step
    case CheckDup(_) =>
    case CheckMain(_) =>
    case Wake(_) =>
    case Spurious(_) =>
  }

  lemma DelTakeOk(c: Config, s: State, op: OpId)
    requires DeleteEnabled(c, s, DelTake) && op == s.deletes[0] && s.ops[op].del == DelQueued
    requires OpOk(c, ViewOf(s, op))
    ensures OpOk(c, ViewOf(DeleteNext(c, s, DelTake), op))
  {
  }

  lemma DelRemoveOk(c: Config, s: State, op: OpId)
    requires DeleteEnabled(c, s, DelRemove(op)) && OpOk(c, ViewOf(s, op))
    ensures OpOk(c, ViewOf(DeleteNext(c, s, DelRemove(op)), op))
  {
  }

  lemma DelLogOk(c: Config, s: State, op: OpId)
    requires DeleteEnabled(c, s, DelLog(op)) && OpOk(c, ViewOf(s, op))
    ensures OpOk(c, ViewOf(DeleteNext(c, s, DelLog(op)), op))
  {
  }

  function DeleteOp(s: State, step: DeleteStep): OpId
    requires step.DelTake? ==> s.deletes != []
  {
    if step.DelTake? then s.deletes[0] else step.op
  }

  lemma DeleteTarget(c: Config, s: State, step: DeleteStep, op: OpId)
    requires DeleteEnabled(c, s, step) && op in s.ops && OpOk(c, ViewOf(s, op)) && DeletesOk(s)
    requires op == DeleteOp(s, step)
    ensures OpOk(c, ViewOf(DeleteNext(c, s, step), op))
  {
    match step
    case DelTake =>
      assert op in s.deletes;
      DelTakeOk(c, s, op);
    case DelRemove(_) => DelRemoveOk(c, s, op);
    case DelLog(_) => DelLogOk(c, s, op);
  }

  lemma DeleteOthers(c: Config, s: State, step: DeleteStep, op: OpId)
    requires DeleteEnabled(c, s, step) && op in s.ops && op != DeleteOp(s, step)
    ensures op in DeleteNext(c, s, step).ops
    ensures Undisturbed(ViewOf(s, op), ViewOf(DeleteNext(c, s, step), op))
  {
    match step
    case DelTake =>
    case DelRemove(_) =>
    case DelLog(_) =>
  }

  lemma EnqueueOps(c: Config, s: State, e: EnqueueStep)
    requires OpsOk(c, s) && DomainOk(s) && IdsOk(s) && MarkOk(s) && EnqueueEnabled(s, e)
    ensures OpsOk(c, EnqueueNext(c, s, e))
  {
    forall op | op in EnqueueNext(c, s, e).ops ensures OpOk(c, ViewOf(EnqueueNext(c, s, e), op)) {
      if op !in s.ops {
        EnqueueFresh(c, s, e, op);
      } else if !e.EnqNew? && op == e.op {
        EnqueueTarget(c, s, e);
      } else {
        EnqueueOther(c, s, e, op);
      }
    }
  }

  lemma EnqueueOther(c: Config, s: State, e: EnqueueStep, op: OpId)
    requires EnqueueEnabled(s, e) && op in s.ops && OpOk(c, ViewOf(s, op))
    requires if e.EnqNew? then op != OpId(s.nextId, e.qid) else op != e.op
    ensures op in EnqueueNext(c, s, e).ops && OpOk(c, ViewOf(EnqueueNext(c, s, e), op))
  {
    EnqueueOthers(c, s, e, op);
    UndisturbedOk(c, ViewOf(s, op), ViewOf(EnqueueNext(c, s, e), op));
  }

  lemma StoreOps(c: Config, s: State, t: StoreStep)
    requires OpsOk(c, s) && PoolOk(c, s) && StoreEnabled(c, s, t)
    ensures OpsOk(c, StoreNext(c, s, t))
  {
    var target := if t.StoreTake? then s.fifo[0] else t.op;
    StoreTarget(c, s, t, target);
    forall op | op in StoreNext(c, s, t).ops && op != target ensures OpOk(c, ViewOf(StoreNext(c, s, t), op)) {
      StoreOther(c, s, t, target, op);
    }
  }

  lemma StoreOther(c: Config, s: State, t: StoreStep, target: OpId, op: OpId)
    requires StoreEnabled(c, s, t) && op in StoreNext(c, s, t).ops && op != target && OpsOk(c, s)
    requires target == if t.StoreTake? then s.fifo[0] else t.op
    ensures OpOk(c, ViewOf(StoreNext(c, s, t), op))
  {
    StoreOthers(c, s, t, op);
    UndisturbedOk(c, ViewOf(s, op), ViewOf(StoreNext(c, s, t), op));
  }

  lemma UndisturbedOk(c: Config, v: View, v': View)
    requires OpOk(c, v) && Undisturbed(v, v')
    ensures OpOk(c, v')
  {
  }

  lemma AddPidOps(c: Config, s: State, a: AddPidStep)
    requires OpsOk(c, s) && AddPidEnabled(s, a)
    requires a.AddMain? ==> forall op | op in s.ops && op != a.op && op.pid == a.op.pid :: s.ops[op].dup
    ensures OpsOk(c, AddPidNext(s, a))
  {
    AddPidTarget(c, s, a);
    forall op | op in AddPidNext(s, a).ops && op != a.op ensures OpOk(c, ViewOf(AddPidNext(s, a), op)) {
      AddPidOther(c, s, a, op);
    }
  }

  lemma AddPidOther(c: Config, s: State, a: AddPidStep, op: OpId)
    requires OpsOk(c, s) && AddPidEnabled(s, a) && op in AddPidNext(s, a).ops && op != a.op
    requires a.AddMain? && op in s.ops && op.pid == a.op.pid ==> s.ops[op].dup
    ensures OpOk(c, ViewOf(AddPidNext(s, a), op))
  {
    AddPidOthers(s, a, op);
    UndisturbedOk(c, ViewOf(s, op), ViewOf(AddPidNext(s, a), op));
  }

  lemma DequeueOps(c: Config, s: State, d: DequeueStep)
    requires OpsOk(c, s) && DequeueEnabled(s, d)
    ensures OpsOk(c, DequeueNext(c, s, d))
  {
    forall op | op in DequeueNext(c, s, d).ops ensures OpOk(c, ViewOf(DequeueNext(c, s, d), op)) {
      if op == d.op { DequeueTarget(c, s, d); } else { DequeueOthers(c, s, d, op); }
    }
  }

  lemma WaitOps(c: Config, s: State, w: WaitStep)
    requires OpsOk(c, s) && WaitEnabled(s, w) && w.op in s.ops
    requires w.op.pid <= s.mark.last ==> w.op.pid in s.added
    ensures OpsOk(c, WaitNext(s, w))
  {
    forall op | op in WaitNext(s, w).ops ensures OpOk(c, ViewOf(WaitNext(s, w), op)) {
      if op != w.op {
        WaitOthers(s, w, op);
      } else if w.CheckDup? || w.CheckMain? {
        WaitTargetCheck(c, s, w);
      } else {
        WaitTargetWake(c, s, w);
      }
    }
  }

  lemma DeleteOps(c: Config, s: State, x: DeleteStep)
    requires OpsOk(c, s) && DeletesOk(s) && DeleteEnabled(c, s, x)
    ensures OpsOk(c, DeleteNext(c, s, x))
  {
    var target := DeleteOp(s, x);
    DeleteTarget(c, s, x, target);
    forall op | op in DeleteNext(c, s, x).ops && op != target ensures OpOk(c, ViewOf(DeleteNext(c, s, x), op)) {
      DeleteOthers(c, s, x, op);
    }
  }

  // The other parts

  /** No step but an enqueue changes which operations there are, or what of
      them the id and pool invariants look at. */
  ghost predicate SameShape(s: State, s': State) {
    && s'.ops.Keys == s.ops.Keys && s'.nextId == s.nextId && s'.first == s.first
    && (forall op | op in s.ops :: s'.ops[op].dup == s.ops[op].dup && s'.ops[op].enq == s.ops[op].enq)
    && s'.scheduled == s.scheduled
  }

  /** ... and no step but those of the store task moves its counter. */
  ghost predicate SameStore(s: State, s': State) {
    && SameShape(s, s') && s'.fifo == s.fifo && s'.running == s.running
    && (forall op | op in s.ops :: s'.ops[op].store == s.ops[op].store)
    && s'.mark == s.mark && s'.added == s.added
  }

  lemma SameStoreKeeps(c: Config, s: State, s': State)
    requires IdsOk(s) && MarkOk(s) && PoolOk(c, s) && SameStore(s, s')
    ensures IdsOk(s') && MarkOk(s') && PoolOk(c, s')
    ensures SleepOk(s) && s'.asleepMain <= s.asleepMain ==> SleepOk(s')
  {
    if SleepOk(s) && s'.asleepMain <= s.asleepMain {
      forall op | op in s'.asleepMain
        ensures op.pid > s'.mark.last || exists t :: t in s'.ops && s'.ops[t].store == MainNotify
      {
        if op.pid <= s.mark.last {
          var t :| t in s.ops && s.ops[t].store == MainNotify;
          assert s'.ops[t].store == MainNotify;
        }
      }
    }
  }

  lemma DequeueShape(c: Config, s: State, d: DequeueStep)
    requires DequeueEnabled(s, d)
    ensures SameStore(s, DequeueNext(c, s, d)) && DequeueNext(c, s, d).asleepMain == s.asleepMain
    ensures DomainOk(s) ==> DomainOk(DequeueNext(c, s, d))
  {
    var s' := DequeueNext(c, s, d);
    match d
    case DeqCheck(op) => SetShape(s, s', op, s'.ops[op]);
    case DeqLogStart(op) => SetShape(s, s', op, s'.ops[op]);
    case DeqSchedule(op) => SetShape(s, s', op, s'.ops[op]);
    case DeqCancelLog(op) => SetShape(s, s', op, s'.ops[op]);
  }

  lemma DeleteShape(c: Config, s: State, x: DeleteStep)
    requires DeleteEnabled(c, s, x)
    ensures SameStore(s, DeleteNext(c, s, x)) && DeleteNext(c, s, x).asleepMain == s.asleepMain
    ensures DomainOk(s) ==> DomainOk(DeleteNext(c, s, x))
  {
    var s' := DeleteNext(c, s, x);
    match x
    case DelTake => SetShape(s, s', s.deletes[0], s'.ops[s.deletes[0]]);
    case DelRemove(op) => SetShape(s, s', op, s'.ops[op]);
    case DelLog(op) => SetShape(s, s', op, s'.ops[op]);
  }

  /** A step that touches one operation, and of it neither `dup`, `enq` nor `store`. */
  lemma SetShape(s: State, s': State, op: OpId, o: Op)
    requires op in s.ops && s'.ops == s.ops[op := o]
    requires o.dup == s.ops[op].dup && o.enq == s.ops[op].enq && o.store == s.ops[op].store
    requires s'.nextId == s.nextId && s'.first == s.first && s'.scheduled == s.scheduled
    requires s'.fifo == s.fifo && s'.running == s.running && s'.mark == s.mark && s'.added == s.added
    ensures SameStore(s, s')
  {
  }

  lemma WaitShape(s: State, w: WaitStep)
    requires WaitEnabled(s, w) && w.op in s.ops
    ensures SameStore(s, WaitNext(s, w))
  {
    var s' := WaitNext(s, w);
    match w
    case CheckDup(op) => SetShape(s, s', op, s'.ops[op]);
    case CheckMain(op) => SetShape(s, s', op, s'.ops[op]);
    case Wake(op) => SetShape(s, s', op, s'.ops[op]);
    case Spurious(op) => SetShape(s, s', op, s.ops[op]);
  }

  lemma WaitDomain(s: State, w: WaitStep)
    requires WaitEnabled(s, w) && DomainOk(s)
    ensures DomainOk(WaitNext(s, w))
    ensures WaitNext(s, w).asleepMain <= s.asleepMain || w.op.pid > s.mark.last
    ensures WaitNext(s, w).asleepMain <= s.asleepMain + {w.op}
  {
  }

  lemma StoreShape(c: Config, s: State, t: StoreStep)
    requires StoreEnabled(c, s, t)
    ensures SameShape(s, StoreNext(c, s, t))
    ensures StoreNext(c, s, t).mark == s.mark && StoreNext(c, s, t).added == s.added
    ensures DomainOk(s) ==> DomainOk(StoreNext(c, s, t))
  {
  }

  lemma AddPidShape(s: State, a: AddPidStep)
    requires AddPidEnabled(s, a)
    ensures SameShape(s, AddPidNext(s, a))
    ensures DomainOk(s) ==> DomainOk(AddPidNext(s, a))
  {
  }

  lemma EnqueueDomain(c: Config, s: State, e: EnqueueStep)
    requires EnqueueEnabled(s, e)
    ensures DomainOk(s) ==> DomainOk(EnqueueNext(c, s, e))
  {
  }

  lemma EnqueueIds(c: Config, s: State, e: EnqueueStep)
    requires IdsOk(s) && MarkOk(s) && EnqueueEnabled(s, e)
    ensures IdsOk(EnqueueNext(c, s, e)) && MarkOk(EnqueueNext(c, s, e))
  {
  }

  lemma AddLast<T>(scheduled: seq<T>, fifo: seq<T>, x: T)
    requires Distinct(scheduled) && x !in scheduled && |fifo| <= |scheduled|
    requires fifo == scheduled[|scheduled| - |fifo|..]
    ensures Distinct(scheduled + [x])
    ensures fifo + [x] == (scheduled + [x])[|scheduled| - |fifo|..]
    ensures forall y :: y in scheduled + [x] <==> y in scheduled || y == x
    ensures forall y :: y in fifo + [x] <==> y in fifo || y == x
  {
  }

  lemma ScheduleFifo(s: State, s': State, op: OpId)
    requires FifoOk(s) && ScheduledOk(s) && op in s.ops && op !in s.scheduled && s.ops[op].store != Queued
    requires op in s'.ops && s'.ops == s.ops[op := s'.ops[op]] && s'.ops[op].store == Queued
    requires s'.fifo == s.fifo + [op] && s'.scheduled == s.scheduled + [op]
    ensures FifoOk(s')
  {
    AddLast(s.scheduled, s.fifo, op);
  }

  lemma ScheduleAll(s: State, s': State, op: OpId)
    requires FifoOk(s) && ScheduledOk(s) && op in s.ops && op !in s.scheduled
    requires op in s'.ops && s'.ops == s.ops[op := s'.ops[op]] && s'.ops[op].enq == Scheduled
    requires s'.scheduled == s.scheduled + [op]
    ensures ScheduledOk(s')
  {
    AddLast(s.scheduled, s.fifo, op);
  }

  lemma ScheduleQueue(c: Config, s: State, s': State, op: OpId)
    requires EnqueueEnabled(s, EnqSchedule(op)) && QueueOk(s) && s.ops[op].store == NoTask
    requires s' == EnqueueNext(c, s, EnqSchedule(op))
    ensures QueueOk(s')
  {
    assert op !in s.scheduled;
    ScheduleFifo(s, s', op);
    ScheduleAll(s, s', op);
  }

  lemma TakeFirst<T>(scheduled: seq<T>, fifo: seq<T>)
    requires Distinct(scheduled) && fifo != [] && |fifo| <= |scheduled|
    requires fifo == scheduled[|scheduled| - |fifo|..]
    ensures fifo[1..] == scheduled[|scheduled| - |fifo| + 1..]
    ensures forall x :: x in fifo[1..] <==> x in fifo && x != fifo[0]
  {
    assert forall i | 0 <= i < |fifo| :: fifo[i] == scheduled[|scheduled| - |fifo| + i];
    assert forall i | 1 <= i < |fifo| :: fifo[i] != fifo[0] && fifo[1..][i - 1] == fifo[i];
  }

  lemma TakeFifo(s: State, s': State, op: OpId)
    requires FifoOk(s) && Distinct(s.scheduled) && s.fifo != [] && op == s.fifo[0] && op in s'.ops
    requires s'.ops == s.ops[op := s'.ops[op]] && s'.ops[op].store == Taken
    requires s'.fifo == s.fifo[1..] && s'.scheduled == s.scheduled
    ensures FifoOk(s')
  {
    TakeFirst(s.scheduled, s.fifo);
    forall x ensures x in s'.fifo <==> x in s'.ops && s'.ops[x].store == Queued {
      assert x in s'.fifo <==> x in s.fifo && x != op;
    }
  }

  lemma ScheduledKeeps(s: State, s': State, op: OpId)
    requires ScheduledOk(s) && op in s'.ops && s'.ops == s.ops[op := s'.ops[op]] && s'.scheduled == s.scheduled
    requires (op in s.ops && s.ops[op].enq == Scheduled) <==> s'.ops[op].enq == Scheduled
    ensures ScheduledOk(s')
  {
  }

  lemma TakeQueue(c: Config, s: State, s': State, op: OpId)
    requires StoreEnabled(c, s, StoreTake) && QueueOk(s) && op == s.fifo[0] && s' == StoreNext(c, s, StoreTake)
    ensures QueueOk(s')
  {
    TakeFifo(s, s', op);
    ScheduledKeeps(s, s', op);
  }

  /** A step that moves one operation, without queueing or taking its task. */
  lemma QueueKeeps(s: State, s': State, op: OpId)
    requires QueueOk(s) && op in s'.ops && s'.ops == s.ops[op := s'.ops[op]]
    requires s'.fifo == s.fifo && s'.scheduled == s.scheduled
    requires (op in s.ops && s.ops[op].enq == Scheduled) <==> s'.ops[op].enq == Scheduled
    requires (op in s.ops && s.ops[op].store == Queued) <==> s'.ops[op].store == Queued
    ensures QueueOk(s')
  {
  }

  lemma WorkersKeep(c: Config, s: State, s': State, op: OpId)
    requires WorkersOk(c, s) && op in s'.ops && s'.ops == s.ops[op := s'.ops[op]]
    requires Running(s'.ops[op].store) ==> op in s.running || |s.running| < c.workers
    requires s'.running == if Running(s'.ops[op].store) then s.running + {op} else s.running - {op}
    ensures WorkersOk(c, s')
  {
    Sizes(s.running, op);
  }

  lemma Sizes<T>(a: set<T>, x: T)
    ensures |a + {x}| == if x in a then |a| else |a| + 1
    ensures |a - {x}| <= |a|
  {
    if x in a {
      assert a + {x} == a;
    }
    assert a == (a - {x}) + (a * {x});
  }

  lemma EnqueuePool(c: Config, s: State, s': State, e: EnqueueStep, op: OpId)
    requires EnqueueEnabled(s, e) && PoolOk(c, s) && s' == EnqueueNext(c, s, e)
    requires op == if e.EnqNew? then OpId(s.nextId, e.qid) else e.op
    requires !e.EnqNew? && !e.EnqDup? ==> s.ops[op].store == NoTask
    requires e.EnqNew? ==> op !in s.ops
    ensures PoolOk(c, s')
  {
    assert op !in s.running;
    WorkersKeep(c, s, s', op);
    if e.EnqSchedule? {
      ScheduleQueue(c, s, s', op);
    } else {
      QueueKeeps(s, s', op);
    }
  }

  lemma StorePool(c: Config, s: State, s': State, t: StoreStep)
    requires StoreEnabled(c, s, t) && PoolOk(c, s) && s' == StoreNext(c, s, t)
    ensures PoolOk(c, s')
  {
    if t.StoreTake? {
      assert s.fifo[0] in s.fifo;
      TakeQueue(c, s, s', s.fifo[0]);
      WorkersKeep(c, s, s', s.fifo[0]);
    } else {
      TaskPool(c, s, s', t.op);
    }
  }

  /** A running task goes on, or ends. */
  ghost predicate TaskMoves(s: State, s': State, op: OpId) {
    && op in s.ops && Running(s.ops[op].store) && op in s'.ops
    && s'.ops == s.ops[op := s'.ops[op]] && s'.fifo == s.fifo && s'.scheduled == s.scheduled
    && s'.ops[op].enq == s.ops[op].enq && (Running(s'.ops[op].store) || s'.ops[op].store == Finished)
    && s'.running == if Running(s'.ops[op].store) then s.running else s.running - {op}
  }

  lemma TaskPool(c: Config, s: State, s': State, op: OpId)
    requires PoolOk(c, s) && TaskMoves(s, s', op)
    ensures PoolOk(c, s')
  {
    assert s.running + {op} == s.running;
    QueueKeeps(s, s', op);
    WorkersKeep(c, s, s', op);
  }

  lemma AddPidMoves(s: State, a: AddPidStep)
    requires AddPidEnabled(s, a)
    ensures TaskMoves(s, AddPidNext(s, a), a.op)
  {
    match a
    case EraseDup(_) =>
    case NotifyDup(_) =>
    case AddMain(_) =>
    case NotifyMain(_) =>
  }

  lemma AddPidPool(c: Config, s: State, a: AddPidStep)
    requires AddPidEnabled(s, a) && PoolOk(c, s)
    ensures PoolOk(c, AddPidNext(s, a))
  {
    AddPidMoves(s, a);
    TaskPool(c, s, AddPidNext(s, a), a.op);
  }

  // The dequeue pool

  /** Steps that leave the deletions where they are. */
  ghost predicate SameDeletes(s: State, s': State) {
    && s'.deletes == s.deletes && s'.deleting == s.deleting
    && (forall op | op in s'.ops :: s'.ops[op].del == if op in s.ops then s.ops[op].del else NoDelete)
    && s.ops.Keys <= s'.ops.Keys
  }

  lemma SameDeletesKeep(c: Config, s: State, s': State)
    requires DeletesOk(s) && DeletersOk(c, s) && SameDeletes(s, s')
    ensures DeletesOk(s') && DeletersOk(c, s')
  {
  }

  /** The deletion of one operation moves on. */
  ghost predicate DeletionMoves(c: Config, s: State, s': State, op: OpId) {
    && op in s.ops && op in s'.ops && s'.ops == s.ops[op := s'.ops[op]]
    && (Deleting(s'.ops[op].del) ==> op in s.deleting || |s.deleting| < c.deleters)
    && s'.deleting == (if Deleting(s'.ops[op].del) then s.deleting + {op} else s.deleting - {op})
    && (if s'.ops[op].del == DelQueued then s.ops[op].del != DelQueued && s'.deletes == s.deletes + [op]
        else if s.ops[op].del == DelQueued then s.deletes != [] && s.deletes[0] == op && s'.deletes == s.deletes[1..]
        else s'.deletes == s.deletes)
  }

  lemma DeletersKeep(c: Config, s: State, s': State, op: OpId)
    requires DeletersOk(c, s) && DeletionMoves(c, s, s', op)
    ensures DeletersOk(c, s')
  {
    Sizes(s.deleting, op);
  }

  lemma DeletesKeep(c: Config, s: State, s': State, op: OpId)
    requires DeletesOk(s) && DeletionMoves(c, s, s', op)
    ensures DeletesOk(s')
  {
    if s'.ops[op].del == DelQueued {
      assert forall x :: x in s'.deletes <==> x in s.deletes || x == op;
    } else if s.ops[op].del == DelQueued {
      DropFirst(s.deletes);
    }
  }

  lemma DropFirst<T>(a: seq<T>)
    requires Distinct(a) && a != []
    ensures Distinct(a[1..]) && forall x :: x in a[1..] <==> x in a && x != a[0]
  {
    assert forall i | 1 <= i < |a| :: a[i] != a[0] && a[1..][i - 1] == a[i];
  }

  lemma DequeueDeletes(c: Config, s: State, d: DequeueStep)
    requires DequeueEnabled(s, d) && DeletesOk(s) && DeletersOk(c, s) && OpOk(c, ViewOf(s, d.op))
    ensures DeletesOk(DequeueNext(c, s, d)) && DeletersOk(c, DequeueNext(c, s, d))
  {
    if d.DeqSchedule? {
      assert s.deleting - {d.op} == s.deleting;
      DeletersKeep(c, s, DequeueNext(c, s, d), d.op);
      DeletesKeep(c, s, DequeueNext(c, s, d), d.op);
    } else {
      SameDeletesKeep(c, s, DequeueNext(c, s, d));
    }
  }

  lemma StaysDeleting(c: Config, s: State, s': State, op: OpId)
    requires op in s.ops && op in s'.ops && s'.ops == s.ops[op := s'.ops[op]] && DeletersOk(c, s)
    requires Deleting(s.ops[op].del) && Deleting(s'.ops[op].del)
    requires s'.deletes == s.deletes && s'.deleting == s.deleting
    ensures DeletionMoves(c, s, s', op)
  {
    assert s.deleting + {op} == s.deleting;
  }

  lemma WaitDeletion(c: Config, s: State, w: WaitStep)
    requires WaitEnabled(s, w) && !w.Spurious? && DeletersOk(c, s)
    ensures DeletionMoves(c, s, WaitNext(s, w), w.op)
  {
    var s' := WaitNext(s, w);
    if w.Wake? && s'.ops[w.op].del == DelQueued {
      assert !Deleting(s'.ops[w.op].del);
    } else {
      StaysDeleting(c, s, s', w.op);
    }
  }

  lemma WaitDeletes(c: Config, s: State, w: WaitStep)
    requires WaitEnabled(s, w) && DeletesOk(s) && DeletersOk(c, s) && w.op in s.ops
    ensures DeletesOk(WaitNext(s, w)) && DeletersOk(c, WaitNext(s, w))
  {
    if w.Spurious? {
      SameDeletesKeep(c, s, WaitNext(s, w));
    } else {
      WaitDeletion(c, s, w);
      DeletersKeep(c, s, WaitNext(s, w), w.op);
      DeletesKeep(c, s, WaitNext(s, w), w.op);
    }
  }

  lemma TakeDeletion(c: Config, s: State, s': State, op: OpId)
    requires DeleteEnabled(c, s, DelTake) && DeletesOk(s) && op == s.deletes[0] && s' == DeleteNext(c, s, DelTake)
    ensures DeletionMoves(c, s, s', op)
  {
    assert op in s.deletes;
  }

  lemma DeleteDeletion(c: Config, s: State, x: DeleteStep)
    requires DeleteEnabled(c, s, x) && DeletersOk(c, s) && DeletesOk(s)
    ensures DeletionMoves(c, s, DeleteNext(c, s, x), DeleteOp(s, x))
  {
    var s' := DeleteNext(c, s, x);
    match x
    case DelTake => TakeDeletion(c, s, s', s.deletes[0]);
    case DelRemove(op) => StaysDeleting(c, s, s', op);
    case DelLog(_) =>
  }

  lemma DeleteDeletes(c: Config, s: State, x: DeleteStep)
    requires DeleteEnabled(c, s, x) && DeletesOk(s) && DeletersOk(c, s)
    ensures DeletesOk(DeleteNext(c, s, x)) && DeletersOk(c, DeleteNext(c, s, x))
  {
    DeleteDeletion(c, s, x);
    DeletersKeep(c, s, DeleteNext(c, s, x), DeleteOp(s, x));
    DeletesKeep(c, s, DeleteNext(c, s, x), DeleteOp(s, x));
  }

  lemma EnqueueDeletes(c: Config, s: State, e: EnqueueStep)
    requires EnqueueEnabled(s, e) && DeletesOk(s) && DeletersOk(c, s)
    requires e.EnqNew? ==> OpId(s.nextId, e.qid) !in s.ops
    ensures DeletesOk(EnqueueNext(c, s, e)) && DeletersOk(c, EnqueueNext(c, s, e))
  {
    SameDeletesKeep(c, s, EnqueueNext(c, s, e));
  }

  lemma StoreDeletes(c: Config, s: State, t: StoreStep)
    requires StoreEnabled(c, s, t) && DeletesOk(s) && DeletersOk(c, s)
    ensures DeletesOk(StoreNext(c, s, t)) && DeletersOk(c, StoreNext(c, s, t))
  {
    SameDeletesKeep(c, s, StoreNext(c, s, t));
  }

  lemma AddPidDeletes(c: Config, s: State, a: AddPidStep)
    requires AddPidEnabled(s, a) && DeletesOk(s) && DeletersOk(c, s)
    ensures DeletesOk(AddPidNext(s, a)) && DeletersOk(c, AddPidNext(s, a))
  {
    SameDeletesKeep(c, s, AddPidNext(s, a));
  }

  lemma AddPidMark(c: Config, s: State, a: AddPidStep)
    requires AddPidEnabled(s, a) && IdsOk(s) && MarkOk(s) && OpOk(c, ViewOf(s, a.op))
    ensures MarkOk(AddPidNext(s, a))
  {
    if a.AddMain? {
      NewToMark(c, s, a.op);
      AddedMark(s, AddPidNext(s, a), a.op.pid);
    }
  }

  lemma NewToMark(c: Config, s: State, op: OpId)
    requires AddPidEnabled(s, AddMain(op)) && IdsOk(s) && MarkOk(s) && OpOk(c, ViewOf(s, op))
    ensures op.pid !in s.added && s.mark.last < op.pid < s.nextId
  {
    assert op.pid in s.first;
  }

  lemma AddedMark(s: State, s': State, pid: uint64)
    requires MarkOk(s) && pid !in s.added && s.mark.last < pid < s.nextId
    requires s'.mark == Add(s.mark, pid) && s'.added == s.added + {pid} && s'.nextId == s.nextId
    ensures MarkOk(s')
  {
    AddIsExact(0, s.added, s.mark, pid);
  }

  /** Everyone asleep on the watermark is still to be woken, as long as the
      watermark stands and the tasks about to notify are where they were. */
  lemma SleepKeeps(s: State, s': State)
    requires SleepOk(s) && s'.asleepMain <= s.asleepMain
    requires s'.mark.last == s.mark.last
    requires forall t | t in s.ops && s.ops[t].store == MainNotify :: t in s'.ops && s'.ops[t].store == MainNotify
    ensures SleepOk(s')
  {
    forall op | op in s'.asleepMain
      ensures op.pid > s'.mark.last || exists t :: t in s'.ops && s'.ops[t].store == MainNotify
    {
      if op.pid <= s.mark.last {
        var t :| t in s.ops && s.ops[t].store == MainNotify;
        assert s'.ops[t].store == MainNotify;
      }
    }
  }

  lemma AddPidSleep(s: State, a: AddPidStep)
    requires AddPidEnabled(s, a) && SleepOk(s)
    ensures SleepOk(AddPidNext(s, a))
  {
    var s' := AddPidNext(s, a);
    if a.NotifyDup? || (a.AddMain? && Advances(s.mark, a.op.pid)) {
      assert s'.ops[a.op].store == MainNotify;
    } else if !a.NotifyMain? {
      SleepKeeps(s, s');
    }
  }

  // ---------------------------------------------------------------------
  // Every step keeps the invariant

  ghost predicate LogsOk(s: State) {
    OperationLog.Valid(s.enq) && OperationLog.Valid(s.deq)
  }

  lemma EnqueueKeeps(c: Config, s: State, e: EnqueueStep)
    requires Inv(c, s) && EnqueueEnabled(s, e)
    ensures Inv(c, EnqueueNext(c, s, e))
  {
    EnqueueOps(c, s, e);
    EnqueueDomain(c, s, e);
    EnqueueIds(c, s, e);
    EnqueueFacts(c, s, e);
    EnqueuePool(c, s, EnqueueNext(c, s, e), e, if e.EnqNew? then OpId(s.nextId, e.qid) else e.op);
    EnqueueSleep(c, s, e);
    EnqueueDeletes(c, s, e);
    if e.EnqLog? { OperationLog.StartKeeps(s.enq, e.op, s.ops[e.op].msg); }
  }

  lemma EnqueueFacts(c: Config, s: State, e: EnqueueStep)
    requires OpsOk(c, s) && DomainOk(s) && IdsOk(s) && EnqueueEnabled(s, e)
    ensures !e.EnqNew? && !e.EnqDup? ==> s.ops[e.op].store == NoTask
    ensures e.EnqNew? ==> OpId(s.nextId, e.qid) !in s.ops
    ensures e.EnqLog? ==> e.op !in s.enq.started && e.op !in s.enq.completed
  {
    if !e.EnqNew? && !e.EnqDup? {
      assert OpOk(c, ViewOf(s, e.op));
    }
  }

  lemma EnqueueSleep(c: Config, s: State, e: EnqueueStep)
    requires SleepOk(s) && EnqueueEnabled(s, e)
    requires !e.EnqNew? && !e.EnqDup? ==> s.ops[e.op].store == NoTask
    requires e.EnqNew? ==> OpId(s.nextId, e.qid) !in s.ops
    ensures SleepOk(EnqueueNext(c, s, e))
  {
    SleepKeeps(s, EnqueueNext(c, s, e));
  }

  lemma StoreKeeps(c: Config, s: State, t: StoreStep)
    requires Inv(c, s) && StoreEnabled(c, s, t)
    ensures Inv(c, StoreNext(c, s, t))
  {
    StoreOps(c, s, t);
    StoreShape(c, s, t);
    ShapeKeeps(s, StoreNext(c, s, t));
    StorePool(c, s, StoreNext(c, s, t), t);
    StoreSleep(c, s, t);
    StoreDeletes(c, s, t);
    if t.StoreLog? { OperationLog.CompleteKeeps(s.enq, t.op); }
  }

  lemma ShapeKeeps(s: State, s': State)
    requires IdsOk(s) && SameShape(s, s')
    ensures IdsOk(s')
    ensures MarkOk(s) && s'.mark == s.mark && s'.added == s.added ==> MarkOk(s')
  {
  }

  lemma StoreSleep(c: Config, s: State, t: StoreStep)
    requires SleepOk(s) && QueueOk(s) && StoreEnabled(c, s, t)
    ensures SleepOk(StoreNext(c, s, t))
  {
    assert t.StoreTake? ==> s.fifo[0] in s.fifo;
    SleepKeeps(s, StoreNext(c, s, t));
  }

  lemma AddPidKeeps(c: Config, s: State, a: AddPidStep)
    requires Inv(c, s) && AddPidEnabled(s, a)
    ensures Inv(c, AddPidNext(s, a))
  {
    assert OpOk(c, ViewOf(s, a.op));
    OneFirst(c, s, a.op);
    AddPidOps(c, s, a);
    AddPidShape(s, a);
    ShapeKeeps(s, AddPidNext(s, a));
    AddPidMark(c, s, a);
    AddPidPool(c, s, a);
    AddPidSleep(s, a);
    AddPidDeletes(c, s, a);
  }

  /** The other operations with the id of a first enqueue are duplicates. */
  lemma OneFirst(c: Config, s: State, a: OpId)
    requires IdsOk(s) && a in s.ops && OpOk(c, ViewOf(s, a))
    ensures s.ops[a].store == MainPending ==> forall op | op in s.ops && op != a && op.pid == a.pid :: s.ops[op].dup
  {
  }

  lemma DequeueKeeps(c: Config, s: State, d: DequeueStep)
    requires Inv(c, s) && DequeueEnabled(s, d)
    ensures Inv(c, DequeueNext(c, s, d))
  {
    DequeueOps(c, s, d);
    DequeueShape(c, s, d);
    SameStoreKeeps(c, s, DequeueNext(c, s, d));
    assert OpOk(c, ViewOf(s, d.op));
    DequeueDeletes(c, s, d);
    if d.DeqLogStart? { OperationLog.StartKeeps(s.deq, d.op, ()); }
    if d.DeqCancelLog? { OperationLog.CompleteKeeps(s.enq, d.op); }
  }

  lemma WaitKeeps(c: Config, s: State, w: WaitStep)
    requires Inv(c, s) && WaitEnabled(s, w)
    ensures Inv(c, WaitNext(s, w))
  {
    WaitFacts(s, w);
    WaitOps(c, s, w);
    WaitRest(c, s, w);
    WaitDeletes(c, s, w);
  }

  lemma WaitRest(c: Config, s: State, w: WaitStep)
    requires DomainOk(s) && IdsOk(s) && MarkOk(s) && PoolOk(c, s) && SleepOk(s)
    requires WaitEnabled(s, w) && w.op in s.ops
    ensures var s' := WaitNext(s, w); DomainOk(s') && IdsOk(s') && MarkOk(s') && PoolOk(c, s') && SleepOk(s')
    ensures WaitNext(s, w).enq == s.enq && WaitNext(s, w).deq == s.deq
  {
    WaitShape(s, w);
    WaitDomain(s, w);
    SameStoreKeeps(c, s, WaitNext(s, w));
    WaitSleep(s, WaitNext(s, w), w.op);
  }

  lemma WaitFacts(s: State, w: WaitStep)
    requires DomainOk(s) && IdsOk(s) && MarkOk(s) && WaitEnabled(s, w)
    ensures w.op in s.ops
    ensures w.op.pid <= s.mark.last ==> w.op.pid in s.added
  {
  }

  lemma WaitSleep(s: State, s': State, op: OpId)
    requires SleepOk(s) && SameStore(s, s') && s'.asleepMain <= s.asleepMain + {op}
    requires s'.asleepMain <= s.asleepMain || op.pid > s.mark.last
    ensures SleepOk(s')
  {
    SleepKeeps(s, s'.(asleepMain := s.asleepMain));
  }

  lemma DeleteKeeps(c: Config, s: State, x: DeleteStep)
    requires Inv(c, s) && DeleteEnabled(c, s, x)
    ensures Inv(c, DeleteNext(c, s, x))
  {
    DeleteOps(c, s, x);
    DeleteShape(c, s, x);
    DeleteDeletes(c, s, x);
    SameStoreKeeps(c, s, DeleteNext(c, s, x));
    if x.DelLog? { OperationLog.CompleteKeeps(s.deq, x.op); }
  }

  lemma CleanKeeps(c: Config, s: State, s': State)
    requires Inv(c, s) && LogsOk(s')
    requires s' == s.(enq := s'.enq, deq := s'.deq)
    requires s'.enq.started == s.enq.started && s'.enq.completed == s.enq.completed
    requires s'.deq.started == s.deq.started && s'.deq.completed == s.deq.completed
    ensures Inv(c, s')
  {
    forall op | op in s'.ops ensures OpOk(c, ViewOf(s', op)) {
      assert ViewOf(s', op) == ViewOf(s, op);
    }
    SameStoreKeeps(c, s, s');
  }

  lemma CleanEnqKeeps(c: Config, s: State, l: OperationLog.LogStep<Msg>)
    requires Inv(c, s) && IsClean(l) && OperationLog.Enabled(s.enq, l)
    ensures Inv(c, s.(enq := OperationLog.Next(s.enq, l)))
  {
    OperationLog.NextKeeps(s.enq, l);
    CleanKeeps(c, s, s.(enq := OperationLog.Next(s.enq, l)));
  }

  lemma CleanDeqKeeps(c: Config, s: State, l: OperationLog.LogStep<()>)
    requires Inv(c, s) && IsClean(l) && OperationLog.Enabled(s.deq, l)
    ensures Inv(c, s.(deq := OperationLog.Next(s.deq, l)))
  {
    OperationLog.NextKeeps(s.deq, l);
    CleanKeeps(c, s, s.(deq := OperationLog.Next(s.deq, l)));
  }

  /** Every step of every thread keeps the invariant. */
  lemma StepKeeps(c: Config, s: State, step: Step)
    requires Inv(c, s) && Enabled(c, s, step)
    ensures Inv(c, Apply(c, s, step))
  {
    match step
    case Enqueue(e) => EnqueueKeeps(c, s, e);
    case Store(t) => StoreKeeps(c, s, t);
    case AddPid(a) => AddPidKeeps(c, s, a);
    case Dequeue(d) => DequeueKeeps(c, s, d);
    case Wait(w) => WaitKeeps(c, s, w);
    case Delete(x) => DeleteKeeps(c, s, x);
    case CleanEnq(l) => CleanEnqKeeps(c, s, l);
    case CleanDeq(l) => CleanDeqKeeps(c, s, l);
  }

  lemma InitOk(c: Config)
    ensures Inv(c, Init())
  {
    EmptyIsValid<Msg>();
    EmptyIsValid<()>();
    var s := Init();
    assert DomainOk(s) && IdsOk(s) && MarkOk(s);
    assert QueueOk(s) && WorkersOk(c, s) && DeletesOk(s) && DeletersOk(c, s);
  }

  lemma EmptyIsValid<P(!new)>()
    ensures OperationLog.Valid(OperationLog.Empty<P>())
  {
    assert OperationLog.Empty<P>().All() == [];
  }

  /** The invariant holds after every run from the empty store. */
  lemma {:induction false} RunKeeps(c: Config, steps: seq<Step>)
    requires IsRun(c, steps)
    ensures Inv(c, Final(c, steps))
    decreases |steps|
  {
    if steps == [] {
      InitOk(c);
    } else {
      RunKeeps(c, steps[..|steps| - 1]);
      StepKeeps(c, Final(c, steps[..|steps| - 1]), steps[|steps| - 1]);
    }
  }
}
