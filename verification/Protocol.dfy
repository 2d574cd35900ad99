/** The write-behind protocol as a state machine. Every step is one section
    under a mutex, one journal transaction, one append to a log file, or one
    notification; a crash may fall between any two of them. */
module Protocol {
  import opened Records
  import opened Watermark
  import OperationLog

  type Log<P> = OperationLog.Log<P>

  /** `smart` is the `enable_smart_async` option; `workers` and `deleters` are
      the numbers of threads of the enqueue and the dequeue pool. */
  datatype Config = Config(smart: bool, workers: nat, deleters: nat)

  /** How far an `enqueue` call has come. */
  datatype EnqPc = Ided | Logged | Registered | Scheduled

  /** How far the `store` task has come; `Stored` follows the journal put (or
      its omission) and precedes the enqueue-complete record. The last four are
      the sections of `addPid`. */
  datatype StorePc =
    | NoTask | Queued | Taken | Checked | Stored | Recorded
    | DupErased | MainPending | MainNotify | Finished

  /** How far a `dequeue` call has come. */
  datatype DeqPc = NotBegun | Starting | StartLogged | Cancelling | Dequeued

  /** How far the `async_dequeue` task has come; the numbers count the wake-ups
      of `waitForPid`. */
  datatype DelPc =
    | NoDelete | DelQueued
    | WaitDup(tries: nat) | SleepDup(tries: nat)
    | WaitMain(tries: nat) | SleepMain(tries: nat)
    | Ready | Deleted | DelFinished

  /** One message on one queue. `dup` tells that the message already had its
      persistence id, `exec` is the outcome of the enqueue check of the store
      task, `cancelled` that of the dequeue check. */
  datatype Op = Op(
    msg: Msg, dup: bool,
    enq: EnqPc, store: StorePc, exec: bool,
    deq: DeqPc, cancelled: bool, del: DelPc)

  /** `fifo` and `deletes` are the queues of the two pools, `running` and `deleting`
      the tasks their threads have taken. `first`, `added` and `scheduled` are
      history: the queue each id was issued for, the ids given to the watermark
      and the store tasks in the order in which they were scheduled. */
  datatype State = State(
    ops: map<OpId, Op>,
    nextId: nat,
    first: map<uint64, uint64>,
    mark: Mark,
    added: set<uint64>,
    dups: set<OpId>,
    pends: set<OpId>,
    enq: Log<Msg>,
    deq: Log<()>,
    journal: map<OpId, Msg>,
    fifo: seq<OpId>,
    running: set<OpId>,
    scheduled: seq<OpId>,
    deletes: seq<OpId>,
    deleting: set<OpId>,
    asleepDup: set<OpId>,
    asleepMain: set<OpId>)

  datatype EnqueueStep =
    | EnqNew(qid: uint64, msg: Msg)
    | EnqDup(op: OpId, msg: Msg)
    | EnqLog(op: OpId)
    | EnqWill(op: OpId)
    | EnqSchedule(op: OpId)

  datatype StoreStep =
    | StoreTake
    | StoreCheck(op: OpId)
    | StorePut(op: OpId)
    | StoreLog(op: OpId)

  datatype AddPidStep =
    | EraseDup(op: OpId)
    | NotifyDup(op: OpId)
    | AddMain(op: OpId)
    | NotifyMain(op: OpId)

  datatype DequeueStep =
    | DeqCheck(op: OpId)
    | DeqLogStart(op: OpId)
    | DeqSchedule(op: OpId)
    | DeqCancelLog(op: OpId)

  datatype WaitStep =
    | CheckDup(op: OpId)
    | CheckMain(op: OpId)
    | Wake(op: OpId)
    | Spurious(op: OpId)

  datatype DeleteStep =
    | DelTake
    | DelRemove(op: OpId)
    | DelLog(op: OpId)

  datatype Step =
    | Enqueue(e: EnqueueStep)
    | Store(t: StoreStep)
    | AddPid(a: AddPidStep)
    | Dequeue(d: DequeueStep)
    | Wait(w: WaitStep)
    | Delete(x: DeleteStep)
    | CleanEnq(enqStep: OperationLog.LogStep<Msg>)
    | CleanDeq(deqStep: OperationLog.LogStep<()>)

  const TRIES := 100

  function Init(): State {
    State(map[], 1, map[], Mark(0, {}), {}, {}, {}, OperationLog.Empty(), OperationLog.Empty(),
          map[], [], {}, [], [], {}, {}, {})
  }

  predicate Running(pc: StorePc) {
    pc != NoTask && pc != Queued && pc != Finished
  }

  predicate Deleting(del: DelPc) {
    del != NoDelete && del != DelQueued && del != DelFinished
  }

  ghost predicate IsClean<P(!new)>(step: OperationLog.LogStep<P>) {
    !step.WriteStart? && !step.WriteComplete?
  }

  function Set(s: State, op: OpId, o: Op): State {
    s.(ops := s.ops[op := o])
  }

  /** `waitForPid` gives up after a hundred wake-ups, and goes back to
      the dequeue pool. */
  function Woken(del: DelPc): DelPc {
    match del
    case SleepDup(n) => if n + 1 > TRIES then DelQueued else WaitDup(n + 1)
    case SleepMain(n) => if n + 1 > TRIES then DelQueued else WaitMain(n + 1)
    case _ => del
  }

  // ---------------------------------------------------------------------

  predicate EnqueueEnabled(s: State, step: EnqueueStep) {
    match step
    case EnqNew(qid, _) =>
      qid != 0 && s.nextId < TWO_64 - 1 && s.nextId - s.mark.last < TWO_31
    case EnqDup(op, _) => op.qid != 0 && op !in s.ops && op.pid in s.first
    case EnqLog(op) => op in s.ops && s.ops[op].enq == Ided
    case EnqWill(op) => op in s.ops && s.ops[op].enq == Logged
    case EnqSchedule(op) => op in s.ops && s.ops[op].enq == Registered
  }

  /** `enqueue`: take an id or register a duplicate, log the start, announce the
      enqueue, schedule the store task. */
  function EnqueueNext(c: Config, s: State, step: EnqueueStep): State
    requires EnqueueEnabled(s, step)
  {
    match step
    case EnqNew(qid, msg) =>
      var op := OpId(s.nextId, qid);
      Set(s, op, Op(msg, false, Ided, NoTask, false, NotBegun, false, NoDelete))
        .(nextId := s.nextId + 1, first := s.first[op.pid := qid])
    case EnqDup(op, msg) =>
      Set(s, op, Op(msg, true, Ided, NoTask, false, NotBegun, false, NoDelete))
        .(dups := s.dups + {op})
    case EnqLog(op) =>
      var o := s.ops[op];
      Set(s, op, o.(enq := Logged)).(enq := OperationLog.Start(s.enq, op, o.msg))
    case EnqWill(op) =>
      Set(s, op, s.ops[op].(enq := Registered))
        .(pends := if c.smart then s.pends + {op} else s.pends)
    case EnqSchedule(op) =>
      Set(s, op, s.ops[op].(enq := Scheduled, store := Queued))
        .(fifo := s.fifo + [op], scheduled := s.scheduled + [op])
  }

  // ---------------------------------------------------------------------

  predicate StoreEnabled(c: Config, s: State, step: StoreStep) {
    match step
    case StoreTake => s.fifo != [] && s.fifo[0] in s.ops && |s.running| < c.workers
    case StoreCheck(op) => op in s.ops && s.ops[op].store == Taken
    case StorePut(op) => op in s.ops && s.ops[op].store == Checked
    case StoreLog(op) => op in s.ops && s.ops[op].store == Stored
  }

  /** `store`, run by the enqueue pool: check, put, log the completion, `addPid`. */
  function StoreNext(c: Config, s: State, step: StoreStep): State
    requires StoreEnabled(c, s, step)
  {
    match step
    case StoreTake =>
      var op := s.fifo[0];
      Set(s, op, s.ops[op].(store := Taken)).(fifo := s.fifo[1..], running := s.running + {op})
    case StoreCheck(op) =>
      Set(s, op, s.ops[op].(store := Checked, exec := !c.smart || op in s.pends))
        .(pends := if c.smart then s.pends - {op} else s.pends)
    case StorePut(op) =>
      var o := s.ops[op];
      Set(s, op, o.(store := Stored))
        .(journal := if o.exec && op !in s.journal then s.journal[op := o.msg] else s.journal)
    case StoreLog(op) =>
      Set(s, op, s.ops[op].(store := Recorded)).(enq := OperationLog.Complete(s.enq, op))
  }

  // ---------------------------------------------------------------------

  predicate AddPidEnabled(s: State, step: AddPidStep) {
    match step
    case EraseDup(op) => op in s.ops && s.ops[op].store == Recorded
    case NotifyDup(op) => op in s.ops && s.ops[op].store == DupErased
    case AddMain(op) => op in s.ops && s.ops[op].store == MainPending
    case NotifyMain(op) => op in s.ops && s.ops[op].store == MainNotify
  }

  /** `addPid`: the section on the duplicates, then, if the id was not one, the
      section on the watermark; each change is followed by its notification. */
  function AddPidNext(s: State, step: AddPidStep): State
    requires AddPidEnabled(s, step)
  {
    match step
    case EraseDup(op) =>
      if op in s.dups then Set(s, op, s.ops[op].(store := DupErased)).(dups := s.dups - {op})
      else Set(s, op, s.ops[op].(store := MainPending))
    case NotifyDup(op) =>
      Set(s, op, s.ops[op].(store := MainNotify)).(asleepDup := {})
    case AddMain(op) =>
      var updated := Advances(s.mark, op.pid);
      Set(s, op, s.ops[op].(store := if updated then MainNotify else Finished))
        .(mark := Add(s.mark, op.pid), added := s.added + {op.pid},
          running := if updated then s.running else s.running - {op})
    case NotifyMain(op) =>
      Set(s, op, s.ops[op].(store := Finished)).(asleepMain := {}, running := s.running - {op})
  }

  // ---------------------------------------------------------------------

  predicate DequeueEnabled(s: State, step: DequeueStep) {
    match step
    case DeqCheck(op) => op in s.ops && s.ops[op].enq == Scheduled && s.ops[op].deq == NotBegun
    case DeqLogStart(op) => op in s.ops && s.ops[op].deq == Starting
    case DeqSchedule(op) => op in s.ops && s.ops[op].deq == StartLogged
    case DeqCancelLog(op) => op in s.ops && s.ops[op].deq == Cancelling
  }

  /** `dequeue`: check; then log a start and schedule the deletion, or complete
      the enqueue that has just been cancelled. */
  function DequeueNext(c: Config, s: State, step: DequeueStep): State
    requires DequeueEnabled(s, step)
  {
    match step
    case DeqCheck(op) =>
      if c.smart && op in s.pends then
        Set(s, op, s.ops[op].(deq := Cancelling, cancelled := true)).(pends := s.pends - {op})
      else
        Set(s, op, s.ops[op].(deq := Starting))
    case DeqLogStart(op) =>
      Set(s, op, s.ops[op].(deq := StartLogged)).(deq := OperationLog.Start(s.deq, op, ()))
    case DeqSchedule(op) =>
      Set(s, op, s.ops[op].(deq := Dequeued, del := DelQueued)).(deletes := s.deletes + [op])
    case DeqCancelLog(op) =>
      Set(s, op, s.ops[op].(deq := Dequeued)).(enq := OperationLog.Complete(s.enq, op))
  }

  // ---------------------------------------------------------------------

  predicate WaitEnabled(s: State, step: WaitStep) {
    match step
    case CheckDup(op) => op in s.ops && s.ops[op].del.WaitDup?
    case CheckMain(op) => op in s.ops && s.ops[op].del.WaitMain?
    case Wake(op) =>
      op in s.ops && (if s.ops[op].del.SleepDup? then op !in s.asleepDup
                      else s.ops[op].del.SleepMain? && op !in s.asleepMain)
    case Spurious(op) => op in s.asleepDup || op in s.asleepMain
  }

  /** `waitForPid`: test one condition under its mutex, sleep or go on. */
  function WaitNext(s: State, step: WaitStep): State
    requires WaitEnabled(s, step)
  {
    match step
    case CheckDup(op) =>
      var n := s.ops[op].del.tries;
      if op in s.dups then Set(s, op, s.ops[op].(del := SleepDup(n))).(asleepDup := s.asleepDup + {op})
      else Set(s, op, s.ops[op].(del := WaitMain(n)))
    case CheckMain(op) =>
      var n := s.ops[op].del.tries;
      if op.pid > s.mark.last then
        Set(s, op, s.ops[op].(del := SleepMain(n))).(asleepMain := s.asleepMain + {op})
      else
        Set(s, op, s.ops[op].(del := Ready))
    case Wake(op) =>
      var del := Woken(s.ops[op].del);
      var again := del == DelQueued;
      Set(s, op, s.ops[op].(del := del))
        .(deletes := if again then s.deletes + [op] else s.deletes,
          deleting := if again then s.deleting - {op} else s.deleting)
    case Spurious(op) =>
      s.(asleepDup := s.asleepDup - {op}, asleepMain := s.asleepMain - {op})
  }

  // ---------------------------------------------------------------------

  predicate DeleteEnabled(c: Config, s: State, step: DeleteStep) {
    match step
    case DelTake => s.deletes != [] && s.deletes[0] in s.ops && |s.deleting| < c.deleters
    case DelRemove(op) => op in s.ops && s.ops[op].del == Ready
    case DelLog(op) => op in s.ops && s.ops[op].del == Deleted
  }

  /** `async_dequeue`, run by the dequeue pool: wait for the id, delete, log. */
  function DeleteNext(c: Config, s: State, step: DeleteStep): State
    requires DeleteEnabled(c, s, step)
  {
    match step
    case DelTake =>
      var op := s.deletes[0];
      Set(s, op, s.ops[op].(del := WaitDup(0))).(deletes := s.deletes[1..], deleting := s.deleting + {op})
    case DelRemove(op) =>
      Set(s, op, s.ops[op].(del := Deleted)).(journal := s.journal - {op})
    case DelLog(op) =>
      Set(s, op, s.ops[op].(del := DelFinished))
        .(deq := OperationLog.Complete(s.deq, op), deleting := s.deleting - {op})
  }

  // ---------------------------------------------------------------------

  ghost predicate Enabled(c: Config, s: State, step: Step) {
    match step
    case Enqueue(e) => EnqueueEnabled(s, e)
    case Store(t) => StoreEnabled(c, s, t)
    case AddPid(a) => AddPidEnabled(s, a)
    case Dequeue(d) => DequeueEnabled(s, d)
    case Wait(w) => WaitEnabled(s, w)
    case Delete(x) => DeleteEnabled(c, s, x)
    case CleanEnq(l) => IsClean(l) && OperationLog.Enabled(s.enq, l)
    case CleanDeq(l) => IsClean(l) && OperationLog.Enabled(s.deq, l)
  }

  ghost function Apply(c: Config, s: State, step: Step): State
    requires Enabled(c, s, step)
  {
    match step
    case Enqueue(e) => EnqueueNext(c, s, e)
    case Store(t) => StoreNext(c, s, t)
    case AddPid(a) => AddPidNext(s, a)
    case Dequeue(d) => DequeueNext(c, s, d)
    case Wait(w) => WaitNext(s, w)
    case Delete(x) => DeleteNext(c, s, x)
    case CleanEnq(l) => s.(enq := OperationLog.Next(s.enq, l))
    case CleanDeq(l) => s.(deq := OperationLog.Next(s.deq, l))
  }

  // ---------------------------------------------------------------------
  // Runs

  ghost predicate IsRun(c: Config, steps: seq<Step>)
    decreases |steps|, 0
  {
    steps == [] ||
    (IsRun(c, steps[..|steps| - 1]) && Enabled(c, Final(c, steps[..|steps| - 1]), steps[|steps| - 1]))
  }

  /** The state after a run from the empty store. */
  ghost function Final(c: Config, steps: seq<Step>): State
    requires IsRun(c, steps)
    decreases |steps|, 1
  {
    if steps == [] then Init()
    else Apply(c, Final(c, steps[..|steps| - 1]), steps[|steps| - 1])
  }

  lemma Extend(c: Config, steps: seq<Step>, step: Step)
    requires IsRun(c, steps) && Enabled(c, Final(c, steps), step)
    ensures IsRun(c, steps + [step]) && Final(c, steps + [step]) == Apply(c, Final(c, steps), step)
  {
    assert (steps + [step])[..|steps|] == steps;
  }

  /** The run with one more step. */
  lemma Then(c: Config, steps: seq<Step>, step: Step) returns (more: seq<Step>)
    requires IsRun(c, steps) && Enabled(c, Final(c, steps), step)
    ensures more == steps + [step] && IsRun(c, more) && Final(c, more) == Apply(c, Final(c, steps), step)
  {
    Extend(c, steps, step);
    more := steps + [step];
  }
}
