/** Safety of the deletions, absence of deadlock, and the state the store comes
    to rest in. */
module Progress {
  import opened Records
  import opened Watermark
  import opened Protocol
  import opened ProtocolInvariant
  import OperationLog

  // ---------------------------------------------------------------------
  // A deletion finds its message

  /** When the deletion is about to run, the put has happened, its completion is
      logged, `addPid` has taken the duplicate away or added the id of the first
      enqueue, and the message is in the journal: the put can no longer follow the
      deletion and leave the message behind. */
  lemma DeleteAfterPut(c: Config, steps: seq<Step>, s: State, op: OpId)
    requires IsRun(c, steps) && s == Final(c, steps) && DeleteEnabled(c, s, DelRemove(op))
    ensures op in s.journal && s.journal[op] == s.ops[op].msg
    ensures PastLog(s.ops[op].store) && op in s.enq.completed
    ensures PastDup(s.ops[op].store) && op !in s.dups
    ensures s.ops[op].dup || (PastMain(s.ops[op].store) && op.pid in s.added)
  {
    RunKeeps(c, steps);
    ReadyToDelete(c, s, op);
  }

  lemma ReadyToDelete(c: Config, s: State, op: OpId)
    requires OpsOk(c, s) && op in s.ops && s.ops[op].del == Ready
    ensures op in s.journal && s.journal[op] == s.ops[op].msg
    ensures PastLog(s.ops[op].store) && op in s.enq.completed
    ensures PastDup(s.ops[op].store) && op !in s.dups
    ensures s.ops[op].dup || (PastMain(s.ops[op].store) && op.pid in s.added)
  {
    assert OpOk(c, ViewOf(s, op));
  }

  predicate Gone(s: State, op: OpId) {
    op in s.ops && (s.ops[op].del == Deleted || s.ops[op].del == DelFinished)
  }

  lemma GoneEnqueue(c: Config, s: State, e: EnqueueStep, op: OpId)
    requires EnqueueEnabled(s, e) && Gone(s, op) && IdsOk(s)
    ensures Gone(EnqueueNext(c, s, e), op)
  {
    assert op.pid in s.first;
  }

  lemma GoneDequeue(c: Config, s: State, d: DequeueStep, op: OpId)
    requires DequeueEnabled(s, d) && Gone(s, op) && OpOk(c, ViewOf(s, op))
    ensures Gone(DequeueNext(c, s, d), op)
  {
  }

  lemma GoneStore(c: Config, s: State, t: StoreStep, op: OpId)
    requires StoreEnabled(c, s, t) && Gone(s, op)
    ensures Gone(StoreNext(c, s, t), op)
  {
  }

  lemma GoneAddPid(s: State, a: AddPidStep, op: OpId)
    requires AddPidEnabled(s, a) && Gone(s, op)
    ensures Gone(AddPidNext(s, a), op)
  {
  }

  lemma GoneWait(s: State, w: WaitStep, op: OpId)
    requires WaitEnabled(s, w) && Gone(s, op)
    ensures Gone(WaitNext(s, w), op)
  {
  }

  lemma GoneDelete(c: Config, s: State, x: DeleteStep, op: OpId)
    requires DeleteEnabled(c, s, x) && Gone(s, op) && op !in s.deletes
    ensures Gone(DeleteNext(c, s, x), op)
  {
  }

  lemma GoneStays(c: Config, s: State, step: Step, op: OpId)
    requires Enabled(c, s, step) && Gone(s, op) && IdsOk(s) && DeletesOk(s) && OpOk(c, ViewOf(s, op))
    ensures Gone(Apply(c, s, step), op)
  {
    match step
    case Enqueue(e) => GoneEnqueue(c, s, e, op);
    case Store(t) => GoneStore(c, s, t, op);
    case AddPid(a) => GoneAddPid(s, a, op);
    case Dequeue(d) => GoneDequeue(c, s, d, op);
    case Wait(w) => GoneWait(s, w, op);
    case Delete(x) => GoneDelete(c, s, x, op);
    case CleanEnq(_) =>
    case CleanDeq(_) =>
  }

  /** ... so once deleted, a message is never in the journal again. */
  lemma {:induction false} NeverAgain(c: Config, steps: seq<Step>, k: nat, op: OpId)
    requires IsRun(c, steps) && k <= |steps| && IsRun(c, steps[..k]) && Gone(Final(c, steps[..k]), op)
    ensures Gone(Final(c, steps), op) && op !in Final(c, steps).journal
    decreases |steps|
  {
    RunKeeps(c, steps);
    if k == |steps| {
      assert steps[..k] == steps;
    } else {
      var before := steps[..|steps| - 1];
      assert before[..k] == steps[..k];
      NeverAgain(c, before, k, op);
      RunKeeps(c, before);
      assert OpOk(c, ViewOf(Final(c, before), op));
      GoneStays(c, Final(c, before), steps[|steps| - 1], op);
    }
    assert OpOk(c, ViewOf(Final(c, steps), op));
  }

  // ---------------------------------------------------------------------
  // A sleeper is always waiting for somebody

  /** The first enqueue of the id right after the watermark. */
  ghost function Awaited(s: State): OpId
    requires s.mark.last + 1 in s.first
  {
    OpId(s.mark.last + 1, s.first[s.mark.last + 1])
  }

  /** No lost wake-up: a deletion that sleeps on its duplicate waits for its own
      store task, which has not erased the duplicate or has yet to notify; one
      that sleeps on the watermark waits for a notification that is due, or for
      the first enqueue of the next id, which will advance the watermark. */
  lemma NoLostWakeup(c: Config, steps: seq<Step>, s: State, op: OpId)
    requires IsRun(c, steps) && s == Final(c, steps)
    ensures op in s.asleepDup ==> op in s.ops && (!PastDup(s.ops[op].store) || s.ops[op].store == DupErased)
    ensures op in s.asleepMain && !(exists t :: t in s.ops && s.ops[t].store == MainNotify) ==>
              && op.pid > s.mark.last && s.mark.last + 1 in s.first
              && var t := Awaited(s);
                 t in s.ops && !s.ops[t].dup && !PastMain(s.ops[t].store) && Advances(s.mark, t.pid)
  {
    RunKeeps(c, steps);
    if op in s.asleepDup {
      OwnTask(c, s, op);
    }
    if op in s.asleepMain && !(exists t :: t in s.ops && s.ops[t].store == MainNotify) {
      WaitsForNext(s, op);
      Unfinished(c, s, Awaited(s));
    }
  }

  lemma WaitsForNext(s: State, op: OpId)
    requires IdsOk(s) && MarkOk(s) && SleepOk(s) && op in s.asleepMain && op in s.ops
    requires !(exists t :: t in s.ops && s.ops[t].store == MainNotify)
    ensures op.pid > s.mark.last && s.mark.last + 1 in s.first
    ensures var t := Awaited(s); t in s.ops && !s.ops[t].dup && t.pid !in s.added && Advances(s.mark, t.pid)
  {
    NextIsIssued(s, op);
    NextAdvances(s.mark);
  }

  lemma OwnTask(c: Config, s: State, op: OpId)
    requires OpsOk(c, s) && DomainOk(s) && op in s.asleepDup
    ensures op in s.ops && (!PastDup(s.ops[op].store) || s.ops[op].store == DupErased)
  {
    assert OpOk(c, ViewOf(s, op));
  }

  lemma NextIsIssued(s: State, op: OpId)
    requires IdsOk(s) && op in s.ops && op.pid > s.mark.last
    ensures s.mark.last + 1 in s.first && Awaited(s) in s.ops && !s.ops[Awaited(s)].dup
    ensures MarkOk(s) ==> Awaited(s).pid !in s.added
  {
    assert op.pid in s.first;
    assert s.mark.last + 1 in s.first;
  }

  lemma Unfinished(c: Config, s: State, t: OpId)
    requires OpsOk(c, s) && t in s.ops && !s.ops[t].dup && t.pid !in s.added
    ensures !PastMain(s.ops[t].store)
  {
    assert OpOk(c, ViewOf(s, t));
  }

  lemma NextAdvances(m: Mark)
    requires m.last + 1 < TWO_64
    ensures Advances(m, m.last + 1)
  {
  }

  // ---------------------------------------------------------------------
  // Who sleeps

  ghost predicate Notifies(step: Step, dup: bool) {
    step.AddPid? && if dup then step.a.NotifyDup? else step.a.NotifyMain?
  }

  /** After a step, those sleep on the duplicates, or on the watermark, who slept there
      before and were not woken, and who found that they have to wait. */
  ghost predicate SleepersAfter(s: State, step: Step, s': State, op: OpId) {
    && (op in s'.asleepDup <==>
          || (op in s.asleepDup && !Notifies(step, true) && step != Wait(Spurious(op)))
          || (step == Wait(CheckDup(op)) && op in s.dups))
    && (op in s'.asleepMain <==>
          || (op in s.asleepMain && !Notifies(step, false) && step != Wait(Spurious(op)))
          || (step == Wait(CheckMain(op)) && op.pid > s.mark.last))
  }

  lemma AddPidSleepers(s: State, a: AddPidStep, op: OpId)
    requires AddPidEnabled(s, a)
    ensures SleepersAfter(s, AddPid(a), AddPidNext(s, a), op)
  {
  }

  lemma WaitSleepers(s: State, w: WaitStep, op: OpId)
    requires WaitEnabled(s, w)
    ensures SleepersAfter(s, Wait(w), WaitNext(s, w), op)
  {
  }

  lemma OtherSleepers(c: Config, s: State, step: Step, op: OpId)
    requires Enabled(c, s, step) && !step.AddPid? && !step.Wait?
    ensures SleepersAfter(s, step, Apply(c, s, step), op)
  {
    match step
    case Enqueue(e) => assert EnqueueNext(c, s, e).asleepDup == s.asleepDup;
    case Store(t) => assert StoreNext(c, s, t).asleepDup == s.asleepDup;
    case Dequeue(d) => assert DequeueNext(c, s, d).asleepDup == s.asleepDup;
    case Delete(x) => assert DeleteNext(c, s, x).asleepDup == s.asleepDup;
    case CleanEnq(_) =>
    case CleanDeq(_) =>
  }

  /** Nobody is woken but by a notification of the right kind, which wakes everybody,
      or of its own accord; nobody goes to sleep but on a failed test. */
  lemma SleepersAre(c: Config, s: State, step: Step, op: OpId)
    requires Enabled(c, s, step)
    ensures SleepersAfter(s, step, Apply(c, s, step), op)
  {
    match step
    case AddPid(a) => AddPidSleepers(s, a, op);
    case Wait(w) => WaitSleepers(s, w, op);
    case _ => OtherSleepers(c, s, step, op);
  }

  // ---------------------------------------------------------------------
  // Attempts of `waitForPid`

  /** `waitForPid` has been called and has not returned. */
  predicate Attempting(del: DelPc) {
    del.WaitDup? || del.SleepDup? || del.WaitMain? || del.SleepMain?
  }

  /** How often the deletion was woken since a thread last took it. */
  ghost function Wakes(c: Config, steps: seq<Step>, op: OpId): nat
    requires IsRun(c, steps)
    decreases |steps|
  {
    if steps == [] then 0
    else
      var before, last := steps[..|steps| - 1], steps[|steps| - 1];
      if last == Wait(Wake(op)) then Wakes(c, before, op) + 1
      else if Takes(Final(c, before), last, op) then 0
      else Wakes(c, before, op)
  }

  predicate Takes(s: State, step: Step, op: OpId) {
    step == Delete(DelTake) && s.deletes != [] && s.deletes[0] == op
  }

  /** What a step may do to the count of an attempt. */
  ghost predicate Counted(s: State, step: Step, s': State, op: OpId) {
    op in s'.ops && Attempting(s'.ops[op].del) ==>
      if Takes(s, step, op) then s'.ops[op].del == WaitDup(0)
      else op in s.ops && Attempting(s.ops[op].del) &&
           s'.ops[op].del.tries == s.ops[op].del.tries + if step == Wait(Wake(op)) then 1 else 0
  }

  lemma EnqueueCounts(c: Config, s: State, e: EnqueueStep, op: OpId)
    requires EnqueueEnabled(s, e)
    ensures Counted(s, Enqueue(e), EnqueueNext(c, s, e), op)
  {
  }

  lemma StoreCounts(c: Config, s: State, t: StoreStep, op: OpId)
    requires StoreEnabled(c, s, t)
    ensures Counted(s, Store(t), StoreNext(c, s, t), op)
  {
  }

  lemma AddPidCounts(s: State, a: AddPidStep, op: OpId)
    requires AddPidEnabled(s, a)
    ensures Counted(s, AddPid(a), AddPidNext(s, a), op)
  {
  }

  lemma DequeueCounts(c: Config, s: State, d: DequeueStep, op: OpId)
    requires DequeueEnabled(s, d)
    ensures Counted(s, Dequeue(d), DequeueNext(c, s, d), op)
  {
  }

  lemma WaitCounts(s: State, w: WaitStep, op: OpId)
    requires WaitEnabled(s, w)
    ensures Counted(s, Wait(w), WaitNext(s, w), op)
  {
  }

  lemma DeleteCounts(c: Config, s: State, x: DeleteStep, op: OpId)
    requires DeleteEnabled(c, s, x)
    ensures Counted(s, Delete(x), DeleteNext(c, s, x), op)
  {
  }

  lemma StepCounts(c: Config, s: State, step: Step, op: OpId)
    requires Enabled(c, s, step)
    ensures Counted(s, step, Apply(c, s, step), op)
  {
    match step
    case Enqueue(e) => EnqueueCounts(c, s, e, op);
    case Store(t) => StoreCounts(c, s, t, op);
    case AddPid(a) => AddPidCounts(s, a, op);
    case Dequeue(d) => DequeueCounts(c, s, d, op);
    case Wait(w) => WaitCounts(s, w, op);
    case Delete(x) => DeleteCounts(c, s, x, op);
    case CleanEnq(_) =>
    case CleanDeq(_) =>
  }

  /** The number an attempt carries is the number of its wake-ups. */
  lemma {:induction false} TriesAreWakes(c: Config, steps: seq<Step>, op: OpId)
    requires IsRun(c, steps)
    ensures var s := Final(c, steps);
            op in s.ops && Attempting(s.ops[op].del) ==> s.ops[op].del.tries == Wakes(c, steps, op)
    decreases |steps|
  {
    if steps != [] {
      var before := steps[..|steps| - 1];
      TriesAreWakes(c, before, op);
      StepCounts(c, Final(c, before), steps[|steps| - 1], op);
    }
  }

  /** What a wake-up makes of an attempt that had been woken `n` times: the same test
      comes next, or the deletion is queued again. */
  ghost predicate GoesOn(s: State, s': State, op: OpId, n: nat)
    requires op in s.ops && op in s'.ops
  {
    match s.ops[op].del
    case SleepDup(_) => s'.ops[op].del == WaitDup(n + 1) && s'.deletes == s.deletes && s'.deleting == s.deleting
    case SleepMain(_) => s'.ops[op].del == WaitMain(n + 1) && s'.deletes == s.deletes && s'.deleting == s.deleting
    case _ => false
  }

  ghost predicate GivesUp(s: State, s': State, op: OpId)
    requires op in s'.ops
  {
    s'.ops[op].del == DelQueued && s'.deletes == s.deletes + [op] && s'.deleting == s.deleting - {op}
  }

  /** A sleeper does not hold its thread for ever, nor does it give up early: after
      any run, an attempt has been woken at most a hundred times, and the next
      wake-up ends it if and only if it has been woken exactly a hundred times; until
      then the same test comes next. */
  lemma BoundedAttempts(c: Config, steps: seq<Step>, s: State, op: OpId)
    requires IsRun(c, steps) && s == Final(c, steps) && WaitEnabled(s, Wake(op))
    ensures Wakes(c, steps, op) <= 100
    ensures GivesUp(s, WaitNext(s, Wake(op)), op) <==> Wakes(c, steps, op) == 100
    ensures GoesOn(s, WaitNext(s, Wake(op)), op, Wakes(c, steps, op)) <==> Wakes(c, steps, op) < 100
  {
    RunKeeps(c, steps);
    TriesAreWakes(c, steps, op);
    FewWakeUps(c, s, op);
    WakeUpIs(s, op, Wakes(c, steps, op));
  }

  lemma FewWakeUps(c: Config, s: State, op: OpId)
    requires OpsOk(c, s) && op in s.ops
    ensures WakeUps(s.ops[op].del) <= TRIES
  {
    assert OpOk(c, ViewOf(s, op));
  }

  lemma WakeUpIs(s: State, op: OpId, n: nat)
    requires WaitEnabled(s, Wake(op)) && s.ops[op].del.tries == n <= 100
    ensures GivesUp(s, WaitNext(s, Wake(op)), op) <==> n == 100
    ensures GoesOn(s, WaitNext(s, Wake(op)), op, n) <==> n < 100
  {
  }

  // ---------------------------------------------------------------------
  // At rest

  predicate AtRest(o: Op) {
    && o.enq == Scheduled && o.store == Finished
    && (o.deq == NotBegun || (o.deq == Dequeued && (o.cancelled || o.del == DelFinished)))
  }

  /** No call and no task is under way, and both cleaners have put back what they
      removed and dropped. */
  ghost predicate Quiet(s: State) {
    && (forall op | op in s.ops :: AtRest(s.ops[op]))
    && s.enq.Window() == {} && !s.enq.cleaner.Removed?
    && s.deq.Window() == {} && !s.deq.cleaner.Removed?
  }

  /** The messages that were enqueued and not dequeued. */
  ghost function Live(s: State): map<OpId, Msg> {
    map op | op in s.ops && s.ops[op].deq == NotBegun :: s.ops[op].msg
  }

  /** An operation at rest, and what the shared state holds of it. */
  lemma RestingOp(c: Config, v: View)
    requires OpOk(c, v) && AtRest(v.o)
    ensures v.stored == if v.o.deq == NotBegun then Some(v.o.msg) else None
    ensures v.completed && (v.deqStarted ==> v.deqCompleted)
    ensures !v.pend && !v.dup && !v.asleepDup && !v.asleepMain && (!v.o.dup ==> v.added)
    ensures v.o.deq == Dequeued ==> (v.o.exec <==> v.o.del == DelFinished)
    ensures v.o.deq == NotBegun ==> v.o.exec && v.o.del == NoDelete
    ensures !c.smart ==> v.o.exec
  {
  }

  lemma RestJournal(c: Config, s: State)
    requires OpsOk(c, s) && DomainOk(s) && forall op | op in s.ops :: AtRest(s.ops[op])
    ensures s.journal == Live(s)
  {
    forall op | op in s.ops ensures Find(s.journal, op) == Find(Live(s), op) {
      RestingOp(c, ViewOf(s, op));
    }
    SameMap(s.journal, Live(s), s.ops.Keys);
  }

  lemma SameMap<K, V>(m: map<K, V>, n: map<K, V>, keys: set<K>)
    requires m.Keys <= keys && n.Keys <= keys && forall k | k in keys :: Find(m, k) == Find(n, k)
    ensures m == n
  {
  }

  lemma QuietLogs(c: Config, s: State)
    requires OpsOk(c, s) && DomainOk(s) && Quiet(s) && OperationLog.Valid(s.enq) && OperationLog.Valid(s.deq)
    ensures s.enq.Recovered() == map[] && s.deq.Recovered() == map[]
  {
    OperationLog.RecoveryIsExact(s.enq);
    OperationLog.RecoveryIsExact(s.deq);
    forall op | op in s.ops
      ensures op in s.enq.completed && (op in s.deq.started ==> op in s.deq.completed)
    {
      RestingOp(c, ViewOf(s, op));
    }
  }

  lemma QuietTracker(c: Config, s: State)
    requires OpsOk(c, s) && DomainOk(s) && Quiet(s)
    ensures s.pends == {} && s.dups == {} && s.asleepDup == {} && s.asleepMain == {}
  {
    forall op | op in s.ops ensures op !in s.pends && op !in s.dups && op !in s.asleepDup && op !in s.asleepMain {
      RestingOp(c, ViewOf(s, op));
    }
  }

  lemma QuietMark(c: Config, s: State)
    requires OpsOk(c, s) && IdsOk(s) && MarkOk(s) && Quiet(s)
    ensures s.mark.last == s.nextId - 1 && s.mark.gap == {}
  {
    forall p: uint64 | 1 <= p < s.nextId ensures p in s.added {
      assert p in s.first;
      RestingOp(c, ViewOf(s, OpId(p, s.first[p])));
    }
    FullMark(s);
  }

  /** Once every issued id has been added, the watermark is the last of them. */
  lemma FullMark(s: State)
    requires MarkOk(s) && 1 <= s.nextId < TWO_64 && forall p: uint64 | 1 <= p < s.nextId :: p in s.added
    ensures s.mark.last == s.nextId - 1 && s.mark.gap == {}
  {
    assert s.mark.last > 0 ==> s.mark.last in s.added;
    assert s.mark.last + 1 !in s.added;
  }

  /** Of a message that was dequeued, put and deletion are both executed or both
      skipped; without smart async nothing is skipped. */
  lemma BothOrNeither(c: Config, steps: seq<Step>, s: State, op: OpId)
    requires IsRun(c, steps) && s == Final(c, steps) && Quiet(s) && op in s.ops
    ensures s.ops[op].deq == Dequeued ==> (s.ops[op].exec <==> s.ops[op].del == DelFinished)
    ensures s.ops[op].deq == NotBegun ==> s.ops[op].exec && s.ops[op].del == NoDelete
    ensures !c.smart ==> s.ops[op].exec
  {
    RunKeeps(c, steps);
    RestingOp(c, ViewOf(s, op));
  }

  /** Cancelling pairs is invisible: with or without it, once every operation is
      finished the journal holds exactly the live messages, nothing is pending in
      either log, and the tracker has seen every id. */
  lemma Quiescence(c: Config, steps: seq<Step>, s: State)
    requires IsRun(c, steps) && s == Final(c, steps) && Quiet(s)
    ensures s.journal == Live(s)
    ensures s.enq.Recovered() == map[] && s.deq.Recovered() == map[]
    ensures s.pends == {} && s.dups == {} && s.asleepDup == {} && s.asleepMain == {}
    ensures s.mark.last == s.nextId - 1 && s.mark.gap == {}
  {
    RunKeeps(c, steps);
    RestJournal(c, s);
    QuietLogs(c, s);
    QuietTracker(c, s);
    QuietMark(c, s);
  }
}
