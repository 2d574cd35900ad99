/** Every schedule ends: whatever order the threads take their steps in, the calls
    in hand come to an end after a bounded number of them, and only then. */
module Schedules {
  import opened Records
  import opened Protocol
  import opened ProtocolInvariant
  import opened Progress
  import opened Drain

  /** A step that a thread of the store takes by itself. */
  predicate Own(step: Step) {
    Internal(step) && !step.CleanEnq? && !step.CleanDeq? && !SelfWoken(step)
  }

  /** A wake-up without a notification. */
  predicate SelfWoken(step: Step) {
    step.Wait? && step.w.Spurious?
  }

  const LONGEST := 11

  /** Steps until a deletion is done or has to wait. A sleeper that nobody has
      notified has none: it is last. */
  function DueLeft(o: Op, asleepDup: bool, asleepMain: bool): (n: nat)
    ensures n <= LONGEST
    ensures n == 0 <==> DeleteLeft(o) == 0
  {
    match o.deq
    case NotBegun => 0
    case Starting => 11
    case StartLogged => 10
    case Cancelling => 1
    case Dequeued =>
      match o.del
      case NoDelete => 0
      case SleepDup(_) => if asleepDup then 1 else 9
      case SleepMain(_) => if asleepMain then 1 else 9
      case DelQueued => 8
      case WaitDup(_) => 7
      case WaitMain(_) => 6
      case Ready => 5
      case Deleted => 4
      case DelFinished => 0
  }

  ghost function DueOf(s: State, op: OpId): nat
    requires op in s.ops
  {
    DueLeft(s.ops[op], op in s.asleepDup, op in s.asleepMain)
  }

  ghost function Due(s: State): set<(OpId, nat)> {
    set op, k: nat | op in s.ops && 0 <= k < DueOf(s, op) :: (op, k)
  }

  /** A bound on the steps that are left. A step towards storing a message may wake
      every sleeper, and counts for more than all the others together. */
  ghost function Work(s: State): nat {
    |Todo(s, StoreLeft)| * (LONGEST * |s.ops| + 1) + |Due(s)|
  }

  // ---------------------------------------------------------------------
  // Sizes

  ghost function Row(op: OpId, n: nat): set<(OpId, nat)> {
    set k: nat | 0 <= k < n :: (op, k)
  }

  lemma {:induction false} RowSize(op: OpId, n: nat)
    ensures |Row(op, n)| == n
    decreases n
  {
    if n == 0 {
      assert Row(op, n) == {};
    } else {
      RowSize(op, n - 1);
      assert Row(op, n) == Row(op, n - 1) + {(op, n - 1)};
    }
  }

  ghost function Grid(ops: set<OpId>): set<(OpId, nat)> {
    set op, k: nat | op in ops && 0 <= k < LONGEST :: (op, k)
  }

  lemma {:induction false} GridSize(ops: set<OpId>)
    ensures |Grid(ops)| == LONGEST * |ops|
    decreases |ops|
  {
    if ops == {} {
      assert Grid(ops) == {};
    } else {
      var op :| op in ops;
      GridSize(ops - {op});
      RowSize(op, LONGEST);
      assert Grid(ops) == Grid(ops - {op}) + Row(op, LONGEST);
      assert |ops| == |ops - {op}| + 1;
    }
  }

  lemma SmallerSet<T>(a: set<T>, b: set<T>)
    requires a < b
    ensures |a| < |b|
  {
    var x :| x in b && x !in a;
    SubsetSize(a, b - {x});
  }

  lemma DueIsBounded(s: State)
    ensures |Due(s)| <= LONGEST * |s.ops|
  {
    GridSize(s.ops.Keys);
    SubsetSize(Due(s), Grid(s.ops.Keys));
    assert |s.ops.Keys| == |s.ops|;
  }

  lemma FewerStores(a: nat, a': nat, k: nat, b: nat, b': nat)
    requires a' < a && b' < k
    ensures a' * k + b' < a * k + b
  {
    assert a' * k + k == (a' + 1) * k <= a * k;
  }

  lemma StoreLowers(s: State, s': State)
    requires s'.ops.Keys == s.ops.Keys && Todo(s', StoreLeft) < Todo(s, StoreLeft)
    ensures Work(s') < Work(s)
  {
    SmallerSet(Todo(s', StoreLeft), Todo(s, StoreLeft));
    DueIsBounded(s');
    assert |s.ops.Keys| == |s.ops| && |s'.ops.Keys| == |s'.ops|;
    FewerStores(|Todo(s, StoreLeft)|, |Todo(s', StoreLeft)|, LONGEST * |s.ops| + 1, |Due(s)|, |Due(s')|);
  }

  // ---------------------------------------------------------------------
  // Steps of calls to `dequeue` and of deletions

  /** Only this operation has moved, and its deletion is nearer to its end. */
  ghost predicate Nearer(s: State, s': State, op: OpId) {
    && op in s.ops && s'.ops.Keys == s.ops.Keys
    && SameCall(s.ops[op], s'.ops[op]) && StoreLeft(s'.ops[op]) == StoreLeft(s.ops[op])
    && DueOf(s', op) < DueOf(s, op)
    && (forall x | x in s.ops && x != op :: s'.ops[x] == s.ops[x] && DueOf(s', x) == DueOf(s, x))
  }

  lemma NearerLowers(s: State, s': State, op: OpId)
    requires Nearer(s, s', op)
    ensures Work(s') < Work(s) && SameCalls(s, s')
  {
    assert Todo(s', StoreLeft) == Todo(s, StoreLeft);
    assert (op, DueOf(s', op)) in Due(s) && (op, DueOf(s', op)) !in Due(s');
    SmallerSet(Due(s'), Due(s));
    assert |s.ops.Keys| == |s.ops| && |s'.ops.Keys| == |s'.ops|;
  }

  lemma SetNearer(s: State, s': State, op: OpId, o: Op)
    requires op in s.ops && s'.ops == s.ops[op := o]
    requires SameCall(s.ops[op], o) && StoreLeft(o) == StoreLeft(s.ops[op])
    requires DueLeft(o, op in s'.asleepDup, op in s'.asleepMain) < DueOf(s, op)
    requires forall x | x != op ::
               (x in s'.asleepDup <==> x in s.asleepDup) && (x in s'.asleepMain <==> x in s.asleepMain)
    ensures Nearer(s, s', op)
  {
  }

  lemma DequeueNears(c: Config, s: State, d: DequeueStep)
    requires DequeueEnabled(s, d) && !d.DeqCheck? && OpOk(c, ViewOf(s, d.op))
    ensures Nearer(s, DequeueNext(c, s, d), d.op)
  {
    var s', o := DequeueNext(c, s, d), s.ops[d.op];
    match d
    case DeqLogStart(op) => SetNearer(s, s', op, o.(deq := StartLogged));
    case DeqSchedule(op) => SetNearer(s, s', op, o.(deq := Dequeued, del := DelQueued));
    case DeqCancelLog(op) => SetNearer(s, s', op, o.(deq := Dequeued));
  }

  lemma CheckDupNears(s: State, op: OpId)
    requires WaitEnabled(s, CheckDup(op)) && s.ops[op].deq == Dequeued
    ensures Nearer(s, WaitNext(s, CheckDup(op)), op)
  {
    var s', o := WaitNext(s, CheckDup(op)), s.ops[op];
    SetNearer(s, s', op, o.(del := if op in s.dups then SleepDup(o.del.tries) else WaitMain(o.del.tries)));
  }

  lemma CheckMainNears(s: State, op: OpId)
    requires WaitEnabled(s, CheckMain(op)) && s.ops[op].deq == Dequeued
    ensures Nearer(s, WaitNext(s, CheckMain(op)), op)
  {
    var s', o := WaitNext(s, CheckMain(op)), s.ops[op];
    SetNearer(s, s', op, o.(del := if op.pid > s.mark.last then SleepMain(o.del.tries) else Ready));
  }

  lemma WakeNears(s: State, op: OpId)
    requires WaitEnabled(s, Wake(op)) && s.ops[op].deq == Dequeued
    ensures Nearer(s, WaitNext(s, Wake(op)), op)
  {
    SetNearer(s, WaitNext(s, Wake(op)), op, s.ops[op].(del := Woken(s.ops[op].del)));
  }

  lemma WaitNears(c: Config, s: State, w: WaitStep)
    requires WaitEnabled(s, w) && !w.Spurious? && OpOk(c, ViewOf(s, w.op))
    ensures Nearer(s, WaitNext(s, w), w.op)
  {
    InProgress(c, ViewOf(s, w.op));
    match w
    case CheckDup(op) => CheckDupNears(s, op);
    case CheckMain(op) => CheckMainNears(s, op);
    case Wake(op) => WakeNears(s, op);
  }

  lemma DeleteNears(c: Config, s: State, x: DeleteStep, op: OpId)
    requires DeleteEnabled(c, s, x) && op == DeleteOp(s, x) && OpOk(c, ViewOf(s, op))
    requires x.DelTake? ==> s.ops[op].del == DelQueued
    ensures Nearer(s, DeleteNext(c, s, x), op)
  {
    InProgress(c, ViewOf(s, op));
    var s', o := DeleteNext(c, s, x), s.ops[op];
    match x
    case DelTake => SetNearer(s, s', op, o.(del := WaitDup(0)));
    case DelRemove(_) => SetNearer(s, s', op, o.(del := Deleted));
    case DelLog(_) => SetNearer(s, s', op, o.(del := DelFinished));
  }

  lemma NearsOf(c: Config, s: State, step: Step) returns (op: OpId)
    requires OpsOk(c, s) && DeletesOk(s) && Enabled(c, s, step) && Own(step) && !Storing(step)
    ensures Nearer(s, Apply(c, s, step), op)
  {
    match step
    case Dequeue(d) =>
      op := d.op;
      DequeueNears(c, s, d);
    case Wait(w) =>
      op := w.op;
      WaitNears(c, s, w);
    case Delete(x) =>
      op := DeleteOp(s, x);
      assert x.DelTake? ==> op in s.deletes;
      DeleteNears(c, s, x, op);
  }

  /** Every such step lowers the bound. */
  lemma OwnLowers(c: Config, s: State, step: Step)
    requires Inv(c, s) && Enabled(c, s, step) && Own(step)
    ensures Work(Apply(c, s, step)) < Work(s) && SameCalls(s, Apply(c, s, step))
  {
    if Storing(step) {
      StoringShrinks(c, s, step);
      StoreLowers(s, Apply(c, s, step));
    } else {
      var op := NearsOf(c, s, step);
      NearerLowers(s, Apply(c, s, step), op);
    }
  }

  // ---------------------------------------------------------------------
  // The other steps that are not new calls

  lemma SameOpsSameStores(s: State, s': State)
    requires s'.ops == s.ops
    ensures Todo(s', StoreLeft) == Todo(s, StoreLeft) && SameCalls(s, s')
  {
  }

  lemma SameOpsSameDue(s: State, s': State)
    requires s'.ops == s.ops && s'.asleepDup == s.asleepDup && s'.asleepMain == s.asleepMain
    ensures Due(s') == Due(s)
  {
  }

  lemma WorkIs(s: State, s': State)
    requires Todo(s', StoreLeft) == Todo(s, StoreLeft) && |s'.ops| == |s.ops|
    ensures Work(s') - |Due(s')| == Work(s) - |Due(s)|
  {
  }

  lemma CleaningKeepsOps(c: Config, s: State, step: Step, s': State)
    requires Enabled(c, s, step) && (step.CleanEnq? || step.CleanDeq?) && s' == Apply(c, s, step)
    ensures s'.ops == s.ops && s'.asleepDup == s.asleepDup && s'.asleepMain == s.asleepMain
  {
  }

  lemma DueRises(s: State, s': State, op: OpId)
    requires s'.ops == s.ops
    requires forall x | x != op ::
               (x in s'.asleepDup <==> x in s.asleepDup) && (x in s'.asleepMain <==> x in s.asleepMain)
    ensures |Due(s')| <= |Due(s)| + LONGEST
  {
    RowSize(op, LONGEST);
    SubsetSize(Due(s'), Due(s) + Row(op, LONGEST));
    assert |Due(s) + Row(op, LONGEST)| <= |Due(s)| + |Row(op, LONGEST)|;
  }

  lemma SpuriousRaises(s: State, op: OpId)
    requires WaitEnabled(s, Spurious(op))
    ensures Work(WaitNext(s, Spurious(op))) <= Work(s) + LONGEST && SameCalls(s, WaitNext(s, Spurious(op)))
  {
    var s' := WaitNext(s, Spurious(op));
    SameOpsSameStores(s, s');
    DueRises(s, s', op);
    WorkIs(s, s');
  }

  lemma CleaningIsApart(c: Config, s: State, step: Step, s': State)
    requires Enabled(c, s, step) && (step.CleanEnq? || step.CleanDeq?) && s' == Apply(c, s, step)
    ensures Work(s') == Work(s) && SameCalls(s, s')
  {
    CleaningKeepsOps(c, s, step, s');
    SameOpsSameStores(s, s');
    SameOpsSameDue(s, s');
    WorkIs(s, s');
  }

  // ---------------------------------------------------------------------
  // Whole schedules

  function Count(steps: seq<Step>, p: Step -> bool): nat {
    if steps == [] then 0 else Count(steps[..|steps| - 1], p) + if p(steps[|steps| - 1]) then 1 else 0
  }

  lemma StepCharged(c: Config, s: State, step: Step)
    requires Inv(c, s) && Enabled(c, s, step) && Internal(step)
    ensures Work(Apply(c, s, step)) + (if Own(step) then 1 else 0) <=
            Work(s) + LONGEST * (if SelfWoken(step) then 1 else 0)
    ensures SameCalls(s, Apply(c, s, step))
  {
    if Own(step) {
      OwnLowers(c, s, step);
    } else if SelfWoken(step) {
      SpuriousRaises(s, step.w.op);
    } else {
      CleaningIsApart(c, s, step, Apply(c, s, step));
    }
  }

  /** Whatever the threads do after some point, without new calls: the steps of
      their own are no more than the work that was left, and LONGEST for every wake-up
      without a notification. The cleaners may go on for ever. */
  lemma {:induction false} EveryScheduleEnds(c: Config, steps: seq<Step>, more: seq<Step>)
    requires IsRun(c, steps) && IsRun(c, steps + more) && (forall x | x in more :: Internal(x))
    ensures Count(more, Own) + Work(Final(c, steps + more)) <= Work(Final(c, steps)) + LONGEST * Count(more, SelfWoken)
    ensures SameCalls(Final(c, steps), Final(c, steps + more))
    decreases |more|
  {
    if more == [] {
      assert steps + more == steps;
    } else {
      var last, before := more[|more| - 1], more[..|more| - 1];
      assert (steps + more)[..|steps + more| - 1] == steps + before;
      assert forall x | x in before :: x in more;
      EveryScheduleEnds(c, steps, before);
      RunKeeps(c, steps + before);
      StepCharged(c, Final(c, steps + before), last);
      SameCallsTransitive(Final(c, steps), Final(c, steps + before), Final(c, steps + more));
    }
  }

  /** No thread can take a step of its own. */
  ghost predicate Stuck(c: Config, s: State) {
    forall step | Own(step) :: !Enabled(c, s, step)
  }

  lemma NoWork(s: State)
    ensures AllStored(s) && AllDone(s) ==> Work(s) == 0
  {
    if AllStored(s) && AllDone(s) {
      assert Todo(s, StoreLeft) == {} && Due(s) == {};
    }
  }

  lemma AdvanceIsOwn(c: Config, s: State, step: Step, op: OpId)
    requires Advance(c, s, step, op)
    ensures Own(step)
  {
  }

  /** Nothing but the queues of the pools and the two condition variables makes anybody
      wait: a call, a store task or a deletion that is in none of them can take its
      next step in every state; a queue with a thread to spare gives out its oldest
      task; and a sleeper may wake up by itself. */
  lemma NeverBlocked(c: Config, s: State, op: OpId)
    requires PoolOk(c, s) && DeletesOk(s) && op in s.ops
    ensures var o := s.ops[op]; o.enq != Scheduled || Running(o.store) ==> Enabled(c, s, OwnStep(o, op))
    ensures var o := s.ops[op];
            DeleteLeft(o) > 0 && o.del != DelQueued && !Asleep(s, op) ==> Enabled(c, s, DeleteStepOf(o, op))
    ensures s.ops[op].store == Queued && |s.running| < c.workers ==> Enabled(c, s, Store(StoreTake))
    ensures s.ops[op].del == DelQueued && |s.deleting| < c.deleters ==> Enabled(c, s, Delete(DelTake))
    ensures Asleep(s, op) ==> Enabled(c, s, Wait(Spurious(op)))
  {
    if s.ops[op].enq != Scheduled || Running(s.ops[op].store) {
      OwnStepEnabled(c, s, op);
    }
    DeletionNotBlocked(c, s, op);
    if s.ops[op].store == Queued {
      assert op in s.fifo && s.fifo[0] in s.fifo;
    }
    if s.ops[op].del == DelQueued {
      assert op in s.deletes && s.deletes[0] in s.deletes;
    }
  }

  lemma DeletionNotBlocked(c: Config, s: State, op: OpId)
    requires op in s.ops
    ensures var o := s.ops[op];
            DeleteLeft(o) > 0 && o.del != DelQueued && !Asleep(s, op) ==> Enabled(c, s, DeleteStepOf(o, op))
  {
  }

  /** In one of the condition variables. */
  predicate Asleep(s: State, op: OpId)
    requires op in s.ops
  {
    (s.ops[op].del.SleepDup? && op in s.asleepDup) || (s.ops[op].del.SleepMain? && op in s.asleepMain)
  }

  /** As long as something is left to do, some thread can go on. */
  lemma StepIsPossible(c: Config, s: State) returns (step: Step)
    requires Inv(c, s) && c.workers >= 1 && c.deleters >= 1 && !(AllStored(s) && AllDone(s))
    ensures Own(step) && Enabled(c, s, step)
  {
    if !AllStored(s) {
      var op :| op in s.ops && StoreLeft(s.ops[op]) != 0;
      step := StoringIsPossible(c, s, op);
    } else {
      var op :| op in s.ops && DeleteLeft(s.ops[op]) != 0;
      var t;
      step, t := DeletingIsPossible(c, s, op);
      AdvanceIsOwn(c, s, step, t);
    }
  }

  lemma StuckIsDone(c: Config, s: State)
    requires Inv(c, s) && c.workers >= 1 && c.deleters >= 1 && Stuck(c, s)
    ensures AllStored(s) && AllDone(s)
  {
    if !(AllStored(s) && AllDone(s)) {
      var step := StepIsPossible(c, s);
    }
  }

  lemma DoneIsStuck(c: Config, s: State)
    requires Inv(c, s) && AllStored(s) && AllDone(s)
    ensures Stuck(c, s)
  {
    NoWork(s);
    forall step | Own(step) && Enabled(c, s, step) ensures false {
      OwnLowers(c, s, step);
    }
  }

  /** It is over if and only if every message is stored and every deletion done:
      nobody waits for ever. */
  lemma StuckIffDone(c: Config, s: State)
    requires Inv(c, s) && c.workers >= 1 && c.deleters >= 1
    ensures Stuck(c, s) <==> AllStored(s) && AllDone(s)
  {
    if Stuck(c, s) {
      StuckIsDone(c, s);
    }
    if AllStored(s) && AllDone(s) {
      DoneIsStuck(c, s);
    }
  }

  /** So a schedule without new calls that cannot be continued has finished all the
      work in hand; the journal holds exactly the messages that were enqueued and
      not dequeued before. */
  lemma ScheduleEndsAtRest(c: Config, steps: seq<Step>, more: seq<Step>)
    requires IsRun(c, steps) && IsRun(c, steps + more) && (forall x | x in more :: Internal(x))
    requires c.workers >= 1 && c.deleters >= 1 && Stuck(c, Final(c, steps + more))
    ensures forall op | op in Final(c, steps + more).ops :: AtRest(Final(c, steps + more).ops[op])
    ensures Final(c, steps + more).journal == Live(Final(c, steps))
  {
    EveryScheduleEnds(c, steps, more);
    RunKeeps(c, steps + more);
    EndsAtRest(c, Final(c, steps + more));
    SameLive(Final(c, steps), Final(c, steps + more));
  }

  lemma EndsAtRest(c: Config, s: State)
    requires Inv(c, s) && c.workers >= 1 && c.deleters >= 1 && Stuck(c, s)
    ensures (forall op | op in s.ops :: AtRest(s.ops[op])) && s.journal == Live(s)
  {
    StuckIsDone(c, s);
    DoneIsAtRest(c, s);
    RestJournal(c, s);
  }
}
