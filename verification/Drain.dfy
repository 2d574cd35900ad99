/** No deadlock: from every reachable state the work in hand can be brought to
    an end, and the state it ends in is determined by the calls alone. */
module Drain {
  import opened Records
  import opened Protocol
  import opened ProtocolInvariant
  import opened Progress
  import OperationLog
  import opened Watermark

  /** Steps an operation may still take until its message is stored. */
  function StoreLeft(o: Op): nat {
    match o.enq
    case Ided => 13
    case Logged => 12
    case Registered => 11
    case Scheduled => 8 - Rank(o.store)
  }

  /** Steps until its deletion is done, once it no longer has to wait. A sleeper
      that was woken often enough goes back to the queue of the pool. */
  function DeleteLeft(o: Op): nat {
    match o.deq
    case NotBegun => 0
    case Starting => 12
    case StartLogged => 11
    case Cancelling => 1
    case Dequeued =>
      match o.del
      case NoDelete => 0
      case SleepDup(_) => 8
      case SleepMain(_) => 8
      case DelQueued => 7
      case WaitDup(_) => 6
      case WaitMain(_) => 5
      case Ready => 4
      case Deleted => 3
      case DelFinished => 0
  }

  /** All the steps left, as a set: one step fewer is a smaller set. */
  ghost function Todo(s: State, left: Op -> nat): set<(OpId, nat)> {
    set op, k: nat | op in s.ops && 0 <= k < left(s.ops[op]) :: (op, k)
  }

  /** The same messages, of which the same have no dequeue. */
  predicate SameCall(o: Op, o': Op) {
    o'.msg == o.msg && (o'.deq == NotBegun <==> o.deq == NotBegun)
  }

  ghost predicate SameCalls(s: State, s': State) {
    s'.ops.Keys == s.ops.Keys && forall op | op in s.ops :: SameCall(s.ops[op], s'.ops[op])
  }

  /** Only this operation has moved, and towards its end. */
  ghost predicate Moves(s: State, s': State, left: Op -> nat, op: OpId) {
    && op in s.ops && s'.ops.Keys == s.ops.Keys
    && left(s'.ops[op]) < left(s.ops[op]) && SameCall(s.ops[op], s'.ops[op])
    && (forall x | x in s.ops && x != op :: s'.ops[x] == s.ops[x])
  }

  lemma SetMoves(s: State, s': State, left: Op -> nat, op: OpId, o: Op)
    requires op in s.ops && s'.ops == s.ops[op := o]
    requires left(o) < left(s.ops[op]) && SameCall(s.ops[op], o)
    ensures Moves(s, s', left, op)
  {
  }

  lemma MovesOn(s: State, s': State, left: Op -> nat, op: OpId)
    requires Moves(s, s', left, op)
    ensures Todo(s', left) < Todo(s, left) && SameCalls(s, s')
  {
    assert (op, left(s'.ops[op])) in Todo(s, left);
    assert (op, left(s'.ops[op])) !in Todo(s', left);
  }

  /** Steps that finish what has been begun. New messages, further queues and
      new dequeues are the caller's. */
  predicate Internal(step: Step) {
    match step
    case Enqueue(e) => !e.EnqNew? && !e.EnqDup?
    case Dequeue(d) => !d.DeqCheck?
    case _ => true
  }

  // ---------------------------------------------------------------------
  // Storing

  predicate Storing(step: Step) {
    Internal(step) && (step.Enqueue? || step.Store? || step.AddPid?)
  }

  lemma EnqueueMoves(c: Config, s: State, e: EnqueueStep)
    requires EnqueueEnabled(s, e) && !e.EnqNew? && !e.EnqDup?
    ensures Moves(s, EnqueueNext(c, s, e), StoreLeft, e.op)
  {
  }

  lemma StoreMoves(c: Config, s: State, t: StoreStep, op: OpId)
    requires StoreEnabled(c, s, t) && op in s.ops && s.ops[op].enq == Scheduled
    requires if t.StoreTake? then op == s.fifo[0] && s.ops[op].store == Queued else op == t.op
    ensures Moves(s, StoreNext(c, s, t), StoreLeft, op)
  {
  }

  lemma AddMainMoves(s: State, op: OpId)
    requires AddPidEnabled(s, AddMain(op)) && s.ops[op].enq == Scheduled
    ensures Moves(s, AddPidNext(s, AddMain(op)), StoreLeft, op)
  {
    var pc := if Advances(s.mark, op.pid) then MainNotify else Finished;
    SetMoves(s, AddPidNext(s, AddMain(op)), StoreLeft, op, s.ops[op].(store := pc));
  }

  lemma AddPidMoves(s: State, a: AddPidStep)
    requires AddPidEnabled(s, a) && s.ops[a.op].enq == Scheduled
    ensures Moves(s, AddPidNext(s, a), StoreLeft, a.op)
  {
    var s', o := AddPidNext(s, a), s.ops[a.op];
    match a
    case EraseDup(_) =>
      SetMoves(s, s', StoreLeft, a.op, o.(store := if a.op in s.dups then DupErased else MainPending));
    case NotifyDup(_) => SetMoves(s, s', StoreLeft, a.op, o.(store := MainNotify));
    case AddMain(_) => AddMainMoves(s, a.op);
    case NotifyMain(_) => SetMoves(s, s', StoreLeft, a.op, o.(store := Finished));
  }

  /** Every such step is one of finitely many. */
  lemma StoringShrinks(c: Config, s: State, step: Step)
    requires Inv(c, s) && Enabled(c, s, step) && Storing(step)
    ensures Todo(Apply(c, s, step), StoreLeft) < Todo(s, StoreLeft) && SameCalls(s, Apply(c, s, step))
  {
    match step
    case Enqueue(e) =>
      EnqueueMoves(c, s, e);
      MovesOn(s, EnqueueNext(c, s, e), StoreLeft, e.op);
    case Store(t) =>
      var op := if t.StoreTake? then s.fifo[0] else t.op;
      TaskIsScheduled(c, s, op);
      assert t.StoreTake? ==> op in s.fifo;
      StoreMoves(c, s, t, op);
      MovesOn(s, StoreNext(c, s, t), StoreLeft, op);
    case AddPid(a) =>
      TaskIsScheduled(c, s, a.op);
      AddPidMoves(s, a);
      MovesOn(s, AddPidNext(s, a), StoreLeft, a.op);
  }

  lemma TaskIsScheduled(c: Config, s: State, op: OpId)
    requires OpsOk(c, s) && op in s.ops
    ensures s.ops[op].store != NoTask ==> s.ops[op].enq == Scheduled
  {
    assert OpOk(c, ViewOf(s, op));
  }

  /** The next step of an operation that does not wait for a worker. */
  function OwnStep(o: Op, op: OpId): Step
    requires o.enq != Scheduled || Running(o.store)
  {
    match o.enq
    case Ided => Enqueue(EnqLog(op))
    case Logged => Enqueue(EnqWill(op))
    case Registered => Enqueue(EnqSchedule(op))
    case Scheduled =>
      match o.store
      case Taken => Store(StoreCheck(op))
      case Checked => Store(StorePut(op))
      case Stored => Store(StoreLog(op))
      case Recorded => AddPid(EraseDup(op))
      case DupErased => AddPid(NotifyDup(op))
      case MainPending => AddPid(AddMain(op))
      case MainNotify => AddPid(NotifyMain(op))
  }

  lemma OwnStepEnabled(c: Config, s: State, op: OpId)
    requires op in s.ops && (s.ops[op].enq != Scheduled || Running(s.ops[op].store))
    ensures Storing(OwnStep(s.ops[op], op)) && Enabled(c, s, OwnStep(s.ops[op], op))
  {
  }

  /** As long as some message is not stored, some step towards it is possible:
      its own, or that of a worker whose end it is waiting for. */
  lemma StoringIsPossible(c: Config, s: State, op: OpId) returns (step: Step)
    requires PoolOk(c, s) && OpsOk(c, s) && c.workers >= 1 && op in s.ops && StoreLeft(s.ops[op]) > 0
    ensures Storing(step) && Enabled(c, s, step)
  {
    var o := s.ops[op];
    if o.enq != Scheduled || Running(o.store) {
      OwnStepEnabled(c, s, op);
      step := OwnStep(o, op);
    } else {
      assert OpOk(c, ViewOf(s, op));
      assert op in s.fifo && s.fifo[0] in s.fifo;
      if |s.running| < c.workers {
        step := Store(StoreTake);
      } else {
        var t :| t in s.running;
        OwnStepEnabled(c, s, t);
        step := OwnStep(s.ops[t], t);
      }
    }
  }

  ghost predicate AllStored(s: State) {
    forall op | op in s.ops :: StoreLeft(s.ops[op]) == 0
  }

  lemma StoredIs(o: Op)
    ensures StoreLeft(o) == 0 <==> o.enq == Scheduled && o.store == Finished
  {
  }

  lemma StoreOnce(c: Config, steps: seq<Step>) returns (step: Step)
    requires IsRun(c, steps) && c.workers >= 1 && !AllStored(Final(c, steps))
    ensures Storing(step) && IsRun(c, steps + [step])
    ensures Todo(Final(c, steps + [step]), StoreLeft) < Todo(Final(c, steps), StoreLeft)
    ensures SameCalls(Final(c, steps), Final(c, steps + [step]))
  {
    var s := Final(c, steps);
    var op :| op in s.ops && StoreLeft(s.ops[op]) != 0;
    RunKeeps(c, steps);
    step := StoringIsPossible(c, s, op);
    StoringShrinks(c, s, step);
    Extend(c, steps, step);
  }

  lemma {:induction false} DrainStores(c: Config, steps: seq<Step>) returns (more: seq<Step>)
    requires IsRun(c, steps) && c.workers >= 1
    ensures IsRun(c, steps + more) && (forall x | x in more :: Storing(x))
    ensures AllStored(Final(c, steps + more)) && SameCalls(Final(c, steps), Final(c, steps + more))
    decreases Todo(Final(c, steps), StoreLeft)
  {
    if AllStored(Final(c, steps)) {
      more := [];
      assert steps + more == steps;
    } else {
      var step := StoreOnce(c, steps);
      var rest := DrainStores(c, steps + [step]);
      more := [step] + rest;
      ConcatAssociates(steps, [step], rest);
      SameCallsTransitive(Final(c, steps), Final(c, steps + [step]), Final(c, steps + more));
    }
  }

  lemma SameCallsTransitive(s: State, t: State, u: State)
    requires SameCalls(s, t) && SameCalls(t, u)
    ensures SameCalls(s, u)
  {
  }

  // ---------------------------------------------------------------------
  // Deleting, once everything is stored

  ghost predicate Free(s: State, op: OpId) {
    op in s.ops && op !in s.dups && op !in s.asleepDup && op !in s.asleepMain && op.pid <= s.mark.last
  }

  lemma StoredOp(c: Config, v: View)
    requires OpOk(c, v) && StoreLeft(v.o) == 0
    ensures !v.dup && !v.asleepDup && (!v.o.dup ==> v.added)
  {
  }

  lemma AllPassed(c: Config, s: State)
    requires OpsOk(c, s) && IdsOk(s) && MarkOk(s) && AllStored(s)
    ensures s.mark.last == s.nextId - 1
  {
    forall p: uint64 | 1 <= p < s.nextId ensures p in s.added {
      assert p in s.first;
      StoredOp(c, ViewOf(s, OpId(p, s.first[p])));
    }
    FullMark(s);
  }

  /** Nobody waits any more: the watermark has passed every id, no duplicate is
      outstanding, and every sleeper has been notified. */
  lemma NobodyWaits(c: Config, s: State, op: OpId)
    requires OpsOk(c, s) && IdsOk(s) && MarkOk(s) && SleepOk(s) && AllStored(s) && op in s.ops
    ensures Free(s, op)
  {
    AllPassed(c, s);
    StoredOp(c, ViewOf(s, op));
    assert op.pid in s.first;
    if op in s.asleepMain {
      var t :| t in s.ops && s.ops[t].store == MainNotify;
      StoredIs(s.ops[t]);
    }
  }

  /** The next step of a dequeue that is not waiting for a thread of its pool. */
  function DeleteStepOf(o: Op, op: OpId): Step
    requires DeleteLeft(o) > 0 && o.del != DelQueued
  {
    match o.deq
    case Starting => Dequeue(DeqLogStart(op))
    case StartLogged => Dequeue(DeqSchedule(op))
    case Cancelling => Dequeue(DeqCancelLog(op))
    case Dequeued =>
      match o.del
      case SleepDup(_) => Wait(Wake(op))
      case SleepMain(_) => Wait(Wake(op))
      case WaitDup(_) => Wait(CheckDup(op))
      case WaitMain(_) => Wait(CheckMain(op))
      case Ready => Delete(DelRemove(op))
      case Deleted => Delete(DelLog(op))
  }

  lemma DequeueMoves(c: Config, s: State, d: DequeueStep)
    requires DequeueEnabled(s, d) && !d.DeqCheck? && OpOk(c, ViewOf(s, d.op))
    ensures var s' := DequeueNext(c, s, d);
            && Moves(s, s', DeleteLeft, d.op)
            && s'.ops[d.op].enq == s.ops[d.op].enq && s'.ops[d.op].store == s.ops[d.op].store
  {
    var s', o := DequeueNext(c, s, d), s.ops[d.op];
    match d
    case DeqLogStart(op) => SetMoves(s, s', DeleteLeft, op, o.(deq := StartLogged));
    case DeqSchedule(op) => SetMoves(s, s', DeleteLeft, op, o.(deq := Dequeued, del := DelQueued));
    case DeqCancelLog(op) => SetMoves(s, s', DeleteLeft, op, o.(deq := Dequeued));
  }

  lemma WaitMoves(s: State, w: WaitStep)
    requires WaitEnabled(s, w) && !w.Spurious? && Free(s, w.op) && s.ops[w.op].deq == Dequeued
    ensures var s' := WaitNext(s, w);
            && Moves(s, s', DeleteLeft, w.op)
            && s'.ops[w.op].enq == s.ops[w.op].enq && s'.ops[w.op].store == s.ops[w.op].store
  {
    var s', o := WaitNext(s, w), s.ops[w.op];
    match w
    case CheckDup(op) => SetMoves(s, s', DeleteLeft, op, o.(del := WaitMain(o.del.tries)));
    case CheckMain(op) => SetMoves(s, s', DeleteLeft, op, o.(del := Ready));
    case Wake(op) => SetMoves(s, s', DeleteLeft, op, o.(del := Woken(o.del)));
  }

  lemma DeleteMoves(c: Config, s: State, x: DeleteStep, op: OpId)
    requires DeleteEnabled(c, s, x) && op == DeleteOp(s, x) && s.ops[op].deq == Dequeued
    requires x.DelTake? ==> s.ops[op].del == DelQueued
    ensures var s' := DeleteNext(c, s, x);
            && Moves(s, s', DeleteLeft, op)
            && s'.ops[op].enq == s.ops[op].enq && s'.ops[op].store == s.ops[op].store
  {
    var s', o := DeleteNext(c, s, x), s.ops[op];
    match x
    case DelTake => SetMoves(s, s', DeleteLeft, op, o.(del := WaitDup(0)));
    case DelRemove(_) => SetMoves(s, s', DeleteLeft, op, o.(del := Deleted));
    case DelLog(_) => SetMoves(s, s', DeleteLeft, op, o.(del := DelFinished));
  }

  /** The step brings the deletion of `op` nearer to its end. */
  ghost predicate Advance(c: Config, s: State, step: Step, op: OpId) {
    && Internal(step) && Enabled(c, s, step) && Moves(s, Apply(c, s, step), DeleteLeft, op)
    && Apply(c, s, step).ops[op].enq == s.ops[op].enq && Apply(c, s, step).ops[op].store == s.ops[op].store
  }

  lemma DeletingAdvances(c: Config, s: State, op: OpId, step: Step)
    requires Free(s, op) && DeleteLeft(s.ops[op]) > 0 && s.ops[op].del != DelQueued && OpOk(c, ViewOf(s, op))
    requires step == DeleteStepOf(s.ops[op], op)
    ensures Advance(c, s, step, op)
  {
    match step
    case Dequeue(d) => DequeueMoves(c, s, d);
    case Wait(w) => WaitMoves(s, w);
    case Delete(x) => DeleteMoves(c, s, x, op);
  }

  /** A deletion in progress is not finished. */
  lemma InProgress(c: Config, v: View)
    requires OpOk(c, v) && v.o.del != NoDelete && v.o.del != DelFinished
    ensures v.o.deq == Dequeued && DeleteLeft(v.o) > 0
  {
  }

  lemma TakingAdvances(c: Config, s: State)
    requires DeletesOk(s) && OpsOk(c, s) && s.deletes != [] && |s.deleting| < c.deleters
    ensures Advance(c, s, Delete(DelTake), s.deletes[0])
  {
    var op := s.deletes[0];
    assert op in s.deletes;
    InProgress(c, ViewOf(s, op));
    TakeAdvances(c, s, op);
  }

  lemma TakeAdvances(c: Config, s: State, op: OpId)
    requires s.deletes != [] && op == s.deletes[0] && op in s.ops && |s.deleting| < c.deleters
    requires s.ops[op].del == DelQueued && s.ops[op].deq == Dequeued
    ensures Advance(c, s, Delete(DelTake), op)
  {
    DeleteMoves(c, s, DelTake, op);
  }

  /** Whose deletion to go on with: its own, that of a thread it is waiting for,
      or the oldest one in the queue of the pool. */
  lemma DeletingIsPossible(c: Config, s: State, op: OpId) returns (step: Step, t: OpId)
    requires Inv(c, s) && AllStored(s) && c.deleters >= 1 && op in s.ops && DeleteLeft(s.ops[op]) != 0
    ensures Advance(c, s, step, t)
  {
    if s.ops[op].del == DelQueued && |s.deleting| < c.deleters {
      assert op in s.deletes;
      step, t := Delete(DelTake), s.deletes[0];
      TakingAdvances(c, s);
    } else {
      t := op;
      if s.ops[op].del == DelQueued {
        t :| t in s.deleting;
        InProgress(c, ViewOf(s, t));
      }
      NobodyWaits(c, s, t);
      step := DeleteStepOf(s.ops[t], t);
      DeletingAdvances(c, s, t, step);
    }
  }

  ghost predicate AllDone(s: State) {
    forall op | op in s.ops :: DeleteLeft(s.ops[op]) == 0
  }

  lemma StoredStays(s: State, s': State, op: OpId)
    requires AllStored(s) && Moves(s, s', DeleteLeft, op)
    requires s'.ops[op].enq == s.ops[op].enq && s'.ops[op].store == s.ops[op].store
    ensures AllStored(s')
  {
    assert StoreLeft(s'.ops[op]) == StoreLeft(s.ops[op]);
  }

  lemma DeleteNow(c: Config, s: State, op: OpId) returns (step: Step)
    requires Inv(c, s) && AllStored(s) && c.deleters >= 1 && op in s.ops && DeleteLeft(s.ops[op]) != 0
    ensures Internal(step) && Enabled(c, s, step)
    ensures Todo(Apply(c, s, step), DeleteLeft) < Todo(s, DeleteLeft)
    ensures AllStored(Apply(c, s, step)) && SameCalls(s, Apply(c, s, step))
  {
    var t;
    step, t := DeletingIsPossible(c, s, op);
    MovesOn(s, Apply(c, s, step), DeleteLeft, t);
    StoredStays(s, Apply(c, s, step), t);
  }

  lemma DeleteOnce(c: Config, steps: seq<Step>) returns (step: Step)
    requires IsRun(c, steps) && c.deleters >= 1 && AllStored(Final(c, steps)) && !AllDone(Final(c, steps))
    ensures Internal(step) && IsRun(c, steps + [step])
    ensures Todo(Final(c, steps + [step]), DeleteLeft) < Todo(Final(c, steps), DeleteLeft)
    ensures AllStored(Final(c, steps + [step])) && SameCalls(Final(c, steps), Final(c, steps + [step]))
  {
    var s := Final(c, steps);
    var op :| op in s.ops && DeleteLeft(s.ops[op]) != 0;
    RunKeeps(c, steps);
    step := DeleteNow(c, s, op);
    Extend(c, steps, step);
  }

  lemma {:induction false} DrainDeletes(c: Config, steps: seq<Step>) returns (more: seq<Step>)
    requires IsRun(c, steps) && c.deleters >= 1 && AllStored(Final(c, steps))
    ensures IsRun(c, steps + more) && (forall x | x in more :: Internal(x))
    ensures AllStored(Final(c, steps + more)) && AllDone(Final(c, steps + more))
    ensures SameCalls(Final(c, steps), Final(c, steps + more))
    decreases Todo(Final(c, steps), DeleteLeft)
  {
    if AllDone(Final(c, steps)) {
      more := [];
      assert steps + more == steps;
    } else {
      var step := DeleteOnce(c, steps);
      var rest := DrainDeletes(c, steps + [step]);
      more := [step] + rest;
      ConcatAssociates(steps, [step], rest);
      SameCallsTransitive(Final(c, steps), Final(c, steps + [step]), Final(c, steps + more));
    }
  }

  // ---------------------------------------------------------------------
  // The cleaners

  ghost predicate Settled<P(!new)>(l: Log<P>) {
    l.Window() == {} && !l.cleaner.Removed?
  }

  lemma {:induction false} RelogEnq(c: Config, steps: seq<Step>) returns (more: seq<Step>)
    requires IsRun(c, steps) && !Final(c, steps).enq.cleaner.Removed?
    ensures IsRun(c, steps + more) && (forall x | x in more :: Internal(x))
    ensures Settled(Final(c, steps + more).enq) && Final(c, steps + more).ops == Final(c, steps).ops
    decreases Final(c, steps).enq.Window()
  {
    var l := Final(c, steps).enq;
    if l.Window() == {} {
      more := [];
      assert steps + more == steps;
    } else {
      var op :| op in l.Window();
      var step := CleanEnq(OperationLog.CleanRelog(op));
      Extend(c, steps, step);
      var rest := RelogEnq(c, steps + [step]);
      more := [step] + rest;
      ConcatAssociates(steps, [step], rest);
    }
  }

  lemma DrainEnq(c: Config, steps: seq<Step>) returns (more: seq<Step>)
    requires IsRun(c, steps)
    ensures IsRun(c, steps + more) && (forall x | x in more :: Internal(x))
    ensures Settled(Final(c, steps + more).enq) && Final(c, steps + more).ops == Final(c, steps).ops
  {
    if Final(c, steps).enq.cleaner.Removed? {
      var step := CleanEnq(OperationLog.CleanRename);
      Extend(c, steps, step);
      var rest := RelogEnq(c, steps + [step]);
      more := [step] + rest;
      ConcatAssociates(steps, [step], rest);
    } else {
      more := RelogEnq(c, steps);
    }
  }

  lemma {:induction false} RelogDeq(c: Config, steps: seq<Step>) returns (more: seq<Step>)
    requires IsRun(c, steps) && !Final(c, steps).deq.cleaner.Removed?
    ensures IsRun(c, steps + more) && (forall x | x in more :: Internal(x))
    ensures Settled(Final(c, steps + more).deq) && Final(c, steps + more).ops == Final(c, steps).ops
    ensures Final(c, steps + more).enq == Final(c, steps).enq
    decreases Final(c, steps).deq.Window()
  {
    var l := Final(c, steps).deq;
    if l.Window() == {} {
      more := [];
      assert steps + more == steps;
    } else {
      var op :| op in l.Window();
      var step := CleanDeq(OperationLog.CleanRelog(op));
      Extend(c, steps, step);
      var rest := RelogDeq(c, steps + [step]);
      more := [step] + rest;
      ConcatAssociates(steps, [step], rest);
    }
  }

  lemma DrainDeq(c: Config, steps: seq<Step>) returns (more: seq<Step>)
    requires IsRun(c, steps)
    ensures IsRun(c, steps + more) && (forall x | x in more :: Internal(x))
    ensures Settled(Final(c, steps + more).deq) && Final(c, steps + more).ops == Final(c, steps).ops
    ensures Final(c, steps + more).enq == Final(c, steps).enq
  {
    if Final(c, steps).deq.cleaner.Removed? {
      var step := CleanDeq(OperationLog.CleanRename);
      Extend(c, steps, step);
      var rest := RelogDeq(c, steps + [step]);
      more := [step] + rest;
      ConcatAssociates(steps, [step], rest);
    } else {
      more := RelogDeq(c, steps);
    }
  }

  // ---------------------------------------------------------------------

  lemma DoneIsAtRest(c: Config, s: State)
    requires OpsOk(c, s) && AllStored(s) && AllDone(s)
    ensures forall op | op in s.ops :: AtRest(s.ops[op])
  {
    forall op | op in s.ops ensures AtRest(s.ops[op]) {
      assert OpOk(c, ViewOf(s, op));
      StoredIs(s.ops[op]);
    }
  }

  lemma SameLive(s: State, s': State)
    requires SameCalls(s, s')
    ensures Live(s') == Live(s)
  {
  }

  lemma DrainOps(c: Config, steps: seq<Step>) returns (more: seq<Step>)
    requires IsRun(c, steps) && c.workers >= 1 && c.deleters >= 1
    ensures IsRun(c, steps + more) && (forall x | x in more :: Internal(x))
    ensures AllStored(Final(c, steps + more)) && AllDone(Final(c, steps + more))
    ensures SameCalls(Final(c, steps), Final(c, steps + more))
  {
    var a := DrainStores(c, steps);
    var b := DrainDeletes(c, steps + a);
    more := a + b;
    ConcatAssociates(steps, a, b);
    SameCallsTransitive(Final(c, steps), Final(c, steps + a), Final(c, steps + more));
  }

  lemma DrainLogs(c: Config, steps: seq<Step>) returns (more: seq<Step>)
    requires IsRun(c, steps)
    ensures IsRun(c, steps + more) && (forall x | x in more :: Internal(x))
    ensures Settled(Final(c, steps + more).enq) && Settled(Final(c, steps + more).deq)
    ensures Final(c, steps + more).ops == Final(c, steps).ops
  {
    var a := DrainEnq(c, steps);
    var b := DrainDeq(c, steps + a);
    more := a + b;
    ConcatAssociates(steps, a, b);
  }

  lemma QuietNow(c: Config, steps: seq<Step>, s: State, s': State)
    requires IsRun(c, steps) && s' == Final(c, steps)
    requires AllStored(s) && AllDone(s) && s'.ops == s.ops && Settled(s'.enq) && Settled(s'.deq)
    ensures Quiet(s') && s'.journal == Live(s')
  {
    RunKeeps(c, steps);
    DoneIsAtRest(c, s');
    RestJournal(c, s');
  }

  /** From every reachable state, with at least one thread in each pool and
      without any new call, the work in hand can be finished; the journal then holds exactly the
      messages that were enqueued and not dequeued before. */
  lemma NoDeadlock(c: Config, steps: seq<Step>) returns (more: seq<Step>)
    requires IsRun(c, steps) && c.workers >= 1 && c.deleters >= 1
    ensures IsRun(c, steps + more) && (forall x | x in more :: Internal(x))
    ensures Quiet(Final(c, steps + more)) && Final(c, steps + more).journal == Live(Final(c, steps))
  {
    var a := DrainOps(c, steps);
    var b := DrainLogs(c, steps + a);
    more := a + b;
    ConcatAssociates(steps, a, b);
    QuietNow(c, steps + more, Final(c, steps + a), Final(c, steps + more));
    SameLive(Final(c, steps), Final(c, steps + more));
  }
}
