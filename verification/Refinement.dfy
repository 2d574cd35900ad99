/** The store as its callers see it: a map from operations to messages. Every
    run of the write-behind protocol implements it, with or without the
    cancelling of pairs. */
module Refinement {
  import opened Records
  import opened Protocol
  import opened ProtocolInvariant
  import opened Progress
  import opened Drain

  /** The next id and the messages enqueued and not dequeued. */
  datatype Simple = Simple(next: nat, live: map<OpId, Msg>)

  /** A call takes effect at once; everything else is invisible. */
  function SimpleNext(t: Simple, step: Step): Simple {
    match step
    case Enqueue(EnqNew(q, msg)) =>
      if t.next < TWO_64 then Simple(t.next + 1, t.live[OpId(t.next, q) := msg]) else t
    case Enqueue(EnqDup(op, msg)) => t.(live := t.live[op := msg])
    case Dequeue(DeqCheck(op)) => t.(live := t.live - {op})
    case _ => t
  }

  function Simulate(steps: seq<Step>): Simple
    decreases |steps|
  {
    if steps == [] then Simple(1, map[])
    else SimpleNext(Simulate(steps[..|steps| - 1]), steps[|steps| - 1])
  }

  ghost function Abs(s: State): Simple {
    Simple(s.nextId, Live(s))
  }

  // ---------------------------------------------------------------------
  // One step

  lemma SetStutters(s: State, s': State, op: OpId, o: Op)
    requires op in s.ops && s'.ops == s.ops[op := o] && s'.nextId == s.nextId && SameCall(s.ops[op], o)
    ensures Abs(s') == Abs(s)
  {
    assert SameCalls(s, s');
    SameLive(s, s');
  }

  lemma EnqueueRefines(c: Config, s: State, e: EnqueueStep)
    requires EnqueueEnabled(s, e) && IdsOk(s)
    ensures Abs(EnqueueNext(c, s, e)) == SimpleNext(Abs(s), Enqueue(e))
  {
    var s' := EnqueueNext(c, s, e);
    match e
    case EnqNew(q, _) => NewIsLive(s, s', OpId(s.nextId, q));
    case EnqDup(op, _) => NewIsLive(s, s', op);
    case EnqLog(op) => SetStutters(s, s', op, s.ops[op].(enq := Logged));
    case EnqWill(op) => SetStutters(s, s', op, s.ops[op].(enq := Registered));
    case EnqSchedule(op) => SetStutters(s, s', op, s.ops[op].(enq := Scheduled, store := Queued));
  }

  lemma NewIsLive(s: State, s': State, op: OpId)
    requires op in s'.ops && s'.ops == s.ops[op := s'.ops[op]] && s'.ops[op].deq == NotBegun
    ensures Live(s') == Live(s)[op := s'.ops[op].msg]
  {
  }

  lemma StoreRefines(c: Config, s: State, t: StoreStep)
    requires StoreEnabled(c, s, t)
    ensures Abs(StoreNext(c, s, t)) == Abs(s)
  {
    var s' := StoreNext(c, s, t);
    var op := if t.StoreTake? then s.fifo[0] else t.op;
    SetStutters(s, s', op, s'.ops[op]);
  }

  lemma AddPidRefines(s: State, a: AddPidStep)
    requires AddPidEnabled(s, a)
    ensures Abs(AddPidNext(s, a)) == Abs(s)
  {
    var s' := AddPidNext(s, a);
    match a
    case EraseDup(op) => SetStutters(s, s', op, s'.ops[op]);
    case NotifyDup(op) => SetStutters(s, s', op, s'.ops[op]);
    case AddMain(op) => SetStutters(s, s', op, s'.ops[op]);
    case NotifyMain(op) => SetStutters(s, s', op, s'.ops[op]);
  }

  lemma DequeueRefines(c: Config, s: State, d: DequeueStep)
    requires DequeueEnabled(s, d)
    ensures Abs(DequeueNext(c, s, d)) == SimpleNext(Abs(s), Dequeue(d))
  {
    var s' := DequeueNext(c, s, d);
    if d.DeqCheck? {
      NoLongerLive(s, s', d.op);
    } else {
      SetStutters(s, s', d.op, s'.ops[d.op]);
    }
  }

  lemma NoLongerLive(s: State, s': State, op: OpId)
    requires op in s.ops && op in s'.ops && s'.ops == s.ops[op := s'.ops[op]] && s'.ops[op].deq != NotBegun
    ensures Live(s') == Live(s) - {op}
  {
  }

  lemma WaitRefines(s: State, w: WaitStep)
    requires WaitEnabled(s, w) && s.asleepDup <= s.ops.Keys && s.asleepMain <= s.ops.Keys
    ensures Abs(WaitNext(s, w)) == Abs(s)
  {
    var s' := WaitNext(s, w);
    match w
    case CheckDup(op) => SetStutters(s, s', op, s'.ops[op]);
    case CheckMain(op) => SetStutters(s, s', op, s'.ops[op]);
    case Wake(op) => SetStutters(s, s', op, s'.ops[op]);
    case Spurious(op) =>
  }

  lemma DeleteRefines(c: Config, s: State, x: DeleteStep)
    requires DeleteEnabled(c, s, x)
    ensures Abs(DeleteNext(c, s, x)) == Abs(s)
  {
    var s', op := DeleteNext(c, s, x), DeleteOp(s, x);
    SetStutters(s, s', op, s'.ops[op]);
  }

  lemma StepRefines(c: Config, s: State, step: Step)
    requires Enabled(c, s, step) && IdsOk(s) && DomainOk(s)
    ensures Abs(Apply(c, s, step)) == SimpleNext(Abs(s), step)
  {
    match step
    case Enqueue(e) => EnqueueRefines(c, s, e);
    case Store(t) => StoreRefines(c, s, t);
    case AddPid(a) => AddPidRefines(s, a);
    case Dequeue(d) => DequeueRefines(c, s, d);
    case Wait(w) => WaitRefines(s, w);
    case Delete(x) => DeleteRefines(c, s, x);
    case CleanEnq(_) =>
    case CleanDeq(_) =>
  }

  // ---------------------------------------------------------------------
  // Runs

  lemma {:induction false} RunRefines(c: Config, steps: seq<Step>)
    requires IsRun(c, steps)
    ensures Abs(Final(c, steps)) == Simulate(steps)
    decreases |steps|
  {
    if steps != [] {
      var before := steps[..|steps| - 1];
      RunRefines(c, before);
      RunKeeps(c, before);
      StepRefines(c, Final(c, before), steps[|steps| - 1]);
    }
  }

  /** The calls of a run, without the work done for them. */
  function Calls(steps: seq<Step>): seq<Step>
    decreases |steps|
  {
    if steps == [] then []
    else Calls(steps[..|steps| - 1]) + (if Internal(steps[|steps| - 1]) then [] else [steps[|steps| - 1]])
  }

  lemma {:induction false} CallsDecide(steps: seq<Step>)
    ensures Simulate(Calls(steps)) == Simulate(steps)
    decreases |steps|
  {
    if steps != [] {
      var before, last := steps[..|steps| - 1], steps[|steps| - 1];
      CallsDecide(before);
      if !Internal(last) {
        assert Calls(steps)[..|Calls(steps)| - 1] == Calls(before);
      } else {
        assert Calls(steps) == Calls(before);
      }
    }
  }

  /** Smart async is invisible: two runs with the same calls, whatever their
      configurations and interleavings, leave the same journal once they have
      come to rest. */
  lemma SameCallsSameJournal(c: Config, steps: seq<Step>, c': Config, steps': seq<Step>)
    requires IsRun(c, steps) && IsRun(c', steps') && Calls(steps) == Calls(steps')
    requires Quiet(Final(c, steps)) && Quiet(Final(c', steps'))
    ensures Final(c, steps).journal == Final(c', steps').journal == Simulate(Calls(steps)).live
  {
    RunRefines(c, steps);
    RunRefines(c', steps');
    CallsDecide(steps);
    CallsDecide(steps');
    Quiescence(c, steps, Final(c, steps));
    Quiescence(c', steps', Final(c', steps'));
  }
}
