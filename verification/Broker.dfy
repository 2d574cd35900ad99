/** The calls that the broker may make, and that the protocol takes all of them:
    what a run can be asked to do, in terms of the calls alone. */
module Broker {
  import opened Records
  import opened Protocol
  import opened ProtocolInvariant
  import opened Progress
  import opened Drain
  import opened Schedules
  import opened Refinement

  /** The operations that these calls have enqueued. */
  ghost function Enqueued(calls: seq<Step>): set<OpId>
    decreases |calls|
  {
    if calls == [] then {}
    else
      var before, last := calls[..|calls| - 1], calls[|calls| - 1];
      match last
      case Enqueue(EnqNew(q, _)) =>
        Enqueued(before) + if Simulate(before).next < TWO_64 then {OpId(Simulate(before).next, q)} else {}
      case Enqueue(EnqDup(op, _)) => Enqueued(before) + {op}
      case _ => Enqueued(before)
  }

  /** The contract of the broker, after these calls: a new message on any queue while
      there are ids; a message that has its id on any further queue; a dequeue of any
      message that was enqueued and not dequeued. */
  ghost predicate Allowed(calls: seq<Step>, call: Step) {
    match call
    case Enqueue(EnqNew(q, _)) => q != 0 && Simulate(calls).next < 0xFFFF_FFFF_FFFF_FFFF
    case Enqueue(EnqDup(op, _)) => op.qid != 0 && 1 <= op.pid < Simulate(calls).next && op !in Enqueued(calls)
    case Dequeue(DeqCheck(op)) => op in Simulate(calls).live
    case _ => false
  }

  ghost predicate AllAllowed(calls: seq<Step>)
    decreases |calls|
  {
    calls == [] ||
    (AllAllowed(calls[..|calls| - 1]) && Allowed(calls[..|calls| - 1], calls[|calls| - 1]))
  }

  // ---------------------------------------------------------------------
  // What the calls say of the state

  lemma CallAdds(c: Config, s: State, calls: seq<Step>, call: Step, s': State)
    requires Enabled(c, s, call) && !Internal(call) && s' == Apply(c, s, call)
    requires s.ops.Keys == Enqueued(calls) && s.nextId == Simulate(calls).next < TWO_64
    ensures s'.ops.Keys == Enqueued(calls + [call])
  {
    assert (calls + [call])[..|calls|] == calls;
    match call
    case Enqueue(e) =>
    case Dequeue(d) =>
  }

  lemma {:induction false} OpsAreEnqueued(c: Config, steps: seq<Step>)
    requires IsRun(c, steps)
    ensures Final(c, steps).ops.Keys == Enqueued(Calls(steps))
    decreases |steps|
  {
    if steps != [] {
      var before := steps[..|steps| - 1];
      OpsAreEnqueued(c, before);
      RunKeeps(c, before);
      RunRefines(c, before);
      CallsDecide(before);
      NextEnqueued(c, Final(c, before), steps[|steps| - 1], Calls(before), Calls(steps));
    }
  }

  lemma NextEnqueued(c: Config, s: State, step: Step, calls: seq<Step>, calls': seq<Step>)
    requires Inv(c, s) && Enabled(c, s, step) && calls' == calls + if Internal(step) then [] else [step]
    requires s.ops.Keys == Enqueued(calls) && s.nextId == Simulate(calls).next
    ensures Apply(c, s, step).ops.Keys == Enqueued(calls')
  {
    if Internal(step) {
      StepCharged(c, s, step);
      assert calls' == calls;
    } else {
      CallAdds(c, s, calls, step, Apply(c, s, step));
    }
  }

  lemma AfterCalls(c: Config, steps: seq<Step>, s: State)
    requires IsRun(c, steps) && s == Final(c, steps)
    ensures s.nextId == Simulate(Calls(steps)).next && Live(s) == Simulate(Calls(steps)).live
    ensures s.ops.Keys == Enqueued(Calls(steps))
  {
    RunRefines(c, steps);
    CallsDecide(steps);
    OpsAreEnqueued(c, steps);
  }

  /** The window in which a new id may be issued. */
  predicate WindowOpen(s: State) {
    s.nextId - s.mark.last < 0x8000_0000
  }

  /** At any time, whatever work is under way, a call is taken if and only if the
      broker may make it and, for a new message, the window is open, for a dequeue,
      the call that enqueued the message has returned. */
  lemma CallEnabledIff(c: Config, steps: seq<Step>, s: State, call: Step)
    requires IsRun(c, steps) && s == Final(c, steps) && !Internal(call)
    ensures Enabled(c, s, call) <==>
              && Allowed(Calls(steps), call)
              && (call.Enqueue? && call.e.EnqNew? ==> WindowOpen(s))
              && (call.Dequeue? ==> call.d.op in s.ops && s.ops[call.d.op].enq == Scheduled)
  {
    RunKeeps(c, steps);
    AfterCalls(c, steps, s);
    CallGuards(c, s, Calls(steps), call);
  }

  lemma CallGuards(c: Config, s: State, calls: seq<Step>, call: Step)
    requires IdsOk(s) && !Internal(call)
    requires s.nextId == Simulate(calls).next && Live(s) == Simulate(calls).live && s.ops.Keys == Enqueued(calls)
    ensures Enabled(c, s, call) <==>
              && Allowed(calls, call)
              && (call.Enqueue? && call.e.EnqNew? ==> WindowOpen(s))
              && (call.Dequeue? ==> call.d.op in s.ops && s.ops[call.d.op].enq == Scheduled)
  {
    match call
    case Enqueue(e) =>
      if e.EnqDup? {
        assert e.op.pid in s.first <==> 1 <= e.op.pid < s.nextId;
      }
    case Dequeue(d) =>
      assert d.op in Live(s) <==> d.op in s.ops && s.ops[d.op].deq == NotBegun;
  }

  // ---------------------------------------------------------------------
  // Every call is taken

  lemma {:induction false} CallsOfMore(steps: seq<Step>, more: seq<Step>)
    requires forall x | x in more :: Internal(x)
    ensures Calls(steps + more) == Calls(steps)
    decreases |more|
  {
    if more == [] {
      assert steps + more == steps;
    } else {
      var before := more[..|more| - 1];
      assert (steps + more)[..|steps + more| - 1] == steps + before;
      assert forall x | x in before :: x in more;
      CallsOfMore(steps, before);
    }
  }

  lemma CallsOfOne(steps: seq<Step>, call: Step)
    requires !Internal(call)
    ensures Calls(steps + [call]) == Calls(steps) + [call]
  {
    assert (steps + [call])[..|steps|] == steps;
  }

  /** Once everything is stored, every call that the broker may make is taken. */
  lemma StoredTakesCalls(c: Config, steps: seq<Step>, call: Step)
    requires IsRun(c, steps) && AllStored(Final(c, steps)) && Allowed(Calls(steps), call)
    ensures !Internal(call) && Enabled(c, Final(c, steps), call)
  {
    var s := Final(c, steps);
    RunKeeps(c, steps);
    AllPassed(c, s);
    AfterCalls(c, steps, s);
    CallEnabledIff(c, steps, s, call);
    if call.Dequeue? {
      assert call.d.op in Live(s);
      StoredIs(s.ops[call.d.op]);
    }
  }

  /** After any run, every call that the broker may make is preceded by some steps of
      the store's own threads and then taken. */
  lemma EveryCallIsTaken(c: Config, steps: seq<Step>, call: Step) returns (more: seq<Step>)
    requires IsRun(c, steps) && c.workers >= 1 && Allowed(Calls(steps), call)
    ensures (forall x | x in more :: Internal(x)) && IsRun(c, steps + more + [call])
    ensures Calls(steps + more + [call]) == Calls(steps) + [call]
  {
    more := DrainStores(c, steps);
    CallsOfMore(steps, more);
    StoredTakesCalls(c, steps + more, call);
    Extend(c, steps + more, call);
    CallsOfOne(steps + more, call);
  }

  lemma {:induction false} AllowedIsRun(c: Config, calls: seq<Step>) returns (steps: seq<Step>)
    requires c.workers >= 1 && AllAllowed(calls)
    ensures IsRun(c, steps) && Calls(steps) == calls
    decreases |calls|
  {
    if calls == [] {
      steps := [];
    } else {
      var before, call := calls[..|calls| - 1], calls[|calls| - 1];
      var first := AllowedIsRun(c, before);
      var more := EveryCallIsTaken(c, first, call);
      steps := first + more + [call];
      assert before + [call] == calls;
    }
  }

  lemma {:induction false} RunIsAllowed(c: Config, steps: seq<Step>)
    requires IsRun(c, steps)
    ensures AllAllowed(Calls(steps))
    decreases |steps|
  {
    if steps != [] {
      var before, last := steps[..|steps| - 1], steps[|steps| - 1];
      RunIsAllowed(c, before);
      if Internal(last) {
        assert Calls(steps) == Calls(before);
      } else {
        CallEnabledIff(c, before, Final(c, before), last);
        assert Calls(steps)[..|Calls(steps)| - 1] == Calls(before);
      }
    }
  }

  /** The sequences of calls that runs are made of are exactly those that keep the
      contract of the broker. */
  lemma CallsIff(c: Config, calls: seq<Step>)
    requires c.workers >= 1
    ensures (exists steps :: IsRun(c, steps) && Calls(steps) == calls) <==> AllAllowed(calls)
  {
    if AllAllowed(calls) {
      var steps := AllowedIsRun(c, calls);
    }
    if steps :| IsRun(c, steps) && Calls(steps) == calls {
      RunIsAllowed(c, steps);
    }
  }
}
