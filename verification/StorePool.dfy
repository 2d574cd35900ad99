/** The enqueue pool of the protocol is the thread pool: what the protocol keeps of
    it mirrors the state of a pool, step by step, and the bound on running store
    tasks is the number of its threads. */
module StorePool {
  import opened Records
  import opened Protocol
  import opened ProtocolInvariant
  import opened ThreadPool

  ghost function InHands(history: seq<OpId>, tasks: set<nat>): set<OpId>
    requires forall i | i in tasks :: i < |history|
  {
    set i | i in tasks :: history[i]
  }

  ghost predicate Mirrors(s: State, history: seq<OpId>, fate: seq<Fate>, queue: seq<OpId>,
                          workers: map<nat, WorkerState>)
  {
    && TasksOk(history, fate, queue, workers)
    && history == s.scheduled && queue == s.fifo && s.running == InHands(history, InFlight(fate))
  }

  lemma {:induction false} InHandsSize(history: seq<OpId>, tasks: set<nat>)
    requires forall i | i in tasks :: i < |history|
    ensures |InHands(history, tasks)| <= |tasks|
    decreases |tasks|
  {
    if tasks != {} {
      var i :| i in tasks;
      InHandsSize(history, tasks - {i});
      var rest := InHands(history, tasks - {i});
      assert InHands(history, tasks) == rest + {history[i]};
      assert |rest + {history[i]}| <= |rest| + 1;
    } else {
      assert InHands(history, tasks) == {};
    }
  }

  /** A thread of the pool that has no task and finds one: the protocol's guard, the
      bound on running tasks included, holds because of the pool. */
  lemma TakeIsEnabled(c: Config, s: State, fate: seq<Fate>, workers: map<nat, WorkerState>,
                      created: nat, workerCount: nat, active: nat, w: nat)
    requires Mirrors(s, s.scheduled, fate, s.fifo, workers) && CountsOk(workers, created, workerCount, active)
    requires workerCount <= c.workers && w in workers && !workers[w].Busy?
    requires s.fifo != [] && s.fifo[0] in s.ops
    ensures StoreEnabled(c, s, StoreTake)
  {
    var hands := workers.Keys - {w};
    assert |workers.Keys| == |workers| && |hands| == |workers| - 1;
    OneWorkerEach(fate, InFlight(fate), hands);
    InHandsSize(s.scheduled, InFlight(fate));
  }

  lemma TakeMirrors(c: Config, s: State, fate: seq<Fate>, workers: map<nat, WorkerState>, w: nat)
    requires Mirrors(s, s.scheduled, fate, s.fifo, workers) && StoreEnabled(c, s, StoreTake)
    requires w in workers && !workers[w].Busy?
    ensures var s' := StoreNext(c, s, StoreTake);
            Mirrors(s', s'.scheduled, fate + [RunningOn(w)], s.fifo[1..], workers[w := Busy(|fate|)])
  {
    TakeKeeps(s.scheduled, fate, s.fifo, workers, w);
    assert InFlight(fate + [RunningOn(w)]) == InFlight(fate) + {|fate|};
    assert s.scheduled[|fate|] == s.fifo[0];
    MoreInHands(s.scheduled, InFlight(fate), |fate|);
  }

  lemma MoreInHands(history: seq<OpId>, tasks: set<nat>, i: nat)
    requires i < |history| && forall j | j in tasks :: j < |history|
    ensures InHands(history, tasks + {i}) == InHands(history, tasks) + {history[i]}
  {
  }

  lemma ScheduleMirrors(c: Config, s: State, fate: seq<Fate>, workers: map<nat, WorkerState>, op: OpId)
    requires Mirrors(s, s.scheduled, fate, s.fifo, workers) && EnqueueEnabled(s, EnqSchedule(op))
    ensures var s' := EnqueueNext(c, s, EnqSchedule(op));
            Mirrors(s', s.scheduled + [op], fate, s.fifo + [op], workers)
  {
    assert s.fifo + [op] == (s.scheduled + [op])[|fate|..];
    assert InHands(s.scheduled + [op], InFlight(fate)) == InHands(s.scheduled, InFlight(fate));
  }

  /** The step with which a store task ends. */
  predicate Ends(s: State, a: AddPidStep, s': State) {
    AddPidEnabled(s, a) && s' == AddPidNext(s, a) && s'.ops[a.op].store == Finished
  }

  lemma FinishMirrors(s: State, a: AddPidStep, s': State, fate: seq<Fate>, workers: map<nat, WorkerState>, w: nat)
    requires Mirrors(s, s.scheduled, fate, s.fifo, workers) && Distinct(s.scheduled) && Ends(s, a, s')
    requires w in workers && workers[w].Busy? && s.scheduled[workers[w].task] == a.op
    ensures Mirrors(s', s'.scheduled, fate[workers[w].task := Done], s'.fifo, workers[w := Free])
  {
    var i := workers[w].task;
    EndKeeps(s.scheduled, fate, s.fifo, workers, w, Done);
    assert InFlight(fate[i := Done]) == InFlight(fate) - {i};
    FewerInHands(s.scheduled, InFlight(fate), i);
    EndsRunning(s, a, s');
  }

  lemma EndsRunning(s: State, a: AddPidStep, s': State)
    requires Ends(s, a, s')
    ensures s'.running == s.running - {a.op} && s'.scheduled == s.scheduled && s'.fifo == s.fifo
  {
  }

  lemma FewerInHands(history: seq<OpId>, tasks: set<nat>, i: nat)
    requires Distinct(history) && i in tasks && forall j | j in tasks :: j < |history|
    ensures InHands(history, tasks - {i}) == InHands(history, tasks) - {history[i]}
  {
    forall j | j in tasks && j != i ensures history[j] != history[i] {
      assert if j < i then history[j] != history[i] else history[i] != history[j];
    }
  }

  // ---------------------------------------------------------------------
  // Every run is one of the pool

  /** A pool with as many threads as configured is in the state that the protocol
      keeps of it. */
  ghost predicate HasPool(c: Config, s: State, fate: seq<Fate>, workers: map<nat, WorkerState>) {
    && Mirrors(s, s.scheduled, fate, s.fifo, workers)
    && CountsOk(workers, c.workers, c.workers, |Working(workers)|)
  }

  datatype Pool = Pool(fate: seq<Fate>, workers: map<nat, WorkerState>)

  /** What may happen in a pool at one step: nothing, a free thread takes the oldest
      task, a thread ends its task. */
  ghost predicate Moved(a: Pool, b: Pool) {
    || b == a
    || (exists w :: w in a.workers && !a.workers[w].Busy? &&
                    b == Pool(a.fate + [RunningOn(w)], a.workers[w := Busy(|a.fate|)]))
    || (exists w :: w in a.workers && a.workers[w].Busy? && a.workers[w].task < |a.fate| &&
                    b == Pool(a.fate[a.workers[w].task := Done], a.workers[w := Free]))
  }

  /** The pool after every step of a run. */
  ghost predicate PoolRun(c: Config, steps: seq<Step>, pools: seq<Pool>)
    requires IsRun(c, steps)
    decreases |steps|
  {
    && |pools| == |steps| + 1 && HasPool(c, Final(c, steps), pools[|steps|].fate, pools[|steps|].workers)
    && (steps != [] ==>
          && PoolRun(c, steps[..|steps| - 1], pools[..|steps|])
          && Moved(pools[|steps| - 1], pools[|steps|]))
  }

  /** The task that a worker has in hands. */
  ghost function TaskOf(history: seq<OpId>, workers: map<nat, WorkerState>, w: nat): OpId
    requires w in workers && workers[w].Busy? && workers[w].task < |history|
  {
    history[workers[w].task]
  }

  /** Workers in `ws` have different tasks, all of them in `ops`. */
  ghost predicate AllBusy(history: seq<OpId>, workers: map<nat, WorkerState>, ws: set<nat>, ops: set<OpId>) {
    && (forall w | w in ws ::
          w in workers && workers[w].Busy? && workers[w].task < |history| && TaskOf(history, workers, w) in ops)
    && (forall v, w | v in ws && w in ws && v != w :: TaskOf(history, workers, v) != TaskOf(history, workers, w))
  }

  lemma {:induction false} TasksAtLeast(history: seq<OpId>, workers: map<nat, WorkerState>, ws: set<nat>,
                                        ops: set<OpId>)
    requires AllBusy(history, workers, ws, ops)
    ensures |ws| <= |ops|
    decreases |ws|
  {
    if ws == {} {
    } else {
      var w :| w in ws;
      TasksAtLeast(history, workers, ws - {w}, ops - {TaskOf(history, workers, w)});
    }
  }

  lemma DifferentTasks(s: State, fate: seq<Fate>, workers: map<nat, WorkerState>, v: nat, w: nat)
    requires Mirrors(s, s.scheduled, fate, s.fifo, workers) && Distinct(s.scheduled)
    requires v in workers && w in workers && workers[v].Busy? && workers[w].Busy? && v != w
    ensures TaskOf(s.scheduled, workers, v) != TaskOf(s.scheduled, workers, w)
  {
    assert workers[v].task != workers[w].task;
    assert workers[v].task < workers[w].task || workers[w].task < workers[v].task;
  }

  lemma BusyIsRunning(s: State, fate: seq<Fate>, workers: map<nat, WorkerState>, w: nat)
    requires Mirrors(s, s.scheduled, fate, s.fifo, workers) && w in workers && workers[w].Busy?
    ensures workers[w].task < |s.scheduled| && TaskOf(s.scheduled, workers, w) in s.running
  {
    assert workers[w].task in InFlight(fate);
  }

  lemma FullPool(c: Config, s: State, fate: seq<Fate>, workers: map<nat, WorkerState>)
    requires HasPool(c, s, fate, workers) && Distinct(s.scheduled) && forall w | w in workers :: workers[w].Busy?
    ensures c.workers <= |s.running|
  {
    forall w | w in workers
      ensures workers[w].task < |s.scheduled| && TaskOf(s.scheduled, workers, w) in s.running
    {
      BusyIsRunning(s, fate, workers, w);
    }
    forall v, w | v in workers && w in workers && v != w
      ensures TaskOf(s.scheduled, workers, v) != TaskOf(s.scheduled, workers, w)
    {
      DifferentTasks(s, fate, workers, v, w);
    }
    TasksAtLeast(s.scheduled, workers, workers.Keys, s.running);
    assert |workers.Keys| == |workers|;
  }

  /** With fewer store tasks running than there are threads, one of these is free. */
  lemma SomeoneIsFree(c: Config, s: State, fate: seq<Fate>, workers: map<nat, WorkerState>) returns (w: nat)
    requires HasPool(c, s, fate, workers) && Distinct(s.scheduled) && |s.running| < c.workers
    ensures w in workers && !workers[w].Busy?
  {
    if forall w | w in workers :: workers[w].Busy? {
      FullPool(c, s, fate, workers);
    }
    w :| w in workers && !workers[w].Busy?;
  }

  /** Some thread has this task. */
  lemma SomeoneHasIt(s: State, fate: seq<Fate>, workers: map<nat, WorkerState>, op: OpId) returns (w: nat)
    requires Mirrors(s, s.scheduled, fate, s.fifo, workers) && op in s.running
    ensures w in workers && workers[w].Busy? && workers[w].task < |s.scheduled| && TaskOf(s.scheduled, workers, w) == op
  {
    var i :| i in InFlight(fate) && s.scheduled[i] == op;
    w := fate[i].worker;
  }

  lemma SameCounts(c: Config, workers: map<nat, WorkerState>, w: nat, st: WorkerState)
    requires CountsOk(workers, c.workers, c.workers, |Working(workers)|) && w in workers
    ensures CountsOk(workers[w := st], c.workers, c.workers, |Working(workers[w := st])|)
  {
    StateChanges(workers, w, st);
  }

  lemma PoolTakes(c: Config, s: State, fate: seq<Fate>, workers: map<nat, WorkerState>)
    returns (next: Pool)
    requires HasPool(c, s, fate, workers) && Distinct(s.scheduled) && StoreEnabled(c, s, StoreTake)
    ensures HasPool(c, StoreNext(c, s, StoreTake), next.fate, next.workers) && Moved(Pool(fate, workers), next)
  {
    var w := SomeoneIsFree(c, s, fate, workers);
    TakeMirrors(c, s, fate, workers, w);
    SameCounts(c, workers, w, Busy(|fate|));
    next := Pool(fate + [RunningOn(w)], workers[w := Busy(|fate|)]);
  }

  lemma PoolEnds(c: Config, s: State, a: AddPidStep, s': State, fate: seq<Fate>, workers: map<nat, WorkerState>)
    returns (next: Pool)
    requires HasPool(c, s, fate, workers) && Distinct(s.scheduled) && Ends(s, a, s') && a.op in s.running
    ensures HasPool(c, s', next.fate, next.workers) && Moved(Pool(fate, workers), next)
  {
    var w := SomeoneHasIt(s, fate, workers, a.op);
    FinishMirrors(s, a, s', fate, workers, w);
    SameCounts(c, workers, w, Free);
    next := Pool(fate[workers[w].task := Done], workers[w := Free]);
  }

  /** The steps that the pool does not see. */
  predicate Unseen(s: State, s': State) {
    s'.scheduled == s.scheduled && s'.fifo == s.fifo && s'.running == s.running
  }

  lemma AddPidEndsOrUnseen(s: State, a: AddPidStep, s': State)
    requires AddPidEnabled(s, a) && s' == AddPidNext(s, a)
    ensures Ends(s, a, s') || Unseen(s, s')
  {
  }

  lemma AddPidIsRunning(c: Config, s: State, a: AddPidStep)
    requires AddPidEnabled(s, a) && WorkersOk(c, s)
    ensures a.op in s.running
  {
  }

  lemma EnqueueUnseen(c: Config, s: State, e: EnqueueStep)
    requires EnqueueEnabled(s, e) && !e.EnqSchedule?
    ensures Unseen(s, EnqueueNext(c, s, e))
  {
  }

  lemma StoreUnseen(c: Config, s: State, t: StoreStep)
    requires StoreEnabled(c, s, t) && !t.StoreTake?
    ensures Unseen(s, StoreNext(c, s, t))
  {
  }

  lemma DequeueUnseen(c: Config, s: State, d: DequeueStep)
    requires DequeueEnabled(s, d)
    ensures Unseen(s, DequeueNext(c, s, d))
  {
  }

  lemma WaitUnseen(s: State, w: WaitStep)
    requires WaitEnabled(s, w)
    ensures Unseen(s, WaitNext(s, w))
  {
  }

  lemma DeleteUnseen(c: Config, s: State, x: DeleteStep)
    requires DeleteEnabled(c, s, x)
    ensures Unseen(s, DeleteNext(c, s, x))
  {
  }

  lemma PoolStep(c: Config, s: State, step: Step, fate: seq<Fate>, workers: map<nat, WorkerState>)
    returns (next: Pool)
    requires PoolOk(c, s) && Enabled(c, s, step) && HasPool(c, s, fate, workers)
    ensures HasPool(c, Apply(c, s, step), next.fate, next.workers) && Moved(Pool(fate, workers), next)
  {
    next := Pool(fate, workers);
    match step
    case Enqueue(e) =>
      if e.EnqSchedule? {
        ScheduleMirrors(c, s, fate, workers, e.op);
      } else {
        EnqueueUnseen(c, s, e);
      }
    case Store(t) =>
      if t.StoreTake? {
        next := PoolTakes(c, s, fate, workers);
      } else {
        StoreUnseen(c, s, t);
      }
    case AddPid(a) =>
      AddPidEndsOrUnseen(s, a, AddPidNext(s, a));
      AddPidIsRunning(c, s, a);
      if Ends(s, a, AddPidNext(s, a)) {
        next := PoolEnds(c, s, a, AddPidNext(s, a), fate, workers);
      }
    case Dequeue(d) => DequeueUnseen(c, s, d);
    case Wait(w) => WaitUnseen(s, w);
    case Delete(x) => DeleteUnseen(c, s, x);
    case _ => assert Unseen(s, Apply(c, s, step));
  }

  lemma {:induction false} NewPool(n: nat) returns (workers: map<nat, WorkerState>)
    ensures CountsOk(workers, n, n, |Working(workers)|) && forall w | w in workers :: workers[w] == Free
    decreases n
  {
    if n == 0 {
      workers := map[];
    } else {
      var fewer := NewPool(n - 1);
      WorkerJoins(fewer, n - 1);
      workers := fewer[n - 1 := Free];
    }
  }

  lemma RunGrows(c: Config, steps: seq<Step>, before: seq<Step>, pools: seq<Pool>, more: seq<Pool>, next: Pool)
    requires steps != [] && IsRun(c, steps) && before == steps[..|steps| - 1] && PoolRun(c, before, pools)
    requires HasPool(c, Final(c, steps), next.fate, next.workers) && Moved(pools[|before|], next)
    requires more == pools + [next]
    ensures PoolRun(c, steps, more)
  {
    assert more[..|steps|] == pools && more[|steps|] == next && more[|before|] == pools[|before|];
  }

  lemma NextPool(c: Config, steps: seq<Step>, p: Pool) returns (next: Pool)
    requires steps != [] && IsRun(c, steps) && HasPool(c, Final(c, steps[..|steps| - 1]), p.fate, p.workers)
    ensures HasPool(c, Final(c, steps), next.fate, next.workers) && Moved(p, next)
  {
    RunKeeps(c, steps[..|steps| - 1]);
    next := PoolStep(c, Final(c, steps[..|steps| - 1]), steps[|steps| - 1], p.fate, p.workers);
  }

  lemma FirstPool(c: Config) returns (pools: seq<Pool>)
    ensures PoolRun(c, [], pools)
  {
    var workers := NewPool(c.workers);
    pools := [Pool([], workers)];
  }

  /** Every run of the protocol is one of a pool with the configured number of
      threads: step by step some assignment of the running store tasks to threads,
      one each, agrees with it. */
  lemma {:induction false} EveryRunHasPool(c: Config, steps: seq<Step>) returns (pools: seq<Pool>)
    requires IsRun(c, steps)
    ensures PoolRun(c, steps, pools)
    decreases |steps|
  {
    if steps == [] {
      pools := FirstPool(c);
    } else {
      var before := EveryRunHasPool(c, steps[..|steps| - 1]);
      var next := NextPool(c, steps, before[|steps| - 1]);
      pools := before + [next];
      RunGrows(c, steps, steps[..|steps| - 1], before, pools, next);
    }
  }
}
