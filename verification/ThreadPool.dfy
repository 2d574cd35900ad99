/** The thread pool: FIFO scheduling and the worker counters, section by section
    under the pool's monitor. */
module ThreadPool {
  import opened Records

  /** What a worker is doing between two sections. `Leaving` has been told to
      terminate and has not yet given notice of it. */
  datatype WorkerState = Free | Idle | Busy(task: nat) | Leaving

  /** What became of a task that has left the queue. */
  datatype Fate = Cleared | RunningOn(worker: nat) | Done | Failed

  /** Workers that are not waiting for a task. */
  function Working(workers: map<nat, WorkerState>): set<nat> {
    set w | w in workers && workers[w] != Idle
  }

  /** Tasks are numbered in the order in which they were scheduled. Those from
      `|fate|` on are queued, in that order; every other one was cleared, runs on
      exactly one worker, or has ended. */
  ghost predicate TasksOk<T(!new)>(history: seq<T>, fate: seq<Fate>, queue: seq<T>, workers: map<nat, WorkerState>) {
    && |fate| <= |history| && queue == history[|fate|..]
    && (forall w | w in workers && workers[w].Busy? ::
          workers[w].task < |fate| && fate[workers[w].task] == RunningOn(w))
    && (forall i | 0 <= i < |fate| && fate[i].RunningOn? ::
          fate[i].worker in workers && workers[fate[i].worker] == Busy(i))
  }

  /** The counters count the workers, and those that are not idle. */
  ghost predicate CountsOk(workers: map<nat, WorkerState>, created: nat, workerCount: nat, active: nat) {
    && workerCount == |workers| && active == |Working(workers)|
    && (forall w | w in workers :: w < created)
  }

  // ---------------------------------------------------------------------
  // The counters

  /** The active workers are some of the workers. */
  lemma ActiveAtMostAll(workers: map<nat, WorkerState>, created: nat, workerCount: nat, active: nat)
    requires CountsOk(workers, created, workerCount, active)
    ensures active <= workerCount
  {
    SubsetSize(Working(workers), workers.Keys);
    assert |workers.Keys| == |workers|;
  }

  lemma StateChanges(workers: map<nat, WorkerState>, w: nat, st: WorkerState)
    requires w in workers
    ensures |workers[w := st]| == |workers|
    ensures |Working(workers[w := st])| == |Working(workers)| + One(st != Idle) - One(workers[w] != Idle)
  {
    assert workers[w := st].Keys == workers.Keys;
    assert |workers.Keys| == |workers| && |workers[w := st].Keys| == |workers[w := st]|;
    var rest := Working(workers) - {w};
    assert Working(workers) == if workers[w] != Idle then rest + {w} else rest;
    assert Working(workers[w := st]) == if st != Idle then rest + {w} else rest;
  }

  lemma TwoTurns(workers: map<nat, WorkerState>, w: nat, st: WorkerState)
    ensures workers[w := Free][w := st] == workers[w := st]
    ensures w in workers && workers[w] == st ==> workers[w := st] == workers
  {
  }

  lemma WorkerJoins(workers: map<nat, WorkerState>, w: nat)
    requires w !in workers
    ensures |workers[w := Free]| == |workers| + 1
    ensures Working(workers[w := Free]) == Working(workers) + {w}
  {
  }

  lemma WorkerGoes(workers: map<nat, WorkerState>, w: nat)
    requires w in workers && workers[w] != Idle
    ensures |workers - {w}| == |workers| - 1
    ensures Working(workers - {w}) == Working(workers) - {w}
  {
    assert (workers - {w}).Keys == workers.Keys - {w};
    assert |(workers - {w}).Keys| == |workers - {w}| && |workers.Keys| == |workers|;
  }

  // ---------------------------------------------------------------------
  // The tasks

  lemma TakeKeeps<T(!new)>(history: seq<T>, fate: seq<Fate>, queue: seq<T>, workers: map<nat, WorkerState>, w: nat)
    requires TasksOk(history, fate, queue, workers) && queue != [] && w in workers && !workers[w].Busy?
    ensures TasksOk(history, fate + [RunningOn(w)], queue[1..], workers[w := Busy(|fate|)])
  {
  }

  lemma EndKeeps<T(!new)>(history: seq<T>, fate: seq<Fate>, queue: seq<T>, workers: map<nat, WorkerState>, w: nat,
                          end: Fate)
    requires TasksOk(history, fate, queue, workers) && w in workers && workers[w].Busy? && !end.RunningOn?
    ensures TasksOk(history, fate[workers[w].task := end], queue, workers[w := Free])
    ensures TasksOk(history, fate[workers[w].task := end], queue, workers - {w})
  {
  }

  lemma TurnKeeps<T(!new)>(history: seq<T>, fate: seq<Fate>, queue: seq<T>, workers: map<nat, WorkerState>, w: nat,
                           st: WorkerState)
    requires TasksOk(history, fate, queue, workers) && !st.Busy? && (w in workers ==> !workers[w].Busy?)
    ensures TasksOk(history, fate, queue, workers[w := st])
    ensures TasksOk(history, fate, queue, workers - {w})
  {
  }

  lemma ClearKeeps<T(!new)>(history: seq<T>, fate: seq<Fate>, queue: seq<T>, workers: map<nat, WorkerState>)
    requires TasksOk(history, fate, queue, workers)
    ensures TasksOk(history, fate + seq(|queue|, _ => Cleared), [], workers)
  {
  }

  /** The same workers, and new ones that have not looked for a task yet. */
  ghost predicate Grown(before: map<nat, WorkerState>, after: map<nat, WorkerState>, created: nat) {
    && (forall w | w in before :: w in after && after[w] == before[w])
    && (forall w | w in after && w !in before :: w >= created && after[w] == Free)
  }

  // ---------------------------------------------------------------------

  /** The ghost fields are the threads and what each of them is doing, how many
      there ever were, and every task that was ever scheduled. */
  class PoolCore<T(!new)> {
    var workerCount: nat
    var target: nat
    var active: nat
    var queue: seq<T>
    var terminateAll: bool
    var terminated: seq<nat>

    ghost var workers: map<nat, WorkerState>
    ghost var created: nat
    ghost var history: seq<T>
    ghost var fate: seq<Fate>

    ghost predicate Valid()
      reads this
    {
      TasksOk(history, fate, queue, workers) && CountsOk(workers, created, workerCount, active)
    }

    constructor ()
      ensures Valid() && queue == [] && history == [] && workers == map[] && created == 0
      ensures !terminateAll && target == workerCount == 0
    {
      workerCount, target, active, queue, terminateAll, terminated := 0, 0, 0, [], false, [];
      workers, created, history, fate := map[], 0, [], [];
    }

    /** `schedule`: to the end of the queue, always accepted. */
    method Schedule(task: T) returns (ok: bool)
      requires Valid()
      modifies this`queue, this`history
      ensures Valid() && ok && queue == old(queue) + [task] && history == old(history) + [task]
    {
      queue := queue + [task];
      history := history + [task];
      ok := true;
    }

    /** `clear`: what is queued will never run. */
    method Clear()
      requires Valid()
      modifies this`queue, this`fate
      ensures Valid() && queue == [] && |fate| == |history|
      ensures fate == old(fate) + seq(|old(queue)|, _ => Cleared)
    {
      ClearKeeps(history, fate, queue, workers);
      fate := fate + seq(|queue|, _ => Cleared);
      queue := [];
    }

    /** A worker that found no task goes to sleep. */
    method GoIdle(ghost w: nat)
      requires Valid() && w in workers && workers[w] == Free
      modifies this`workers, this`active
      ensures Valid() && workers == old(workers)[w := Idle] && active == old(active) - 1
    {
      StateChanges(workers, w, Idle);
      TurnKeeps(history, fate, queue, workers, w, Idle);
      active := active - 1;
      workers := workers[w := Idle];
    }

    /** A worker that is one too many leaves. */
    ghost method Leave(w: nat)
      requires Valid() && w in workers && workers[w] == Free
      modifies this`workers
      ensures Valid() && workers == old(workers)[w := Leaving]
    {
      StateChanges(workers, w, Leaving);
      TurnKeeps(history, fate, queue, workers, w, Leaving);
      workers := workers[w := Leaving];
    }

    /** A sleeping worker is notified. */
    method WakeUp(ghost w: nat)
      requires Valid() && w in workers && workers[w] == Idle
      modifies this`workers, this`active
      ensures Valid() && workers == old(workers)[w := Free] && active == old(active) + 1
    {
      StateChanges(workers, w, Free);
      TurnKeeps(history, fate, queue, workers, w, Free);
      active := active + 1;
      workers := workers[w := Free];
    }

    /** Take the oldest task. */
    method Take(ghost w: nat) returns (task: T)
      requires Valid() && w in workers && workers[w] == Free && queue != []
      modifies this`workers, this`queue, this`fate
      ensures Valid() && |old(fate)| < |history| && task == history[|old(fate)|]
      ensures fate == old(fate) + [RunningOn(w)] && workers == old(workers)[w := Busy(|old(fate)|)]
      ensures queue == old(queue)[1..]
    {
      StateChanges(workers, w, Busy(|fate|));
      TakeKeeps(history, fate, queue, workers, w);
      task := queue[0];
      workers := workers[w := Busy(|fate|)];
      fate := fate + [RunningOn(w)];
      queue := queue[1..];
    }

    /** `execute_task` from its beginning: leave, go to sleep, or take a task. */
    method Fetch(ghost w: nat) returns (task: Option<T>)
      requires Valid() && w in workers && workers[w] == Free
      modifies this`workers, this`active, this`queue, this`fate
      ensures Valid()
      ensures workerCount > target ==> task == None && workers == old(workers)[w := Leaving]
      ensures workerCount <= target && old(queue) == [] ==> task == None && workers == old(workers)[w := Idle]
      ensures workerCount <= target && old(queue) != [] ==>
                task == Some(old(queue)[0]) && workers == old(workers)[w := Busy(|old(fate)|)]
      ensures if task.Some? then fate == old(fate) + [RunningOn(w)] && queue == old(queue)[1..]
              else fate == old(fate) && queue == old(queue)
    {
      if workerCount > target {
        Leave(w);
        task := None;
      } else {
        task := Look(w);
      }
    }

    /** The test in the loop: the worker counts matter only when there is no task. */
    method Look(ghost w: nat) returns (task: Option<T>)
      requires Valid() && w in workers && workers[w] == Free
      modifies this`workers, this`active, this`queue, this`fate
      ensures Valid()
      ensures old(queue) != [] ==> task == Some(old(queue)[0]) && workers == old(workers)[w := Busy(|old(fate)|)]
      ensures old(queue) == [] && workerCount > target ==> task == None && workers == old(workers)[w := Leaving]
      ensures old(queue) == [] && workerCount <= target ==> task == None && workers == old(workers)[w := Idle]
      ensures if task.Some? then fate == old(fate) + [RunningOn(w)] && queue == old(queue)[1..]
              else fate == old(fate) && queue == old(queue)
    {
      if queue != [] {
        var t := Take(w);
        task := Some(t);
      } else {
        task := None;
        if workerCount > target {
          Leave(w);
        } else {
          GoIdle(w);
        }
      }
    }

    /** ... and from its wait on. */
    method Awake(ghost w: nat) returns (task: Option<T>)
      requires Valid() && w in workers && workers[w] == Idle
      modifies this`workers, this`active, this`queue, this`fate
      ensures Valid()
      ensures old(queue) != [] ==> task == Some(old(queue)[0]) && workers == old(workers)[w := Busy(|old(fate)|)]
      ensures old(queue) == [] && workerCount > target ==> task == None && workers == old(workers)[w := Leaving]
      ensures old(queue) == [] && workerCount <= target ==> task == None && workers == old(workers)
      ensures if task.Some? then fate == old(fate) + [RunningOn(w)] && queue == old(queue)[1..]
              else fate == old(fate) && queue == old(queue)
    {
      WakeUp(w);
      task := Look(w);
      TwoTurns(old(workers), w, Busy(|old(fate)|));
      TwoTurns(old(workers), w, Leaving);
      TwoTurns(old(workers), w, Idle);
    }

    /** A task has returned. */
    ghost method Finish(w: nat)
      requires Valid() && w in workers && workers[w].Busy?
      modifies this`workers, this`fate
      ensures Valid() && workers == old(workers)[w := Free]
      ensures |fate| == |old(fate)| && old(workers)[w].task < |fate|
      ensures fate == old(fate)[old(workers)[w].task := Done]
    {
      StateChanges(workers, w, Free);
      EndKeeps(history, fate, queue, workers, w, Done);
      fate := fate[workers[w].task := Done];
      workers := workers[w := Free];
    }

    /** One more thread, which starts by looking for a task. */
    method AddWorker()
      requires Valid()
      modifies this`workers, this`created, this`workerCount, this`active
      ensures Valid() && old(created) !in old(workers) && workers == old(workers)[old(created) := Free]
      ensures created == old(created) + 1 && workerCount == old(workerCount) + 1
    {
      WorkerJoins(workers, created);
      TurnKeeps(history, fate, queue, workers, created, Free);
      workers := workers[created := Free];
      created := created + 1;
      workerCount := workerCount + 1;
      active := active + 1;
    }

    /** `resize`. `possible` is how many threads the system is willing to start. */
    method Resize(count: nat, possible: nat) returns (ok: bool)
      requires Valid()
      modifies this`workers, this`created, this`workerCount, this`active, this`target
      ensures Valid()
      ensures Grown(old(workers), workers, old(created))
      ensures terminateAll ==> !ok && target == old(target) && workers == old(workers)
      ensures !terminateAll ==> target == count
      ensures ok ==> workerCount == if old(workerCount) < count then count else old(workerCount)
      ensures ok <==> !terminateAll && count <= old(workerCount) + possible
      ensures !ok && !terminateAll ==> workerCount == old(workerCount) + possible
    {
      if terminateAll {
        return false;
      }
      target := count;
      var started := 0;
      while workerCount < target
        invariant Valid() && target == count && workerCount == old(workerCount) + started && started <= possible
        invariant started > 0 ==> workerCount <= count
        invariant Grown(old(workers), workers, old(created)) && old(created) <= created
        decreases target - workerCount
      {
        if started == possible {
          return false;
        }
        AddWorker();
        started := started + 1;
      }
      ok := true;
    }

    /** The worker is gone; its task, if it had one, has failed. */
    method Remove(ghost w: nat)
      requires Valid() && w in workers && workers[w] != Idle
      modifies this`workers, this`fate, this`workerCount, this`active
      ensures Valid() && workers == old(workers) - {w}
      ensures workerCount == old(workerCount) - 1 && active == old(active) - 1
      ensures old(workers)[w].Busy? ==>
                old(workers)[w].task < |old(fate)| && fate == old(fate)[old(workers)[w].task := Failed]
      ensures !old(workers)[w].Busy? ==> fate == old(fate)
    {
      WorkerGoes(workers, w);
      assert w in Working(workers);
      if workers[w].Busy? {
        EndKeeps(history, fate, queue, workers, w, Failed);
        fate := fate[workers[w].task := Failed];
      } else {
        TurnKeeps(history, fate, queue, workers, w, Free);
      }
      workerCount := workerCount - 1;
      active := active - 1;
      workers := workers - {w};
    }

    /** `worker_destructed`: the notice of a worker that was told to leave. */
    method Destructed(w: nat)
      requires Valid() && w in workers && workers[w] == Leaving
      modifies this`workers, this`fate, this`workerCount, this`active, this`terminated
      ensures Valid() && workers == old(workers) - {w} && fate == old(fate)
      ensures workerCount == old(workerCount) - 1 && active == old(active) - 1
      ensures terminated == if terminateAll then old(terminated) + [w] else old(terminated)
    {
      Remove(w);
      if terminateAll {
        terminated := terminated + [w];
      }
    }

    /** `worker_died_unexpectedly`: a task has thrown. Unless the pool is going
        down, the size policy starts another worker. */
    method Died(w: nat, possible: nat)
      requires Valid() && w in workers && workers[w].Busy?
      modifies this`workers, this`fate, this`created, this`workerCount, this`active, this`target, this`terminated
      ensures Valid() && w !in workers && Grown(old(workers) - {w}, workers, old(created))
      ensures old(workers)[w].task < |old(fate)| && fate == old(fate)[old(workers)[w].task := Failed]
      ensures !terminateAll && possible > 0 ==> workerCount == target == old(workerCount)
      ensures terminateAll ==> workerCount == old(workerCount) - 1 && terminated == old(terminated) + [w]
    {
      assert w < created;
      Remove(w);
      if terminateAll {
        terminated := terminated + [w];
      } else {
        var ok := Resize(workerCount + 1, possible);
      }
    }

    /** `terminate_all_workers`, after its wait: the threads that have given notice
        are joined. Nothing is running any more. */
    method JoinTerminated()
      requires Valid() && terminateAll && active == 0
      modifies this`terminated
      ensures Valid() && terminated == []
      ensures forall i | 0 <= i < |fate| :: !fate[i].RunningOn?
    {
      NobodyRuns(history, fate, queue, workers, created, workerCount, active);
      terminated := [];
    }

    /** ... up to its wait. */
    method TerminateAll()
      requires Valid()
      modifies this`terminateAll, this`target
      ensures Valid() && terminateAll && target == 0
    {
      terminateAll, target := true, 0;
    }

    /** The condition under which `wait` returns. */
    method Passes(threshold: nat) returns (passes: bool)
      requires Valid()
      ensures passes <==> active + |queue| <= threshold
    {
      if threshold == 0 {
        passes := active == 0 && queue == [];
      } else {
        passes := active + |queue| <= threshold;
      }
    }
  }

  // ---------------------------------------------------------------------
  // What holds in every state of a pool

  ghost function InFlight(fate: seq<Fate>): set<nat> {
    set i: nat | i < |fate| && fate[i].RunningOn?
  }

  lemma {:induction false} OneWorkerEach(fate: seq<Fate>, tasks: set<nat>, hands: set<nat>)
    requires forall i | i in tasks :: i < |fate| && fate[i].RunningOn? && fate[i].worker in hands
    requires forall i, j | i in tasks && j in tasks && i != j :: fate[i].worker != fate[j].worker
    ensures |tasks| <= |hands|
    decreases |tasks|
  {
    if tasks != {} {
      var i :| i in tasks;
      OneWorkerEach(fate, tasks - {i}, hands - {fate[i].worker});
    }
  }

  /** No more tasks are in flight than there are active workers, and no more of
      these than workers. */
  lemma InFlightBound<T(!new)>(history: seq<T>, fate: seq<Fate>, queue: seq<T>, workers: map<nat, WorkerState>,
                               created: nat, workerCount: nat, active: nat)
    requires TasksOk(history, fate, queue, workers) && CountsOk(workers, created, workerCount, active)
    ensures |InFlight(fate)| <= active <= workerCount
  {
    OneWorkerEach(fate, InFlight(fate), Working(workers));
    ActiveAtMostAll(workers, created, workerCount, active);
  }

  /** Conservation: `wait(0)` returns only when every task that was ever scheduled
      has returned, has failed or was cleared. */
  lemma NothingLeft<T(!new)>(history: seq<T>, fate: seq<Fate>, queue: seq<T>, workers: map<nat, WorkerState>,
                             created: nat, workerCount: nat, active: nat)
    requires TasksOk(history, fate, queue, workers) && CountsOk(workers, created, workerCount, active)
    requires active + |queue| <= 0
    ensures |fate| == |history| && forall i | 0 <= i < |fate| :: !fate[i].RunningOn?
  {
    NobodyRuns(history, fate, queue, workers, created, workerCount, active);
  }

  lemma NobodyRuns<T(!new)>(history: seq<T>, fate: seq<Fate>, queue: seq<T>, workers: map<nat, WorkerState>,
                            created: nat, workerCount: nat, active: nat)
    requires TasksOk(history, fate, queue, workers) && CountsOk(workers, created, workerCount, active) && active == 0
    ensures forall i | 0 <= i < |fate| :: !fate[i].RunningOn?
  {
    assert Working(workers) == {};
    assert forall w | w in workers :: w !in Working(workers);
  }
}
