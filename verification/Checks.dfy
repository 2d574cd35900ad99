/** Why ten look-ups in the journal are enough to tell which pending enqueues it
    already holds, and when they are not. */
module Checks {
  import opened Records
  import opened Protocol
  import opened ProtocolInvariant
  import opened Recovery
  import opened RecoveryTheorems
  import opened Crash
  import OperationLog

  /** On this queue the store tasks are scheduled in the order of the ids. That
      is up to the callers of `enqueue`. */
  ghost predicate InOrder(s: State, q: uint64) {
    && (forall i, j | 0 <= i < j < |s.scheduled| && s.scheduled[i].qid == q && s.scheduled[j].qid == q ::
          s.scheduled[i].pid < s.scheduled[j].pid)
    && (forall x, o | x in s.ops && x.qid == q && s.ops[x].enq != Ided && s.ops[x].enq != Scheduled
                      && o in s.scheduled && o.qid == q :: o.pid < x.pid)
  }

  /** Enqueues of the queue whose complete record the cleaner has dropped and not
      yet written again. */
  ghost function HeldBack(s: State, q: uint64): set<OpId> {
    set o | o in s.enq.Window() && o.qid == q
  }

  /** A pending enqueue is held back or not past its complete record. */
  lemma PendingOp(c: Config, s: State, x: OpId)
    requires x in s.ops && OpOk(c, ViewOf(s, x)) && Replayed(s, x) && x in PE(s)
    ensures s.ops[x].enq != Ided && (x in s.enq.Window() || !PastLog(s.ops[x].store))
    ensures x in s.journal ==> PastPut(s.ops[x].store) && s.ops[x].enq == Scheduled
  {
  }

  /** Places in the queue of the pool are places in the history of it. */
  lemma Suffix<T>(all: seq<T>, fifo: seq<T>, x: T)
    requires |fifo| <= |all| && fifo == all[|all| - |fifo|..] && x in fifo
    ensures exists j :: |all| - |fifo| <= j < |all| && all[j] == x
  {
    var i :| 0 <= i < |fifo| && fifo[i] == x;
    assert all[|all| - |fifo| + i] == x;
  }

  lemma Prefix<T>(all: seq<T>, fifo: seq<T>, x: T)
    requires |fifo| <= |all| && fifo == all[|all| - |fifo|..] && x in all && x !in fifo
    ensures exists i :: 0 <= i < |all| - |fifo| && all[i] == x
  {
    var i :| 0 <= i < |all| && all[i] == x;
    assert forall j | 0 <= j < |fifo| :: fifo[j] == all[|all| - |fifo| + j];
  }

  /** Whatever is scheduled before a task that has left the queue has left it. */
  lemma FirstInFirstOut(s: State, x: OpId, o: OpId)
    requires QueueOk(s) && InOrder(s, o.qid) && x.qid == o.qid && x.pid < o.pid
    requires x in s.ops && o in s.scheduled && o !in s.fifo && s.ops[x].enq != Ided
    ensures s.ops[x].enq == Scheduled && x !in s.fifo
  {
    Prefix(s.scheduled, s.fifo, o);
    if x in s.fifo {
      Suffix(s.scheduled, s.fifo, x);
    }
  }

  /** A pending enqueue before one that is already in the journal is held back or
      in the hands of a worker. */
  lemma EarlierIsRunning(c: Config, s: State, x: OpId, o: OpId)
    requires PoolOk(c, s) && InOrder(s, o.qid) && x.qid == o.qid && x.pid < o.pid
    requires o in s.ops && s.ops[o].enq == Scheduled && PastPut(s.ops[o].store)
    requires x in s.ops && OpOk(c, ViewOf(s, x)) && s.ops[x].enq != Ided && !PastLog(s.ops[x].store)
    ensures x in s.running
  {
    FirstInFirstOut(s, x, o);
    assert s.ops[x].store != Queued;
  }

  lemma InHand(c: Config, s: State, o: OpId)
    requires WorkersOk(c, s) && o in s.ops && PastPut(s.ops[o].store) && !PastLog(s.ops[o].store)
    ensures o in s.running
  {
  }

  /** So there are fewer of them than workers and enqueues held back, after any
      run. */
  lemma FewBefore(c: Config, steps: seq<Step>, s: State, o: OpId)
    requires IsRun(c, steps) && s == Final(c, steps) && InOrder(s, o.qid)
    requires o in Kept(PE(s), PD(s)) && o in s.journal
    ensures |Before(Kept(PE(s), PD(s)), o)| < c.workers + |HeldBack(s, o.qid)|
  {
    RunKeeps(c, steps);
    var before, hands := Before(Kept(PE(s), PD(s)), o), s.running + HeldBack(s, o.qid);
    OnlyStarted(c, s);
    AfterRun(c, steps, o);
    PendingOp(c, s, o);
    if o !in s.enq.Window() {
      InHand(c, s, o);
    }
    forall x | x in before ensures x in hands {
      AfterRun(c, steps, x);
      PendingOp(c, s, x);
      if x !in s.enq.Window() {
        EarlierIsRunning(c, s, x, o);
      }
    }
    Fewer(before, hands, o);
    UnionSize(s.running, HeldBack(s, o.qid));
  }

  lemma OnlyStarted(c: Config, s: State)
    requires DomainOk(s) && OperationLog.Valid(s.enq)
    ensures PE(s).Keys <= s.ops.Keys
  {
    OperationLog.RecoveryIsBounded(s.enq);
  }

  lemma Fewer<T>(a: set<T>, b: set<T>, x: T)
    requires a <= b && x in b && x !in a
    ensures |a| < |b|
  {
    SubsetSize(a, b - {x});
  }

  lemma UnionSize<T>(a: set<T>, b: set<T>)
    ensures |a + b| <= |a| + |b|
  {
    SubsetSize(b - a, b);
    assert a + b == a + (b - a);
  }

  // ---------------------------------------------------------------------
  // Whole runs

  /** The broker gets the message from the journal and again from the log. */
  ghost predicate HandedTwice(s: State, op: OpId) {
    var db, ae, ad, q := DB(s, op.qid), PE(s), PD(s), op.qid;
    op.pid in FromJournal(Uncancelled(ae, ad), db, q) && op.pid in OnQueue(EnqueuesAfter(ae, ad, db, q), q)
  }

  /** After any run, a message is handed over twice if and only if it is pending,
      already in the journal, and not among the first ten pending ones. */
  lemma HandedTwiceIff(c: Config, steps: seq<Step>, s: State, op: OpId)
    requires IsRun(c, steps) && s == Final(c, steps)
    ensures HandedTwice(s, op) <==>
              op in Kept(PE(s), PD(s)) && op in s.journal && |Before(Kept(PE(s), PD(s)), op)| >= 10
  {
    var db, ae, ad, q := DB(s, op.qid), PE(s), PD(s), op.qid;
    assert op == OpId(op.pid, q);
    assert op.pid in db <==> op in s.journal;
    InSets(db, ae, ad, q, op.pid);
    if op in s.journal && op in ae {
      SameMessage(c, steps, s, op);
    }
  }

  /** The journal and the log never disagree on a message. */
  lemma SameMessage(c: Config, steps: seq<Step>, s: State, op: OpId)
    requires IsRun(c, steps) && s == Final(c, steps) && op in s.journal && op in PE(s)
    ensures s.journal[op] == PE(s)[op]
  {
    RunKeeps(c, steps);
    AfterRun(c, steps, op);
  }

  /** No message of a queue is handed over twice if and only if the look-ups catch
      every pending enqueue that is already in the journal. */
  lemma NoneTwiceIff(c: Config, steps: seq<Step>, s: State, q: uint64)
    requires IsRun(c, steps) && s == Final(c, steps)
    ensures FromJournal(Uncancelled(PE(s), PD(s)), DB(s, q), q).Keys
              !! OnQueue(EnqueuesAfter(PE(s), PD(s), DB(s, q), q), q).Keys
       <==> ChecksSuffice(DB(s, q), PE(s), PD(s), q)
  {
    var db, ae := DB(s, q), PE(s);
    forall p | p in db && OpId(p, q) in ae ensures db[p] == ae[OpId(p, q)] {
      SameMessage(c, steps, s, OpId(p, q));
    }
    NoDuplicateIff(db, ae, PD(s), q);
  }

  /** With tasks in the order of the ids, and not more workers and enqueues held
      back together than look-ups, recovery hands no message of the queue over
      twice, after any run and wherever the crash falls. */
  lemma TenChecksSuffice(c: Config, steps: seq<Step>, s: State, op: OpId)
    requires IsRun(c, steps) && s == Final(c, steps) && InOrder(s, op.qid)
    requires c.workers + |HeldBack(s, op.qid)| <= 10
    ensures !HandedTwice(s, op)
  {
    HandedTwiceIff(c, steps, s, op);
    if op in Kept(PE(s), PD(s)) && op in s.journal {
      FewBefore(c, steps, s, op);
    }
  }

  /** The store as it is configured by default, with two workers: with tasks in the
      order of the ids and at most eight enqueues held back, no message is handed
      over twice. */
  lemma TwoWorkersSuffice(smart: bool, deleters: nat, steps: seq<Step>, s: State, q: uint64)
    requires var c := Config(smart, 2, deleters); IsRun(c, steps) && s == Final(c, steps)
    requires InOrder(s, q) && |HeldBack(s, q)| <= 8
    ensures forall p: uint64 :: !HandedTwice(s, OpId(p, q))
  {
    forall p: uint64 ensures !HandedTwice(s, OpId(p, q)) {
      TenChecksSuffice(Config(smart, 2, deleters), steps, s, OpId(p, q));
    }
  }
}
