/** `recoverMessages`: replay both logs, one pass for every recovered queue, the
    discards, and what is put back into the two thread pools. */
module RecoverStore {
  import opened Records
  import opened Journal
  import opened AsyncOperationLogger
  import opened Recovery
  import opened RecoveryTheorems
  import IdSequence
  import Watermark
  import opened QueueMaps
  import opened Tracker
  import OperationLog

  lemma AcceptedMember(accepted: seq<uint64>, q: uint64, ops: set<OpId>)
    requires OpsOf(accepted, q) == ops
    ensures forall p: uint64 :: p in Ids(accepted) <==> OpId(p, q) in ops
  {
    forall p: uint64 ensures p in Ids(accepted) <==> OpId(p, q) in ops {
      assert OpId(p, q).pid == p;
    }
  }

  /** Every operation on a queue with a journal once, in ascending order. */
  ghost predicate Scheduled(tasks: seq<OpId>, ops: set<OpId>, known: set<uint64>) {
    && (forall o :: o in tasks <==> o in ops && o.qid in known)
    && (forall i, j | 0 <= i < j < |tasks| :: Precedes(tasks[i], tasks[j]))
  }

  /** By queue, and within a queue by id. */
  predicate Precedes(a: OpId, b: OpId) {
    a.qid < b.qid || (a.qid == b.qid && a.pid < b.pid)
  }

  /** Cancel what is still paired and schedule the rest, in order. */
  method Resurrect(ae: Enqueues, ad: set<OpId>, known: set<uint64>)
    returns (ae': Enqueues, ad': set<OpId>, tasks: seq<OpId>, useless: seq<OpId>)
    ensures ae' == ae - ad && ad' == ad - ae.Keys && Completed(useless) == ae.Keys * ad
    ensures Scheduled(tasks, ae'.Keys, known)
  {
    var todo := ae.Keys;
    ae', ad', tasks, useless := ae, ad, [], [];
    while todo != {}
      invariant todo <= ae.Keys
      invariant forall o :: o in ae' <==> o in ae && (o in todo || o !in ad)
      invariant forall o | o in ae' :: ae'[o] == ae[o]
      invariant forall o :: o in ad' <==> o in ad && (o in ae ==> o in todo)
      invariant forall o :: o in Completed(useless) <==> o in ae && o !in todo && o in ad
      invariant forall o :: o in tasks <==> o in ae && o !in todo && o !in ad && o.qid in known
      invariant forall x, y | x in tasks && y in todo :: OpLe(x, y) && x != y
      invariant forall i, j | 0 <= i < j < |tasks| :: OpLe(tasks[i], tasks[j]) && tasks[i] != tasks[j]
      decreases |todo|
    {
      var o := LeastOp(todo);
      if o in ad' {
        CompletedNext(useless, o);
        ad', ae', useless := ad' - {o}, ae' - {o}, useless + [o];
      } else if o.qid in known {
        tasks := tasks + [o];
      }
      todo := todo - {o};
    }
  }

  // ---------------------------------------------------------------------
  // One pass after the other

  /** A queue as the crash left it: its id and what its journal holds. */
  datatype Queue = Queue(qid: uint64, db: map<uint64, Msg>)

  ghost predicate ApartById(qs: seq<Queue>) {
    forall i, j | 0 <= i < j < |qs| :: qs[i].qid != qs[j].qid
  }

  /** The operations still in memory, seen from the queues: those with a pass
      behind them hold what is left of them, the others are as at the crash. */
  ghost predicate Underway(ae0: Enqueues, ad0: set<OpId>, qs: seq<Queue>, i: nat, ae: Enqueues, ad: set<OpId>)
    requires i <= |qs|
  {
    && (i == 0 ==> ae == ae0 && ad == ad0)
    && (i > 0 ==> Kept(ae, ad) == ae && ae.Keys !! ad)
    && (forall j | i <= j < |qs| :: SameFor(ae0, ad0, ae, ad, qs[j].qid))
    && (forall q | Foreign(qs, q) :: SameFor(ae0, ad0, ae, ad, q))
    && (forall j | 0 <= j < i :: LeftOf(ae0, ad0, qs[j], ae, ad))
  }

  /** A queue without a recovered journal. */
  ghost predicate Foreign(qs: seq<Queue>, q: uint64) {
    forall j | 0 <= j < |qs| :: qs[j].qid != q
  }

  /** Of the operations on this queue, those are left that its pass leaves. */
  ghost predicate LeftOf(ae0: Enqueues, ad0: set<OpId>, q: Queue, ae: Enqueues, ad: set<OpId>) {
    && OnQueue(ae, q.qid) == OnQueue(EnqueuesAfter(ae0, ad0, q.db, q.qid), q.qid)
    && (forall o: OpId | o.qid == q.qid :: o in ad <==> o in DequeuesAfter(ae0, ad0, q.db, q.qid))
  }

  lemma UnderwayNext(ae0: Enqueues, ad0: set<OpId>, qs: seq<Queue>, i: nat, ae: Enqueues, ad: set<OpId>,
                     ae': Enqueues, ad': set<OpId>)
    requires i < |qs| && ApartById(qs) && Underway(ae0, ad0, qs, i, ae, ad)
    requires ae' == EnqueuesAfter(ae, ad, qs[i].db, qs[i].qid) && ad' == DequeuesAfter(ae, ad, qs[i].db, qs[i].qid)
    ensures Underway(ae0, ad0, qs, i + 1, ae', ad')
  {
    PassSettles(qs[i].db, ae, ad, qs[i].qid);
    forall j | i + 1 <= j < |qs| ensures SameFor(ae0, ad0, ae', ad', qs[j].qid) {
      LaterQueue(ae0, ad0, qs[i].db, qs[i].qid, qs[j].qid, ae, ad);
    }
    forall q | Foreign(qs, q) ensures SameFor(ae0, ad0, ae', ad', q) {
      LaterQueue(ae0, ad0, qs[i].db, qs[i].qid, q, ae, ad);
    }
    forall j | 0 <= j < i + 1 ensures LeftOf(ae0, ad0, qs[j], ae', ad') {
      if j == i {
        LeftByPass(ae0, ad0, qs[i], ae, ad);
      } else {
        LeftStays(ae0, ad0, qs[j], ae, ad, qs[i]);
      }
    }
  }

  lemma LeftByPass(ae0: Enqueues, ad0: set<OpId>, q: Queue, ae: Enqueues, ad: set<OpId>)
    requires SameFor(ae0, ad0, ae, ad, q.qid)
    ensures LeftOf(ae0, ad0, q, EnqueuesAfter(ae, ad, q.db, q.qid), DequeuesAfter(ae, ad, q.db, q.qid))
  {
    PassIsLocal(q.db, ae0, ad0, ae, ad, q.qid);
  }

  lemma LeftStays(ae0: Enqueues, ad0: set<OpId>, q: Queue, ae: Enqueues, ad: set<OpId>, r: Queue)
    requires LeftOf(ae0, ad0, q, ae, ad) && q.qid != r.qid && Kept(ae, ad) == ae && ae.Keys !! ad
    ensures LeftOf(ae0, ad0, q, EnqueuesAfter(ae, ad, r.db, r.qid), DequeuesAfter(ae, ad, r.db, r.qid))
  {
    OthersOnQueue(r.db, ae, ad, r.qid, q.qid);
  }

  lemma LaterQueue(ae0: Enqueues, ad0: set<OpId>, db: map<uint64, Msg>, q: uint64, r: uint64, ae: Enqueues,
                   ad: set<OpId>)
    requires SameFor(ae0, ad0, ae, ad, r) && r != q
    ensures SameFor(ae0, ad0, EnqueuesAfter(ae, ad, db, q), DequeuesAfter(ae, ad, db, q), r)
  {
    PassLeavesOthers(db, ae, ad, q, r);
    SameForTransitive(ae0, ad0, ae, ad, EnqueuesAfter(ae, ad, db, q), DequeuesAfter(ae, ad, db, q), r);
  }

  lemma SameForTransitive(a: Enqueues, x: set<OpId>, b: Enqueues, y: set<OpId>, c: Enqueues, z: set<OpId>, q: uint64)
    requires SameFor(a, x, b, y, q) && SameFor(b, y, c, z, q)
    ensures SameFor(a, x, c, z, q)
  {
  }

  lemma OthersOnQueue(db: map<uint64, Msg>, ae: Enqueues, ad: set<OpId>, q: uint64, r: uint64)
    requires Kept(ae, ad) == ae && r != q
    ensures OnQueue(EnqueuesAfter(ae, ad, db, q), r) == OnQueue(ae, r)
  {
  }

  lemma FromCrash(ae0: Enqueues, ad0: set<OpId>, qs: seq<Queue>, i: nat, ae: Enqueues, ad: set<OpId>,
                  ae': Enqueues, ad': set<OpId>, r: Pass)
    requires i < |qs| && ApartById(qs) && Underway(ae0, ad0, qs, i, ae, ad)
    requires ae' == EnqueuesAfter(ae, ad, qs[i].db, qs[i].qid) && ad' == DequeuesAfter(ae, ad, qs[i].db, qs[i].qid)
    requires Passed(ae, ad, qs[i].db, qs[i].qid, r)
    ensures Underway(ae0, ad0, qs, i + 1, ae', ad')
    ensures Passed(ae0, ad0, qs[i].db, qs[i].qid, r)
  {
    PassIsLocal(qs[i].db, ae0, ad0, ae, ad, qs[i].qid);
    UnderwayNext(ae0, ad0, qs, i, ae, ad, ae', ad');
  }

  ghost predicate Describes(journals: seq<Journal>, qs: seq<Queue>)
    reads journals
  {
    && |journals| == |qs|
    && (forall j | 0 <= j < |qs| ::
          journals[j].Valid() && qs[j] == Queue(journals[j].qid, journals[j].Contents()))
  }

  /** The passes over the first queues, in terms of what was pending at the crash. */
  ghost predicate PassesDone(qs: seq<Queue>, ae: Enqueues, ad: set<OpId>, rs: seq<Pass>) {
    && |rs| <= |qs|
    && (forall j | 0 <= j < |rs| :: Passed(ae, ad, qs[j].db, qs[j].qid, rs[j]))
  }

  lemma PassesNext(qs: seq<Queue>, ae: Enqueues, ad: set<OpId>, rs: seq<Pass>, r: Pass)
    requires PassesDone(qs, ae, ad, rs) && |rs| < |qs| && Passed(ae, ad, qs[|rs|].db, qs[|rs|].qid, r)
    ensures PassesDone(qs, ae, ad, rs + [r])
  {
  }

  /** The pass over the next queue. */
  method NextQueue(jc: Journal, enqLog: OperationLogger<Msg>, deqLog: OperationLogger<()>,
                   ae: Enqueues, ad: set<OpId>, ghost ae0: Enqueues, ghost ad0: set<OpId>,
                   ghost qs: seq<Queue>, rs: seq<Pass>)
    returns (ae': Enqueues, ad': set<OpId>, rs': seq<Pass>)
    requires |rs| < |qs| && ApartById(qs) && PassesDone(qs, ae0, ad0, rs)
    requires jc.Valid() && qs[|rs|] == Queue(jc.qid, jc.Contents())
    requires LogsAgree(enqLog.log, deqLog.log, ae, ad) && enqLog as object != deqLog
    requires Underway(ae0, ad0, qs, |rs|, ae, ad)
    modifies enqLog`log, deqLog`log
    ensures LogsAgree(enqLog.log, deqLog.log, ae', ad')
    ensures Underway(ae0, ad0, qs, |rs| + 1, ae', ad')
    ensures |rs'| == |rs| + 1 && PassesDone(qs, ae0, ad0, rs')
  {
    var r;
    ae', ad', r := RecoverQueue(jc, enqLog, deqLog, ae, ad);
    FromCrash(ae0, ad0, qs, |rs|, ae, ad, ae', ad', r);
    PassesNext(qs, ae0, ad0, rs, r);
    rs' := rs + [r];
  }

  /** One pass for every recovered queue. */
  method RecoverQueues(journals: seq<Journal>, enqLog: OperationLogger<Msg>, deqLog: OperationLogger<()>,
                       ae0: Enqueues, ad0: set<OpId>, ghost qs: seq<Queue>)
    returns (ae: Enqueues, ad: set<OpId>, rs: seq<Pass>)
    requires enqLog as object != deqLog && Describes(journals, qs) && ApartById(qs)
    requires LogsAgree(enqLog.log, deqLog.log, ae0, ad0)
    modifies enqLog`log, deqLog`log
    ensures LogsAgree(enqLog.log, deqLog.log, ae, ad)
    ensures |rs| == |qs| && PassesDone(qs, ae0, ad0, rs)
    ensures Underway(ae0, ad0, qs, |qs|, ae, ad)
  {
    ae, ad, rs := ae0, ad0, [];
    while |rs| < |journals|
      invariant PassesDone(qs, ae0, ad0, rs)
      invariant LogsAgree(enqLog.log, deqLog.log, ae, ad)
      invariant Underway(ae0, ad0, qs, |rs|, ae, ad)
      decreases |journals| - |rs|
    {
      ae, ad, rs := NextQueue(journals[|rs|], enqLog, deqLog, ae, ad, ae0, ad0, qs, rs);
    }
  }

  // ---------------------------------------------------------------------
  // After the passes

  /** These shards are the contents of the queue. */
  ghost predicate Holds(shards: seq<Shard>, q: Queue) {
    Sharded(shards) && Merged(shards) == q.db
  }

  /** The queue after the discards: what the broker got from its journal. */
  ghost function Retained(q: Queue, ae: Enqueues, ad: set<OpId>): Queue {
    Queue(q.qid, FromJournal(Uncancelled(ae, ad), q.db, q.qid))
  }

  /** What is registered is discarded. */
  method DiscardListed(jc: Journal, transient: seq<uint64>, accepted: seq<uint64>)
    requires jc.Valid() && jc.transientList == jc.acceptedList == []
    modifies jc`shards, jc`transientList, jc`acceptedList
    ensures jc.Valid() && jc.transientList == jc.acceptedList == []
    ensures jc.Contents() == old(jc.Contents()) - Ids(transient) - Ids(accepted)
  {
    jc.RegisterAsTransient(transient);
    jc.RegisterAsAccepted(accepted);
    jc.DiscardTransient();
    jc.DiscardAccepted();
  }

  /** The discards of one journal. */
  method Discard(jc: Journal, r: Pass, ghost q: Queue, ghost ae: Enqueues, ghost ad: set<OpId>)
    requires Holds(jc.shards, q) && jc.transientList == jc.acceptedList == []
    requires Passed(ae, ad, q.db, q.qid, r)
    modifies jc`shards, jc`transientList, jc`acceptedList
    ensures Holds(jc.shards, Retained(q, ae, ad)) && jc.transientList == jc.acceptedList == []
  {
    RetainedIs(q, r, ae, ad);
    DiscardListed(jc, r.transient, r.accepted);
  }

  lemma RetainedIs(q: Queue, r: Pass, ae: Enqueues, ad: set<OpId>)
    requires Passed(ae, ad, q.db, q.qid, r)
    ensures q.db - Ids(r.transient) - Ids(r.accepted) == Retained(q, ae, ad).db
  {
    AcceptedMember(r.accepted, q.qid, Accepted(Uncancelled(ae, ad), q.db, q.qid));
    DeliveredIsRetained(q.db, ae, ad, q.qid, Ids(r.accepted));
  }

  ghost predicate Shards(journals: seq<Journal>, now: seq<seq<Shard>>)
    reads journals
  {
    && |now| == |journals|
    && (forall j | 0 <= j < |journals| ::
          journals[j].shards == now[j] && journals[j].transientList == journals[j].acceptedList == [])
  }

  /** The journals before `i` are settled, the others as the crash left them. */
  ghost predicate Discarded(now: seq<seq<Shard>>, qs: seq<Queue>, i: nat, ae: Enqueues, ad: set<OpId>) {
    && i <= |now| == |qs|
    && (forall j | 0 <= j < i :: Holds(now[j], Retained(qs[j], ae, ad)))
    && (forall j | i <= j < |now| :: Holds(now[j], qs[j]))
  }

  lemma DiscardedNext(now: seq<seq<Shard>>, qs: seq<Queue>, i: nat, ae: Enqueues, ad: set<OpId>, s: seq<Shard>)
    requires Discarded(now, qs, i, ae, ad) && i < |now| && Holds(s, Retained(qs[i], ae, ad))
    ensures Discarded(now[i := s], qs, i + 1, ae, ad)
  {
  }

  method DiscardAll(journals: seq<Journal>, rs: seq<Pass>, ghost qs: seq<Queue>, ghost start: seq<seq<Shard>>,
                    ghost ae: Enqueues, ghost ad: set<OpId>)
    returns (ghost now: seq<seq<Shard>>)
    requires |rs| == |qs| && PassesDone(qs, ae, ad, rs)
    requires forall i, j | 0 <= i < j < |journals| :: journals[i] != journals[j]
    requires Shards(journals, start) && Discarded(start, qs, 0, ae, ad)
    modifies (set jc | jc in journals)`shards, (set jc | jc in journals)`transientList,
             (set jc | jc in journals)`acceptedList
    ensures Shards(journals, now) && Discarded(now, qs, |now|, ae, ad)
  {
    var i := 0;
    now := start;
    while i < |journals|
      invariant 0 <= i <= |journals|
      invariant Shards(journals, now) && Discarded(now, qs, i, ae, ad)
    {
      var jc := journals[i];
      Discard(jc, rs[i], qs[i], ae, ad);
      DiscardedNext(now, qs, i, ae, ad, jc.shards);
      now := now[i := jc.shards];
      i := i + 1;
    }
  }

  /** Every pending dequeue of a queue with a journal is scheduled again, in order. */
  method ResurrectDequeues(ad: set<OpId>, known: set<uint64>) returns (tasks: seq<OpId>)
    ensures Scheduled(tasks, ad, known)
  {
    var todo := ad;
    tasks := [];
    while todo != {}
      invariant todo <= ad
      invariant forall o :: o in tasks <==> o in ad && o !in todo && o.qid in known
      invariant forall x, y | x in tasks && y in todo :: OpLe(x, y) && x != y
      invariant forall i, j | 0 <= i < j < |tasks| :: OpLe(tasks[i], tasks[j]) && tasks[i] != tasks[j]
      decreases |todo|
    {
      var o := LeastOp(todo);
      if o.qid in known {
        tasks := tasks + [o];
      }
      todo := todo - {o};
    }
  }

  /** Replay both logs and reconcile every queue with them. */
  method Reconcile(journals: seq<Journal>, enqLog: OperationLogger<Msg>, deqLog: OperationLogger<()>,
                   ghost qs: seq<Queue>)
    returns (ae: Enqueues, ad: set<OpId>, rs: seq<Pass>)
    requires enqLog as object != deqLog && Describes(journals, qs) && ApartById(qs)
    modifies enqLog`log, deqLog`log
    ensures LogsAgree(enqLog.log, deqLog.log, ae, ad)
    ensures |rs| == |qs| && PassesDone(qs, old(enqLog.log.Recovered()), old(deqLog.log.Recovered()).Keys, rs)
    ensures Underway(old(enqLog.log.Recovered()), old(deqLog.log.Recovered()).Keys, qs, |qs|, ae, ad)
  {
    var dequeues := deqLog.Recover();
    var enqueues := enqLog.Recover();
    ae, ad, rs := RecoverQueues(journals, enqLog, deqLog, enqueues, dequeues.Keys, qs);
  }

  /** With smart async, every enqueue that is scheduled again may be cancelled again. */
  method Announce(tracker: PidTracker, tasks: seq<OpId>)
    requires tracker.Valid()
    modifies tracker`pendMap
    ensures tracker.Valid() && Flat(tracker.pendMap) == old(Flat(tracker.pendMap)) + Completed(tasks)
  {
    var i := 0;
    while i < |tasks|
      invariant 0 <= i <= |tasks| && tracker.Valid()
      invariant Flat(tracker.pendMap) == old(Flat(tracker.pendMap)) + Completed(tasks[..i])
    {
      var inserted := tracker.WillEnqueue(tasks[i]);
      assert tasks[..i + 1] == tasks[..i] + [tasks[i]];
      CompletedNext(tasks[..i], tasks[i]);
      i := i + 1;
    }
    assert tasks[..i] == tasks;
  }

  /** The tracker after recovery: the watermark as given, exact for no id beyond it,
      and the rescheduled enqueues pending if pairs may be cancelled. */
  ghost predicate Ready(mark: Watermark.Mark, pends: set<OpId>, was: set<OpId>, smart: bool, last: uint64,
                        stores: seq<OpId>)
  {
    && mark.last == last && mark.gap == {}
    && pends == if smart then was + Completed(stores) else was
  }

  method ResumeTracker(tracker: PidTracker, smart: bool, last: uint64, stores: seq<OpId>)
    requires tracker.Valid()
    modifies tracker`lastPid, tracker`gapPidSet, tracker`pendMap
    ensures tracker.Valid()
    ensures Ready(tracker.State(), Flat(tracker.pendMap), old(Flat(tracker.pendMap)), smart, last, stores)
  {
    tracker.Reset(last);
    if smart {
      Announce(tracker, stores);
    }
  }

  /** What is put back into the pools, and the logs, which agree with it. */
  method ResumeTasks(enqLog: OperationLogger<Msg>, deqLog: OperationLogger<()>, ae: Enqueues, ad: set<OpId>,
                     known: set<uint64>)
    returns (stores: seq<OpId>, deletes: seq<OpId>)
    requires enqLog as object != deqLog && LogsAgree(enqLog.log, deqLog.log, ae, ad)
    modifies enqLog`log, deqLog`log
    ensures LogsAgree(enqLog.log, deqLog.log, ae - ad, ad - ae.Keys)
    ensures Scheduled(stores, (ae - ad).Keys, known) && Scheduled(deletes, ad - ae.Keys, known)
  {
    var ae', ad', useless;
    ae', ad', stores, useless := Resurrect(ae, ad, known);
    deletes := ResurrectDequeues(ad', known);
    enqLog.LogMassComplete(useless);
    deqLog.LogMassComplete(useless);
    WithoutPairs(ae, ad, Completed(useless));
  }

  /** The id sequence and the tracker go on, with the tasks that are put back. */
  method Resume(ids: IdSequence.IdSequence, first: uint64, tracker: PidTracker, smart: bool, last: uint64,
                enqLog: OperationLogger<Msg>, deqLog: OperationLogger<()>, ae: Enqueues, ad: set<OpId>,
                known: set<uint64>)
    returns (stores: seq<OpId>, deletes: seq<OpId>)
    requires enqLog as object != deqLog && LogsAgree(enqLog.log, deqLog.log, ae, ad) && tracker.Valid()
    modifies ids`id, enqLog`log, deqLog`log, tracker`lastPid, tracker`gapPidSet, tracker`pendMap
    ensures ids.id == first && tracker.Valid()
    ensures Ready(tracker.State(), Flat(tracker.pendMap), old(Flat(tracker.pendMap)), smart, last, stores)
    ensures LogsAgree(enqLog.log, deqLog.log, ae - ad, ad - ae.Keys)
    ensures Scheduled(stores, (ae - ad).Keys, known) && Scheduled(deletes, ad - ae.Keys, known)
  {
    ids.Reset(first);
    stores, deletes := ResumeTasks(enqLog, deqLog, ae, ad, known);
    ResumeTracker(tracker, smart, last, stores);
  }

  lemma WithoutPairs(ae: Enqueues, ad: set<OpId>, pairs: set<OpId>)
    requires pairs == ae.Keys * ad
    ensures ae - pairs == ae - ad && ad - pairs == ad - ae.Keys
  {
  }

  /** The ids of the journals are those of the queues. */
  ghost predicate Owns(journals: seq<Journal>, qs: seq<Queue>) {
    |journals| == |qs| && forall j | 0 <= j < |qs| :: journals[j].qid == qs[j].qid
  }

  lemma OwnsDescribes(journals: seq<Journal>, qs: seq<Queue>, start: seq<seq<Shard>>, ae: Enqueues, ad: set<OpId>)
    requires Owns(journals, qs) && ApartById(qs) && Shards(journals, start) && Discarded(start, qs, 0, ae, ad)
    ensures Describes(journals, qs)
    ensures forall i, j | 0 <= i < j < |journals| :: journals[i] != journals[j]
  {
  }

  /** The passes and then the discards: every journal holds exactly what the
      broker got from it. */
  method RestoreQueues(journals: seq<Journal>, enqLog: OperationLogger<Msg>, deqLog: OperationLogger<()>,
                       ghost qs: seq<Queue>, ghost start: seq<seq<Shard>>)
    returns (ae: Enqueues, ad: set<OpId>, rs: seq<Pass>, ghost now: seq<seq<Shard>>)
    requires enqLog as object != deqLog && Owns(journals, qs) && ApartById(qs) && Shards(journals, start)
    requires Discarded(start, qs, 0, map[], {})
    modifies enqLog`log, deqLog`log
    modifies (set jc | jc in journals)`shards, (set jc | jc in journals)`transientList,
             (set jc | jc in journals)`acceptedList
    ensures LogsAgree(enqLog.log, deqLog.log, ae, ad)
    ensures |rs| == |qs| && PassesDone(qs, old(enqLog.log.Recovered()), old(deqLog.log.Recovered()).Keys, rs)
    ensures Shards(journals, now)
    ensures Discarded(now, qs, |now|, old(enqLog.log.Recovered()), old(deqLog.log.Recovered()).Keys)
    ensures Underway(old(enqLog.log.Recovered()), old(deqLog.log.Recovered()).Keys, qs, |qs|, ae, ad)
  {
    ghost var ae0, ad0 := enqLog.log.Recovered(), deqLog.log.Recovered().Keys;
    OwnsDescribes(journals, qs, start, map[], {});
    ae, ad, rs := Reconcile(journals, enqLog, deqLog, qs);
    now := DiscardAll(journals, rs, qs, start, ae0, ad0);
  }

  /** `recoverMessages`. `known` are the queues whose journal is open. From the
      two logs and the journals as the crash left them: what the broker gets
      from every queue, the journals holding exactly their part of it, both logs
      holding exactly the operations that are scheduled again or belong to no
      open journal, no operation in both, the next id and the tracker. */
  method RecoverMessages(journals: seq<Journal>, enqLog: OperationLogger<Msg>, deqLog: OperationLogger<()>,
                         ids: IdSequence.IdSequence, tracker: PidTracker, smart: bool, known: set<uint64>,
                         ghost qs: seq<Queue>, ghost start: seq<seq<Shard>>)
    returns (rs: seq<Pass>, stores: seq<OpId>, deletes: seq<OpId>, ghost ae: Enqueues, ghost ad: set<OpId>,
             ghost now: seq<seq<Shard>>)
    requires enqLog as object != deqLog && Owns(journals, qs) && ApartById(qs) && Shards(journals, start)
    requires Discarded(start, qs, 0, map[], {}) && tracker.Valid()
    modifies enqLog`log, deqLog`log, ids`id, tracker`lastPid, tracker`gapPidSet, tracker`pendMap
    modifies (set jc | jc in journals)`shards, (set jc | jc in journals)`transientList,
             (set jc | jc in journals)`acceptedList
    ensures |rs| == |qs| && PassesDone(qs, old(enqLog.log.Recovered()), old(deqLog.log.Recovered()).Keys, rs)
    ensures Shards(journals, now)
    ensures Discarded(now, qs, |now|, old(enqLog.log.Recovered()), old(deqLog.log.Recovered()).Keys)
    ensures Underway(old(enqLog.log.Recovered()), old(deqLog.log.Recovered()).Keys, qs, |qs|, ae, ad)
    ensures LogsAgree(enqLog.log, deqLog.log, ae - ad, ad - ae.Keys)
    ensures Scheduled(stores, (ae - ad).Keys, known) && Scheduled(deletes, ad - ae.Keys, known)
    ensures ids.id == FirstId(rs) && tracker.Valid()
    ensures Ready(tracker.State(), Flat(tracker.pendMap), old(Flat(tracker.pendMap)), smart, LastPid(rs), stores)
  {
    var enqueues, dequeues;
    enqueues, dequeues, rs, now := RestoreQueues(journals, enqLog, deqLog, qs, start);
    ae, ad := enqueues, dequeues;
    stores, deletes := Resume(ids, FirstId(rs), tracker, smart, LastPid(rs), enqLog, deqLog, enqueues, dequeues, known);
  }

  function Tops(rs: seq<Pass>): seq<uint64> {
    seq(|rs|, i requires 0 <= i < |rs| => rs[i].top)
  }

  function Lasts(rs: seq<Pass>): seq<uint64> {
    seq(|rs|, i requires 0 <= i < |rs| => rs[i].last)
  }

  /** Where the watermark goes on. */
  function LastPid(rs: seq<Pass>): uint64 {
    IdSequence.Fold(0, Lasts(rs))
  }

  /** Where the id sequence goes on. */
  function FirstId(rs: seq<Pass>): uint64 {
    (IdSequence.Fold(0, Tops(rs)) + 1) % TWO_64
  }

  /** The enqueues on this queue that recovery keeps. */
  ghost function KeptOn(ae: Enqueues, ad: set<OpId>, q: Queue): map<uint64, Msg> {
    OnQueue(EnqueuesAfter(ae, ad, q.db, q.qid), q.qid)
  }

  /** The id of a message that recovery meets in some queue. */
  ghost predicate Known(qs: seq<Queue>, ae: Enqueues, ad: set<OpId>, p: uint64) {
    exists j :: 0 <= j < |qs| && Met(qs[j].db, KeptOn(ae, ad, qs[j]), p)
  }

  /** The ids stay in the lower half of the numbers. */
  ghost predicate LowIds(qs: seq<Queue>, ae: Enqueues, ad: set<OpId>) {
    forall p: uint64 | Known(qs, ae, ad, p) :: p < TWO_63
  }

  ghost predicate AreTops(qs: seq<Queue>, ae: Enqueues, ad: set<OpId>, tops: seq<uint64>) {
    |tops| == |qs| && forall j | 0 <= j < |qs| :: IsTop(qs[j].db, KeptOn(ae, ad, qs[j]), tops[j])
  }

  lemma PassesGiveTops(qs: seq<Queue>, ae: Enqueues, ad: set<OpId>, rs: seq<Pass>)
    requires PassesDone(qs, ae, ad, rs) && |rs| == |qs|
    ensures AreTops(qs, ae, ad, Tops(rs))
  {
  }

  lemma TopIsKnown(qs: seq<Queue>, ae: Enqueues, ad: set<OpId>, tops: seq<uint64>, j: nat)
    requires AreTops(qs, ae, ad, tops) && j < |tops|
    ensures tops[j] == 0 || Known(qs, ae, ad, tops[j])
  {
  }

  lemma KnownIsBelow(qs: seq<Queue>, ae: Enqueues, ad: set<OpId>, tops: seq<uint64>, p: uint64, top: uint64)
    requires AreTops(qs, ae, ad, tops) && Known(qs, ae, ad, p)
    requires forall i | 0 <= i < |tops| :: tops[i] <= top
    ensures p <= top
  {
    var j :| 0 <= j < |qs| && Met(qs[j].db, KeptOn(ae, ad, qs[j]), p);
    assert p <= tops[j];
  }

  lemma HighestTop(qs: seq<Queue>, ae: Enqueues, ad: set<OpId>, tops: seq<uint64>) returns (top: uint64)
    requires AreTops(qs, ae, ad, tops) && LowIds(qs, ae, ad)
    ensures top == IdSequence.Fold(0, tops) < TWO_63 && (top == 0 || Known(qs, ae, ad, top))
    ensures forall i | 0 <= i < |tops| :: tops[i] <= top
  {
    forall i | 0 <= i < |tops| ensures tops[i] < TWO_63 {
      TopIsKnown(qs, ae, ad, tops, i);
    }
    IdSequence.FoldIsMax(0, tops);
    top := IdSequence.Fold(0, tops);
    if top != 0 {
      var j :| 0 <= j < |tops| && tops[j] == top;
      TopIsKnown(qs, ae, ad, tops, j);
    }
  }

  /** 1 plus the highest id that recovery meets. */
  ghost predicate Follows(qs: seq<Queue>, ae: Enqueues, ad: set<OpId>, first: uint64) {
    && 1 <= first <= TWO_63
    && (forall p: uint64 | Known(qs, ae, ad, p) :: p < first)
    && (first == 1 || Known(qs, ae, ad, first - 1))
  }

  /** Where the ids go on after recovery. */
  lemma FirstIdFollows(qs: seq<Queue>, ae: Enqueues, ad: set<OpId>, rs: seq<Pass>)
    requires AreTops(qs, ae, ad, Tops(rs)) && LowIds(qs, ae, ad)
    ensures Follows(qs, ae, ad, FirstId(rs))
  {
    var top := HighestTop(qs, ae, ad, Tops(rs));
    forall p: uint64 | Known(qs, ae, ad, p) ensures p <= top {
      KnownIsBelow(qs, ae, ad, Tops(rs), p, top);
    }
  }

  /** Until the numbers wrap around, no id issued after recovery is the id of a
      message that the broker got back, on any queue. */
  lemma FreshForMessages(qs: seq<Queue>, ae: Enqueues, ad: set<OpId>, rs: seq<Pass>, j: nat, e: Entry, n: nat)
    requires PassesDone(qs, ae, ad, rs) && |rs| == |qs| && LowIds(qs, ae, ad) && j < |rs| && e in rs[j].delivered
    requires FirstId(rs) + n < TWO_64
    ensures e.0 < IdSequence.Nth(FirstId(rs), n)
  {
    DeliveredIsMet(ae, ad, qs[j].db, qs[j].qid, rs[j], e);
    MetIsKnown(qs, ae, ad, j, e.0);
    PassesGiveTops(qs, ae, ad, rs);
    FirstIdFollows(qs, ae, ad, rs);
    IdSequence.NthIs(FirstId(rs), n);
  }

  lemma DeliveredIsMet(ae: Enqueues, ad: set<OpId>, db: map<uint64, Msg>, q: uint64, r: Pass, e: Entry)
    requires Passed(ae, ad, db, q, r) && e in r.delivered
    ensures Met(db, OnQueue(EnqueuesAfter(ae, ad, db, q), q), e.0)
  {
    var i :| 0 <= i < |r.delivered| && r.delivered[i] == e;
    if i < r.split {
      assert r.delivered[..r.split][i] == e;
    } else {
      assert r.delivered[r.split..][i - r.split] == e;
    }
  }

  /** Some id issued before the numbers wrap around is that of a scheduled dequeue. */
  ghost predicate Reissued(first: uint64, deletes: seq<OpId>) {
    exists n: nat, o :: first + n < TWO_64 && o in deletes && IdSequence.Nth(first, n) == o.pid
  }

  lemma ReissuedIff(first: uint64, deletes: seq<OpId>)
    requires 1 <= first
    ensures Reissued(first, deletes) <==> exists o :: o in deletes && first <= o.pid
  {
    forall n: nat | first + n < TWO_64 ensures IdSequence.Nth(first, n) == first + n {
      IdSequence.NthIs(first, n);
    }
    if o :| o in deletes && first <= o.pid {
      var n: nat := o.pid - first;
      assert first + n < TWO_64 && IdSequence.Nth(first, n) == o.pid;
    }
  }

  /** Beyond every id that recovery meets. */
  ghost predicate Above(qs: seq<Queue>, ae: Enqueues, ad: set<OpId>, p: uint64) {
    p != 0 && forall x: uint64 | Known(qs, ae, ad, x) :: x < p
  }

  /** A dequeue whose message is in no journal any more is left over. */
  lemma LeftOver(qs: seq<Queue>, ae: Enqueues, ad: set<OpId>, ae': Enqueues, ad': set<OpId>, o: OpId)
    requires Underway(ae, ad, qs, |qs|, ae', ad') && Above(qs, ae, ad, o.pid)
    ensures o in ad' - ae'.Keys <==> o in Uncancelled(ae, ad)
  {
    if j :| 0 <= j < |qs| && qs[j].qid == o.qid {
      assert LeftOf(ae, ad, qs[j], ae', ad');
      NotAccepted(qs, ae, ad, j, o.pid);
    } else {
      assert Foreign(qs, o.qid);
    }
  }

  lemma MetIsKnown(qs: seq<Queue>, ae: Enqueues, ad: set<OpId>, j: nat, p: uint64)
    requires j < |qs|
    ensures Met(qs[j].db, KeptOn(ae, ad, qs[j]), p) ==> Known(qs, ae, ad, p)
  {
  }

  lemma NotAccepted(qs: seq<Queue>, ae: Enqueues, ad: set<OpId>, j: nat, p: uint64)
    requires j < |qs| && Above(qs, ae, ad, p)
    ensures OpId(p, qs[j].qid) !in Accepted(Uncancelled(ae, ad), qs[j].db, qs[j].qid)
  {
    MetIsKnown(qs, ae, ad, j, p);
  }

  lemma AboveIff(qs: seq<Queue>, ae: Enqueues, ad: set<OpId>, first: uint64, p: uint64)
    requires Follows(qs, ae, ad, first)
    ensures first <= p <==> Above(qs, ae, ad, p)
  {
  }

  lemma IssuedAgainIff(qs: seq<Queue>, ae: Enqueues, ad: set<OpId>, rs: seq<Pass>, ae': Enqueues, ad': set<OpId>,
                       deletes: seq<OpId>, known: set<uint64>)
    requires AreTops(qs, ae, ad, Tops(rs)) && LowIds(qs, ae, ad)
    requires Underway(ae, ad, qs, |qs|, ae', ad') && Scheduled(deletes, ad' - ae'.Keys, known)
    ensures Reissued(FirstId(rs), deletes) <==>
              exists o :: o in Uncancelled(ae, ad) && o.qid in known && Above(qs, ae, ad, o.pid)
  {
    FirstIdFollows(qs, ae, ad, rs);
    ReissuedIff(FirstId(rs), deletes);
    forall o: OpId
      ensures o in deletes && FirstId(rs) <= o.pid <==>
                o in Uncancelled(ae, ad) && o.qid in known && Above(qs, ae, ad, o.pid)
    {
      AboveIff(qs, ae, ad, FirstId(rs), o.pid);
      if FirstId(rs) <= o.pid {
        LeftOver(qs, ae, ad, ae', ad', o);
      }
    }
  }

  /** An id is issued again while a dequeue with the same id is scheduled if and only
      if the crash left, without its enqueue, a dequeue on a known queue with a
      non-zero id beyond those of all messages in the journals and in the enqueues
      that are kept. */
  lemma FreshForDequeuesIff(qs: seq<Queue>, ae: Enqueues, ad: set<OpId>, rs: seq<Pass>, ae': Enqueues, ad': set<OpId>,
                            deletes: seq<OpId>, known: set<uint64>)
    requires PassesDone(qs, ae, ad, rs) && |rs| == |qs| && LowIds(qs, ae, ad)
    requires Underway(ae, ad, qs, |qs|, ae', ad') && Scheduled(deletes, ad' - ae'.Keys, known)
    ensures Reissued(FirstId(rs), deletes) <==>
              exists o :: o in Uncancelled(ae, ad) && o.qid in known && Above(qs, ae, ad, o.pid)
  {
    PassesGiveTops(qs, ae, ad, rs);
    IssuedAgainIff(qs, ae, ad, rs, ae', ad', deletes, known);
  }

  /** The watermark after recovery is the highest id in any journal: a deletion does
      not wait for an enqueue that is scheduled again if and only if a journal
      holds a message with the same or a higher id. */
  lemma NotWaitedForIff(qs: seq<Queue>, ae: Enqueues, ad: set<OpId>, rs: seq<Pass>, o: OpId)
    requires PassesDone(qs, ae, ad, rs) && |rs| == |qs| && o.pid != 0
    requires forall i | 0 <= i < |rs| :: rs[i].last < TWO_63
    ensures o.pid <= LastPid(rs) <==>
              exists j, p :: 0 <= j < |qs| && p in qs[j].db && !qs[j].db[p].transient && o.pid <= p
  {
    IdSequence.FoldIsMax(0, Lasts(rs));
    if o.pid <= LastPid(rs) {
      var j :| 0 <= j < |rs| && Lasts(rs)[j] == LastPid(rs);
      assert rs[j].last in qs[j].db;
    }
    forall j, p | 0 <= j < |qs| && p in qs[j].db && !qs[j].db[p].transient ensures p <= LastPid(rs) {
      assert Lasts(rs)[j] == rs[j].last && p <= rs[j].last;
    }
  }
}
