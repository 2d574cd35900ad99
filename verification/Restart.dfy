/** From a run to the objects: a crash after any run of the protocol, and what
    `recoverMessages` makes of the journals and the two logs that it leaves. */
module Restart {
  import opened Records
  import opened Journal
  import opened AsyncOperationLogger
  import opened Protocol
  import opened Recovery
  import opened RecoveryTheorems
  import opened RecoverStore
  import opened Tracker
  import Crash
  import IdSequence

  /** The journals hold what the crash left in them. */
  ghost predicate LeftBy(s: State, qs: seq<Queue>) {
    forall j | 0 <= j < |qs| :: qs[j].db == Crash.DB(s, qs[j].qid)
  }

  /** The broker gets a message with this id. */
  ghost predicate Handed(r: Pass, p: uint64) {
    exists e :: e in r.delivered && e.0 == p
  }

  lemma PartsOfDelivered(r: Pass, e: Entry)
    requires r.split <= |r.delivered|
    ensures e in r.delivered <==> e in r.delivered[..r.split] || e in r.delivered[r.split..]
  {
    assert r.delivered == r.delivered[..r.split] + r.delivered[r.split..];
  }

  lemma EnumeratesIff(es: seq<Entry>, m: map<uint64, Msg>, p: uint64)
    requires Enumerates(es, m)
    ensures p in m <==> exists e :: e in es && e.0 == p
    ensures forall e | e in es && e.0 == p :: e.1 == m[p]
  {
    if p in m {
      var i :| 0 <= i < |es| && es[i].0 == p;
      assert es[i] in es;
    }
  }

  /** The pass hands over exactly what the reconciliation says. */
  lemma HandedIff(ae: Enqueues, ad: set<OpId>, db: map<uint64, Msg>, q: uint64, r: Pass, p: uint64)
    requires Passed(ae, ad, db, q, r)
    ensures Handed(r, p) <==> p in Delivered(db, ae, ad, q)
  {
    EnumeratesIff(r.delivered[..r.split], FromJournal(Uncancelled(ae, ad), db, q), p);
    EnumeratesIff(r.delivered[r.split..], OnQueue(EnqueuesAfter(ae, ad, db, q), q), p);
    forall e: Entry ensures e in r.delivered <==> e in r.delivered[..r.split] || e in r.delivered[r.split..] {
      PartsOfDelivered(r, e);
    }
  }

  lemma HandedMessage(s: State, r: Pass, e: Entry, q: uint64, msg: Msg)
    requires Passed(Crash.PE(s), Crash.PD(s), Crash.DB(s, q), q, r) && e in r.delivered
    requires Crash.ReturnsOnly(s, OpId(e.0, q), msg)
    ensures e.1 == msg
  {
    var ae, ad, db := Crash.PE(s), Crash.PD(s), Crash.DB(s, q);
    PartsOfDelivered(r, e);
    EnumeratesIff(r.delivered[..r.split], FromJournal(Uncancelled(ae, ad), db, q), e.0);
    EnumeratesIff(r.delivered[r.split..], OnQueue(EnqueuesAfter(ae, ad, db, q), q), e.0);
  }

  /** The message of this operation is expected back. */
  ghost predicate Due(s: State, op: OpId) {
    op in s.ops && !s.ops[op].msg.transient && Crash.Expected(s, op)
  }

  lemma ReturnsIffDue(c: Config, steps: seq<Step>, s: State, op: OpId)
    requires IsRun(c, steps) && s == Final(c, steps)
    ensures Crash.Returns(s, op) <==> Due(s, op)
    ensures Crash.Returns(s, op) ==> Crash.ReturnsOnly(s, op, s.ops[op].msg)
  {
    if Crash.Returns(s, op) {
      Crash.NothingInvented(c, steps, s, op);
    }
    if op in s.ops {
      Crash.CrashIsExact(c, steps, s, op);
    }
  }

  /** From this queue the broker gets exactly the messages that are expected back, each
      of them unchanged. */
  ghost predicate GotBack(s: State, q: uint64, r: Pass) {
    && (forall p: uint64 :: Handed(r, p) <==> Due(s, OpId(p, q)))
    && (forall e | e in r.delivered :: OpId(e.0, q) in s.ops && e.1 == s.ops[OpId(e.0, q)].msg)
  }

  lemma PassGivesBack(c: Config, steps: seq<Step>, s: State, q: uint64, r: Pass)
    requires IsRun(c, steps) && s == Final(c, steps)
    requires Passed(Crash.PE(s), Crash.PD(s), Crash.DB(s, q), q, r)
    ensures GotBack(s, q, r)
  {
    forall p: uint64
      ensures Handed(r, p) <==> Due(s, OpId(p, q))
      ensures Handed(r, p) ==> OpId(p, q) in s.ops && Crash.ReturnsOnly(s, OpId(p, q), s.ops[OpId(p, q)].msg)
    {
      HandedIff(Crash.PE(s), Crash.PD(s), Crash.DB(s, q), q, r, p);
      ReturnsIffDue(c, steps, s, OpId(p, q));
    }
    forall e | e in r.delivered ensures OpId(e.0, q) in s.ops && e.1 == s.ops[OpId(e.0, q)].msg {
      assert Handed(r, e.0);
      HandedMessage(s, r, e, q, s.ops[OpId(e.0, q)].msg);
    }
  }

  lemma EveryQueueBack(c: Config, steps: seq<Step>, s: State, qs: seq<Queue>, rs: seq<Pass>)
    requires IsRun(c, steps) && s == Final(c, steps) && LeftBy(s, qs)
    requires |rs| == |qs| && PassesDone(qs, Crash.PE(s), Crash.PD(s), rs)
    ensures forall j | 0 <= j < |qs| :: GotBack(s, qs[j].qid, rs[j])
  {
    forall j | 0 <= j < |qs| ensures GotBack(s, qs[j].qid, rs[j]) {
      PassGivesBack(c, steps, s, qs[j].qid, rs[j]);
    }
  }

  /** After any run, wherever the crash fell: `recoverMessages`, given the journals and
      the two logs as they are then, hands to the broker exactly the messages that
      the protocol owes it. */
  method RestartAfter(ghost c: Config, ghost steps: seq<Step>, ghost s: State,
                      journals: seq<Journal>, enqLog: OperationLogger<Msg>, deqLog: OperationLogger<()>,
                      ids: IdSequence.IdSequence, tracker: PidTracker, smart: bool, known: set<uint64>,
                      ghost qs: seq<Queue>, ghost start: seq<seq<Shard>>)
    returns (rs: seq<Pass>, stores: seq<OpId>, deletes: seq<OpId>)
    requires IsRun(c, steps) && s == Final(c, steps) && LeftBy(s, qs)
    requires enqLog.log == s.enq && deqLog.log == s.deq
    requires enqLog as object != deqLog && Owns(journals, qs) && ApartById(qs) && Shards(journals, start)
    requires Discarded(start, qs, 0, map[], {}) && tracker.Valid()
    modifies enqLog`log, deqLog`log, ids`id, tracker`lastPid, tracker`gapPidSet, tracker`pendMap
    modifies (set jc | jc in journals)`shards, (set jc | jc in journals)`transientList,
             (set jc | jc in journals)`acceptedList
    ensures |rs| == |qs| && forall j | 0 <= j < |qs| :: GotBack(s, qs[j].qid, rs[j])
  {
    ghost var ae, ad, now;
    rs, stores, deletes, ae, ad, now :=
      RecoverMessages(journals, enqLog, deqLog, ids, tracker, smart, known, qs, start);
    EveryQueueBack(c, steps, s, qs, rs);
  }
}
