/** Recovery after a crash: what `decodeAndRecoverMsg` makes of a journal and of
    the operations that the two logs leave pending. */
module Recovery {
  import opened Records
  import opened Journal
  import opened AsyncOperationLogger
  import OperationLog

  type Enqueues = map<OpId, Msg>

  /** A pending enqueue is looked up in the journal only while fewer than this
      many have been. */
  const CHECKS := 10

  // ---------------------------------------------------------------------
  // The meaning of one pass, for queue `q` with journal contents `db`

  /** Pending enqueues that are neither cancelled by a pending dequeue nor
      transient. */
  ghost function Kept(ae: Enqueues, ad: set<OpId>): Enqueues {
    map o | o in ae && o !in ad && !ae[o].transient :: ae[o]
  }

  /** Pending dequeues that cancelled no pending enqueue. */
  function Uncancelled(ae: Enqueues, ad: set<OpId>): set<OpId> {
    ad - ae.Keys
  }

  ghost function Before(kept: Enqueues, o: OpId): set<OpId> {
    set x | x in kept && x.qid == o.qid && x.pid < o.pid
  }

  /** Found in the journal, and among the first ones of the queue. */
  ghost function Caught(kept: Enqueues, db: map<uint64, Msg>, q: uint64): set<OpId> {
    set o | o in kept && o.qid == q && o.pid in db && |Before(kept, o)| < CHECKS
  }

  ghost function EnqueuesAfter(ae: Enqueues, ad: set<OpId>, db: map<uint64, Msg>, q: uint64): Enqueues {
    Kept(ae, ad) - Caught(Kept(ae, ad), db, q)
  }

  /** Pending dequeues whose message is still in the journal. */
  ghost function Accepted(left: set<OpId>, db: map<uint64, Msg>, q: uint64): set<OpId> {
    set o | o in left && o.qid == q && o.pid in db && !db[o.pid].transient
  }

  ghost function DequeuesAfter(ae: Enqueues, ad: set<OpId>, db: map<uint64, Msg>, q: uint64): set<OpId> {
    Uncancelled(ae, ad) - Accepted(Uncancelled(ae, ad), db, q)
  }

  /** Messages handed to the broker from the journal. */
  ghost function FromJournal(left: set<OpId>, db: map<uint64, Msg>, q: uint64): map<uint64, Msg> {
    map p | p in db && !db[p].transient && OpId(p, q) !in left :: db[p]
  }

  /** The pending enqueues of one queue. */
  ghost function OnQueue(ae: Enqueues, q: uint64): map<uint64, Msg> {
    map p: uint64 | 0 <= p < TWO_64 && OpId(p, q) in ae :: ae[OpId(p, q)]
  }

  // ---------------------------------------------------------------------
  // First loop: the pending enqueues of all queues, in the order of the maps

  /** State of the loop when the operations outside `todo` have been visited. */
  ghost predicate Scanned(ae: Enqueues, ad: set<OpId>, kept: Enqueues, found: set<OpId>,
                          todo: set<OpId>, cur: Enqueues, left: set<OpId>)
  {
    && todo <= ae.Keys && found !! todo
    && (forall x, y | x in ae && x !in todo && y in todo :: OpLe(x, y) && x != y)
    && (forall o :: o in cur <==> o in ae && (o in todo || (o in kept && o !in found)))
    && (forall o | o in cur :: cur[o] == ae[o])
    && (forall o :: o in left <==> o in ad && (o in ae ==> o in todo))
  }

  /** `looked` are the pending enqueues of the queue looked up so far: the
      first ones in order, all of them until the counter is used up. */
  ghost predicate LookedUp(kept: Enqueues, db: map<uint64, Msg>, q: uint64, todo: set<OpId>,
                           looked: set<OpId>, found: set<OpId>, first: nat)
  {
    && |looked| == first <= CHECKS
    && (forall x | x in looked :: x in kept && x.qid == q && x !in todo)
    && (first < CHECKS ==> forall x | x in kept && x.qid == q && x !in todo :: x in looked)
    && (forall x, y | x in looked && y in kept && y.qid == q && y !in looked :: x.pid < y.pid)
    && (forall x :: x in found <==> x in looked && x.pid in db)
  }

  /** The operation the iteration visits next. */
  ghost predicate Next(todo: set<OpId>, o: OpId) {
    o in todo && forall y | y in todo :: OpLe(o, y)
  }

  lemma ScanDrop(ae: Enqueues, ad: set<OpId>, kept: Enqueues, found: set<OpId>,
                 todo: set<OpId>, cur: Enqueues, left: set<OpId>, o: OpId)
    requires Scanned(ae, ad, kept, found, todo, cur, left) && Next(todo, o) && o !in kept
    ensures Scanned(ae, ad, kept, found, todo - {o}, cur - {o}, left - {o})
  {
  }

  lemma ScanKeep(ae: Enqueues, ad: set<OpId>, kept: Enqueues, found: set<OpId>,
                 todo: set<OpId>, cur: Enqueues, left: set<OpId>, o: OpId)
    requires Scanned(ae, ad, kept, found, todo, cur, left) && Next(todo, o) && o in kept && o !in ad
    ensures Scanned(ae, ad, kept, found, todo - {o}, cur, left)
    ensures Scanned(ae, ad, kept, found + {o}, todo - {o}, cur - {o}, left)
  {
  }

  lemma LookOther(kept: Enqueues, db: map<uint64, Msg>, q: uint64, todo: set<OpId>,
                  looked: set<OpId>, found: set<OpId>, first: nat, o: OpId)
    requires LookedUp(kept, db, q, todo, looked, found, first) && o in todo && (o !in kept || o.qid != q)
    ensures LookedUp(kept, db, q, todo - {o}, looked, found, first)
  {
  }

  /** Visiting an operation of the queue: looked up while the counter lasts. */
  lemma LookEarly(kept: Enqueues, db: map<uint64, Msg>, q: uint64, todo: set<OpId>,
                  looked: set<OpId>, found: set<OpId>, first: nat, o: OpId)
    requires LookedUp(kept, db, q, todo, looked, found, first) && Next(todo, o) && o in kept && o.qid == q
    requires (forall x | x in kept && x !in todo :: OpLe(x, o) && x != o) && first < CHECKS
    ensures LookedUp(kept, db, q, todo - {o}, looked + {o}, if o.pid in db then found + {o} else found, first + 1)
  {
    assert o !in looked;
    assert |looked + {o}| == |looked| + 1;
  }

  lemma LookLate(kept: Enqueues, db: map<uint64, Msg>, q: uint64, todo: set<OpId>,
                 looked: set<OpId>, found: set<OpId>, first: nat, o: OpId)
    requires LookedUp(kept, db, q, todo, looked, found, first) && first == CHECKS
    ensures LookedUp(kept, db, q, todo - {o}, looked, found, first)
  {
  }

  /** In the end the operations found are exactly those caught. */
  lemma FoundIsCaught(kept: Enqueues, db: map<uint64, Msg>, q: uint64,
                      looked: set<OpId>, found: set<OpId>, first: nat)
    requires LookedUp(kept, db, q, {}, looked, found, first)
    ensures found == Caught(kept, db, q)
  {
    forall o | o in kept && o.qid == q ensures o in looked <==> |Before(kept, o)| < CHECKS {
      if o in looked {
        SubsetSize(Before(kept, o) + {o}, looked);
      } else {
        SubsetSize(looked, Before(kept, o));
      }
    }
  }

  /** `out` lists the pending enqueues of the queue that have been visited. */
  ghost predicate Lists(out: seq<Entry>, pending: Enqueues, q: uint64, todo: set<OpId>) {
    && (forall i | 0 <= i < |out| ::
          var o := OpId(out[i].0, q);
          o in pending && o !in todo && out[i].1 == pending[o])
    && (forall i, j | 0 <= i < j < |out| :: out[i].0 != out[j].0)
    && (forall o | o in pending && o.qid == q && o !in todo :: exists i :: 0 <= i < |out| && out[i].0 == o.pid)
  }

  lemma ListsNext(out: seq<Entry>, pending: Enqueues, q: uint64, todo: set<OpId>, o: OpId)
    requires Lists(out, pending, q, todo) && o in todo
    ensures o !in pending || o.qid != q ==> Lists(out, pending, q, todo - {o})
    ensures o in pending && o.qid == q ==> Lists(out + [(o.pid, pending[o])], pending, q, todo - {o})
  {
    if o in pending && o.qid == q {
      var out' := out + [(o.pid, pending[o])];
      assert out'[|out|].0 == o.pid;
      assert o == OpId(o.pid, q);
      forall x | x in pending && x.qid == q && x !in todo - {o}
        ensures exists i :: 0 <= i < |out'| && out'[i].0 == x.pid
      {
        if x != o {
          var i :| 0 <= i < |out| && out[i].0 == x.pid;
          assert out'[i].0 == x.pid;
        }
      }
    }
  }

  lemma ListsDrop(out: seq<Entry>, pending: Enqueues, q: uint64, todo: set<OpId>, o: OpId)
    requires Lists(out, pending, q, todo) && o in todo
    ensures Lists(out, pending - {o}, q, todo - {o})
  {
  }

  lemma ListsAll(out: seq<Entry>, pending: Enqueues, q: uint64)
    requires Lists(out, pending, q, {})
    ensures Enumerates(out, OnQueue(pending, q))
  {
    forall p | p in OnQueue(pending, q) ensures exists i :: 0 <= i < |out| && out[i].0 == p {
      assert OpId(p, q) in pending;
    }
  }

  /** The operations given up, by the reason. */
  ghost predicate GivenUp(ae: Enqueues, ad: set<OpId>, todo: set<OpId>, useless: set<OpId>, transients: set<OpId>) {
    && (forall o :: o in useless <==> o in ae && o !in todo && o in ad)
    && (forall o :: o in transients <==> o in ae && o !in todo && o !in ad && ae[o].transient)
  }

  lemma CompletedNext(ops: seq<OpId>, o: OpId)
    ensures Completed(ops + [o]) == Completed(ops) + {o}
  {
  }

  /** The variables of the loop; `looked` is only used to reason about it. */
  datatype Scan = Scan(
    todo: set<OpId>, cur: Enqueues, left: set<OpId>,
    useless: seq<OpId>, transients: seq<OpId>, found: seq<OpId>, fromLog: seq<Entry>,
    first: nat, looked: set<OpId>)

  ghost predicate ScanOk(ae: Enqueues, ad: set<OpId>, db: map<uint64, Msg>, q: uint64, z: Scan) {
    var kept := Kept(ae, ad);
    && Scanned(ae, ad, kept, Completed(z.found), z.todo, z.cur, z.left)
    && LookedUp(kept, db, q, z.todo, z.looked, Completed(z.found), z.first)
    && GivenUp(ae, ad, z.todo, Completed(z.useless), Completed(z.transients))
    && Lists(z.fromLog, kept - Completed(z.found), q, z.todo)
  }

  lemma ScanUseless(ae: Enqueues, ad: set<OpId>, db: map<uint64, Msg>, q: uint64, z: Scan, o: OpId)
    requires ScanOk(ae, ad, db, q, z) && Next(z.todo, o) && o in z.left
    ensures ScanOk(ae, ad, db, q, z.(todo := z.todo - {o}, cur := z.cur - {o}, left := z.left - {o},
                                     useless := z.useless + [o]))
  {
    var kept := Kept(ae, ad);
    ScanDrop(ae, ad, kept, Completed(z.found), z.todo, z.cur, z.left, o);
    LookOther(kept, db, q, z.todo, z.looked, Completed(z.found), z.first, o);
    ListsNext(z.fromLog, kept - Completed(z.found), q, z.todo, o);
    CompletedNext(z.useless, o);
  }

  lemma ScanTransient(ae: Enqueues, ad: set<OpId>, db: map<uint64, Msg>, q: uint64, z: Scan, o: OpId)
    requires ScanOk(ae, ad, db, q, z) && Next(z.todo, o) && o !in z.left && z.cur[o].transient
    ensures ScanOk(ae, ad, db, q, z.(todo := z.todo - {o}, cur := z.cur - {o}, transients := z.transients + [o]))
  {
    var kept := Kept(ae, ad);
    ScanDrop(ae, ad, kept, Completed(z.found), z.todo, z.cur, z.left, o);
    assert z.left - {o} == z.left;
    LookOther(kept, db, q, z.todo, z.looked, Completed(z.found), z.first, o);
    ListsNext(z.fromLog, kept - Completed(z.found), q, z.todo, o);
    CompletedNext(z.transients, o);
  }

  lemma ScanOther(ae: Enqueues, ad: set<OpId>, db: map<uint64, Msg>, q: uint64, z: Scan, o: OpId)
    requires ScanOk(ae, ad, db, q, z) && Next(z.todo, o) && o !in z.left && !z.cur[o].transient && o.qid != q
    ensures ScanOk(ae, ad, db, q, z.(todo := z.todo - {o}))
  {
    var kept := Kept(ae, ad);
    ScanKeep(ae, ad, kept, Completed(z.found), z.todo, z.cur, z.left, o);
    LookOther(kept, db, q, z.todo, z.looked, Completed(z.found), z.first, o);
    ListsNext(z.fromLog, kept - Completed(z.found), q, z.todo, o);
  }

  /** A pending enqueue of the queue itself: found in the journal ... */
  lemma ScanFound(ae: Enqueues, ad: set<OpId>, db: map<uint64, Msg>, q: uint64, z: Scan, o: OpId, z': Scan)
    requires ScanOk(ae, ad, db, q, z) && Next(z.todo, o) && o !in z.left && !z.cur[o].transient && o.qid == q
    requires z' == z.(todo := z.todo - {o}, cur := z.cur - {o}, first := z'.first, looked := z'.looked,
                      found := z.found + [o])
    requires LookedUp(Kept(ae, ad), db, q, z'.todo, z'.looked, Completed(z'.found), z'.first)
    ensures ScanOk(ae, ad, db, q, z')
  {
    var kept, found := Kept(ae, ad), Completed(z.found);
    CompletedNext(z.found, o);
    ScanKeep(ae, ad, kept, found, z.todo, z.cur, z.left, o);
    ListsDrop(z.fromLog, kept - found, q, z.todo, o);
    MinusTwice(kept, found, o);
  }

  lemma ScanHit(ae: Enqueues, ad: set<OpId>, db: map<uint64, Msg>, q: uint64, z: Scan, o: OpId)
    requires ScanOk(ae, ad, db, q, z) && Next(z.todo, o) && o !in z.left && !z.cur[o].transient && o.qid == q
    requires z.first < CHECKS && o.pid in db
    ensures LookedUp(Kept(ae, ad), db, q, z.todo - {o}, z.looked + {o}, Completed(z.found + [o]), z.first + 1)
  {
    CompletedNext(z.found, o);
    LookEarly(Kept(ae, ad), db, q, z.todo, z.looked, Completed(z.found), z.first, o);
  }

  /** ... or recovered from the log. */
  lemma ScanRecover(ae: Enqueues, ad: set<OpId>, db: map<uint64, Msg>, q: uint64, z: Scan, o: OpId, z': Scan)
    requires ScanOk(ae, ad, db, q, z) && Next(z.todo, o) && o !in z.left && !z.cur[o].transient && o.qid == q
    requires LookedUp(Kept(ae, ad), db, q, z.todo - {o}, z'.looked, Completed(z.found), z'.first)
    requires z' == z.(todo := z.todo - {o}, fromLog := z.fromLog + [(o.pid, z.cur[o])],
                      first := z'.first, looked := z'.looked)
    ensures ScanOk(ae, ad, db, q, z')
  {
    var kept := Kept(ae, ad);
    ScanKeep(ae, ad, kept, Completed(z.found), z.todo, z.cur, z.left, o);
    ListsNext(z.fromLog, kept - Completed(z.found), q, z.todo, o);
  }

  lemma ScanMissed(ae: Enqueues, ad: set<OpId>, db: map<uint64, Msg>, q: uint64, z: Scan, o: OpId)
    requires ScanOk(ae, ad, db, q, z) && Next(z.todo, o) && o !in z.left && !z.cur[o].transient && o.qid == q
    requires z.first < CHECKS ==> o.pid !in db
    ensures LookedUp(Kept(ae, ad), db, q, z.todo - {o}, if z.first < CHECKS then z.looked + {o} else z.looked,
                     Completed(z.found), if z.first < CHECKS then z.first + 1 else z.first)
  {
    if z.first < CHECKS {
      LookEarly(Kept(ae, ad), db, q, z.todo, z.looked, Completed(z.found), z.first, o);
    } else {
      LookLate(Kept(ae, ad), db, q, z.todo, z.looked, Completed(z.found), z.first, o);
    }
  }

  lemma ScanEnd(ae: Enqueues, ad: set<OpId>, kept: Enqueues, z: Scan)
    requires kept == Kept(ae, ad) && z.todo == {}
    requires Scanned(ae, ad, kept, Completed(z.found), {}, z.cur, z.left)
    requires GivenUp(ae, ad, {}, Completed(z.useless), Completed(z.transients))
    ensures z.cur == kept - Completed(z.found) && z.left == Uncancelled(ae, ad)
    ensures Completed(z.useless) == ae.Keys * ad
    ensures ae - Completed(z.found) - Completed(z.transients) - Completed(z.useless) == z.cur
  {
  }

  lemma ScanDone(ae: Enqueues, ad: set<OpId>, db: map<uint64, Msg>, q: uint64, z: Scan)
    requires ScanOk(ae, ad, db, q, z) && z.todo == {}
    ensures z.cur == EnqueuesAfter(ae, ad, db, q) && z.left == Uncancelled(ae, ad)
    ensures Enumerates(z.fromLog, OnQueue(z.cur, q))
    ensures Completed(z.useless) == ae.Keys * ad
    ensures ae - Completed(z.found) - Completed(z.transients) - Completed(z.useless) == z.cur
    ensures FirstTen(Kept(ae, ad), db, q, Completed(z.found))
  {
    ScanEnd(ae, ad, Kept(ae, ad), z);
    ListsAll(z.fromLog, z.cur, q);
    FoundIsCaught(Kept(ae, ad), db, q, z.looked, Completed(z.found), z.first);
  }

  /** A pending enqueue of the queue itself: looked up in the journal while the
      counter lasts. */
  method VisitOwn(jc: Journal, ghost ae: Enqueues, ghost ad: set<OpId>, z: Scan, o: OpId) returns (z': Scan)
    requires jc.Valid() && ScanOk(ae, ad, jc.Contents(), jc.qid, z) && Next(z.todo, o)
    requires o !in z.left && !z.cur[o].transient && o.qid == jc.qid
    ensures ScanOk(ae, ad, jc.Contents(), jc.qid, z') && z'.todo == z.todo - {o}
  {
    if z.first < CHECKS {
      var there := jc.IsEnqueued(o.pid);
      if there {
        ScanHit(ae, ad, jc.Contents(), jc.qid, z, o);
        z' := z.(todo := z.todo - {o}, cur := z.cur - {o}, first := z.first + 1,
                 looked := z.looked + {o}, found := z.found + [o]);
        ScanFound(ae, ad, jc.Contents(), jc.qid, z, o, z');
        return;
      }
    }
    ScanMissed(ae, ad, jc.Contents(), jc.qid, z, o);
    z' := z.(todo := z.todo - {o}, fromLog := z.fromLog + [(o.pid, z.cur[o])],
             first := if z.first < CHECKS then z.first + 1 else z.first,
             looked := if z.first < CHECKS then z.looked + {o} else z.looked);
    ScanRecover(ae, ad, jc.Contents(), jc.qid, z, o, z');
  }

  /** One iteration: cancelled by a pending dequeue, transient, of this queue or
      of another one. */
  method Visit(jc: Journal, ghost ae: Enqueues, ghost ad: set<OpId>, z: Scan, o: OpId) returns (z': Scan)
    requires jc.Valid() && ScanOk(ae, ad, jc.Contents(), jc.qid, z) && Next(z.todo, o)
    ensures ScanOk(ae, ad, jc.Contents(), jc.qid, z') && z'.todo == z.todo - {o}
  {
    if o in z.left {
      ScanUseless(ae, ad, jc.Contents(), jc.qid, z, o);
      z' := z.(todo := z.todo - {o}, cur := z.cur - {o}, left := z.left - {o}, useless := z.useless + [o]);
    } else if z.cur[o].transient {
      ScanTransient(ae, ad, jc.Contents(), jc.qid, z, o);
      z' := z.(todo := z.todo - {o}, cur := z.cur - {o}, transients := z.transients + [o]);
    } else if jc.qid == o.qid {
      z' := VisitOwn(jc, ae, ad, z, o);
    } else {
      ScanOther(ae, ad, jc.Contents(), jc.qid, z, o);
      z' := z.(todo := z.todo - {o});
    }
  }

  /** Of the pending enqueues of the queue, those in the journal among the first ten. */
  ghost predicate FirstTen(kept: Enqueues, db: map<uint64, Msg>, q: uint64, found: set<OpId>) {
    forall o :: o in found <==> o in kept && o.qid == q && o.pid in db && |Before(kept, o)| < 10
  }

  /** First loop of the pass. The journal object is only looked up; the pending
      enqueues it already holds are returned in `found`. */
  method ScanPending(jc: Journal, ae: Enqueues, ad: set<OpId>) returns (z: Scan)
    requires jc.Valid()
    ensures z.cur == EnqueuesAfter(ae, ad, jc.Contents(), jc.qid)
    ensures z.left == Uncancelled(ae, ad)
    ensures Enumerates(z.fromLog, OnQueue(z.cur, jc.qid))
    ensures Completed(z.useless) == ae.Keys * ad
    ensures ae - Completed(z.found) - Completed(z.transients) - Completed(z.useless) == z.cur
    ensures FirstTen(Kept(ae, ad), jc.Contents(), jc.qid, Completed(z.found))
  {
    z := Scan(ae.Keys, ae, ad, [], [], [], [], 0, {});
    while z.todo != {}
      invariant ScanOk(ae, ad, jc.Contents(), jc.qid, z)
      decreases |z.todo|
    {
      z := Visit(jc, ae, ad, z, LeastOp(z.todo));
    }
    ScanDone(ae, ad, jc.Contents(), jc.qid, z);
  }

  // ---------------------------------------------------------------------
  // Second loop: everything read from the journal and from the log

  /** The entries handed to the broker, in order. */
  function Handed(es: seq<Entry>, left: set<OpId>, q: uint64): seq<Entry> {
    if es == [] then []
    else
      var (p, msg) := es[|es| - 1];
      var rest := Handed(es[..|es| - 1], left, q);
      if msg.transient || OpId(p, q) in left then rest else rest + [(p, msg)]
  }

  function Transients(es: seq<Entry>): seq<uint64> {
    if es == [] then []
    else
      var (p, msg) := es[|es| - 1];
      Transients(es[..|es| - 1]) + (if msg.transient then [p] else [])
  }

  function AcceptedIds(es: seq<Entry>, left: set<OpId>, q: uint64): seq<uint64> {
    if es == [] then []
    else
      var (p, msg) := es[|es| - 1];
      AcceptedIds(es[..|es| - 1], left, q) + (if !msg.transient && OpId(p, q) in left then [p] else [])
  }

  /** `maxRid`: the largest id of a message that is not transient, or 0. */
  function TopId(es: seq<Entry>): uint64 {
    if es == [] then 0
    else
      var (p, msg) := es[|es| - 1];
      if msg.transient then TopId(es[..|es| - 1]) else Max(p, TopId(es[..|es| - 1]))
  }

  ghost function OpsOf(pids: seq<uint64>, q: uint64): set<OpId> {
    set p | p in pids :: OpId(p, q)
  }

  /** Ids of the messages that are not transient. */
  function Seen(es: seq<Entry>): set<uint64> {
    set e | e in es && !e.1.transient :: e.0
  }

  /** `lastPid`: the largest id that was not taken from `pend`, where every id can be
      taken once. */
  function LastId(es: seq<Entry>, pend: set<uint64>): uint64 {
    if es == [] then 0
    else
      var (p, msg) := es[|es| - 1];
      var es' := es[..|es| - 1];
      if msg.transient || p in pend - Seen(es') then LastId(es', pend) else Max(p, LastId(es', pend))
  }

  /** `lastPid` and `penq_recovered`, entry by entry. */
  method Latest(es: seq<Entry>, pend: set<uint64>) returns (last: uint64)
    ensures last == LastId(es, pend)
  {
    last := 0;
    var left := pend;
    var i := 0;
    while i < |es|
      invariant 0 <= i <= |es|
      invariant left == pend - Seen(es[..i]) && last == LastId(es[..i], pend)
    {
      assert es[..i + 1][..i] == es[..i];
      var (p, msg) := es[i];
      SeenNext(es[..i], p, msg);
      assert es[..i + 1] == es[..i] + [(p, msg)];
      if !msg.transient {
        if p in left {
          left := left - {p};
        } else {
          last := Max(p, last);
        }
      }
      i := i + 1;
    }
    assert es[..i] == es;
  }

  lemma SeenNext(es: seq<Entry>, p: uint64, msg: Msg)
    ensures Seen(es + [(p, msg)]) == if msg.transient then Seen(es) else Seen(es) + {p}
  {
    var more := es + [(p, msg)];
    assert forall e :: e in more <==> e in es || e == (p, msg);
    if !msg.transient {
      assert (p, msg) in more;
    }
  }

  /** The entry at `i` counts for `lastPid`. */
  ghost predicate Counts(es: seq<Entry>, pend: set<uint64>, i: nat)
    requires i < |es|
  {
    !es[i].1.transient && es[i].0 !in pend - Seen(es[..i])
  }

  lemma {:induction false} LastIdHolds(es: seq<Entry>, pend: set<uint64>)
    ensures forall i | 0 <= i < |es| && Counts(es, pend, i) :: es[i].0 <= LastId(es, pend)
    ensures LastId(es, pend) == 0 || exists i :: 0 <= i < |es| && Counts(es, pend, i) && es[i].0 == LastId(es, pend)
    decreases |es|
  {
    if es != [] {
      var es' := es[..|es| - 1];
      LastIdHolds(es', pend);
      assert forall i | 0 <= i < |es'| :: es[..i] == es'[..i];
      assert forall i | 0 <= i < |es'| :: Counts(es, pend, i) <==> Counts(es', pend, i);
      if LastId(es, pend) == LastId(es', pend) && LastId(es, pend) != 0 {
        var i :| 0 <= i < |es'| && Counts(es', pend, i) && es'[i].0 == LastId(es', pend);
        assert Counts(es, pend, i);
      }
    }
  }

  /** The highest id of a message of the journal that is not transient, or 0. */
  ghost predicate IsLast(db: map<uint64, Msg>, last: uint64) {
    && (forall p | p in db && !db[p].transient :: p <= last)
    && (last == 0 || (last in db && !db[last].transient))
  }

  /** Entries of the journal followed by those of the log: whether or not the log
      repeats a message, each message of the journal counts once and no other. */
  lemma LastIsFromJournal(a: seq<Entry>, b: seq<Entry>, db: map<uint64, Msg>, pend: set<uint64>)
    requires Enumerates(a, db) && DistinctIds(b) && pend == Seen(b) && forall i | 0 <= i < |b| :: !b[i].1.transient
    ensures IsLast(db, LastId(a + b, pend))
  {
    var es := a + b;
    LastIdHolds(es, pend);
    forall p | p in db && !db[p].transient ensures p <= LastId(es, pend) {
      var i :| 0 <= i < |a| && a[i].0 == p;
      JournalCounts(a, b, pend, i);
    }
    forall i | 0 <= i < |es| && Counts(es, pend, i) ensures es[i].0 in db && !db[es[i].0].transient {
      OnlyJournalCounts(a, b, db, pend, i);
    }
  }

  lemma JournalCounts(a: seq<Entry>, b: seq<Entry>, pend: set<uint64>, i: nat)
    requires i < |a| && !a[i].1.transient && pend == Seen(b) && forall j | 0 <= j < |b| :: !b[j].1.transient
    ensures exists k :: 0 <= k < |a + b| && Counts(a + b, pend, k) && (a + b)[k].0 == a[i].0
  {
    var es, p := a + b, a[i].0;
    if p in pend {
      var e :| e in b && !e.1.transient && e.0 == p;
      var j :| 0 <= j < |b| && b[j] == e;
      assert es[i] in es[..|a| + j] && es[i] == a[i];
      assert Counts(es, pend, |a| + j);
    } else {
      assert Counts(es, pend, i);
    }
  }

  lemma OnlyJournalCounts(a: seq<Entry>, b: seq<Entry>, db: map<uint64, Msg>, pend: set<uint64>, i: nat)
    requires Enumerates(a, db) && DistinctIds(b) && pend == Seen(b) && (forall j | 0 <= j < |b| :: !b[j].1.transient)
    requires i < |a + b| && Counts(a + b, pend, i)
    ensures (a + b)[i].0 in db && !db[(a + b)[i].0].transient
  {
    var es := a + b;
    if i >= |a| {
      var p := es[i].0;
      assert b[i - |a|] in b && p in pend;
      assert forall k | |a| <= k < i :: es[k].0 == b[k - |a|].0 && es[k].0 != p;
      var e :| e in es[..i] && !e.1.transient && e.0 == p;
      var k :| 0 <= k < i && es[k] == e;
    }
  }

  method Examine(q: uint64, es: seq<Entry>, left: set<OpId>)
    returns (ad: set<OpId>, delivered: seq<Entry>, transient: seq<uint64>, accepted: seq<uint64>, maxRid: uint64)
    requires forall i, j | 0 <= i < j < |es| && es[i].0 == es[j].0 :: OpId(es[i].0, q) !in left
    ensures delivered == Handed(es, left, q) && transient == Transients(es)
    ensures accepted == AcceptedIds(es, left, q) && maxRid == TopId(es)
    ensures ad == left - OpsOf(accepted, q)
  {
    ad, delivered, transient, accepted, maxRid := left, [], [], [], 0;
    var i := 0;
    while i < |es|
      invariant 0 <= i <= |es|
      invariant delivered == Handed(es[..i], left, q) && transient == Transients(es[..i])
      invariant accepted == AcceptedIds(es[..i], left, q) && maxRid == TopId(es[..i])
      invariant ad == left - OpsOf(accepted, q)
      invariant forall p | p in accepted :: OpId(p, q) in left && exists j :: 0 <= j < i && es[j].0 == p
    {
      assert es[..i + 1][..i] == es[..i];
      var (p, msg) := es[i];
      if !msg.transient {
        maxRid := Max(p, maxRid);
        if OpId(p, q) in ad {
          AcceptNext(accepted, q, p);
          accepted := accepted + [p];
          ad := ad - {OpId(p, q)};
        } else {
          delivered := delivered + [(p, msg)];
        }
      } else {
        transient := transient + [p];
      }
      i := i + 1;
    }
    assert es[..i] == es;
  }

  lemma AcceptNext(accepted: seq<uint64>, q: uint64, p: uint64)
    ensures OpsOf(accepted + [p], q) == OpsOf(accepted, q) + {OpId(p, q)}
  {
    assert forall x :: x in accepted + [p] <==> x in accepted || x == p;
  }

  ghost predicate DistinctIds(es: seq<Entry>) {
    forall i, j | 0 <= i < j < |es| :: es[i].0 != es[j].0
  }

  lemma {:induction false} HandedConcat(a: seq<Entry>, b: seq<Entry>, left: set<OpId>, q: uint64)
    ensures Handed(a + b, left, q) == Handed(a, left, q) + Handed(b, left, q)
    decreases |b|
  {
    if b == [] {
      assert a + b == a;
    } else {
      HandedConcat(a, b[..|b| - 1], left, q);
      assert (a + b)[..|a + b| - 1] == a + b[..|b| - 1];
    }
  }

  lemma {:induction false} TransientsConcat(a: seq<Entry>, b: seq<Entry>)
    ensures Transients(a + b) == Transients(a) + Transients(b)
    decreases |b|
  {
    if b == [] {
      assert a + b == a;
    } else {
      TransientsConcat(a, b[..|b| - 1]);
      assert (a + b)[..|a + b| - 1] == a + b[..|b| - 1];
    }
  }

  lemma {:induction false} AcceptedConcat(a: seq<Entry>, b: seq<Entry>, left: set<OpId>, q: uint64)
    ensures AcceptedIds(a + b, left, q) == AcceptedIds(a, left, q) + AcceptedIds(b, left, q)
    decreases |b|
  {
    if b == [] {
      assert a + b == a;
    } else {
      AcceptedConcat(a, b[..|b| - 1], left, q);
      assert (a + b)[..|a + b| - 1] == a + b[..|b| - 1];
    }
  }

  lemma {:induction false} HandedHolds(es: seq<Entry>, left: set<OpId>, q: uint64)
    ensures forall e :: e in Handed(es, left, q) <==> e in es && !e.1.transient && OpId(e.0, q) !in left
    ensures DistinctIds(es) ==> DistinctIds(Handed(es, left, q))
    decreases |es|
  {
    if es != [] {
      var es', e := es[..|es| - 1], es[|es| - 1];
      HandedHolds(es', left, q);
      assert forall x :: x in es <==> x in es' || x == e;
      assert forall i | 0 <= i < |Handed(es', left, q)| :: Handed(es', left, q)[i] in es';
    }
  }

  lemma {:induction false} DiscardedHolds(es: seq<Entry>, left: set<OpId>, q: uint64)
    ensures forall p :: p in Transients(es) <==> exists i :: 0 <= i < |es| && es[i].0 == p && es[i].1.transient
    ensures forall p :: p in AcceptedIds(es, left, q) <==>
              exists i :: 0 <= i < |es| && es[i].0 == p && !es[i].1.transient && OpId(p, q) in left
    decreases |es|
  {
    if es != [] {
      DiscardedHolds(es[..|es| - 1], left, q);
    }
  }

  /** What comes from the journal: each message once, or discarded. */
  lemma JournalPart(es: seq<Entry>, db: map<uint64, Msg>, left: set<OpId>, q: uint64)
    requires Enumerates(es, db)
    ensures Enumerates(Handed(es, left, q), FromJournal(left, db, q))
    ensures Ids(Transients(es)) == TransientIds(db)
    ensures OpsOf(AcceptedIds(es, left, q), q) == Accepted(left, db, q)
  {
    HandedHolds(es, left, q);
    DiscardedHolds(es, left, q);
    var h := Handed(es, left, q);
    forall i | 0 <= i < |h| ensures h[i].0 in FromJournal(left, db, q) && h[i].1 == FromJournal(left, db, q)[h[i].0] {
      assert h[i] in h;
    }
    forall p | p in FromJournal(left, db, q) ensures exists i :: 0 <= i < |h| && h[i].0 == p {
      var i :| 0 <= i < |es| && es[i].0 == p;
      assert es[i] in h;
    }
    forall p ensures p in Ids(Transients(es)) <==> p in TransientIds(db) {
      if p in TransientIds(db) {
        var i :| 0 <= i < |es| && es[i].0 == p;
      }
    }
    forall o ensures o in OpsOf(AcceptedIds(es, left, q), q) <==> o in Accepted(left, db, q) {
      if o in Accepted(left, db, q) {
        var i :| 0 <= i < |es| && es[i].0 == o.pid;
        assert o == OpId(o.pid, q);
        assert o.pid in AcceptedIds(es, left, q);
      }
    }
  }

  ghost function TransientIds(db: map<uint64, Msg>): set<uint64> {
    set p | p in db && db[p].transient
  }

  /** What comes from the log is handed over as it is. */
  lemma {:induction false} LogPart(es: seq<Entry>, left: set<OpId>, q: uint64)
    requires forall i | 0 <= i < |es| :: !es[i].1.transient && OpId(es[i].0, q) !in left
    ensures Handed(es, left, q) == es && Transients(es) == [] && AcceptedIds(es, left, q) == []
    decreases |es|
  {
    if es != [] {
      LogPart(es[..|es| - 1], left, q);
    }
  }

  lemma {:induction false} TopIdHolds(es: seq<Entry>)
    ensures forall e | e in es && !e.1.transient :: e.0 <= TopId(es)
    ensures TopId(es) == 0 || exists e :: e in es && !e.1.transient && e.0 == TopId(es)
    decreases |es|
  {
    if es != [] {
      var es', e := es[..|es| - 1], es[|es| - 1];
      TopIdHolds(es');
      assert forall x :: x in es <==> x in es' || x == e;
    }
  }

  // ---------------------------------------------------------------------
  // The whole pass

  ghost predicate LogsAgree(enqLog: OperationLog.Log<Msg>, deqLog: OperationLog.Log<()>, ae: Enqueues, ad: set<OpId>) {
    && OperationLog.Valid(enqLog) && enqLog.cleaner.Resting? && enqLog.Recovered() == ae
    && OperationLog.Valid(deqLog) && deqLog.cleaner.Resting? && deqLog.Recovered().Keys == ad
  }

  /** What one pass gives: the messages handed to the broker (those before
      `split` from the journal, the others from the log), the highest id, the
      highest one in the journal, and what the journal is to discard. */
  datatype Pass = Pass(delivered: seq<Entry>, split: nat, top: uint64, last: uint64,
                       transient: seq<uint64>, accepted: seq<uint64>)

  /** A message with this id that is not transient is in the journal, or among the
      enqueues that are kept. */
  ghost predicate Met(db: map<uint64, Msg>, kept: map<uint64, Msg>, p: uint64) {
    (p in db && !db[p].transient) || p in kept
  }

  /** The highest of these ids, or 0. */
  ghost predicate IsTop(db: map<uint64, Msg>, kept: map<uint64, Msg>, top: uint64) {
    && (forall p: uint64 | Met(db, kept, p) :: p <= top)
    && (top == 0 || Met(db, kept, top))
  }

  lemma TopIsMet(a: seq<Entry>, b: seq<Entry>, db: map<uint64, Msg>, kept: map<uint64, Msg>)
    requires Enumerates(a, db) && Enumerates(b, kept)
    ensures TopId(a + b) == 0 || Met(db, kept, TopId(a + b))
  {
    TopIdHolds(a + b);
    if TopId(a + b) != 0 {
      var e :| e in a + b && !e.1.transient && e.0 == TopId(a + b);
      assert e in a || e in b;
    }
  }

  lemma TopIsHighest(a: seq<Entry>, b: seq<Entry>, db: map<uint64, Msg>, kept: map<uint64, Msg>)
    requires Enumerates(a, db) && Enumerates(b, kept) && forall i | 0 <= i < |b| :: !b[i].1.transient
    ensures IsTop(db, kept, TopId(a + b))
  {
    TopIsMet(a, b, db, kept);
    TopIdHolds(a + b);
    forall p: uint64 | Met(db, kept, p) ensures p <= TopId(a + b) {
      var i :| if p in kept then 0 <= i < |b| && b[i].0 == p else 0 <= i < |a| && a[i].0 == p;
      assert (if p in kept then b[i] else a[i]) in a + b;
    }
  }

  ghost predicate Passed(ae: Enqueues, ad: set<OpId>, db: map<uint64, Msg>, q: uint64, r: Pass) {
    && r.split <= |r.delivered|
    && Enumerates(r.delivered[..r.split], FromJournal(Uncancelled(ae, ad), db, q))
    && Enumerates(r.delivered[r.split..], OnQueue(EnqueuesAfter(ae, ad, db, q), q))
    && IsTop(db, OnQueue(EnqueuesAfter(ae, ad, db, q), q), r.top) && IsLast(db, r.last)
    && Ids(r.transient) == TransientIds(db)
    && OpsOf(r.accepted, q) == Accepted(Uncancelled(ae, ad), db, q)
  }

  /** The second loop, over what the journal and then the log gave. */
  method ExamineAll(q: uint64, recovered: seq<Entry>, fromLog: seq<Entry>, left: set<OpId>,
                    ghost ae: Enqueues, ghost ad: set<OpId>, ghost db: map<uint64, Msg>)
    returns (ad': set<OpId>, r: Pass)
    requires left == Uncancelled(ae, ad) && Enumerates(recovered, db)
    requires Enumerates(fromLog, OnQueue(EnqueuesAfter(ae, ad, db, q), q))
    ensures ad' == left - OpsOf(r.accepted, q) && Passed(ae, ad, db, q, r)
  {
    LogEntries(fromLog, ae, ad, db, q);
    NoRepeat(recovered, fromLog, left, q);
    var delivered, transient, accepted, top;
    ad', delivered, transient, accepted, top := Examine(q, recovered + fromLog, left);
    PassParts(recovered, fromLog, db, left, q);
    TopIsHighest(recovered, fromLog, db, OnQueue(EnqueuesAfter(ae, ad, db, q), q));
    LastIsFromJournal(recovered, fromLog, db, Seen(fromLog));
    var last := Latest(recovered + fromLog, Seen(fromLog));
    r := Pass(delivered, |delivered| - |fromLog|, top, last, transient, accepted);
    assert delivered[..r.split] == Handed(recovered, left, q) && delivered[r.split..] == fromLog;
  }

  /** Both loops of the pass: what the broker gets and what is to be settled. */
  method ReadQueue(jc: Journal, enqLog: OperationLogger<Msg>, ae: Enqueues, ad: set<OpId>)
    returns (ae': Enqueues, ad': set<OpId>, r: Pass, useless: seq<OpId>, transients: seq<OpId>)
    requires jc.Valid()
    requires OperationLog.Valid(enqLog.log) && enqLog.log.cleaner.Resting? && enqLog.log.Recovered() == ae
    modifies enqLog`log
    ensures OperationLog.Valid(enqLog.log) && enqLog.log.cleaner.Resting?
    ensures enqLog.log.Recovered() - Completed(transients) - Completed(useless) == ae'
    ensures ad - OpsOf(r.accepted, jc.qid) - Completed(useless) == ad'
    ensures ae' == EnqueuesAfter(ae, ad, jc.Contents(), jc.qid)
    ensures ad' == DequeuesAfter(ae, ad, jc.Contents(), jc.qid)
    ensures Passed(ae, ad, jc.Contents(), jc.qid, r)
  {
    var recovered := jc.RecoverMessages();
    var z := ScanPending(jc, ae, ad);
    enqLog.LogMassComplete(z.found);
    ae', useless, transients := z.cur, z.useless, z.transients;
    ad', r := ExamineAll(jc.qid, recovered, z.fromLog, z.left, ae, ad, jc.Contents());
    LeftOver(ad, ae.Keys, OpsOf(r.accepted, jc.qid));
  }

  lemma LeftOver(ad: set<OpId>, keys: set<OpId>, accepted: set<OpId>)
    ensures ad - keys - accepted == ad - accepted - (keys * ad)
  {
  }

  /** The end of the pass: the completions in both logs. */
  method SettleLogs(enqLog: OperationLogger<Msg>, deqLog: OperationLogger<()>, q: uint64,
                    transients: seq<OpId>, useless: seq<OpId>, accepted: seq<uint64>)
    requires OperationLog.Valid(enqLog.log) && enqLog.log.cleaner.Resting?
    requires OperationLog.Valid(deqLog.log) && deqLog.log.cleaner.Resting?
    requires enqLog as object != deqLog
    modifies enqLog`log, deqLog`log
    ensures OperationLog.Valid(enqLog.log) && enqLog.log.cleaner.Resting?
    ensures OperationLog.Valid(deqLog.log) && deqLog.log.cleaner.Resting?
    ensures enqLog.log.Recovered() == old(enqLog.log.Recovered()) - Completed(transients) - Completed(useless)
    ensures deqLog.log.Recovered() == old(deqLog.log.Recovered()) - OpsOf(accepted, q) - Completed(useless)
  {
    enqLog.LogMassComplete(transients);
    var completed := seq(|accepted|, i requires 0 <= i < |accepted| => OpId(accepted[i], q));
    CompletedOps(accepted, completed, q);
    deqLog.LogMassComplete(completed);
    enqLog.LogMassComplete(useless);
    deqLog.LogMassComplete(useless);
  }

  /** `decodeAndRecoverMsg` for one queue. The messages handed to the broker are
      those of the journal followed by those of the log; each part has every
      message once. Before and after, replaying the two logs gives exactly the
      pending operations held in memory. */
  method RecoverQueue(jc: Journal, enqLog: OperationLogger<Msg>, deqLog: OperationLogger<()>,
                      ae: Enqueues, ad: set<OpId>)
    returns (ae': Enqueues, ad': set<OpId>, r: Pass)
    requires jc.Valid() && LogsAgree(enqLog.log, deqLog.log, ae, ad)
    requires enqLog as object != deqLog
    modifies enqLog`log, deqLog`log
    ensures ae' == EnqueuesAfter(ae, ad, jc.Contents(), jc.qid)
    ensures ad' == DequeuesAfter(ae, ad, jc.Contents(), jc.qid)
    ensures Passed(ae, ad, jc.Contents(), jc.qid, r)
    ensures LogsAgree(enqLog.log, deqLog.log, ae', ad')
  {
    var useless, transients;
    ae', ad', r, useless, transients := ReadQueue(jc, enqLog, ae, ad);
    SettleLogs(enqLog, deqLog, jc.qid, transients, useless, r.accepted);
  }

  lemma LogEntries(fromLog: seq<Entry>, ae: Enqueues, ad: set<OpId>, db: map<uint64, Msg>, q: uint64)
    requires Enumerates(fromLog, OnQueue(EnqueuesAfter(ae, ad, db, q), q))
    ensures forall i | 0 <= i < |fromLog| :: !fromLog[i].1.transient && OpId(fromLog[i].0, q) !in Uncancelled(ae, ad)
  {
    forall i | 0 <= i < |fromLog|
      ensures !fromLog[i].1.transient && OpId(fromLog[i].0, q) !in Uncancelled(ae, ad)
    {
      assert OpId(fromLog[i].0, q) in Kept(ae, ad);
    }
  }

  lemma NoRepeat(a: seq<Entry>, b: seq<Entry>, left: set<OpId>, q: uint64)
    requires DistinctIds(a) && (forall i | 0 <= i < |b| :: OpId(b[i].0, q) !in left)
    ensures forall i, j | 0 <= i < j < |a + b| && (a + b)[i].0 == (a + b)[j].0 :: OpId((a + b)[i].0, q) !in left
  {
  }

  lemma PassParts(a: seq<Entry>, b: seq<Entry>, db: map<uint64, Msg>, left: set<OpId>, q: uint64)
    requires Enumerates(a, db)
    requires forall i | 0 <= i < |b| :: !b[i].1.transient && OpId(b[i].0, q) !in left
    ensures Handed(a + b, left, q) == Handed(a, left, q) + b
    ensures Enumerates(Handed(a, left, q), FromJournal(left, db, q))
    ensures Ids(Transients(a + b)) == TransientIds(db)
    ensures OpsOf(AcceptedIds(a + b, left, q), q) == Accepted(left, db, q)
    ensures forall e | e in Handed(a + b, left, q) :: e in a + b && !e.1.transient
  {
    HandedConcat(a, b, left, q);
    TransientsConcat(a, b);
    AcceptedConcat(a, b, left, q);
    JournalPart(a, db, left, q);
    LogPart(b, left, q);
    assert Transients(a + b) == Transients(a);
    assert AcceptedIds(a + b, left, q) == AcceptedIds(a, left, q);
    HandedHolds(a + b, left, q);
  }

  lemma CompletedOps(pids: seq<uint64>, ops: seq<OpId>, q: uint64)
    requires |ops| == |pids| && forall i | 0 <= i < |pids| :: ops[i] == OpId(pids[i], q)
    ensures Completed(ops) == OpsOf(pids, q)
  {
    forall o ensures o in Completed(ops) <==> o in OpsOf(pids, q) {
      if o in OpsOf(pids, q) {
        var i :| 0 <= i < |pids| && OpId(pids[i], q) == o;
        assert ops[i] == o;
      }
    }
  }
}
