/** One operation log: two alternating files, the writers that append to the
    active one and the cleaner that compacts the idle one beside them. */
module OperationLog {
  import opened Records
  import Replay

  /** Where the cleaner is in its cycle. `Removed` lies between the removal of the
      idle file and the renaming of the temporary file that takes its place.
      `lost` holds the completes that the rewritten file no longer has and that
      have not been appended to the active file yet. */
  datatype Cleaner<+P> =
    | Resting
    | Rotated
    | Removed(tmp: seq<Record<P>>, lost: set<OpId>)
    | Relogging(lost: set<OpId>)

  /** `started` and `completed` are history: every operation the writers ever
      started, with its payload, and every operation they ever completed. A
      crash keeps the two files and nothing else. */
  datatype Log<+P> = Log(
    file0: seq<Record<P>>,
    file1: seq<Record<P>>,
    second: bool,
    cleaner: Cleaner<P>,
    started: map<OpId, P>,
    completed: set<OpId>)
  {
    function Active(): seq<Record<P>> { if second then file1 else file0 }

    function Idle(): seq<Record<P>> { if second then file0 else file1 }

    function Disk(): seq<Record<P>> { file0 + file1 }

    function Spare(): seq<Record<P>> { if cleaner.Removed? then cleaner.tmp else [] }

    /** The files and the temporary file. */
    function All(): seq<Record<P>> { Disk() + Spare() }

    function Append(r: Record<P>): Log<P> {
      if second then this.(file1 := file1 + [r]) else this.(file0 := file0 + [r])
    }

    function WithIdle(f: seq<Record<P>>): Log<P> {
      if second then this.(file0 := f) else this.(file1 := f)
    }

    /** Completes that a crash at this point would forget. */
    function Window(): set<OpId> {
      if cleaner.Removed? || cleaner.Relogging? then cleaner.lost else {}
    }

    /** Operations whose start is only in the temporary file. */
    ghost function Gap(): set<OpId> {
      set r | r in Spare() :: r.op
    }

    /** What recovery reads: the first file and then the second one, with one
        shared set of lost completes. The temporary file is not read. */
    function Recovered(): map<OpId, P> { Replay.Pending(Disk()) }
  }

  function Empty<P>(): Log<P> {
    Log([], [], false, Resting, map[], {})
  }

  // ---------------------------------------------------------------------
  // Steps. Each one is a section under the log's mutex, or works on the file
  // that no writer touches.

  function Start<P>(l: Log<P>, op: OpId, p: P): Log<P> {
    l.Append(Record.Start(op, p)).(started := l.started[op := p])
  }

  function Complete<P>(l: Log<P>, op: OpId): Log<P> {
    l.Append(Record.Complete(op)).(completed := l.completed + {op})
  }

  function Rotate<P>(l: Log<P>): Log<P> {
    l.(second := !l.second, cleaner := Rotated)
  }

  /** Replay the idle file, write its pending starts to a temporary file, and
      remove the idle file. */
  function Remove<P>(l: Log<P>): Log<P> {
    l.WithIdle([]).(cleaner := Removed(Replay.Listing(Replay.Pending(l.Idle())), Replay.Lost(l.Idle())))
  }

  /** The temporary file takes its name. */
  function Rename<P>(l: Log<P>): Log<P>
    requires l.cleaner.Removed?
  {
    l.WithIdle(l.cleaner.tmp).(cleaner := Relogging(l.cleaner.lost))
  }

  /** Both at once. */
  function Replace<P>(l: Log<P>): Log<P> {
    Rename(Remove(l))
  }

  function Relog<P>(l: Log<P>, op: OpId): Log<P>
    requires l.cleaner.Relogging?
  {
    l.Append(Record.Complete(op)).(cleaner := Relogging(l.cleaner.lost - {op}))
  }

  function Rest<P>(l: Log<P>): Log<P> {
    l.(cleaner := Resting)
  }

  // ---------------------------------------------------------------------
  // The invariant

  ghost predicate Unstarted<P(!new)>(rs: seq<Record<P>>, op: OpId) {
    forall p :: Record.Start(op, p) !in rs
  }

  /** The records account for the history: no start is repeated, every record is
      in the history, nothing that is not completed is missing, and what is
      completed shows a complete, no start, or is in the window. */
  ghost predicate Accounted<P(!new)>(all: seq<Record<P>>, started: map<OpId, P>, completed: set<OpId>,
                                     window: set<OpId>)
  {
    && Replay.OneStart(multiset(all))
    && (forall op, p :: Record.Start(op, p) in all ==> op in started && started[op] == p)
    && (forall op :: Record.Complete(op) in all ==> op in completed)
    && (forall op | op in started && op !in completed :: Record.Start(op, started[op]) in all)
    && (forall op | op in completed :: Record.Complete(op) in all || Unstarted(all, op) || op in window)
    && window <= completed
  }

  ghost predicate Valid<P(!new)>(l: Log<P>) {
    && Accounted(l.All(), l.started, l.completed, l.Window())
    && (l.cleaner.Removed? ==> l.Idle() == [] && forall r | r in l.cleaner.tmp :: r.Start?)
  }

  lemma AppendMember<P(!new)>(l: Log<P>, r: Record<P>)
    ensures forall x :: x in l.Append(r).All() <==> x in l.All() || x == r
    ensures multiset(l.Append(r).All()) == multiset(l.All()) + multiset{r}
  {
    var a := l.Append(r);
    if !l.second {
      assert a.Disk() == l.file0 + ([r] + l.file1);
    } else {
      assert a.Disk() == l.Disk() + [r];
    }
  }

  lemma AppendOneStart<P(!new)>(l: Log<P>, r: Record<P>)
    requires Replay.OneStart(multiset(l.All()))
    requires r.Start? ==> Unstarted(l.All(), r.op)
    ensures Replay.OneStart(multiset(l.Append(r).All()))
  {
    AppendMember(l, r);
    var m, m' := multiset(l.All()), multiset(l.Append(r).All());
    forall o, q, q' | Record.Start(o, q) in m' && Record.Start(o, q') in m'
      ensures q == q' && m'[Record.Start(o, q)] == 1
    {
      if r.Start? && o == r.op {
        assert Record.Start(o, q) !in l.All() && Record.Start(o, q') !in l.All();
      } else {
        assert Record.Start(o, q) in m && Record.Start(o, q') in m;
      }
    }
  }

  lemma StartAccounted<P(!new)>(all: seq<Record<P>>, all': seq<Record<P>>, started: map<OpId, P>, completed: set<OpId>,
                                window: set<OpId>, op: OpId, p: P)
    requires Accounted(all, started, completed, window) && op !in started && op !in completed
    requires Replay.OneStart(multiset(all')) && forall x :: x in all' <==> x in all || x == Record.Start(op, p)
    ensures Accounted(all', started[op := p], completed, window)
  {
    assert forall o | o in completed :: Unstarted(all, o) ==> Unstarted(all', o);
  }

  lemma StartKeeps<P(!new)>(l: Log<P>, op: OpId, p: P)
    requires Valid(l) && op !in l.started && op !in l.completed
    ensures Valid(Start(l, op, p))
  {
    assert Unstarted(l.All(), op);
    AppendOneStart(l, Record.Start(op, p));
    AppendMember(l, Record.Start(op, p));
    StartAccounted(l.All(), l.Append(Record.Start(op, p)).All(), l.started, l.completed, l.Window(), op, p);
  }

  lemma CompleteAccounted<P(!new)>(all: seq<Record<P>>, all': seq<Record<P>>, started: map<OpId, P>,
                                   completed: set<OpId>,
                                   window: set<OpId>, op: OpId, window': set<OpId>)
    requires Accounted(all, started, completed, window)
    requires Replay.OneStart(multiset(all')) && forall x :: x in all' <==> x in all || x == Record.Complete(op)
    requires window - {op} <= window' <= window
    ensures Accounted(all', started, completed + {op}, window')
  {
    assert forall o | o in completed :: Unstarted(all, o) ==> Unstarted(all', o);
  }

  lemma AppendCompleteKeeps<P(!new)>(l: Log<P>, op: OpId, l': Log<P>)
    requires Valid(l)
    requires l'.All() == l.Append(Record.Complete(op)).All()
    requires l'.started == l.started && l'.completed == l.completed + {op}
    requires l.Window() - {op} <= l'.Window() <= l.Window()
    requires l'.cleaner.Removed? ==> l'.cleaner == l.cleaner && l'.Idle() == l.Idle()
    ensures Valid(l')
  {
    AppendOneStart(l, Record<P>.Complete(op));
    AppendMember(l, Record<P>.Complete(op));
    CompleteAccounted(l.All(), l'.All(), l.started, l.completed, l.Window(), op, l'.Window());
  }

  lemma CompleteKeeps<P(!new)>(l: Log<P>, op: OpId)
    requires Valid(l)
    ensures Valid(Complete(l, op))
  {
    AppendCompleteKeeps(l, op, Complete(l, op));
  }

  lemma RelogKeeps<P(!new)>(l: Log<P>, op: OpId)
    requires Valid(l) && l.cleaner.Relogging? && op in l.cleaner.lost
    ensures Valid(Relog(l, op))
  {
    assert l.completed + {op} == l.completed;
    AppendCompleteKeeps(l, op, Relog(l, op));
  }

  lemma RotateKeeps<P(!new)>(l: Log<P>)
    requires Valid(l) && l.cleaner.Resting?
    ensures Valid(Rotate(l))
  {
    assert Rotate(l).All() == l.All();
  }

  lemma RestKeeps<P(!new)>(l: Log<P>)
    requires Valid(l) && l.cleaner == Relogging({})
    ensures Valid(Rest(l))
  {
    assert Rest(l).All() == l.All();
  }

  lemma SplitMember<P(!new)>(l: Log<P>)
    requires !l.cleaner.Removed?
    ensures forall x :: x in l.All() <==> x in l.Active() || x in l.Idle()
    ensures multiset(l.All()) == multiset(l.Active()) + multiset(l.Idle())
  {
  }

  lemma OneStartPart<P(!new)>(a: multiset<Record<P>>, b: multiset<Record<P>>)
    requires Replay.OneStart(a + b)
    ensures Replay.OneStart(b)
  {
    forall op, p, q | Record.Start(op, p) in b && Record.Start(op, q) in b
      ensures p == q && b[Record.Start(op, p)] == 1
    {
      assert Record.Start(op, p) in a + b && Record.Start(op, q) in a + b;
    }
  }

  /** Compaction keeps exactly the starts of the idle file without a complete
      in the same file, and remembers every complete that has no start there. */
  lemma ReplaceEffect<P(!new)>(l: Log<P>)
    requires l.cleaner.Rotated? && Replay.OneStart(multiset(l.All()))
    ensures Replace(l).Active() == l.Active()
    ensures Replay.OneStart(multiset(Replace(l).Idle()))
    ensures forall r :: r in Replace(l).Idle() <==>
                        r.Start? && r in l.Idle() && Record.Complete(r.op) !in l.Idle()
    ensures forall o :: Record.Complete(o) in l.Idle() && Unstarted(l.Idle(), o) ==> o in Replace(l).Window()
    ensures forall o :: o in Replace(l).Window() ==> Record.Complete(o) in l.Idle()
  {
    var idle, pend := l.Idle(), Replay.Pending(l.Idle());
    SplitMember(l);
    OneStartPart(multiset(l.Active()), multiset(idle));
    Replay.ReplayIsExact(idle);
    Replay.ListingHolds(pend);
    forall r ensures r in Replace(l).Idle() <==>
                     r.Start? && r in idle && Record.Complete(r.op) !in idle
    {
      assert r.Start? ==> r == Record.Start(r.op, r.payload);
    }
  }

  lemma ReplaceKeeps<P(!new)>(l: Log<P>)
    requires Valid(l) && l.cleaner.Rotated?
    ensures Valid(Replace(l))
  {
    var l' := Replace(l);
    ReplaceMember(l);
    ReplaceOneStart(l);
    forall o | o in l.completed
      ensures Record.Complete(o) in l'.All() || Unstarted(l'.All(), o) || o in l'.Window()
    {
      ReplaceSettles(l, o);
    }
  }

  /** Nothing new, and every start without a complete stays. */
  lemma ReplaceMember<P(!new)>(l: Log<P>)
    requires l.cleaner.Rotated? && Replay.OneStart(multiset(l.All()))
    ensures forall r :: r in Replace(l).All() ==> r in l.All()
    ensures forall op, p ::
              Record.Start(op, p) in l.All() && Record.Complete(op) !in l.All() ==>
                Record.Start(op, p) in Replace(l).All()
    ensures forall o :: o in Replace(l).Window() ==> Record.Complete(o) in l.All()
  {
    ReplaceEffect(l);
    SplitMember(l);
    SplitMember(Replace(l));
  }

  /** Removal and renaming move records between the idle and the temporary file. */
  lemma RemoveKeeps<P(!new)>(l: Log<P>)
    requires Valid(l) && l.cleaner.Rotated?
    ensures Valid(Remove(l))
  {
    ReplaceKeeps(l);
    Replay.ListingHolds(Replay.Pending(l.Idle()));
    SameRecords(Replace(l), Remove(l));
  }

  lemma RenameKeeps<P(!new)>(l: Log<P>)
    requires Valid(l) && l.cleaner.Removed?
    ensures Valid(Rename(l))
  {
    SameRecords(l, Rename(l));
  }

  lemma SameRecords<P(!new)>(l: Log<P>, l': Log<P>)
    requires Valid(l)
    requires (l'.cleaner.Removed? && l == Rename(l') && l'.Idle() == [] && forall r | r in l'.cleaner.tmp :: r.Start?)
          || (l.cleaner.Removed? && l' == Rename(l))
    ensures Valid(l')
  {
    if l.cleaner.Removed? {
      MovesOnly(l);
    } else {
      MovesOnly(l');
    }
    SameAccounted(l.All(), l'.All(), l.started, l.completed, l.Window());
  }

  lemma SameAccounted<P(!new)>(all: seq<Record<P>>, all': seq<Record<P>>, started: map<OpId, P>, completed: set<OpId>,
                               window: set<OpId>)
    requires Accounted(all, started, completed, window) && multiset(all') == multiset(all)
    ensures Accounted(all', started, completed, window)
  {
    assert forall r :: r in all' <==> r in multiset(all');
    assert forall r :: r in all <==> r in multiset(all);
    assert forall o :: Unstarted(all, o) ==> Unstarted(all', o);
  }

  lemma ReplaceOneStart<P(!new)>(l: Log<P>)
    requires l.cleaner.Rotated? && Replay.OneStart(multiset(l.All()))
    ensures Replay.OneStart(multiset(Replace(l).All()))
  {
    ReplaceEffect(l);
    SplitMember(l);
    SplitMember(Replace(l));
    OneStartFewer(l.Active(), l.Idle(), Replace(l).Idle());
  }

  lemma OneStartFewer<P(!new)>(active: seq<Record<P>>, idle: seq<Record<P>>, idle': seq<Record<P>>)
    requires Replay.OneStart(multiset(active) + multiset(idle)) && Replay.OneStart(multiset(idle'))
    requires forall r :: r in idle' ==> r in idle
    ensures Replay.OneStart(multiset(active) + multiset(idle'))
  {
    var a, b, b' := multiset(active), multiset(idle), multiset(idle');
    forall op, p, q | Record.Start(op, p) in a + b' && Record.Start(op, q) in a + b'
      ensures p == q && (a + b')[Record.Start(op, p)] == 1
    {
      assert Record.Start(op, p) in b' ==> Record.Start(op, p) in idle' && Record.Start(op, p) in b;
      assert Record.Start(op, q) in b' ==> Record.Start(op, q) in idle' && Record.Start(op, q) in b;
      assert Record.Start(op, p) in a + b && Record.Start(op, q) in a + b;
    }
  }

  /** A completed operation is still settled after the idle file is replaced. */
  lemma ReplaceSettles<P(!new)>(l: Log<P>, o: OpId)
    requires Valid(l) && l.cleaner.Rotated? && o in l.completed
    ensures Record.Complete(o) in Replace(l).All() || Unstarted(Replace(l).All(), o) || o in Replace(l).Window()
  {
    var l' := Replace(l);
    ReplaceEffect(l);
    SplitMember(l);
    SplitMember(l');
    if Record.Complete(o) in l.Idle() && !Unstarted(l.Idle(), o) {
      var p :| Record.Start(o, p) in l.Idle();
      forall q ensures Record.Start(o, q) !in l'.All() {
        StartsOnce(l, o, p, q);
      }
      assert Unstarted(l'.All(), o);
    } else if Unstarted(l.All(), o) {
      assert Unstarted(l'.All(), o);
    }
  }

  lemma StartsOnce<P(!new)>(l: Log<P>, o: OpId, p: P, q: P)
    requires !l.cleaner.Removed? && Replay.OneStart(multiset(l.All()))
    requires Record.Start(o, p) in l.Idle()
    ensures Record.Start(o, q) !in l.Active()
  {
    SplitMember(l);
    var a, b, m := multiset(l.Active()), multiset(l.Idle()), multiset(l.All());
    assert Record.Start(o, p) in b && Record.Start(o, p) in m;
    assert Record.Start(o, q) in l.Active() ==> Record.Start(o, q) in a && Record.Start(o, q) in m;
  }

  // ---------------------------------------------------------------------
  // What a crash at any point leaves

  /** Recovery finds every operation that is started and not completed, with
      its payload, unless its start is only in the temporary file; anything else
      it finds was completed, and its complete is one that the cleaner has
      dropped and not yet appended again. */
  lemma RecoveryIsBounded<P(!new)>(l: Log<P>)
    requires Valid(l)
    ensures forall op | op in l.started && op !in l.completed ::
              op in l.Recovered() <==> op !in l.Gap()
    ensures forall op | op in l.Recovered() ::
              op in l.started && l.Recovered()[op] == l.started[op] && op !in l.Gap() &&
              (op in l.completed ==> op in l.Window())
    ensures forall op | op in l.Gap() :: op in l.started
  {
    OneStartPart(multiset(l.Spare()), multiset(l.Disk()));
    assert multiset(l.All()) == multiset(l.Spare()) + multiset(l.Disk());
    Replay.ReplayIsExact(l.Disk());
    var rec := l.Recovered();
    forall op | op in rec
      ensures op in l.started && rec[op] == l.started[op] && op !in l.Gap() && (op in l.completed ==> op in l.Window())
    {
      assert Record.Start(op, rec[op]) in l.Disk() && Record.Complete(op) !in l.Disk();
      FoundOnDisk(l, op, rec[op]);
    }
    forall op | op in l.started && op !in l.completed && op !in l.Gap() ensures op in rec {
      assert Record.Start(op, l.started[op]) in l.All() && Record.Complete(op) !in l.All();
      assert Record.Start(op, l.started[op]) !in l.Spare();
    }
    forall op | op in l.Gap() ensures op in l.started {
      var r :| r in l.Spare() && r.op == op;
      assert r == Record.Start(op, r.payload) && r in l.All();
    }
  }

  lemma FoundOnDisk<P(!new)>(l: Log<P>, op: OpId, p: P)
    requires Valid(l) && Record.Start(op, p) in l.Disk() && Record.Complete(op) !in l.Disk()
    ensures op in l.started && l.started[op] == p && op !in l.Gap() && (op in l.completed ==> op in l.Window())
  {
    assert Record.Start(op, p) in l.All();
    assert forall r | r in l.Spare() :: r.Start?;
    assert Record.Complete(op) !in l.All();
    var d, t := multiset(l.Disk()), multiset(l.Spare());
    assert multiset(l.All()) == d + t;
    forall r | r in l.Spare() ensures r.op != op {
      assert r == Record.Start(r.op, r.payload) && r in t && r in d + t;
      assert Record.Start(op, p) in d && Record.Start(op, p) in d + t;
    }
  }

  /** Outside the two windows recovery is exact. */
  lemma RecoveryIsExact<P(!new)>(l: Log<P>)
    requires Valid(l) && l.Window() == {} && !l.cleaner.Removed?
    ensures l.Recovered() == l.started - l.completed
  {
    assert l.Gap() == {};
    RecoveryIsBounded(l);
  }

  lemma OneRecord<P(!new)>(r: Record<P>)
    ensures Replay.Pending([r]) == if r.Start? then map[r.op := r.payload] else map[]
    ensures Replay.Lost([r]) == if r.Start? then {} else {r.op}
  {
    Replay.RunSnoc(Replay.Outcome(map[], {}), [], r);
    assert [] + [r] == [r];
  }

  lemma OneListed<P(!new)>(op: OpId, p: P)
    ensures Replay.Listing(map[op := p]) == [Record.Start(op, p)]
  {
    var m := map[op := p];
    assert m != map[] && m.Keys == {op} by {
      assert op in m;
    }
    assert m - {op} == map[];
  }

  /** All starts are in the idle file and all completes in the active one. */
  ghost predicate Parted<P(!new)>(l: Log<P>) {
    && Valid(l) && l.cleaner.Rotated? && l.completed <= l.started.Keys
    && (forall r | r in l.Idle() :: r.Start?) && (forall r | r in l.Active() :: r.Complete?)
    && (forall op | op in l.started :: Record.Start(op, l.started[op]) in l.Idle())
  }

  /** The window can hold any number of completes: from such a log two turns of
      the cleaner drop them all. A crash then forgets completes that were written
      long before, and finds every operation pending. */
  lemma WindowOpens<P(!new)>(l: Log<P>)
    requires Parted(l)
    ensures Replace(l).cleaner == Relogging({})
    ensures var l' := Replace(Rotate(Rest(Replace(l))));
            l'.cleaner.Relogging? && l'.Window() == l.completed && l'.Recovered() == l.started
  {
    FirstTurn(l);
    SecondTurn(l, Replace(l));
  }

  lemma SecondTurn<P(!new)>(was: Log<P>, l: Log<P>)
    requires Parted(was) && Valid(l) && l.cleaner == Relogging({})
    requires l.started == was.started && l.completed == was.completed && l.Active() == was.Active()
    requires forall r :: r in l.Idle() <==> r in was.Idle()
    ensures var l' := Replace(Rotate(Rest(l)));
            l'.cleaner.Relogging? && l'.Window() == was.completed && l'.Recovered() == was.started
  {
    RestKeeps(l);
    RotateKeeps(Rest(l));
    DropsCompletes(Rotate(Rest(l)), was);
  }

  lemma FirstTurn<P(!new)>(l: Log<P>)
    requires Parted(l)
    ensures Valid(Replace(l)) && Replace(l).cleaner == Relogging({}) && Replace(l).Active() == l.Active()
    ensures forall r :: r in Replace(l).Idle() <==> r in l.Idle()
  {
    ReplaceKeeps(l);
    ReplaceEffect(l);
    assert Replace(l).Window() == {};
  }

  lemma DropsCompletes<P(!new)>(l: Log<P>, was: Log<P>)
    requires Valid(l) && l.cleaner.Rotated? && Parted(was)
    requires l.started == was.started && l.completed == was.completed
    requires l.Idle() == was.Active() && forall r :: r in l.Active() <==> r in was.Idle()
    ensures Replace(l).Window() == l.completed && Replace(l).Recovered() == l.started
  {
    ReplaceKeeps(l);
    ReplaceEffect(l);
    assert forall op | op in l.started :: Record.Start(op, l.started[op]) in l.Active();
    assert forall r | r in l.Active() :: r.Start?;
    AllLost(l);
    AllPending(Replace(l));
  }

  lemma AllLost<P(!new)>(l: Log<P>)
    requires Valid(l) && l.cleaner.Rotated? && l.completed <= l.started.Keys
    requires forall r | r in l.Active() :: r.Start?
    requires forall r | r in l.Idle() :: r.Complete?
    requires forall op | op in l.started :: Record.Start(op, l.started[op]) in l.Active()
    ensures Replace(l).Window() == l.completed
  {
    ReplaceEffect(l);
    forall op | op in l.completed ensures op in Replace(l).Window() {
      CompleteIsIdle(l, op);
    }
    forall op | op in Replace(l).Window() ensures op in l.completed {
      assert Record.Complete(op) in l.Idle();
      SplitMember(l);
    }
  }

  lemma CompleteIsIdle<P(!new)>(l: Log<P>, op: OpId)
    requires Valid(l) && l.cleaner.Rotated? && op in l.completed && op in l.started
    requires Record.Start(op, l.started[op]) in l.Active() && Record.Complete(op) !in l.Active()
    ensures Record.Complete(op) in l.Idle()
  {
    SplitMember(l);
    assert Record.Start(op, l.started[op]) in l.All();
  }

  lemma AllPending<P(!new)>(l: Log<P>)
    requires Valid(l) && !l.cleaner.Removed?
    requires forall op | op in l.started :: Record.Start(op, l.started[op]) in l.Active()
    requires forall op :: Record.Complete(op) !in l.Active() && Record.Complete(op) !in l.Idle()
    ensures l.Recovered() == l.started
  {
    SplitMember(l);
    assert l.All() == l.Disk();
    Replay.ReplayIsExact(l.Disk());
    RecoveryIsBounded(l);
    forall op | op in l.started ensures op in l.Recovered() {
      assert Record.Start(op, l.started[op]) in l.Disk() && Record.Complete(op) !in l.Disk();
    }
  }

  // ---------------------------------------------------------------------
  // Operations that are completed once

  /** There is one complete at most, in a file or in the window, and as long as
      there is one the start is there. */
  ghost predicate SingleIn<P(!new)>(all: multiset<Record<P>>, started: map<OpId, P>, window: set<OpId>, op: OpId) {
    && all[Record<P>.Complete(op)] + One(op in window) <= 1
    && (op in window || Record<P>.Complete(op) in all ==> op in started && Record.Start(op, started[op]) in all)
  }

  ghost predicate Single<P(!new)>(l: Log<P>, op: OpId) {
    SingleIn(multiset(l.All()), l.started, l.Window(), op)
  }

  lemma StartSingle<P(!new)>(l: Log<P>, o: OpId, p: P, op: OpId)
    requires Valid(l) && Single(l, op) && o !in l.started
    ensures Single(Start(l, o, p), op)
  {
    AppendMember(l, Record.Start(o, p));
    assert Start(l, o, p).All() == l.Append(Record.Start(o, p)).All();
    StartedIn(multiset(l.All()), l.started, l.Window(), o, p, op);
  }

  lemma StartedIn<P(!new)>(all: multiset<Record<P>>, started: map<OpId, P>, window: set<OpId>, o: OpId, p: P, op: OpId)
    requires SingleIn(all, started, window, op) && o !in started
    ensures SingleIn(all + multiset{Record.Start(o, p)}, started[o := p], window, op)
  {
  }

  /** The complete of another operation, or the first one. */
  lemma CompleteSingle<P(!new)>(l: Log<P>, o: OpId, op: OpId)
    requires Valid(l) && Single(l, op) && (o == op ==> op in l.started && op !in l.completed)
    ensures Single(Complete(l, o), op)
  {
    AppendMember(l, Record<P>.Complete(o));
    assert Complete(l, o).All() == l.Append(Record<P>.Complete(o)).All();
    if o == op {
      assert Record<P>.Complete(op) !in l.All() && Record.Start(op, l.started[op]) in l.All();
    }
    CompletedIn(multiset(l.All()), l.started, l.Window(), l.Window(), o, op);
  }

  lemma CompletedIn<P(!new)>(all: multiset<Record<P>>, started: map<OpId, P>, window: set<OpId>, window': set<OpId>,
                             o: OpId, op: OpId)
    requires SingleIn(all, started, window, op) && window - {o} <= window' <= window
    requires o == op ==>
               && op in started && Record.Start(op, started[op]) in all
               && Record<P>.Complete(op) !in all && op !in window'
    ensures SingleIn(all + multiset{Record<P>.Complete(o)}, started, window', op)
  {
  }

  lemma RelogSingle<P(!new)>(l: Log<P>, o: OpId, op: OpId)
    requires Valid(l) && Single(l, op) && l.cleaner.Relogging? && o in l.cleaner.lost
    ensures Single(Relog(l, o), op)
  {
    AppendMember(l, Record<P>.Complete(o));
    assert Relog(l, o).All() == l.Append(Record<P>.Complete(o)).All();
    CompletedIn(multiset(l.All()), l.started, l.Window(), Relog(l, o).Window(), o, op);
  }

  lemma ReplaceSingle<P(!new)>(l: Log<P>, op: OpId)
    requires Valid(l) && l.cleaner.Rotated? && Single(l, op)
    ensures Single(Replace(l), op)
  {
    ReplaceEffect(l);
    SplitMember(l);
    SplitMember(Replace(l));
    OneStartPart(multiset(l.Active()), multiset(l.Idle()));
    Replay.LostOnce(l.Idle(), op);
    ReplacedIn(multiset(l.Active()), l.Idle(), Replace(l).Idle(), l.started, Replace(l).Window(), op);
  }

  lemma ReplacedIn<P(!new)>(active: multiset<Record<P>>, idle: seq<Record<P>>, idle': seq<Record<P>>,
                            started: map<OpId, P>, lost: set<OpId>, op: OpId)
    requires SingleIn(active + multiset(idle), started, {}, op) && Replay.LostIff(idle, lost, op)
    requires forall r :: r in idle' <==> r.Start? && r in idle && Record.Complete(r.op) !in idle
    ensures SingleIn(active + multiset(idle'), started, lost, op)
  {
    var c := Record<P>.Complete(op);
    assert c !in idle';
    if c in idle {
      assert c !in active;
    } else if c in active {
      var s := Record.Start(op, started[op]);
      assert s in idle ==> s in idle';
    }
  }

  /** Of such an operation, windows and history decide what recovery finds. */
  lemma SingleIsExact<P(!new)>(l: Log<P>, op: OpId)
    requires Valid(l) && Single(l, op) && op in l.started
    ensures op in l.Recovered() <==> op !in l.Gap() && (op in l.completed ==> op in l.Window())
  {
    RecoveryIsBounded(l);
    if op in l.Window() && op !in l.Gap() {
      var c, s := Record<P>.Complete(op), Record.Start(op, l.started[op]);
      assert c !in multiset(l.All()) && c !in l.All() && s in multiset(l.All()) && s in l.All();
      assert s !in l.Spare();
      OneStartPart(multiset(l.Spare()), multiset(l.Disk()));
      assert multiset(l.All()) == multiset(l.Spare()) + multiset(l.Disk());
      Replay.ReplayIsExact(l.Disk());
      assert s in l.Disk() && c !in l.Disk();
    }
  }

  // ---------------------------------------------------------------------
  // Runs of one log: writers and cleaner in any interleaving

  datatype LogStep<+P> =
    | WriteStart(op: OpId, payload: P)
    | WriteComplete(op: OpId)
    | CleanRotate
    | CleanRemove
    | CleanRename
    | CleanRelog(op: OpId)
    | CleanRest

  ghost predicate Enabled<P(!new)>(l: Log<P>, step: LogStep<P>) {
    match step
    case WriteStart(op, _) => op !in l.started && op !in l.completed
    case WriteComplete(_) => true
    case CleanRotate => l.cleaner.Resting?
    case CleanRemove => l.cleaner.Rotated?
    case CleanRename => l.cleaner.Removed?
    case CleanRelog(op) => l.cleaner.Relogging? && op in l.cleaner.lost
    case CleanRest => l.cleaner == Relogging({})
  }

  ghost function Next<P(!new)>(l: Log<P>, step: LogStep<P>): Log<P>
    requires Enabled(l, step)
  {
    match step
    case WriteStart(op, p) => Start(l, op, p)
    case WriteComplete(op) => Complete(l, op)
    case CleanRotate => Rotate(l)
    case CleanRemove => Remove(l)
    case CleanRename => Rename(l)
    case CleanRelog(op) => Relog(l, op)
    case CleanRest => Rest(l)
  }

  /** The cleaner is never stuck: in every state of a log its next step is possible,
      and only the order of the records it writes again is left open. */
  lemma CleanerGoesOn<P(!new)>(l: Log<P>, step: LogStep<P>)
    requires !step.WriteStart? && !step.WriteComplete?
    ensures Enabled(l, step) <==>
              match l.cleaner
              case Resting => step == CleanRotate
              case Rotated => step == CleanRemove
              case Removed(_, _) => step == CleanRename
              case Relogging(lost) => if lost == {} then step == CleanRest else step.CleanRelog? && step.op in lost
  {
  }

  ghost predicate Runs<P(!new)>(l: Log<P>, steps: seq<LogStep<P>>)
    decreases |steps|
  {
    steps == [] || (Enabled(l, steps[0]) && Runs(Next(l, steps[0]), steps[1..]))
  }

  ghost function After<P(!new)>(l: Log<P>, steps: seq<LogStep<P>>): Log<P>
    requires Runs(l, steps)
    decreases |steps|
  {
    if steps == [] then l else After(Next(l, steps[0]), steps[1..])
  }

  ghost function Output<P>(step: LogStep<P>): seq<Record<P>> {
    match step
    case WriteStart(op, p) => [Record.Start(op, p)]
    case WriteComplete(op) => [Record.Complete(op)]
    case _ => []
  }

  /** The records the writers appended during a run, in order. */
  ghost function Written<P>(steps: seq<LogStep<P>>): seq<Record<P>> {
    if steps == [] then [] else Output(steps[0]) + Written(steps[1..])
  }

  lemma NextKeeps<P(!new)>(l: Log<P>, step: LogStep<P>)
    requires Valid(l) && Enabled(l, step)
    ensures Valid(Next(l, step))
  {
    match step
    case WriteStart(op, p) => StartKeeps(l, op, p);
    case WriteComplete(op) => CompleteKeeps(l, op);
    case CleanRotate => RotateKeeps(l);
    case CleanRemove => RemoveKeeps(l);
    case CleanRename => RenameKeeps(l);
    case CleanRelog(op) => RelogKeeps(l, op);
    case CleanRest => RestKeeps(l);
  }

  lemma {:induction false} RunKeeps<P(!new)>(l: Log<P>, steps: seq<LogStep<P>>)
    requires Valid(l) && Runs(l, steps)
    ensures Valid(After(l, steps))
    decreases |steps|
  {
    if steps != [] {
      NextKeeps(l, steps[0]);
      RunKeeps(Next(l, steps[0]), steps[1..]);
    }
  }

  /** Removal and renaming only move records. */
  lemma MovesOnly<P(!new)>(l: Log<P>)
    requires l.cleaner.Removed? && l.Idle() == []
    ensures multiset(Rename(l).All()) == multiset(l.All())
  {
  }

  /** No step of the cleaner makes a second complete. */
  lemma CleanSingle<P(!new)>(l: Log<P>, step: LogStep<P>, op: OpId)
    requires Valid(l) && Enabled(l, step) && Single(l, op) && !step.WriteStart? && !step.WriteComplete?
    ensures Single(Next(l, step), op)
  {
    match step
    case CleanRotate => StandSingle(l, Rotate(l), op);
    case CleanRemove => RemoveSingle(l, op);
    case CleanRename => RenameSingle(l, op);
    case CleanRelog(o) => RelogSingle(l, o, op);
    case CleanRest => StandSingle(l, Rest(l), op);
  }

  lemma StandSingle<P(!new)>(l: Log<P>, l': Log<P>, op: OpId)
    requires Single(l, op) && l'.Disk() == l.Disk() && l'.started == l.started
    requires !l.cleaner.Removed? && !l'.cleaner.Removed? && l'.Window() == l.Window()
    ensures Single(l', op)
  {
  }

  lemma RenameSingle<P(!new)>(l: Log<P>, op: OpId)
    requires Valid(l) && l.cleaner.Removed? && Single(l, op)
    ensures Single(Rename(l), op)
  {
    MovesOnly(l);
  }

  lemma RemoveSingle<P(!new)>(l: Log<P>, op: OpId)
    requires Valid(l) && l.cleaner.Rotated? && Single(l, op)
    ensures Single(Remove(l), op)
  {
    ReplaceSingle(l, op);
    MovesOnly(Remove(l));
  }

  /** The same run without the cleaner. */
  ghost function Writes<P>(steps: seq<LogStep<P>>): seq<LogStep<P>> {
    if steps == [] then []
    else if steps[0].WriteStart? || steps[0].WriteComplete? then [steps[0]] + Writes(steps[1..])
    else Writes(steps[1..])
  }

  ghost predicate Plain<P(!new)>(l: Log<P>, plain: Log<P>) {
    && plain.started == l.started && plain.completed == l.completed
    && plain.cleaner.Resting? && plain.second
  }

  lemma PlainStep<P(!new)>(l: Log<P>, plain: Log<P>, step: LogStep<P>)
    requires Enabled(l, step) && Plain(l, plain)
    ensures var write := step.WriteStart? || step.WriteComplete?;
            && (write ==> Enabled(plain, step))
            && var plain' := if write then Next(plain, step) else plain;
            && Plain(Next(l, step), plain') && plain'.All() == plain.All() + Output(step)
  {
  }

  /** Without the cleaner the writers can do the same, and leave the same
      history and all their records in one file. */
  lemma {:induction false} WritesRun<P(!new)>(l: Log<P>, plain: Log<P>, steps: seq<LogStep<P>>)
    requires Runs(l, steps) && Plain(l, plain)
    ensures Runs(plain, Writes(steps))
    ensures Plain(After(l, steps), After(plain, Writes(steps)))
    ensures After(plain, Writes(steps)).All() == plain.All() + Written(steps)
    decreases |steps|
  {
    if steps != [] {
      var step, rest := steps[0], steps[1..];
      PlainStep(l, plain, step);
      if step.WriteStart? || step.WriteComplete? {
        assert Writes(steps)[1..] == Writes(rest);
        WritesRun(Next(l, step), Next(plain, step), rest);
      } else {
        WritesRun(Next(l, step), plain, rest);
      }
      ConcatAssociates(plain.All(), Output(step), Written(rest));
    }
  }

  /** The cleaner is invisible: after any interleaving of writers and cleaner,
      recovery of the two files agrees with a replay of everything that was on
      disk at the start followed by everything the writers appended. It misses
      exactly what is only in the temporary file, payloads are the same, and it
      finds at most the completes still waiting to be appended again besides;
      with the cleaner at rest the two are equal. */
  lemma CleanerIsInvisible<P(!new)>(l: Log<P>, steps: seq<LogStep<P>>)
    requires Valid(l) && l.cleaner.Resting? && Runs(l, steps)
    ensures var plain, cleaned := Replay.Pending(l.Disk() + Written(steps)), After(l, steps).Recovered();
            && (forall op | op in plain :: op in cleaned <==> op !in After(l, steps).Gap())
            && (forall op | op in plain && op in cleaned :: cleaned[op] == plain[op])
            && (forall op | op in cleaned && op !in plain :: op in After(l, steps).Window())
            && (After(l, steps).cleaner.Resting? ==> cleaned == plain)
  {
    var plain := Log(l.Disk(), [], true, Resting, l.started, l.completed);
    assert plain.All() == plain.Disk() == l.Disk() == l.All();
    assert Valid(plain);
    WritesRun(l, plain, steps);
    RunKeeps(plain, Writes(steps));
    RunKeeps(l, steps);
    assert After(plain, Writes(steps)).Disk() == After(plain, Writes(steps)).All();
    SameHistory(After(l, steps), After(plain, Writes(steps)));
  }

  lemma SameHistory<P(!new)>(l: Log<P>, plain: Log<P>)
    requires Valid(l) && Valid(plain) && Plain(l, plain)
    ensures forall op | op in plain.Recovered() :: op in l.Recovered() <==> op !in l.Gap()
    ensures forall op | op in plain.Recovered() && op in l.Recovered() :: l.Recovered()[op] == plain.Recovered()[op]
    ensures forall op | op in l.Recovered() && op !in plain.Recovered() :: op in l.Window()
    ensures l.cleaner.Resting? ==> l.Recovered() == plain.Recovered()
  {
    RecoveryIsExact(plain);
    RecoveryIsBounded(l);
    if l.cleaner.Resting? {
      RecoveryIsExact(l);
    }
  }

  /** Any two files without a repeated start have a history, so the statement
      above holds whatever is on disk. */
  ghost function HistoryOf<P>(rs: seq<Record<P>>): (h: (map<OpId, P>, set<OpId>)) {
    if rs == [] then (map[], {})
    else
      var (started, completed) := HistoryOf(rs[1..]);
      match rs[0]
      case Start(op, p) => (started[op := p], completed)
      case Complete(op) => (started, completed + {op})
  }

  lemma {:induction false} HistoryHolds<P(!new)>(rs: seq<Record<P>>)
    requires Replay.OneStart(multiset(rs))
    ensures forall op, p :: (op in HistoryOf(rs).0 && HistoryOf(rs).0[op] == p) <==> Record.Start(op, p) in rs
    ensures forall op :: op in HistoryOf(rs).1 <==> Record.Complete(op) in rs
    decreases |rs|
  {
    if rs != [] {
      var tail := rs[1..];
      assert rs == [rs[0]] + tail;
      assert multiset(rs) == multiset{rs[0]} + multiset(tail);
      OneStartPart(multiset{rs[0]}, multiset(tail));
      HistoryHolds(tail);
      forall op, p
        ensures (op in HistoryOf(rs).0 && HistoryOf(rs).0[op] == p) <==> Record.Start(op, p) in rs
      {
        assert Record.Start(op, p) in rs <==> Record.Start(op, p) == rs[0] || Record.Start(op, p) in tail;
        if rs[0].Start? && rs[0].op == op {
          assert rs[0] in multiset(rs);
          assert Record.Start(op, p) in tail ==> Record.Start(op, p) in multiset(tail);
        }
      }
    }
  }

  lemma AnyFilesAreValid<P(!new)>(file0: seq<Record<P>>, file1: seq<Record<P>>, second: bool)
    requires Replay.OneStart(multiset(file0 + file1))
    ensures var h := HistoryOf(file0 + file1);
            Valid(Log(file0, file1, second, Resting, h.0, h.1))
  {
    HistoryHolds(file0 + file1);
    var h := HistoryOf(file0 + file1);
    var l := Log(file0, file1, second, Resting, h.0, h.1);
    assert l.All() == file0 + file1;
  }

  // ---------------------------------------------------------------------
  // What is on disk, file by file

  /** What replaying some of the records gives. */
  ghost predicate Finds<P(!new)>(l: Log<P>, rs: seq<Record<P>>, op: OpId) {
    op in l.started && Record.Start(op, l.started[op]) in rs && Record.Complete(op) !in rs
  }

  lemma FindsIff<P(!new)>(l: Log<P>, rs: seq<Record<P>>, op: OpId)
    requires Valid(l) && Replay.OneStart(multiset(rs)) && forall r | r in rs :: r in l.All()
    ensures op in Replay.Pending(rs) <==> Finds(l, rs, op)
    ensures op in Replay.Pending(rs) ==> Replay.Pending(rs)[op] == l.started[op]
  {
    Replay.ReplayIsExact(rs);
    if op in Replay.Pending(rs) {
      assert Record.Start(op, Replay.Pending(rs)[op]) in rs;
    }
  }

  lemma OneStartFiles<P(!new)>(l: Log<P>)
    requires Valid(l)
    ensures Replay.OneStart(multiset(l.Disk())) && Replay.OneStart(multiset(l.file1))
    ensures forall r | r in l.file1 :: r in l.Disk()
    ensures forall r | r in l.Disk() :: r in l.All()
  {
    assert multiset(l.All()) == multiset(l.Spare()) + multiset(l.Disk());
    OneStartPart(multiset(l.Spare()), multiset(l.Disk()));
    assert multiset(l.Disk()) == multiset(l.file0) + multiset(l.file1);
    OneStartPart(multiset(l.file0), multiset(l.file1));
  }

  /** Recovery finds an operation exactly when its start is in one of the two files
      and its complete in neither. */
  lemma RecoveryByFiles<P(!new)>(l: Log<P>, op: OpId)
    requires Valid(l)
    ensures op in l.Recovered() <==> Finds(l, l.Disk(), op)
  {
    OneStartFiles(l);
    FindsIff(l, l.Disk(), op);
  }
}
