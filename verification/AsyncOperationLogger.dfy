/** One log of the asynchronous operation logger as an object: writers, the
    cleaner's cycle and the replay at start-up. The logger owns two of these,
    one for enqueues and one for dequeues. */
module AsyncOperationLogger {
  import opened Records
  import Replay
  import opened OperationLog

  function Completed(ops: seq<OpId>): set<OpId> {
    set o | o in ops
  }

  /** With the cleaner at rest, completing operations takes exactly them away
      from what recovery would find. */
  lemma CompleteRemoves<P(!new)>(l: Log<P>, op: OpId)
    requires Valid(l) && l.cleaner.Resting?
    ensures Valid(OperationLog.Complete(l, op))
    ensures OperationLog.Complete(l, op).Recovered() == l.Recovered() - {op}
  {
    CompleteKeeps(l, op);
    RecoveryIsExact(l);
    RecoveryIsExact(OperationLog.Complete(l, op));
    MinusTwice(l.started, l.completed, op);
  }

  lemma MinusTwice<P>(m: map<OpId, P>, s: set<OpId>, op: OpId)
    ensures m - s - {op} == m - (s + {op})
  {
  }

  /** One start record for every pending operation, in the order of the maps. */
  method WriteStarts<P>(pending: map<OpId, P>) returns (file: seq<Record<P>>)
    ensures file == Replay.Listing(pending)
  {
    var todo := pending;
    file := [];
    while todo != map[]
      invariant file + Replay.Listing(todo) == Replay.Listing(pending)
      decreases |todo|
    {
      var o := LeastOp(todo.Keys);
      file := file + [Record.Start(o, todo[o])];
      todo := todo - {o};
    }
  }

  lemma FreshLog<P(!new)>(pending: map<OpId, P>)
    ensures var l := Log(Replay.Listing(pending), [], false, Resting, pending, {});
            Valid(l) && l.Recovered() == pending
  {
    var file := Replay.Listing(pending);
    var l := Log(file, [], false, Resting, pending, {});
    assert l.All() == l.Disk() == file;
    Replay.ListingReplays(pending);
    Replay.ListingHolds(pending);
    FreshValid(l, file, pending);
  }

  lemma FreshValid<P(!new)>(l: Log<P>, file: seq<Record<P>>, pending: map<OpId, P>)
    requires l.All() == l.Disk() == file && Replay.OneStart(multiset(file))
    requires forall r :: r in file <==> r.Start? && r.op in pending && r.payload == pending[r.op]
    requires l.started == pending && l.completed == {} && l.cleaner == Resting
    ensures Valid(l)
  {
  }

  /** `recoverAsync*` removes the first file before it reads the second one. A crash
      there finds the starts of the second file without a complete in the same
      file. */
  lemma CrashBetweenFiles<P(!new)>(l: Log<P>, op: OpId)
    requires Valid(l)
    ensures op in Replay.Pending(l.file1) <==> Finds(l, l.file1, op)
    ensures op in Replay.Pending(l.file1) ==> Replay.Pending(l.file1)[op] == l.started[op]
  {
    OneStartFiles(l);
    FindsIff(l, l.file1, op);
  }

  /** So it finds an operation as recovery would have done exactly when its start is
      not in the first file while it is pending, and its complete not only there. */
  lemma CrashBetweenFilesIff<P(!new)>(l: Log<P>, op: OpId)
    requires Valid(l) && op in l.started
    ensures (op in Replay.Pending(l.file1) <==> op in l.Recovered()) <==>
              && (op in l.Recovered() ==> Record.Start(op, l.started[op]) !in l.file0)
              && (Finds(l, l.file1, op) ==> Record.Complete(op) !in l.file0)
  {
    OneStartFiles(l);
    FindsIff(l, l.file1, op);
    FindsIff(l, l.Disk(), op);
    if Record.Start(op, l.started[op]) in l.file0 {
      InOneFile(l, Record.Start(op, l.started[op]));
    }
  }

  lemma InOneFile<P(!new)>(l: Log<P>, r: Record<P>)
    requires Valid(l) && r.Start? && r in l.file0
    ensures r !in l.file1
  {
    var a, b := multiset(l.file0), multiset(l.file1);
    assert multiset(l.All()) == a + b + multiset(l.Spare());
    assert r == Record.Start(r.op, r.payload) && r in a && r in multiset(l.All());
    assert multiset(l.All())[r] == 1;
  }

  /** It removes both files before it logs the pending starts again,
      one by one. A crash after `k` of them finds exactly these. */
  lemma CrashInRecovery<P(!new)>(pending: map<OpId, P>, k: nat)
    requires k <= |Replay.Listing(pending)|
    ensures var found := Replay.Pending(Replay.Listing(pending)[..k]);
            forall o, p :: (o in found && found[o] == p) <==> Record.Start(o, p) in Replay.Listing(pending)[..k]
    ensures Replay.Pending(Replay.Listing(pending)[..k]) == pending <==> k == |Replay.Listing(pending)|
  {
    var file := Replay.Listing(pending);
    var done, rest := file[..k], file[k..];
    assert file == done + rest;
    Replay.ListingHolds(pending);
    Replay.ListingReplays(pending);
    assert multiset(file) == multiset(rest) + multiset(done);
    OneStartPart(multiset(rest), multiset(done));
    Replay.ReplayIsExact(done);
    assert forall r | r in done :: r in file;
    if k < |file| {
      assert file[k] in rest && file[k] in multiset(rest) && file[k] in multiset(file);
      assert multiset(file)[file[k]] == 1 by {
        assert file[k] == Record.Start(file[k].op, file[k].payload);
      }
      assert file[k] !in multiset(done);
    } else {
      assert done == file;
    }
  }

  class OperationLogger<P(!new)> {
    var log: Log<P>

    constructor ()
      ensures Valid(log) && log == Empty()
    {
      log := Empty();
    }

    /** Any operation is appended; the accounting needs that it is new. */
    method LogStart(op: OpId, payload: P)
      modifies this`log
      ensures log == OperationLog.Start(old(log), op, payload)
      ensures old(Valid(log) && op !in log.started && op !in log.completed) ==> Valid(log)
    {
      if Valid(log) && op !in log.started && op !in log.completed {
        StartKeeps(log, op, payload);
      }
      log := OperationLog.Start(log, op, payload);
    }

    method LogComplete(op: OpId)
      modifies this`log
      ensures log == OperationLog.Complete(old(log), op)
      ensures old(Valid(log)) ==> Valid(log)
    {
      if Valid(log) {
        CompleteKeeps(log, op);
      }
      log := OperationLog.Complete(log, op);
    }

    /** `log_mass_*_complete`: all the completes in one write. */
    method LogMassComplete(ops: seq<OpId>)
      requires Valid(log) && log.cleaner.Resting?
      modifies this`log
      ensures Valid(log) && log.cleaner.Resting?
      ensures log.Recovered() == old(log.Recovered()) - Completed(ops)
    {
      var i := 0;
      while i < |ops|
        invariant 0 <= i <= |ops|
        invariant Valid(log) && log.cleaner.Resting?
        invariant log.Recovered() == old(log.Recovered()) - Completed(ops[..i])
      {
        CompleteRemoves(log, ops[i]);
        WithoutNext(old(log.Recovered()), ops, i);
        log := OperationLog.Complete(log, ops[i]);
        i := i + 1;
      }
      assert ops[..i] == ops;
    }

    /** Switch the writers to the other file. */
    method Rotate()
      requires Valid(log) && log.cleaner.Resting?
      modifies this`log
      ensures Valid(log) && log == OperationLog.Rotate(old(log))
    {
      RotateKeeps(log);
      log := OperationLog.Rotate(log);
    }

    /** Write the pending starts of the idle file to a temporary file, in order,
        and remove the idle file. */
    method Compact()
      requires Valid(log) && log.cleaner.Rotated?
      modifies this`log
      ensures Valid(log) && log == OperationLog.Remove(old(log))
    {
      var out := Replay.Run(Replay.Outcome(map[], {}), log.Idle());
      var tmp := WriteStarts(out.pending);
      RemoveKeeps(log);
      log := log.WithIdle([]).(cleaner := Removed(tmp, out.lost));
    }

    /** The temporary file becomes the idle file. */
    method Swap()
      requires Valid(log) && log.cleaner.Removed?
      modifies this`log
      ensures Valid(log) && log == OperationLog.Rename(old(log))
    {
      RenameKeeps(log);
      log := OperationLog.Rename(log);
    }

    /** Append the completes that the rewritten file no longer holds. */
    method RelogLost()
      requires Valid(log) && log.cleaner.Relogging?
      modifies this`log
      ensures Valid(log) && log.cleaner == Relogging({})
      ensures log.started == old(log.started) && log.completed == old(log.completed)
    {
      while log.cleaner.lost != {}
        invariant Valid(log) && log.cleaner.Relogging?
        invariant log.started == old(log.started) && log.completed == old(log.completed)
        decreases |log.cleaner.lost|
      {
        var o := LeastOp(log.cleaner.lost);
        RelogKeeps(log, o);
        log := Relog(log, o);
      }
    }

    /** One whole cycle without interference: recovery finds the same. */
    method Clean()
      requires Valid(log) && log.cleaner.Resting?
      modifies this`log
      ensures Valid(log) && log.cleaner.Resting?
      ensures log.Recovered() == old(log.Recovered())
    {
      RecoveryIsExact(log);
      Rotate();
      Compact();
      Swap();
      RelogLost();
      RestKeeps(log);
      log := Rest(log);
      RecoveryIsExact(log);
    }

    /** `recoverAsync*`: replay the first file, then the second one with the
        lost completes of the first, remove both and log every pending start
        again. Nothing but the files is read. */
    method Recover() returns (pending: map<OpId, P>)
      modifies this`log
      ensures pending == old(log.Recovered())
      ensures Valid(log) && log.cleaner.Resting? && log.Recovered() == pending
      ensures log.started == pending && log.completed == {}
    {
      var first := Replay.Run(Replay.Outcome(map[], {}), log.file0);
      var both := Replay.Run(first, log.file1);
      Replay.RunConcat(Replay.Outcome(map[], {}), log.file0, log.file1);
      pending := both.pending;
      var file := WriteStarts(pending);
      FreshLog(pending);
      log := Log(file, [], false, Resting, pending, {});
    }
  }

  lemma WithoutNext<P>(m: map<OpId, P>, ops: seq<OpId>, i: nat)
    requires i < |ops|
    ensures m - Completed(ops[..i]) - {ops[i]} == m - Completed(ops[..i + 1])
  {
    assert Completed(ops[..i + 1]) == Completed(ops[..i]) + {ops[i]};
  }
}
