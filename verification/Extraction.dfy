/** `extractPending*FromFile`: the loop that reads a log file into maps nested by
    queue and id. It computes the replay of the records that the file holds. */
module Extraction {
  import opened Records
  import opened QueueMaps
  import opened Codec
  import Replay
  import OperationLog

  /** The nested map holds exactly the entries of the flat one. */
  ghost predicate Holds<P(!new)>(n: Nested<P>, m: map<OpId, P>) {
    && NoEmptyQueue(n)
    && (forall o :: o in m <==> Has(n, o))
    && (forall o | o in m :: m[o] == n[o.qid][o.pid])
  }

  ghost predicate HoldsSet(n: Nested<()>, s: set<OpId>) {
    NoEmptyQueue(n) && forall o :: o in s <==> Has(n, o)
  }

  lemma InsertHolds<P(!new)>(n: Nested<P>, m: map<OpId, P>, o: OpId, p: P)
    requires Holds(n, m)
    ensures Holds(Insert(n, o, p), if o in m then m else m[o := p])
  {
    InsertHas(n, o, p);
  }

  lemma EraseHolds<P(!new)>(n: Nested<P>, m: map<OpId, P>, o: OpId)
    requires Holds(n, m) && o in m
    ensures Holds(EraseAndDrop(n, o), m - {o})
  {
    EraseAndDropHas(n, o);
  }

  // ---------------------------------------------------------------------

  datatype Maps<P> = Maps(pending: Nested<P>, lost: Nested<()>)

  ghost predicate Reads<P(!new)>(z: Maps<P>, out: Replay.Outcome<P>) {
    Holds(z.pending, out.pending) && HoldsSet(z.lost, out.lost)
  }

  /** What one record does to the two maps. */
  method Account<P(!new)>(z: Maps<P>, r: Record<P>, ghost out: Replay.Outcome<P>) returns (z': Maps<P>)
    requires Reads(z, out)
    ensures Reads(z', Replay.Absorb(out, r))
  {
    match r
    case Start(o, p) =>
      if Has(z.lost, o) {
        EraseAndDropHas(z.lost, o);
        z' := z.(lost := EraseAndDrop(z.lost, o));
      } else {
        InsertHolds(z.pending, out.pending, o, p);
        z' := z.(pending := Insert(z.pending, o, p));
      }
    case Complete(o) =>
      if Has(z.pending, o) {
        EraseHolds(z.pending, out.pending, o);
        z' := z.(pending := EraseAndDrop(z.pending, o));
      } else {
        InsertHas(z.lost, o, ());
        z' := z.(lost := Insert(z.lost, o, ()));
      }
  }

  lemma RunCons<P(!new)>(out: Replay.Outcome<P>, r: Record<P>, rs: seq<Record<P>>)
    ensures Replay.Run(out, [r] + rs) == Replay.Run(Replay.Absorb(out, r), rs)
  {
    Replay.RunConcat(out, [r], rs);
    Replay.RunSnoc(out, [], r);
    assert [] + [r] == [r];
  }

  /** One file. The maps come from the file read before, if any. */
  method Extract<P(!new)>(f: Format<P>, file: bytes, z: Maps<P>, ghost out: Replay.Outcome<P>)
    returns (z': Maps<P>)
    requires Reads(z, out)
    ensures Reads(z', Replay.Run(out, Decode(f, file)))
  {
    z' := z;
    var left := file;
    ghost var now := out;
    while left != []
      invariant Reads(z', now) && Replay.Run(now, Decode(f, left)) == Replay.Run(out, Decode(f, file))
      decreases |left|
    {
      match ReadOne(f, left)
      case Got(r, n) =>
        RunCons(now, r, Decode(f, left[n..]));
        z' := Account(z', r, now);
        now := Replay.Absorb(now, r);
        left := left[n..];
      case Unknown =>
        left := left[1..];
      case Torn =>
        left := [];
    }
  }

  /** Both files of a log, the first one first, with one set of lost completes. */
  method ExtractBoth<P(!new)>(f: Format<P>, file0: bytes, file1: bytes) returns (pending: Nested<P>)
    ensures Holds(pending, Replay.Pending(Decode(f, file0) + Decode(f, file1)))
  {
    ghost var none: Replay.Outcome<P> := Replay.Outcome(map[], {});
    var z := Extract(f, file0, Maps(map[], map[]), none);
    z := Extract(f, file1, z, Replay.Run(none, Decode(f, file0)));
    Replay.RunConcat(none, Decode(f, file0), Decode(f, file1));
    pending := z.pending;
  }

  // ---------------------------------------------------------------------
  // From the records to the bytes and back

  /** The bytes of a log whose last append may have been cut short by the crash:
      `torn` are the bytes of the next record that reached the active file. */
  ghost predicate OnDisk<P>(f: Format<P>, l: OperationLog.Log<P>, next: Record<P>, torn: nat, file0: bytes,
                            file1: bytes)
  {
    && torn < |Encode(f, next)|
    && file0 == EncodeAll(f, l.file0) + (if l.second then [] else Encode(f, next)[..torn])
    && file1 == EncodeAll(f, l.file1) + (if l.second then Encode(f, next)[..torn] else [])
  }

  /** Whatever part of an append reaches the disk, recovery reads the log as it
      was before the append; it never misses or invents a record. */
  lemma CrashBetweenRecords<P(!new)>(f: Format<P>, l: OperationLog.Log<P>, next: Record<P>, torn: nat, file0: bytes,
                                     file1: bytes)
    requires Sound(f) && Fit(f, l.file0) && Fit(f, l.file1) && (next.Start? ==> f.fits(next.payload))
    requires OnDisk(f, l, next, torn, file0, file1)
    ensures Decode(f, file0) == l.file0 && Decode(f, file1) == l.file1
    ensures Replay.Pending(Decode(f, file0) + Decode(f, file1)) == l.Recovered()
  {
    TornAppend(f, if l.second then l.file1 else l.file0, next, torn);
    RoundTrip(f, if l.second then l.file0 else l.file1);
    assert EncodeAll(f, if l.second then l.file0 else l.file1) + [] ==
           EncodeAll(f, if l.second then l.file0 else l.file1);
  }

  /** No operation is both pending and lost. */
  lemma {:induction false} PendingOrLost<P>(out: Replay.Outcome<P>, rs: seq<Record<P>>)
    requires out.pending.Keys !! out.lost
    ensures Replay.Run(out, rs).pending.Keys !! Replay.Run(out, rs).lost
    decreases |rs|
  {
    if rs != [] {
      PendingOrLost(out, rs[..|rs| - 1]);
    }
  }
}
