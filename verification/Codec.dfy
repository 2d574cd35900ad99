/** The bytes of the two operation logs: how records are laid out, and how a
    file is read back, torn at its end or not. */
module Codec {
  import opened Records

  const DEQUEUE_START: byte := 0x02
  const DEQUEUE_COMPLETE: byte := 0x03
  const ENQUEUE_START: byte := 0x04
  const ENQUEUE_COMPLETE: byte := 0x05

  /** Sizes of the fixed parts, with the opcode. */
  const ID_SIZE := 17
  const PREAMBLE_SIZE := 26

  // ---------------------------------------------------------------------
  // 64-bit numbers, least significant byte first

  function Pow256(n: nat): (r: int)
    ensures r >= 1
  {
    if n == 0 then 1 else 256 * Pow256(n - 1)
  }

  function LittleEndian(x: nat, n: nat): (bs: bytes)
    ensures |bs| == n
  {
    if n == 0 then [] else [x % 256] + LittleEndian(x / 256, n - 1)
  }

  function FromLittleEndian(bs: bytes): (x: nat)
    ensures x < Pow256(|bs|)
  {
    if bs == [] then 0 else bs[0] + 256 * FromLittleEndian(bs[1..])
  }

  lemma {:induction false} LittleEndianRoundTrip(x: nat, n: nat)
    requires x < Pow256(n)
    ensures FromLittleEndian(LittleEndian(x, n)) == x
    decreases n
  {
    if n > 0 {
      LittleEndianRoundTrip(x / 256, n - 1);
      assert LittleEndian(x, n)[1..] == LittleEndian(x / 256, n - 1);
    }
  }

  lemma Pow256Is()
    ensures Pow256(8) == TWO_64
  {
    assert Pow256(2) == 65536;
    assert Pow256(4) == 65536 * 65536;
    assert Pow256(6) == 65536 * 65536 * 65536;
  }

  function U64(x: uint64): (bs: bytes)
    ensures |bs| == 8
  {
    LittleEndian(x, 8)
  }

  function FromU64(bs: bytes): (x: uint64)
    requires |bs| == 8
  {
    Pow256Is();
    FromLittleEndian(bs)
  }

  lemma U64RoundTrip(x: uint64)
    ensures FromU64(U64(x)) == x
  {
    Pow256Is();
    LittleEndianRoundTrip(x, 8);
  }

  // ---------------------------------------------------------------------
  // Records

  /** What distinguishes the two logs: the opcodes, and what follows the ids in
      a start record. `get` gives the payload and its size, or nothing if the
      bytes end too early. */
  datatype Format<!P> = Format(
    start: byte,
    complete: byte,
    put: P -> bytes,
    get: bytes -> Option<(P, nat)>,
    fits: P -> bool)

  function Encode<P>(f: Format<P>, r: Record<P>): bytes {
    match r
    case Start(op, p) => [f.start] + U64(op.pid) + U64(op.qid) + f.put(p)
    case Complete(op) => [f.complete] + U64(op.pid) + U64(op.qid)
  }

  function EncodeAll<P>(f: Format<P>, rs: seq<Record<P>>): bytes {
    if rs == [] then [] else Encode(f, rs[0]) + EncodeAll(f, rs[1..])
  }

  /** One turn of the reading loop: a record and its size, an unknown opcode, or
      a record that the file does not hold to its end. */
  datatype Read<+P> = Got(r: Record<P>, size: nat) | Unknown | Torn

  function IdOf(bs: bytes): OpId
    requires |bs| >= ID_SIZE
  {
    OpId(FromU64(bs[1..9]), FromU64(bs[9..ID_SIZE]))
  }

  function ReadOne<P>(f: Format<P>, bs: bytes): (r: Read<P>)
    requires bs != []
    ensures r.Got? ==> ID_SIZE <= r.size <= |bs|
  {
    if bs[0] != f.start && bs[0] != f.complete then Unknown
    else if |bs| < ID_SIZE then Torn
    else if bs[0] == f.complete then Got(Complete(IdOf(bs)), ID_SIZE)
    else
      match f.get(bs[ID_SIZE..])
      case Some((p, n)) => if ID_SIZE + n <= |bs| then Got(Start(IdOf(bs), p), ID_SIZE + n) else Torn
      case None => Torn
  }

  /** The loop: an unknown opcode costs one byte, a torn record ends the file. */
  function Decode<P>(f: Format<P>, bs: bytes): seq<Record<P>>
    decreases |bs|
  {
    if bs == [] then []
    else
      match ReadOne(f, bs)
      case Got(r, n) => [r] + Decode(f, bs[n..])
      case Unknown => Decode(f, bs[1..])
      case Torn => []
  }

  /** The payload can be told from what follows it, and a torn one is noticed. */
  ghost predicate Sound<P(!new)>(f: Format<P>) {
    && f.start != f.complete
    && (forall p, rest | f.fits(p) :: f.get(f.put(p) + rest) == Some((p, |f.put(p)|)))
    && (forall p, n: nat | f.fits(p) && n < |f.put(p)| :: f.get(f.put(p)[..n]) == None)
  }

  ghost predicate Fit<P>(f: Format<P>, rs: seq<Record<P>>) {
    forall i | 0 <= i < |rs| && rs[i].Start? :: f.fits(rs[i].payload)
  }

  lemma EncodedIds<P>(f: Format<P>, r: Record<P>, bs: bytes)
    requires |bs| >= ID_SIZE && bs[1..9] == U64(r.op.pid) && bs[9..ID_SIZE] == U64(r.op.qid)
    ensures IdOf(bs) == r.op
  {
    U64RoundTrip(r.op.pid);
    U64RoundTrip(r.op.qid);
  }

  lemma ReadWhole<P(!new)>(f: Format<P>, r: Record<P>, rest: bytes)
    requires Sound(f) && (r.Start? ==> f.fits(r.payload))
    ensures |Encode(f, r)| >= ID_SIZE
    ensures ReadOne(f, Encode(f, r) + rest) == Got(r, |Encode(f, r)|)
  {
    var e := Encode(f, r);
    var bs := e + rest;
    assert bs[1..9] == U64(r.op.pid) && bs[9..ID_SIZE] == U64(r.op.qid);
    EncodedIds(f, r, bs);
    if r.Start? {
      assert bs[ID_SIZE..] == f.put(r.payload) + rest;
    }
  }

  lemma ReadTorn<P(!new)>(f: Format<P>, r: Record<P>, n: nat)
    requires Sound(f) && (r.Start? ==> f.fits(r.payload)) && 0 < n < |Encode(f, r)|
    ensures ReadOne(f, Encode(f, r)[..n]) == Torn
  {
    var bs := Encode(f, r)[..n];
    if r.Start? && n >= ID_SIZE {
      assert bs[ID_SIZE..] == f.put(r.payload)[..n - ID_SIZE];
    }
  }

  // ---------------------------------------------------------------------
  // Files

  lemma DecodeFirst<P(!new)>(f: Format<P>, r: Record<P>, tail: bytes)
    requires Sound(f) && (r.Start? ==> f.fits(r.payload))
    ensures Decode(f, Encode(f, r) + tail) == [r] + Decode(f, tail)
  {
    ReadWhole(f, r, tail);
    assert (Encode(f, r) + tail)[|Encode(f, r)|..] == tail;
  }

  lemma AppendStep<P>(f: Format<P>, r: Record<P>, e: bytes, mid: bytes, rest: bytes, rs: seq<Record<P>>)
    requires Decode(f, e + (mid + rest)) == [r] + Decode(f, mid + rest)
    requires Decode(f, mid + rest) == rs + Decode(f, rest)
    ensures Decode(f, (e + mid) + rest) == ([r] + rs) + Decode(f, rest)
  {
    ConcatAssociates(e, mid, rest);
    ConcatAssociates([r], rs, Decode(f, rest));
  }

  /** Reading goes through whole records one by one. */
  lemma {:induction false} DecodeAppend<P(!new)>(f: Format<P>, rs: seq<Record<P>>, rest: bytes)
    requires Sound(f) && Fit(f, rs)
    ensures Decode(f, EncodeAll(f, rs) + rest) == rs + Decode(f, rest)
    decreases |rs|
  {
    if rs == [] {
      assert EncodeAll(f, rs) + rest == rest;
    } else {
      var mid := EncodeAll(f, rs[1..]);
      DecodeFirst(f, rs[0], mid + rest);
      DecodeAppend(f, rs[1..], rest);
      AppendStep(f, rs[0], Encode(f, rs[0]), mid, rest, rs[1..]);
      assert [rs[0]] + rs[1..] == rs;
    }
  }

  lemma RoundTrip<P(!new)>(f: Format<P>, rs: seq<Record<P>>)
    requires Sound(f) && Fit(f, rs)
    ensures Decode(f, EncodeAll(f, rs)) == rs
  {
    DecodeAppend(f, rs, []);
    assert EncodeAll(f, rs) + [] == EncodeAll(f, rs);
  }

  /** How many records the first `n` bytes hold to their end. */
  function Whole<P>(f: Format<P>, rs: seq<Record<P>>, n: nat): (k: nat)
    ensures k <= |rs|
    decreases |rs|
  {
    if rs == [] || n < |Encode(f, rs[0])| then 0 else 1 + Whole(f, rs[1..], n - |Encode(f, rs[0])|)
  }

  lemma Cut(e: bytes, tail: bytes, n: nat)
    requires |e| <= n <= |e + tail|
    ensures (e + tail)[..n] == e + tail[..n - |e|]
  {
  }

  lemma Cons<T>(s: seq<T>, k: nat)
    requires k < |s|
    ensures [s[0]] + s[1..][..k] == s[..k + 1]
  {
  }

  /** The record is read whole if it is whole, and not at all if it is cut. */
  ghost predicate Readable<P(!new)>(f: Format<P>, r: Record<P>) {
    && (forall tail: bytes :: Decode(f, Encode(f, r) + tail) == [r] + Decode(f, tail))
    && (forall tail: bytes, n: nat | n < |Encode(f, r)| :: Decode(f, (Encode(f, r) + tail)[..n]) == [])
  }

  lemma SoundIsReadable<P(!new)>(f: Format<P>, rs: seq<Record<P>>)
    requires Sound(f) && Fit(f, rs)
    ensures forall i | 0 <= i < |rs| :: Readable(f, rs[i])
  {
    forall i | 0 <= i < |rs| ensures Readable(f, rs[i]) {
      forall tail: bytes ensures Decode(f, Encode(f, rs[i]) + tail) == [rs[i]] + Decode(f, tail) {
        DecodeFirst(f, rs[i], tail);
      }
      forall tail: bytes, n: nat | n < |Encode(f, rs[i])| ensures Decode(f, (Encode(f, rs[i]) + tail)[..n]) == [] {
        TornFirst(f, rs[i], tail, n);
      }
    }
  }

  /** A file cut anywhere reads as exactly the records before the cut. */
  lemma TornTail<P(!new)>(f: Format<P>, rs: seq<Record<P>>, n: nat)
    requires Sound(f) && Fit(f, rs) && n <= |EncodeAll(f, rs)|
    ensures Decode(f, EncodeAll(f, rs)[..n]) == rs[..Whole(f, rs, n)]
  {
    SoundIsReadable(f, rs);
    TornRecords(f, rs, n);
  }

  lemma {:induction false} TornRecords<P(!new)>(f: Format<P>, rs: seq<Record<P>>, n: nat)
    requires (forall i | 0 <= i < |rs| :: Readable(f, rs[i])) && n <= |EncodeAll(f, rs)|
    ensures Decode(f, EncodeAll(f, rs)[..n]) == rs[..Whole(f, rs, n)]
    decreases |rs|
  {
    if rs == [] {
      assert EncodeAll(f, rs)[..n] == [];
    } else {
      assert Readable(f, rs[0]);
      if n < |Encode(f, rs[0])| {
        TornAtFirst(f, rs, n);
      } else {
        var m := n - |Encode(f, rs[0])|;
        TornRecords(f, rs[1..], m);
        WholeFirst(f, rs[0], EncodeAll(f, rs[1..])[..m]);
        TornNext(f, rs, n, m, Encode(f, rs[0]), EncodeAll(f, rs[1..]), Whole(f, rs[1..], m));
      }
    }
  }

  lemma TornAtFirst<P>(f: Format<P>, rs: seq<Record<P>>, n: nat)
    requires rs != [] && n < |Encode(f, rs[0])|
    requires Decode(f, (Encode(f, rs[0]) + EncodeAll(f, rs[1..]))[..n]) == []
    ensures Decode(f, EncodeAll(f, rs)[..n]) == rs[..Whole(f, rs, n)]
  {
  }

  lemma WholeFirst<P(!new)>(f: Format<P>, r: Record<P>, tail: bytes)
    requires Readable(f, r)
    ensures Decode(f, Encode(f, r) + tail) == [r] + Decode(f, tail)
  {
  }

  lemma TornNext<P>(f: Format<P>, rs: seq<Record<P>>, n: nat, m: nat, e: bytes, tail: bytes, k: nat)
    requires rs != [] && e == Encode(f, rs[0]) && tail == EncodeAll(f, rs[1..]) && n == |e| + m && m <= |tail|
    requires k == Whole(f, rs[1..], m)
    requires Decode(f, e + tail[..m]) == [rs[0]] + Decode(f, tail[..m])
    requires Decode(f, tail[..m]) == rs[1..][..k]
    ensures Decode(f, EncodeAll(f, rs)[..n]) == rs[..Whole(f, rs, n)]
  {
    assert EncodeAll(f, rs) == e + tail;
    assert Whole(f, rs, n) == k + 1;
    TornStep(f, rs, e, tail, n, k);
  }

  lemma TornFirst<P(!new)>(f: Format<P>, r: Record<P>, tail: bytes, n: nat)
    requires Sound(f) && (r.Start? ==> f.fits(r.payload)) && n < |Encode(f, r)|
    ensures Decode(f, (Encode(f, r) + tail)[..n]) == []
  {
    assert (Encode(f, r) + tail)[..n] == Encode(f, r)[..n];
    if n > 0 {
      ReadTorn(f, r, n);
    }
  }

  lemma TornStep<P>(f: Format<P>, rs: seq<Record<P>>, e: bytes, tail: bytes, n: nat, k: nat)
    requires rs != [] && |e| <= n <= |e + tail| && k < |rs|
    requires Decode(f, e + tail[..n - |e|]) == [rs[0]] + Decode(f, tail[..n - |e|])
    requires Decode(f, tail[..n - |e|]) == rs[1..][..k]
    ensures Decode(f, (e + tail)[..n]) == rs[..k + 1]
  {
    Cut(e, tail, n);
    Cons(rs, k);
  }

  /** A crash in the middle of an append leaves the records before it: it is a
      crash just before that append. */
  lemma TornAppend<P(!new)>(f: Format<P>, rs: seq<Record<P>>, r: Record<P>, n: nat)
    requires Sound(f) && Fit(f, rs) && (r.Start? ==> f.fits(r.payload)) && n < |Encode(f, r)|
    ensures Decode(f, EncodeAll(f, rs) + Encode(f, r)[..n]) == rs
  {
    DecodeAppend(f, rs, Encode(f, r)[..n]);
    TornFirst(f, r, [], n);
    assert Encode(f, r) + [] == Encode(f, r);
  }

  /** The cut lies behind the records that are read and before the end of the
      next one. */
  lemma {:induction false} WholeIs<P>(f: Format<P>, rs: seq<Record<P>>, n: nat)
    ensures var k := Whole(f, rs, n);
            && |EncodeAll(f, rs[..k])| <= n
            && (k < |rs| ==> n < |EncodeAll(f, rs[..k + 1])|)
    decreases |rs|
  {
    var k := Whole(f, rs, n);
    if rs != [] {
      if k == 0 {
        assert rs[..1][1..] == [] && rs[..1][0] == rs[0];
        assert rs[..0] == [];
      } else {
        WholeIs(f, rs[1..], n - |Encode(f, rs[0])|);
        assert rs[..k][1..] == rs[1..][..k - 1] && rs[..k][0] == rs[0];
        if k < |rs| {
          assert rs[..k + 1][1..] == rs[1..][..k] && rs[..k + 1][0] == rs[0];
        }
      }
    }
  }

  // ---------------------------------------------------------------------
  // The two formats

  /** Size, transient flag, encoded message. */
  function PutMsg(m: Msg): bytes {
    U64(|m.body| % TWO_64) + [if m.transient then 1 else 0] + m.body
  }

  function GetMsg(bs: bytes): Option<(Msg, nat)> {
    if |bs| < 9 then None
    else
      var size := FromU64(bs[..8]);
      if |bs| < 9 + size then None else Some((Msg(bs[8] != 0, bs[9..9 + size]), 9 + size))
  }

  function EnqueueFormat(): Format<Msg> {
    Format(ENQUEUE_START, ENQUEUE_COMPLETE, PutMsg, GetMsg, (m: Msg) => |m.body| < TWO_64)
  }

  function DequeueFormat(): Format<()> {
    Format(DEQUEUE_START, DEQUEUE_COMPLETE, (u: ()) => [], bs => Some(((), 0)), (u: ()) => true)
  }

  lemma MsgWhole(m: Msg, rest: bytes)
    requires |m.body| < TWO_64
    ensures GetMsg(PutMsg(m) + rest) == Some((m, |PutMsg(m)|))
  {
    var bs := PutMsg(m) + rest;
    assert |m.body| % TWO_64 == |m.body|;
    assert bs[..8] == U64(|m.body|);
    U64RoundTrip(|m.body|);
    assert bs[9..9 + |m.body|] == m.body;
  }

  lemma MsgTorn(m: Msg, n: nat)
    requires |m.body| < TWO_64 && n < |PutMsg(m)|
    ensures GetMsg(PutMsg(m)[..n]) == None
  {
    if n >= 9 {
      TornSize(m, n);
    }
  }

  /** The size is there, and says more than the bytes hold. */
  lemma TornSize(m: Msg, n: nat)
    requires |m.body| < TWO_64 && 9 <= n < |PutMsg(m)|
    ensures FromU64(PutMsg(m)[..n][..8]) == |m.body| && n < 9 + |m.body|
  {
    var size := U64(|m.body|);
    assert |m.body| % TWO_64 == |m.body|;
    assert PutMsg(m)[..n][..8] == PutMsg(m)[..8] == size;
    U64RoundTrip(|m.body|);
  }

  lemma EnqueueFormatIsSound()
    ensures Sound(EnqueueFormat())
  {
    var f := EnqueueFormat();
    forall m, rest | f.fits(m) ensures f.get(f.put(m) + rest) == Some((m, |f.put(m)|)) {
      MsgWhole(m, rest);
    }
    forall m, n: nat | f.fits(m) && n < |f.put(m)| ensures f.get(f.put(m)[..n]) == None {
      MsgTorn(m, n);
    }
  }

  /** Byte `i` of a number, the least significant one first. */
  lemma {:induction false} LittleEndianAt(x: nat, n: nat, i: nat)
    requires i < n
    ensures LittleEndian(x, n)[i] == x / Pow256(i) % 256
    decreases n
  {
    if i > 0 {
      LittleEndianAt(x / 256, n - 1, i - 1);
      assert LittleEndian(x, n)[i] == LittleEndian(x / 256, n - 1)[i - 1];
      assert Pow256(i) == 256 * Pow256(i - 1);
      DivideTwice(x, Pow256(i - 1));
    }
  }

  lemma DivideTwice(x: nat, k: int)
    requires k >= 1
    ensures x / 256 / k == x / (256 * k)
  {
    var q, r := x / 256 / k, x / 256 % k;
    assert x / 256 == q * k + r && x == 256 * (q * k + r) + x % 256;
    assert x == q * (256 * k) + (256 * r + x % 256) && 0 <= 256 * r + x % 256 < 256 * k;
    QuotientIs(x, 256 * k, q, 256 * r + x % 256);
  }

  lemma QuotientIs(x: nat, d: int, q: int, r: int)
    requires d >= 1 && x == q * d + r && 0 <= r < d
    ensures x / d == q
  {
    var p := x / d - q;
    assert x / d * d <= x < x / d * d + d;
    assert p * d == x / d * d - q * d;
    Multiple(p, d);
  }

  lemma Multiple(p: int, d: int)
    requires d >= 1
    ensures p >= 1 ==> p * d >= d
    ensures p <= -1 ==> p * d <= -d
  {
  }

  /** The records byte by byte: the opcode, the two ids and, in an enqueue start, the
      size, the flag and the message. */
  lemma EnqueueBytes(op: OpId, m: Msg)
    requires |m.body| < TWO_64
    ensures var bs := Encode(EnqueueFormat(), Start(op, m));
            && |bs| == 26 + |m.body| && bs[0] == 4 && bs[1..9] == U64(op.pid) && bs[9..17] == U64(op.qid)
            && bs[17..25] == U64(|m.body|) && bs[25] == (if m.transient then 1 else 0) && bs[26..] == m.body
    ensures var bs := Encode(EnqueueFormat(), Complete(op));
            |bs| == 17 && bs[0] == 5 && bs[1..9] == U64(op.pid) && bs[9..17] == U64(op.qid)
  {
    assert |m.body| % TWO_64 == |m.body|;
  }

  lemma DequeueBytes(op: OpId)
    ensures var bs := Encode(DequeueFormat(), Start(op, ()));
            |bs| == 17 && bs[0] == 2 && bs[1..9] == U64(op.pid) && bs[9..17] == U64(op.qid)
    ensures var bs := Encode(DequeueFormat(), Complete(op));
            |bs| == 17 && bs[0] == 3 && bs[1..9] == U64(op.pid) && bs[9..17] == U64(op.qid)
  {
  }

  lemma DequeueFormatIsSound()
    ensures Sound(DequeueFormat())
  {
    var f := DequeueFormat();
    forall u: (), rest | f.fits(u) ensures f.get(f.put(u) + rest) == Some((u, |f.put(u)|)) {
      assert u == ();
    }
  }

  // ---------------------------------------------------------------------
  // The writers, which fill a buffer field by field

  /** Bytes with some of them replaced. */
  function Patched(s: bytes, at: nat, x: bytes): bytes
    requires at + |x| <= |s|
  {
    s[..at] + x + s[at + |x|..]
  }

  /** `memcpy` of a 64-bit number. */
  method CopyU64(buf: array<byte>, at: nat, x: uint64)
    requires at + 8 <= buf.Length
    modifies buf
    ensures buf[..] == Patched(old(buf[..]), at, U64(x))
  {
    var bs := U64(x);
    for i := 0 to 8
      invariant buf[..] == Patched(old(buf[..]), at, bs[..i])
    {
      assert bs[..i + 1] == bs[..i] + [bs[i]];
      buf[at + i] := bs[i];
    }
    assert bs[..8] == bs;
  }

  /** `memset` to zero. */
  method Clear(buf: array<byte>)
    modifies buf
    ensures buf[..] == seq(buf.Length, _ => 0)
  {
    for i := 0 to buf.Length
      invariant forall j | 0 <= j < i :: buf[j] == 0
    {
      buf[i] := 0;
    }
  }

  lemma PatchedTwice(s: bytes, at: nat, x: bytes, y: bytes)
    requires at + |x| + |y| <= |s|
    ensures Patched(Patched(s, at, x), at + |x|, y) == Patched(s, at, x + y)
  {
  }

  /** Opcode and the two ids, as in every kind of record. */
  method FillId(buf: array<byte>, at: nat, opcode: byte, op: OpId)
    requires at + ID_SIZE <= buf.Length
    modifies buf
    ensures buf[..] == Patched(old(buf[..]), at, [opcode] + U64(op.pid) + U64(op.qid))
  {
    ghost var s := buf[..];
    buf[at] := opcode;
    assert buf[..] == Patched(s, at, [opcode]);
    CopyU64(buf, at + 1, op.pid);
    PatchedTwice(s, at, [opcode], U64(op.pid));
    CopyU64(buf, at + 9, op.qid);
    PatchedTwice(s, at, [opcode] + U64(op.pid), U64(op.qid));
  }

  function Completes<P>(ops: seq<OpId>): seq<Record<P>> {
    seq(|ops|, i requires 0 <= i < |ops| => Complete(ops[i]))
  }

  lemma {:induction false} EncodeAllAppend<P>(f: Format<P>, rs: seq<Record<P>>, r: Record<P>)
    ensures EncodeAll(f, rs + [r]) == EncodeAll(f, rs) + Encode(f, r)
    decreases |rs|
  {
    if rs == [] {
      assert rs + [r] == [r] && [r][1..] == [];
    } else {
      EncodeAllAppend(f, rs[1..], r);
      assert (rs + [r])[1..] == rs[1..] + [r];
      ConcatAssociates(Encode(f, rs[0]), EncodeAll(f, rs[1..]), Encode(f, r));
    }
  }

  /** `log_mass_*_complete`: one buffer for all the records, written at once. It
      holds what the records would be one by one. */
  method FillCompletes<P>(f: Format<P>, ops: seq<OpId>) returns (buf: array<byte>)
    ensures fresh(buf) && buf[..] == EncodeAll(f, Completes(ops))
  {
    buf := new byte[ID_SIZE * |ops|](_ => 0);
    for k := 0 to |ops|
      invariant buf[..ID_SIZE * k] == EncodeAll(f, Completes(ops[..k]))
    {
      ghost var done := buf[..ID_SIZE * k];
      FillId(buf, ID_SIZE * k, f.complete, ops[k]);
      assert buf[..ID_SIZE * (k + 1)] == done + Encode(f, Complete(ops[k]));
      assert Completes<P>(ops[..k + 1]) == Completes(ops[..k]) + [Complete(ops[k])];
      EncodeAllAppend(f, Completes(ops[..k]), Complete(ops[k]));
    }
    assert ops[..|ops|] == ops && buf[..] == buf[..ID_SIZE * |ops|];
  }

  method FillPreamble(wbuff: array<byte>, op: OpId, m: Msg)
    requires wbuff.Length == PREAMBLE_SIZE && |m.body| < TWO_64
    modifies wbuff
    ensures wbuff[..] == ([ENQUEUE_START] + U64(op.pid) + U64(op.qid)) + U64(|m.body|) + [if m.transient then 1 else 0]
  {
    Clear(wbuff);
    ghost var s := wbuff[..];
    ghost var id := [ENQUEUE_START] + U64(op.pid) + U64(op.qid);
    FillId(wbuff, 0, ENQUEUE_START, op);
    CopyU64(wbuff, ID_SIZE, |m.body|);
    PatchedTwice(s, 0, id, U64(|m.body|));
    assert wbuff[..ID_SIZE + 8] == id + U64(|m.body|);
    wbuff[ID_SIZE + 8] := if m.transient then 1 else 0;
  }

  lemma StartBytes(id: bytes, m: Msg)
    requires |m.body| < TWO_64
    ensures (id + U64(|m.body|) + [if m.transient then 1 else 0]) + m.body == id + PutMsg(m)
  {
    assert |m.body| % TWO_64 == |m.body|;
    Regroup(id, U64(|m.body|), [if m.transient then 1 else 0], m.body);
  }

  lemma Regroup(a: bytes, b: bytes, c: bytes, d: bytes)
    ensures (a + b + c) + d == a + (b + c + d)
  {
    ConcatAssociates(a, b, c);
    ConcatAssociates(a, b + c, d);
  }

  /** `log_enqueue_start_on_file`: the preamble buffer, then the message. */
  method WriteEnqueueStart(wbuff: array<byte>, op: OpId, m: Msg) returns (written: bytes)
    requires wbuff.Length == PREAMBLE_SIZE && |m.body| < TWO_64
    modifies wbuff
    ensures written == Encode(EnqueueFormat(), Start(op, m))
  {
    FillPreamble(wbuff, op, m);
    written := wbuff[..] + m.body;
    StartBytes([ENQUEUE_START] + U64(op.pid) + U64(op.qid), m);
  }

  /** `log_dequeue_start_on_file`. */
  method WriteDequeueStart(wbuff: array<byte>, op: OpId) returns (written: bytes)
    requires wbuff.Length == ID_SIZE
    modifies wbuff
    ensures written == Encode(DequeueFormat(), Start(op, ()))
  {
    Clear(wbuff);
    FillId(wbuff, 0, DEQUEUE_START, op);
    written := wbuff[..];
    assert written == [DEQUEUE_START] + U64(op.pid) + U64(op.qid) + [];
  }

  /** `log_*_complete`. */
  method WriteComplete<P>(f: Format<P>, wbuff: array<byte>, op: OpId) returns (written: bytes)
    requires wbuff.Length == ID_SIZE
    modifies wbuff
    ensures written == Encode(f, Complete(op))
  {
    Clear(wbuff);
    FillId(wbuff, 0, f.complete, op);
    written := wbuff[..];
  }
}
