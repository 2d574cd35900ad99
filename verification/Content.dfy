/** The stored form of a message, and reading its content back in pieces. */
module Content {
  import opened Records

  const PREAMBLE := 5

  /** `putLong`: four bytes, most significant first. */
  function PutLong(x: int): bytes
    requires 0 <= x < TWO_32
  {
    [x / 256 / 256 / 256, x / 256 / 256 % 256, x / 256 % 256, x % 256]
  }

  function GetLong(bs: bytes): (x: int)
    requires |bs| == 4
    ensures 0 <= x < TWO_32
  {
    var (a: int, b: int, c: int, d: int) := (bs[0], bs[1], bs[2], bs[3]);
    ((a * 256 + b) * 256 + c) * 256 + d
  }

  lemma LongRoundTrip(x: int)
    requires 0 <= x < TWO_32
    ensures GetLong(PutLong(x)) == x
  {
  }

  /** `msgEncode`: transient flag, size of the header, header, content. */
  function MsgEncode(transient: bool, header: bytes, content: bytes): bytes
    requires |header| < TWO_32
  {
    [if transient then 1 else 0] + PutLong(|header|) + header + content
  }

  /** What recovery makes of stored bytes: a transient message is not read any
      further; of another one it reads the header, and the rest is the content. */
  datatype Recovered = Transient | Persistent(header: bytes, content: bytes) | Malformed

  function ReadBack(stored: bytes): Recovered {
    if stored == [] then Malformed
    else if stored[0] != 0 then Transient
    else if |stored| < PREAMBLE || |stored| < PREAMBLE + GetLong(stored[1..PREAMBLE]) then Malformed
    else
      var end := PREAMBLE + GetLong(stored[1..PREAMBLE]);
      Persistent(stored[PREAMBLE..end], stored[end..])
  }

  function BigEndian(a: int, b: int, c: int, d: int): int {
    a * 0x100_0000 + b * 0x1_0000 + c * 0x100 + d
  }

  /** The stored form, byte by byte: an octet that is 0 for a persistent message and 1
      for a transient one, four bytes for the size of the header with the most
      significant first, the header from byte 5 on, the content. */
  lemma StoredBytes(transient: bool, header: bytes, content: bytes)
    requires |header| < TWO_32
    ensures var stored := MsgEncode(transient, header, content);
            && |stored| == 5 + |header| + |content|
            && stored[0] == (if transient then 1 else 0)
            && BigEndian(stored[1], stored[2], stored[3], stored[4]) == |header|
            && stored[5..5 + |header|] == header && stored[5 + |header|..] == content
  {
    LongBytes(|header|);
    var stored := MsgEncode(transient, header, content);
    assert stored[1..5] == PutLong(|header|);
    assert forall i | 0 <= i < 4 :: stored[1 + i] == PutLong(|header|)[i];
  }

  lemma LongBytes(x: int)
    requires 0 <= x < TWO_32
    ensures var bs := PutLong(x); BigEndian(bs[0], bs[1], bs[2], bs[3]) == x
  {
  }

  /** Reading the stored form as recovery does gives back the message. */
  lemma ReadBackIs(transient: bool, header: bytes, content: bytes)
    requires |header| < TWO_32
    ensures ReadBack(MsgEncode(transient, header, content))
         == if transient then Transient else Persistent(header, content)
  {
    var stored := MsgEncode(transient, header, content);
    StoredBytes(transient, header, content);
    assert stored[1..PREAMBLE] == PutLong(|header|);
    LongRoundTrip(|header|);
  }

  /** What is appended to the caller's string, unless the request reaches outside
      the stored bytes. */
  datatype Piece = Appended(data: bytes) | Overrun

  function Slice(stored: bytes, from: int, count: int): Piece {
    if 0 <= from && 0 <= count && from + count <= |stored| then Appended(stored[from..from + count]) else Overrun
  }

  /** The part of the stored bytes that `loadMsgContent` appends, with its 32-bit
      content offset and its 64-bit sums. */
  function Span(size: nat, headerSize: nat, length: uint64, offset: uint64): (int, int) {
    var contentOffset := (headerSize + PREAMBLE) % TWO_32;
    var contentSize := size - contentOffset;
    (contentOffset + offset,
     if (contentOffset + offset + length) % TWO_64 > size then (contentSize - offset) % TWO_64 else length)
  }

  function Load(stored: bytes, length: uint64, offset: uint64): Piece {
    if |stored| < PREAMBLE then Overrun
    else
      var span := Span(|stored|, GetLong(stored[1..PREAMBLE]), length, offset);
      Slice(stored, span.0, span.1)
  }

  lemma SpanWithin(content: nat, headerSize: nat, length: uint64, offset: uint64)
    requires headerSize + PREAMBLE < TWO_32 && PREAMBLE + headerSize + content < TWO_64
    requires offset <= content && PREAMBLE + headerSize + offset + length < TWO_64
    ensures Span(PREAMBLE + headerSize + content, headerSize, length, offset)
         == (PREAMBLE + headerSize + offset, Min(length, content - offset))
  {
  }

  function Loader(stored: bytes): (uint64, uint64) -> Piece {
    (length: uint64, offset: uint64) => Load(stored, length, offset)
  }

  function Min(a: int, b: int): int { if a < b then a else b }

  lemma Layout(transient: bool, header: bytes, content: bytes)
    requires |header| + PREAMBLE < TWO_32
    ensures var stored := MsgEncode(transient, header, content);
            && |stored| == PREAMBLE + |header| + |content|
            && GetLong(stored[1..PREAMBLE]) == |header|
            && stored[PREAMBLE + |header|..] == content
  {
    var stored := MsgEncode(transient, header, content);
    assert stored[1..PREAMBLE] == PutLong(|header|);
    LongRoundTrip(|header|);
  }

  lemma LoadPiece(transient: bool, header: bytes, content: bytes, length: uint64, offset: uint64)
    requires |header| + PREAMBLE < TWO_32 && PREAMBLE + |header| + |content| < TWO_64
    requires offset <= |content| && PREAMBLE + |header| + offset + length < TWO_64
    ensures Load(MsgEncode(transient, header, content), length, offset)
         == Appended(content[offset..Min(offset + length, |content|)])
  {
    var stored := MsgEncode(transient, header, content);
    Layout(transient, header, content);
    SpanWithin(|content|, |header|, length, offset);
    SliceOfTail(stored, content, PREAMBLE + |header|, offset, Min(offset + length, |content|));
  }

  lemma SliceOfTail(stored: bytes, content: bytes, from: nat, a: nat, b: nat)
    requires from <= |stored| && stored[from..] == content && a <= b <= |content|
    ensures stored[from + a..from + b] == content[a..b]
  {
    var x, y := stored[from + a..from + b], content[a..b];
    forall i | 0 <= i < b - a ensures x[i] == y[i] {
      assert x[i] == stored[from + a + i] == stored[from..][a + i];
    }
    assert x == y;
  }

  lemma LoadOverruns(transient: bool, header: bytes, content: bytes, length: uint64, offset: uint64)
    requires |header| + PREAMBLE < TWO_32 && PREAMBLE + |header| + |content| < TWO_64
    requires offset > |content| || PREAMBLE + |header| + offset + length >= TWO_64
    ensures Load(MsgEncode(transient, header, content), length, offset) == Overrun
  {
    Layout(transient, header, content);
  }

  /** A request stays inside the stored bytes exactly when it begins within the
      content and its end does not exceed 64 bits; what it gets is the piece
      asked for, clipped at the end of the content. */
  lemma LoadIff(transient: bool, header: bytes, content: bytes, length: uint64, offset: uint64)
    requires |header| + PREAMBLE < TWO_32 && PREAMBLE + |header| + |content| < TWO_64
    ensures var piece := Load(MsgEncode(transient, header, content), length, offset);
            && (piece.Appended? <==> offset <= |content| && PREAMBLE + |header| + offset + length < TWO_64)
            && (piece.Appended? ==>
                  offset <= |content| && piece.data == content[offset..Min(offset + length, |content|)])
  {
    if offset <= |content| && PREAMBLE + |header| + offset + length < TWO_64 {
      LoadPiece(transient, header, content, length, offset);
    } else {
      LoadOverruns(transient, header, content, length, offset);
    }
  }

  /** Consecutive requests; what is appended, or nothing if one of them fails. */
  function LoadAll(load: (uint64, uint64) -> Piece, lengths: seq<uint64>, offset: nat): Piece
    decreases |lengths|
  {
    if lengths == [] then Appended([])
    else if offset >= TWO_64 then Overrun
    else
      match load(lengths[0], offset)
      case Overrun => Overrun
      case Appended(data) =>
        match LoadAll(load, lengths[1..], offset + lengths[0])
        case Overrun => Overrun
        case Appended(rest) => Appended(data + rest)
  }

  function Total(lengths: seq<uint64>): nat {
    if lengths == [] then 0 else lengths[0] + Total(lengths[1..])
  }

  /** Every request that begins within the content gets its piece. */
  ghost predicate Serves(load: (uint64, uint64) -> Piece, content: bytes, base: nat) {
    forall length: uint64, offset: uint64 | offset <= |content| && base + offset + length < TWO_64 ::
      Answers(load, content, length, offset)
  }

  ghost predicate Answers(load: (uint64, uint64) -> Piece, content: bytes, length: uint64, offset: uint64)
    requires offset <= |content|
  {
    load(length, offset) == Appended(content[offset..Min(offset + length, |content|)])
  }

  /** Every request begins within the content. */
  predicate Within(lengths: seq<uint64>, offset: nat, size: nat)
    decreases |lengths|
  {
    lengths == [] || (offset <= size && Within(lengths[1..], offset + lengths[0], size))
  }

  lemma Joined(content: bytes, a: nat, b: nat, c: nat)
    requires a <= b <= c <= |content|
    ensures content[a..b] + content[b..c] == content[a..c]
  {
  }

  lemma {:induction false} PiecesFrom(load: (uint64, uint64) -> Piece, content: bytes, base: nat,
                                      lengths: seq<uint64>, offset: nat, end: nat)
    requires Serves(load, content, base) && lengths != [] && Within(lengths, offset, |content|)
    requires base + offset + Total(lengths) < TWO_64 && end == Min(offset + Total(lengths), |content|)
    ensures LoadAll(load, lengths, offset) == Appended(content[offset..end])
    decreases |lengths|
  {
    var next, rest := offset + lengths[0], lengths[1..];
    assert offset <= |content| && Total(lengths) == lengths[0] + Total(rest);
    assert Answers(load, content, lengths[0], offset);
    if rest != [] {
      PiecesFrom(load, content, base, rest, next, end);
      Joined(content, offset, next, end);
    }
  }

  /** Any split of the content into consecutive requests that begin within it
      and reach its end gives back the content, the last piece clipped. */
  lemma Reassembled(transient: bool, header: bytes, content: bytes, lengths: seq<uint64>)
    requires |header| + PREAMBLE < TWO_32 && PREAMBLE + |header| + |content| < TWO_64
    requires lengths != [] && Within(lengths, 0, |content|)
    requires |content| <= Total(lengths) && PREAMBLE + |header| + Total(lengths) < TWO_64
    ensures LoadAll(Loader(MsgEncode(transient, header, content)), lengths, 0) == Appended(content)
  {
    Served(transient, header, content);
    PiecesFrom(Loader(MsgEncode(transient, header, content)), content, PREAMBLE + |header|, lengths, 0, |content|);
    assert content[0..|content|] == content;
  }

  lemma Served(transient: bool, header: bytes, content: bytes)
    requires |header| + PREAMBLE < TWO_32 && PREAMBLE + |header| + |content| < TWO_64
    ensures Serves(Loader(MsgEncode(transient, header, content)), content, PREAMBLE + |header|)
  {
    forall length: uint64, offset: uint64 | offset <= |content| && PREAMBLE + |header| + offset + length < TWO_64
      ensures Answers(Loader(MsgEncode(transient, header, content)), content, length, offset)
    {
      LoadPiece(transient, header, content, length, offset);
    }
  }

  // ---------------------------------------------------------------------
  // Headers of four gigabytes

  /** Requests are served for every content that may follow this header. */
  ghost predicate AlwaysServes(transient: bool, header: bytes)
    requires |header| < TWO_32
  {
    forall content: bytes | PREAMBLE + |header| + |content| < TWO_64 ::
      Serves(Loader(MsgEncode(transient, header, content)), content, PREAMBLE + |header|)
  }

  /** The 32-bit content offset wraps around: the first byte of the content is read
      from the preamble. */
  lemma OffsetWraps(transient: bool, header: bytes, content: bytes)
    requires |header| < TWO_32 <= |header| + PREAMBLE && |content| == 1
    ensures var stored := MsgEncode(transient, header, content);
            var at := |header| + PREAMBLE - TWO_32;
            0 <= at < PREAMBLE && Load(stored, 1, 0) == Appended([stored[at]])
  {
    var stored := MsgEncode(transient, header, content);
    assert stored[1..PREAMBLE] == PutLong(|header|);
    LongRoundTrip(|header|);
    var at := |header| + PREAMBLE - TWO_32;
    assert Span(|stored|, |header|, 1, 0) == (at, 1);
    OneByte(stored, at);
  }

  lemma OneByte(s: bytes, at: nat)
    requires at < |s|
    ensures s[at..at + 1] == [s[at]]
  {
  }

  /** So a byte that differs from that one is not read back. */
  lemma WrongByte(transient: bool, header: bytes)
    requires |header| < TWO_32 <= |header| + PREAMBLE
    ensures !AlwaysServes(transient, header)
  {
    var at := |header| + PREAMBLE - TWO_32;
    var preamble := [if transient then 1 else 0] + PutLong(|header|);
    var other: byte := if preamble[at] == 0 then 1 else 0;
    var content: bytes := [other];
    OffsetWraps(transient, header, content);
    assert MsgEncode(transient, header, content)[at] == preamble[at];
    NotServed(Loader(MsgEncode(transient, header, content)), preamble[at], other, PREAMBLE + |header|);
  }

  lemma NotServed(load: (uint64, uint64) -> Piece, got: byte, stored: byte, base: nat)
    requires load(1, 0) == Appended([got]) && got != stored && base + 1 < TWO_64
    ensures !Serves(load, [stored], base)
  {
    assert [stored][0..Min(0 + 1, 1)] == [stored];
    assert [got][0] != [stored][0];
    assert !Answers(load, [stored], 1, 0);
  }

  /** Content is read back as it was stored, whatever it is, if and only if preamble and
      header together are shorter than 2^32 bytes. */
  lemma AlwaysServesIff(transient: bool, header: bytes)
    requires |header| < TWO_32
    ensures AlwaysServes(transient, header) <==> 5 + |header| < TWO_32
  {
    if |header| + PREAMBLE < TWO_32 {
      forall content: bytes | PREAMBLE + |header| + |content| < TWO_64
        ensures Serves(Loader(MsgEncode(transient, header, content)), content, PREAMBLE + |header|)
      {
        Served(transient, header, content);
      }
    } else {
      WrongByte(transient, header);
    }
  }
}
