/** Values shared by every part of the message store: 64-bit ids, the identity
    of an operation, messages and the records of the two operation logs. */
module Records {

  const TWO_31: int := 0x8000_0000
  const TWO_32: int := 0x1_0000_0000
  const TWO_63: int := 0x8000_0000_0000_0000
  const TWO_64: int := 0x1_0000_0000_0000_0000

  type uint64 = x: int | 0 <= x < 0x1_0000_0000_0000_0000
  type byte = x: int | 0 <= x < 256
  type bytes = seq<byte>

  datatype Option<+T> = None | Some(value: T)

  /** A persistence id on a queue: the key of every pending operation. */
  datatype OpId = OpId(pid: uint64, qid: uint64)

  /** What `enqueue` hands on: the transient flag, and the bytes that `msgEncode`
      produces, of which the first octet is that flag again. */
  datatype Msg = Msg(transient: bool, body: seq<byte>)

  /** A log record. The payload of an enqueue start is the message, the payload
      of a dequeue start is empty. */
  datatype Record<+P> = Start(op: OpId, payload: P) | Complete(op: OpId)

  /** `static_cast<int>` of a 64-bit unsigned difference. */
  function Int32(x: int): int {
    var r := x % TWO_32;
    if r < TWO_31 then r else r - TWO_32
  }

  /** The value with the same low 32 bits, in two's complement. */
  lemma Int32Is(x: int)
    ensures -0x8000_0000 <= Int32(x) < 0x8000_0000 && (x - Int32(x)) % 0x1_0000_0000 == 0
  {
  }

  lemma Int32InWindow(x: int)
    requires -TWO_31 <= x < TWO_31
    ensures Int32(x) == x
  {
  }

  function Max(a: uint64, b: uint64): uint64 {
    if a < b then b else a
  }

  /** Iteration order of `std::map` nested by queue id, then persistence id. */
  predicate OpLe(a: OpId, b: OpId) {
    a.qid < b.qid || (a.qid == b.qid && a.pid <= b.pid)
  }

  lemma {:induction false} HasLeastOp(s: set<OpId>)
    requires s != {}
    ensures exists m :: m in s && forall o | o in s :: OpLe(m, o)
  {
    var x :| x in s;
    if s == {x} {
      assert x in s && forall o | o in s :: OpLe(x, o);
    } else {
      var t := s - {x};
      assert s == t + {x};
      HasLeastOp(t);
      var m :| m in t && forall o | o in t :: OpLe(m, o);
      if OpLe(m, x) {
        assert m in s && forall o | o in s :: OpLe(m, o);
      } else {
        assert x in s && forall o | o in s :: OpLe(x, o);
      }
    }
  }

  function LeastOp(s: set<OpId>): (m: OpId)
    requires s != {}
    ensures m in s && forall o | o in s :: OpLe(m, o)
  {
    HasLeastOp(s);
    var m :| m in s && forall o | o in s :: OpLe(m, o);
    m
  }

  /** The first element of a `std::set<uint64_t>`. */
  function Least(s: set<uint64>): (m: uint64)
    requires s != {}
    ensures m in s && forall x | x in s :: m <= x
  {
    var ops := set x | x in s :: OpId(x, 0);
    var y :| y in s;
    assert OpId(y, 0) in ops;
    var m := LeastOp(ops).pid;
    assert forall x | x in s :: OpId(x, 0) in ops;
    m
  }

  lemma ConcatAssociates<T>(a: seq<T>, b: seq<T>, c: seq<T>)
    ensures (a + b) + c == a + (b + c)
  {
  }

  lemma {:induction false} SubsetSize<T>(a: set<T>, b: set<T>)
    requires a <= b
    ensures |a| <= |b|
    decreases |a|
  {
    if a != {} {
      var x :| x in a;
      SubsetSize(a - {x}, b - {x});
    }
  }

  ghost predicate Distinct<T>(a: seq<T>) {
    forall i, j | 0 <= i < j < |a| :: a[i] != a[j]
  }

  ghost function Ids(pids: seq<uint64>): set<uint64> {
    set p | p in pids
  }

  function One(b: bool): nat { if b then 1 else 0 }
}
