/** Persistence ids: the sequence that issues them and the fold that finds the
    highest one in use after a crash. */
module IdSequence {
  import opened Records

  /** The comparison of section 3.2 of RFC 1982 on 64-bit serial numbers, with
      the special case for a fold that has not seen an id yet. */
  function SerialMax(highest: uint64, current: uint64): uint64 {
    if highest == 0 then current
    else if (current - highest) % TWO_64 < TWO_63 then current
    else highest
  }

  /** It is the numeric maximum exactly when the two ids are less than half the
      number space apart. */
  lemma SerialMaxIff(highest: uint64, current: uint64)
    requires highest != 0
    ensures SerialMax(highest, current) == Max(highest, current) <==> -TWO_63 <= current - highest < TWO_63
  {
  }

  function Fold(highest: uint64, ids: seq<uint64>): uint64
    decreases |ids|
  {
    if ids == [] then highest else Fold(SerialMax(highest, ids[0]), ids[1..])
  }

  /** Folding the maxima of all queues, empty queues giving 0, finds the true
      maximum of ids below 2^63. */
  lemma {:induction false} FoldIsMax(highest: uint64, ids: seq<uint64>)
    requires highest < TWO_63 && forall i | 0 <= i < |ids| :: ids[i] < TWO_63
    ensures highest <= Fold(highest, ids) < TWO_63
    ensures forall i | 0 <= i < |ids| :: ids[i] <= Fold(highest, ids)
    ensures Fold(highest, ids) == highest || Fold(highest, ids) in ids
    decreases |ids|
  {
    if ids != [] {
      assert SerialMax(highest, ids[0]) == Max(highest, ids[0]);
      FoldIsMax(SerialMax(highest, ids[0]), ids[1..]);
      assert forall i | 1 <= i < |ids| :: ids[i] == ids[1..][i - 1];
    }
  }

  /** Beyond, a small id can hide a larger one. */
  lemma FoldOverrun()
    ensures Fold(0, [0x8000_0000_0000_0002, 1]) == 1
  {
    var ids: seq<uint64> := [0x8000_0000_0000_0002, 1];
    assert ids[1..] == [1] && ids[1..][1..] == [];
    assert Fold(0, ids) == Fold(SerialMax(SerialMax(0, ids[0]), 1), []);
  }

  /** The id issued by `next`, and the field afterwards. */
  function Issue(id: uint64): uint64 {
    if id == 0 then 1 else id
  }

  function Following(id: uint64): uint64 {
    (Issue(id) + 1) % TWO_64
  }

  class IdSequence {
    var id: uint64

    constructor ()
      ensures id == 1
    {
      id := 1;
    }

    method Next() returns (r: uint64)
      modifies this`id
      ensures r == Issue(old(id)) && id == Following(old(id))
    {
      if id == 0 {
        id := id + 1;
      }
      r := id;
      id := (id + 1) % TWO_64;
    }

    method Reset(value: uint64)
      modifies this`id
      ensures id == value
    {
      id := value;
    }
  }

  /** The n-th id issued after `reset(id)`. */
  function Nth(id: uint64, n: nat): uint64
    decreases n
  {
    if n == 0 then Issue(id) else Nth(Following(id), n - 1)
  }

  lemma {:induction false} NthIs(id: uint64, n: nat)
    requires 1 <= id && id + n < TWO_64
    ensures Nth(id, n) == id + n
    decreases n
  {
    if n > 0 {
      NthIs(Following(id), n - 1);
    }
  }

  /** Ids issued after recovery are non-zero, pairwise distinct and differ from
      every id found on any queue, until the numbers wrap around. */
  lemma FreshAfterRecovery(tops: seq<uint64>, m: nat, n: nat, used: uint64)
    requires forall i | 0 <= i < |tops| :: tops[i] < TWO_63
    requires exists i :: 0 <= i < |tops| && used <= tops[i]
    requires m < n && Fold(0, tops) + 1 + n < TWO_64
    ensures var id := Fold(0, tops) + 1;
            0 < Nth(id, m) < Nth(id, n) && used < Nth(id, m)
  {
    FoldIsMax(0, tops);
    NthIs(Fold(0, tops) + 1, m);
    NthIs(Fold(0, tops) + 1, n);
  }

  /** Around the end of the number space 0 is never issued. */
  lemma {:induction false} NeverZero(id: uint64, n: nat)
    ensures Nth(id, n) != 0
    decreases n
  {
    if n > 0 {
      NeverZero(Following(id), n - 1);
    }
  }
}
