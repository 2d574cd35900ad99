/** The journal of one queue: a map from persistence ids to messages, split into
    a fixed number of B-tree databases by the remainder of the id. */
module Journal {
  import opened Records

  type Shard = map<uint64, Msg>
  type Entry = (uint64, Msg)

  // ---------------------------------------------------------------------
  // Key order

  /** `bt_compare_func`: the low 32 bits of the difference of the two keys. */
  function Compare(a: uint64, b: uint64): int {
    Int32(a - b)
  }

  predicate Agrees(a: uint64, b: uint64) {
    (Compare(a, b) < 0 <==> a < b) && (Compare(a, b) == 0 <==> a == b)
  }

  /** The comparison is the numeric order exactly on windows below 2^31: it
      agrees on all keys at most `spread` apart if and only if spread < 2^31. */
  lemma CompareIsNumericIff(spread: int)
    requires spread >= 0
    ensures (forall a: uint64, b: uint64 | -spread <= a - b <= spread :: Agrees(a, b)) <==> spread < TWO_31
  {
    if spread < TWO_31 {
      forall a: uint64, b: uint64 | -spread <= a - b <= spread ensures Agrees(a, b) {
        Int32InWindow(a - b);
      }
    } else {
      assert !Agrees(0x8000_0000, 0);
    }
  }

  /** On such a key set it is a strict total order. */
  lemma CompareIsTotalOrder(keys: set<uint64>)
    requires forall a, b | a in keys && b in keys :: a - b < TWO_31
    ensures forall a, b | a in keys && b in keys ::
              a == b || (Compare(a, b) < 0 && Compare(b, a) > 0) || (Compare(a, b) > 0 && Compare(b, a) < 0)
    ensures forall a, b, c | a in keys && b in keys && c in keys ::
              Compare(a, b) < 0 && Compare(b, c) < 0 ==> Compare(a, c) < 0
  {
    forall a, b | a in keys && b in keys ensures Compare(a, b) == a - b {
      Int32InWindow(a - b);
    }
  }

  // ---------------------------------------------------------------------
  // The shards as one map

  function ShardOf(pid: uint64, files: nat): (k: nat)
    requires files > 0
    ensures k < files
  {
    pid % files
  }

  ghost predicate Sharded(shards: seq<Shard>) {
    && |shards| > 0
    && (forall k, p | 0 <= k < |shards| && p in shards[k] :: p % |shards| == k)
  }

  ghost function Merged(shards: seq<Shard>): (m: map<uint64, Msg>)
    requires Sharded(shards)
    ensures forall p: uint64 :: p in m <==> p in shards[ShardOf(p, |shards|)]
    ensures forall p | p in m :: m[p] == shards[ShardOf(p, |shards|)][p]
  {
    var keys := set k, p | 0 <= k < |shards| && p in shards[k] :: p;
    assert forall p: uint64 | p in shards[ShardOf(p, |shards|)] :: p in keys;
    map p | p in keys :: shards[ShardOf(p, |shards|)][p]
  }

  /** Putting into one shard is putting into the whole map. */
  lemma MergedPut(shards: seq<Shard>, p: uint64, msg: Msg, shard: Shard)
    requires Sharded(shards) && shard == shards[ShardOf(p, |shards|)][p := msg]
    ensures Sharded(shards[ShardOf(p, |shards|) := shard])
    ensures Merged(shards[ShardOf(p, |shards|) := shard]) == Merged(shards)[p := msg]
  {
    var k, shards' := ShardOf(p, |shards|), shards[ShardOf(p, |shards|) := shard];
    assert Sharded(shards');
    forall x: uint64 ensures x in Merged(shards') <==> x in Merged(shards)[p := msg] {
      assert ShardOf(x, |shards|) != k ==> shards'[ShardOf(x, |shards|)] == shards[ShardOf(x, |shards|)];
    }
  }

  lemma MergedDrop(shards: seq<Shard>, p: uint64)
    requires Sharded(shards)
    ensures var k := ShardOf(p, |shards|);
            Sharded(shards[k := shards[k] - {p}]) &&
            Merged(shards[k := shards[k] - {p}]) == Merged(shards) - {p}
  {
    var k := ShardOf(p, |shards|);
    var shards' := shards[k := shards[k] - {p}];
    assert Sharded(shards');
    forall x: uint64 ensures x in Merged(shards') <==> x in Merged(shards) - {p} {
      assert ShardOf(x, |shards|) != k ==> shards'[ShardOf(x, |shards|)] == shards[ShardOf(x, |shards|)];
    }
  }

  /** `out` lists the entries of `m`, each one once. */
  ghost predicate Enumerates(out: seq<Entry>, m: map<uint64, Msg>) {
    && (forall i | 0 <= i < |out| :: out[i].0 in m && out[i].1 == m[out[i].0])
    && (forall i, j | 0 <= i < j < |out| :: out[i].0 != out[j].0)
    && (forall p | p in m :: exists i :: 0 <= i < |out| && out[i].0 == p)
  }

  /** What the cursors have not returned yet. */
  ghost function Left(cursors: seq<set<uint64>>): nat {
    if cursors == [] then 0 else |cursors[0]| + Left(cursors[1..])
  }

  lemma {:induction false} LeftDrops(cursors: seq<set<uint64>>, k: nat, key: uint64)
    requires k < |cursors| && key in cursors[k]
    ensures Left(cursors[k := cursors[k] - {key}]) == Left(cursors) - 1
    decreases |cursors|
  {
    var c' := cursors[k := cursors[k] - {key}];
    if k == 0 {
      assert c'[1..] == cursors[1..];
    } else {
      LeftDrops(cursors[1..], k - 1, key);
      assert c'[1..] == cursors[1..][k - 1 := cursors[1..][k - 1] - {key}];
    }
  }

  /** The list holds exactly the entries behind the cursors, each one once. */
  ghost predicate Listed(out: seq<Entry>, shards: seq<Shard>, cursors: seq<set<uint64>>) {
    && Sharded(shards) && |cursors| == |shards|
    && (forall i | 0 <= i < |out| ::
          var k := ShardOf(out[i].0, |shards|);
          out[i].0 in shards[k] && out[i].0 !in cursors[k] && out[i].1 == shards[k][out[i].0])
    && (forall i, j | 0 <= i < j < |out| :: out[i].0 != out[j].0)
    && (forall k, p | 0 <= k < |shards| && p in shards[k] && p !in cursors[k] ::
          exists i :: 0 <= i < |out| && out[i].0 == p)
  }

  lemma ListedNext(out: seq<Entry>, shards: seq<Shard>, cursors: seq<set<uint64>>, k: nat, key: uint64)
    requires Listed(out, shards, cursors) && k < |shards| && key in cursors[k] && cursors[k] <= shards[k].Keys
    ensures Listed(out + [(key, shards[k][key])], shards, cursors[k := cursors[k] - {key}])
  {
    var out', cursors' := out + [(key, shards[k][key])], cursors[k := cursors[k] - {key}];
    assert out'[|out|].0 == key;
    forall m, p | 0 <= m < |shards| && p in shards[m] && p !in cursors'[m]
      ensures exists i :: 0 <= i < |out'| && out'[i].0 == p
    {
      if p != key {
        assert p !in cursors[m];
        var i :| 0 <= i < |out| && out[i].0 == p;
        assert out'[i].0 == p;
      }
    }
  }

  lemma ListedAll(out: seq<Entry>, shards: seq<Shard>, cursors: seq<set<uint64>>)
    requires Listed(out, shards, cursors)
    requires forall k | 0 <= k < |cursors| :: cursors[k] == {}
    ensures Enumerates(out, Merged(shards))
  {
  }

  lemma {:induction false} FewerThan(s: set<int>, n: nat)
    requires forall k | k in s :: 0 <= k < n
    ensures |s| <= n
    ensures |s| == n ==> forall k | 0 <= k < n :: k in s
  {
    if n == 0 {
      assert forall k :: k !in s;
    } else {
      FewerThan(s - {n - 1}, n - 1);
      if n - 1 in s {
        assert s == (s - {n - 1}) + {n - 1};
      } else {
        assert s == s - {n - 1};
      }
    }
  }

  lemma AllClosed(s: set<int>, n: nat)
    requires (forall k | k in s :: 0 <= k < n) && |s| >= n
    ensures forall k | 0 <= k < n :: k in s
  {
    FewerThan(s, n);
  }

  ghost function StillOpen(s: set<int>, n: nat): (k: int)
    requires (forall k | k in s :: 0 <= k < n) && |s| < n
    ensures 0 <= k < n && k !in s
  {
    assert exists k :: 0 <= k < n && k !in s by {
      if forall k | 0 <= k < n :: k in s { Covers(s, n); }
    }
    var k :| 0 <= k < n && k !in s;
    k
  }

  lemma {:induction false} Covers(s: set<int>, n: nat)
    requires forall k | 0 <= k < n :: k in s
    ensures |s| >= n
  {
    if n > 0 {
      Covers(s - {n - 1}, n - 1);
      assert s == (s - {n - 1}) + {n - 1};
    }
  }

  /** The cursors and which of them are exhausted. */
  ghost predicate Reading(shards: seq<Shard>, cursors: seq<set<uint64>>, done: seq<bool>, closed: set<int>) {
    && |cursors| == |done| == |shards|
    && (forall k | 0 <= k < |shards| :: cursors[k] <= shards[k].Keys && (done[k] ==> cursors[k] == {}))
    && (forall k :: k in closed <==> 0 <= k < |shards| && done[k])
  }

  lemma ReadingNext(shards: seq<Shard>, cursors: seq<set<uint64>>, done: seq<bool>, closed: set<int>, k: nat,
                    key: uint64)
    requires Reading(shards, cursors, done, closed) && k < |shards| && key in cursors[k]
    ensures Reading(shards, cursors[k := cursors[k] - {key}], done, closed)
    ensures Left(cursors[k := cursors[k] - {key}]) == Left(cursors) - 1
  {
    LeftDrops(cursors, k, key);
  }

  lemma ReadingClose(shards: seq<Shard>, cursors: seq<set<uint64>>, done: seq<bool>, closed: set<int>, k: nat)
    requires Reading(shards, cursors, done, closed) && k < |shards| && !done[k] && cursors[k] == {}
    ensures Reading(shards, cursors, done[k := true], closed + {k})
    ensures |closed + {k}| == |closed| + 1
  {
  }

  lemma WithoutNext(m: map<uint64, Msg>, pids: seq<uint64>, i: nat)
    requires i < |pids|
    ensures m - Ids(pids[..i]) - {pids[i]} == m - Ids(pids[..i + 1])
  {
    assert Ids(pids[..i + 1]) == Ids(pids[..i]) + {pids[i]};
  }

  function Succ(k: nat, n: nat): (r: nat)
    requires k < n
    ensures r == if k + 1 == n then 0 else k + 1
  {
    (k + 1) % n
  }

  /** Steps of the round robin from one cursor to another. */
  ghost function Distance(k: nat, target: nat, n: nat): nat
    requires k < n && target < n
  {
    if target >= k then target - k else target - k + n
  }

  class Journal {
    const qid: uint64
    var shards: seq<Shard>
    var transientList: seq<uint64>
    var acceptedList: seq<uint64>

    ghost predicate Valid()
      reads this
    {
      Sharded(shards)
    }

    ghost function Contents(): map<uint64, Msg>
      reads this
      requires Valid()
    {
      Merged(shards)
    }

    constructor (qid: uint64, files: nat)
      requires files > 0
      ensures Valid() && Contents() == map[] && this.qid == qid && |shards| == files
      ensures transientList == [] && acceptedList == []
    {
      this.qid := qid;
      shards := seq(files, _ => map[]);
      transientList, acceptedList := [], [];
    }

    /** Put with `DB_NOOVERWRITE`. */
    method StoreMsg(pid: uint64, msg: Msg) returns (stored: bool)
      requires Valid()
      modifies this`shards
      ensures Valid() && stored == (pid !in old(Contents()))
      ensures Contents() == if stored then old(Contents())[pid := msg] else old(Contents())
    {
      var k := ShardOf(pid, |shards|);
      stored := pid !in shards[k];
      if stored {
        var shard: Shard := shards[k][pid := msg];
        MergedPut(shards, pid, msg, shard);
        shards := shards[k := shard];
      }
    }

    /** A missing key is only logged. */
    method RemoveMsg(pid: uint64)
      requires Valid()
      modifies this`shards
      ensures Valid() && Contents() == old(Contents()) - {pid}
      ensures |shards| == old(|shards|)
    {
      var k := ShardOf(pid, |shards|);
      MergedDrop(shards, pid);
      shards := shards[k := shards[k] - {pid}];
    }

    method IsEnqueued(pid: uint64) returns (found: bool)
      requires Valid()
      ensures found == (pid in Contents())
    {
      found := pid in shards[ShardOf(pid, |shards|)];
    }

    /** Read the shards round robin, one entry from each open cursor in turn,
        until every cursor is exhausted. A cursor may return the keys of its
        shard in any order. */
    method RecoverMessages() returns (recovered: seq<Entry>)
      requires Valid()
      ensures Enumerates(recovered, Contents())
    {
      var n := |shards|;
      var cursors: seq<set<uint64>> :=
        seq(n, k requires 0 <= k < n reads this requires n == |shards| => shards[k].Keys);
      var done := seq(n, _ => false);
      var sindex, doneCnt := 0, 0;
      recovered := [];
      ghost var closed: set<int>, target: nat := {}, 0;
      while doneCnt < n
        invariant 0 <= sindex < n == |shards| && |closed| == doneCnt
        invariant Reading(shards, cursors, done, closed)
        invariant target < n && (doneCnt < n ==> !done[target])
        invariant Listed(recovered, shards, cursors)
        decreases Left(cursors) + n - doneCnt, Distance(sindex, target, n)
      {
        if !done[sindex] {
          if cursors[sindex] != {} {
            var key :| key in cursors[sindex];
            ReadingNext(shards, cursors, done, closed, sindex, key);
            ListedNext(recovered, shards, cursors, sindex, key);
            recovered := recovered + [(key, shards[sindex][key])];
            cursors := cursors[sindex := cursors[sindex] - {key}];
          } else {
            ReadingClose(shards, cursors, done, closed, sindex);
            doneCnt := doneCnt + 1;
            done := done[sindex := true];
            closed := closed + {sindex};
            if doneCnt < n {
              target := StillOpen(closed, n);
            }
          }
        }
        sindex := Succ(sindex, n);
      }
      AllClosed(closed, n);
      ListedAll(recovered, shards, cursors);
    }

    method RegisterAsTransient(pids: seq<uint64>)
      modifies this`transientList
      ensures transientList == pids + old(transientList)
      ensures old(transientList) == [] ==> transientList == pids
    {
      transientList := pids + transientList;
    }

    method RegisterAsAccepted(pids: seq<uint64>)
      modifies this`acceptedList
      ensures acceptedList == pids + old(acceptedList)
      ensures old(acceptedList) == [] ==> acceptedList == pids
    {
      acceptedList := pids + acceptedList;
    }

    method RemoveAll(pids: seq<uint64>)
      requires Valid()
      modifies this`shards
      ensures Valid() && Contents() == old(Contents()) - Ids(pids)
    {
      var i := 0;
      while i < |pids|
        invariant 0 <= i <= |pids| && Valid()
        invariant Contents() == old(Contents()) - Ids(pids[..i])
      {
        RemoveMsg(pids[i]);
        WithoutNext(old(Contents()), pids, i);
        i := i + 1;
      }
      assert pids[..i] == pids;
    }

    /** Delete everything registered during recovery. */
    method DiscardTransient()
      requires Valid()
      modifies this`shards, this`transientList
      ensures Valid() && transientList == []
      ensures Contents() == old(Contents()) - Ids(old(transientList))
    {
      RemoveAll(transientList);
      transientList := [];
    }

    method DiscardAccepted()
      requires Valid()
      modifies this`shards, this`acceptedList
      ensures Valid() && acceptedList == []
      ensures Contents() == old(Contents()) - Ids(old(acceptedList))
    {
      RemoveAll(acceptedList);
      acceptedList := [];
    }
  }
}
