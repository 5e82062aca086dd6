/**
 * Python's `sorted(blocks, key=...)` over stanza texts: a stable sort by a
 * numeric key (the scripts use InterfaceKey.SortKey). Insertion sort is
 * used as the definition; its lemmas show it returns the blocks in ascending
 * key order, as a permutation of its input, keeping blocks with equal keys
 * in their input order.
 */
module StableSort {
  import opened InterfaceKey

  type Key = string -> seq<nat>

  /** Puts `x` before the first block whose key is not smaller than its own. */
  function Insert(x: string, ys: seq<string>, key: Key): (r: seq<string>)
    ensures multiset(r) == multiset(ys) + multiset{x}
  {
    if |ys| == 0 || !KeyLess(key(ys[0]), key(x)) then [x] + ys
    else
      assert ys == [ys[0]] + ys[1..];
      [ys[0]] + Insert(x, ys[1..], key)
  }

  /** Each block is inserted into the sorted remainder, ahead of every later block with an equal key. */
  function Sort(xs: seq<string>, key: Key): (r: seq<string>)
    ensures multiset(r) == multiset(xs)
    ensures |r| == |xs|
  {
    if |xs| == 0 then []
    else
      assert xs == [xs[0]] + xs[1..];
      Insert(xs[0], Sort(xs[1..], key), key)
  }

  /** Ascending key order: no later block has a smaller key than an earlier one. */
  predicate Sorted(xs: seq<string>, key: Key) {
    forall i, j :: 0 <= i < j < |xs| ==> !KeyLess(key(xs[j]), key(xs[i]))
  }

  /** The blocks of `xs` whose key is `k`, in order. */
  function WithKey(xs: seq<string>, key: Key, k: seq<nat>): seq<string> {
    if |xs| == 0 then []
    else (if key(xs[0]) == k then [xs[0]] else []) + WithKey(xs[1..], key, k)
  }

  /** Inserting a block no smaller than `lo` among blocks no smaller than `lo` keeps every block no smaller. */
  lemma InsertBound(x: string, ys: seq<string>, key: Key, lo: seq<nat>)
    requires !KeyLess(key(x), lo)
    requires forall j :: 0 <= j < |ys| ==> !KeyLess(key(ys[j]), lo)
    ensures forall j :: 0 <= j < |Insert(x, ys, key)| ==> !KeyLess(key(Insert(x, ys, key)[j]), lo)
  {
    var r := Insert(x, ys, key);
    forall j | 0 <= j < |r| ensures !KeyLess(key(r[j]), lo) {
      assert r[j] in multiset(r);
      if r[j] != x {
        assert r[j] in multiset(ys);
        var m :| 0 <= m < |ys| && ys[m] == r[j];
      }
    }
  }

  lemma {:induction false} InsertSorted(x: string, ys: seq<string>, key: Key)
    requires Sorted(ys, key)
    ensures Sorted(Insert(x, ys, key), key)
  {
    var r := Insert(x, ys, key);
    if |ys| == 0 || !KeyLess(key(ys[0]), key(x)) {
      assert r == [x] + ys;
      forall i, j | 0 <= i < j < |r| ensures !KeyLess(key(r[j]), key(r[i])) {
        if i == 0 && j > 1 {
          NotLessTransitive(key(x), key(ys[0]), key(ys[j - 1]));
        }
      }
    } else {
      var y, tail := ys[0], ys[1..];
      assert Sorted(tail, key);
      InsertSorted(x, tail, key);
      var t := Insert(x, tail, key);
      assert r == [y] + t;
      KeyLessAsymmetric(key(y), key(x));
      forall j | 0 <= j < |tail| ensures !KeyLess(key(tail[j]), key(y)) {
        assert tail[j] == ys[j + 1];
      }
      InsertBound(x, tail, key, key(y));
      forall i, j | 0 <= i < j < |r| ensures !KeyLess(key(r[j]), key(r[i])) {
        if i == 0 {
          assert r[j] == t[j - 1];
        } else {
          assert r[i] == t[i - 1] && r[j] == t[j - 1];
        }
      }
    }
  }

  /** The sort puts the blocks in ascending key order. */
  lemma {:induction false} SortSorted(xs: seq<string>, key: Key)
    ensures Sorted(Sort(xs, key), key)
  {
    if |xs| > 0 {
      SortSorted(xs[1..], key);
      InsertSorted(xs[0], Sort(xs[1..], key), key);
    }
  }

  lemma WithKeyCons(y: string, zs: seq<string>, key: Key, k: seq<nat>)
    ensures WithKey([y] + zs, key, k) == (if key(y) == k then [y] else []) + WithKey(zs, key, k)
  {
    assert ([y] + zs)[0] == y && ([y] + zs)[1..] == zs;
  }

  lemma {:induction false} InsertStable(x: string, ys: seq<string>, key: Key, k: seq<nat>)
    ensures WithKey(Insert(x, ys, key), key, k) == WithKey([x] + ys, key, k)
  {
    if |ys| > 0 && KeyLess(key(ys[0]), key(x)) {
      var y, tail := ys[0], ys[1..];
      var ins := Insert(x, tail, key);
      assert Insert(x, ys, key) == [y] + ins;
      var wx := if key(x) == k then [x] else [];
      var wy := if key(y) == k then [y] else [];
      InsertStable(x, tail, key, k);
      WithKeyCons(y, ins, key, k);
      WithKeyCons(x, tail, key, k);
      assert WithKey(Insert(x, ys, key), key, k) == wy + (wx + WithKey(tail, key, k));
      WithKeyCons(x, ys, key, k);
      assert WithKey(ys, key, k) == wy + WithKey(tail, key, k);
      assert WithKey([x] + ys, key, k) == wx + (wy + WithKey(tail, key, k));
      KeyLessIrreflexive(key(x));
      assert wx == [] || wy == [];
    }
  }

  /** The sort is stable: the blocks sharing any one key keep their input order. */
  lemma {:induction false} SortStable(xs: seq<string>, key: Key, k: seq<nat>)
    ensures WithKey(Sort(xs, key), key, k) == WithKey(xs, key, k)
  {
    if |xs| > 0 {
      var rest := Sort(xs[1..], key);
      SortStable(xs[1..], key, k);
      InsertStable(xs[0], rest, key, k);
      WithKeyCons(xs[0], rest, key, k);
      WithKeyCons(xs[0], xs[1..], key, k);
      assert xs == [xs[0]] + xs[1..];
    }
  }

  /** The three promises of `sorted` together: ordered, a permutation, stable. */
  lemma SortSpec(xs: seq<string>, key: Key)
    ensures Sorted(Sort(xs, key), key)
    ensures multiset(Sort(xs, key)) == multiset(xs)
    ensures forall k :: WithKey(Sort(xs, key), key, k) == WithKey(xs, key, k)
  {
    SortSorted(xs, key);
    forall k ensures WithKey(Sort(xs, key), key, k) == WithKey(xs, key, k) {
      SortStable(xs, key, k);
    }
  }

  /** Sorting blocks that are already in order changes nothing. */
  lemma {:induction false} SortOfSorted(xs: seq<string>, key: Key)
    requires Sorted(xs, key)
    ensures Sort(xs, key) == xs
  {
    if |xs| > 0 {
      var tail := xs[1..];
      assert Sorted(tail, key);
      SortOfSorted(tail, key);
      if |tail| > 0 {
        assert !KeyLess(key(tail[0]), key(xs[0]));
      }
      assert xs == [xs[0]] + tail;
    }
  }
}
