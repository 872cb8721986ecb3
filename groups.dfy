/**
 * The arithmetic behind MongoDB's `$group` and `$sort` stages, over
 * in-memory sequences: distinct keys in order of first appearance, per-key
 * sums and counts, and a stable insertion sort by a numeric key.
 *
 * Key and weight functions are passed as named functions, so every use of
 * a lemma talks about the same terms.
 */
module Groups {

  /** Sum of the weights of all elements. */
  function Total<T>(s: seq<T>, w: T -> real): real {
    if s == [] then 0.0 else w(s[0]) + Total(s[1..], w)
  }

  /** Sum of the weights of the elements whose key is `k` (a `$sum` in a `$group` by that key). */
  function KeyTotal<T, K(==)>(s: seq<T>, key: T -> K, k: K, w: T -> real): real {
    if s == [] then 0.0 else (if key(s[0]) == k then w(s[0]) else 0.0) + KeyTotal(s[1..], key, k, w)
  }

  /** The same sum for integer weights. */
  function KeyTally<T, K(==)>(s: seq<T>, key: T -> K, k: K, w: T -> int): int {
    if s == [] then 0 else (if key(s[0]) == k then w(s[0]) else 0) + KeyTally(s[1..], key, k, w)
  }

  /** Number of elements whose key is `k` (`{ $sum: 1 }`). */
  function KeyCount<T, K(==)>(s: seq<T>, key: T -> K, k: K): nat {
    if s == [] then 0 else (if key(s[0]) == k then 1 else 0) + KeyCount(s[1..], key, k)
  }

  predicate Distinct<K(==)>(ks: seq<K>) {
    forall i, j :: 0 <= i < j < |ks| ==> ks[i] != ks[j]
  }

  /** Some element of `s` has key `k`. */
  predicate HasKey<T, K(==)>(s: seq<T>, key: T -> K, k: K) {
    exists i :: 0 <= i < |s| && key(s[i]) == k
  }

  /** The distinct keys of `s`, each once, in the order in which they first occur. */
  function Keys<T, K(==,!new)>(s: seq<T>, key: T -> K): (ks: seq<K>)
    ensures Distinct(ks)
    ensures forall k :: k in ks <==> HasKey(s, key, k)
    ensures |ks| <= |s|
  {
    if s == [] then []
    else
      var init := s[..|s| - 1];
      var ks0 := Keys(init, key);
      var k := key(s[|s| - 1]);
      assert forall j :: 0 <= j < |init| ==> init[j] == s[j];
      assert forall k' :: HasKey(s, key, k') <==> HasKey(init, key, k') || k' == k;
      if k in ks0 then ks0 else ks0 + [k]
  }

  lemma {:induction false} KeyCountZero<T, K>(s: seq<T>, key: T -> K, k: K, w: T -> real)
    requires !HasKey(s, key, k)
    ensures KeyCount(s, key, k) == 0 && KeyTotal(s, key, k, w) == 0.0
  {
    if s != [] {
      assert !HasKey(s[1..], key, k) by {
        forall i | 0 <= i < |s| - 1 ensures key(s[1..][i]) != k {
          assert s[1..][i] == s[i + 1];
        }
      }
      KeyCountZero(s[1..], key, k, w);
    }
  }

  lemma {:induction false} KeyCountPositive<T, K>(s: seq<T>, key: T -> K, k: K)
    requires HasKey(s, key, k)
    ensures KeyCount(s, key, k) >= 1
  {
    if key(s[0]) != k {
      var i :| 0 <= i < |s| && key(s[i]) == k;
      assert s[1..][i - 1] == s[i];
      KeyCountPositive(s[1..], key, k);
    }
  }

  /** A key occurs iff its count is positive. */
  lemma KeyCountIff<T, K>(s: seq<T>, key: T -> K, k: K, w: T -> real)
    ensures HasKey(s, key, k) <==> KeyCount(s, key, k) >= 1
    ensures !HasKey(s, key, k) ==> KeyTotal(s, key, k, w) == 0.0
  {
    if HasKey(s, key, k) { KeyCountPositive(s, key, k); } else { KeyCountZero(s, key, k, w); }
  }

  /** Sum over the keys `ks` of the per-key totals. */
  function SumKeyTotals<T, K(==)>(ks: seq<K>, s: seq<T>, key: T -> K, w: T -> real): real {
    if ks == [] then 0.0 else KeyTotal(s, key, ks[0], w) + SumKeyTotals(ks[1..], s, key, w)
  }

  function SumKeyCounts<T, K(==)>(ks: seq<K>, s: seq<T>, key: T -> K): nat {
    if ks == [] then 0 else KeyCount(s, key, ks[0]) + SumKeyCounts(ks[1..], s, key)
  }

  /** Over distinct keys, the indicator of one key sums to 1 if it is among them, else 0. */
  lemma {:induction false} SumIndicator<T, K>(ks: seq<K>, x: T, key: T -> K, w: T -> real)
    requires Distinct(ks)
    ensures SumKeyTotals(ks, [x], key, w) == (if key(x) in ks then w(x) else 0.0)
    ensures SumKeyCounts(ks, [x], key) == (if key(x) in ks then 1 else 0)
  {
    if ks != [] {
      assert Distinct(ks[1..]) by {
        forall i, j | 0 <= i < j < |ks| - 1 ensures ks[1..][i] != ks[1..][j] {
          assert ks[1..][i] == ks[i + 1] && ks[1..][j] == ks[j + 1];
        }
      }
      SumIndicator(ks[1..], x, key, w);
      assert [x][1..] == [];
      if key(x) == ks[0] {
        assert KeyTotal([x], key, ks[0], w) == w(x) && KeyCount([x], key, ks[0]) == 1;
        assert key(x) !in ks[1..] by {
          forall j | 0 <= j < |ks| - 1 ensures ks[1..][j] != ks[0] { assert ks[1..][j] == ks[j + 1]; }
        }
      } else {
        assert KeyTotal([x], key, ks[0], w) == 0.0 && KeyCount([x], key, ks[0]) == 0;
        assert key(x) in ks <==> key(x) in ks[1..] by {
          assert ks == [ks[0]] + ks[1..];
        }
      }
    }
  }

  /** Summing per-key totals over a list of keys splits over the first element of the data. */
  lemma {:induction false} SumKeysSplit<T, K>(ks: seq<K>, s: seq<T>, key: T -> K, w: T -> real)
    requires s != []
    ensures SumKeyTotals(ks, s, key, w) == SumKeyTotals(ks, [s[0]], key, w) + SumKeyTotals(ks, s[1..], key, w)
    ensures SumKeyCounts(ks, s, key) == SumKeyCounts(ks, [s[0]], key) + SumKeyCounts(ks, s[1..], key)
  {
    if ks != [] {
      SumKeysSplit(ks[1..], s, key, w);
      assert [s[0]][1..] == [];
      assert KeyTotal(s, key, ks[0], w) == KeyTotal([s[0]], key, ks[0], w) + KeyTotal(s[1..], key, ks[0], w);
      assert KeyCount(s, key, ks[0]) == KeyCount([s[0]], key, ks[0]) + KeyCount(s[1..], key, ks[0]);
    }
  }

  /**
   * Grouping loses and duplicates nothing: over any distinct list of keys
   * that covers every element, the per-key totals add up to the grand total
   * and the per-key counts to the number of elements.
   */
  lemma {:induction false} Partition<T, K>(ks: seq<K>, s: seq<T>, key: T -> K, w: T -> real)
    requires Distinct(ks)
    requires forall i :: 0 <= i < |s| ==> key(s[i]) in ks
    ensures SumKeyTotals(ks, s, key, w) == Total(s, w)
    ensures SumKeyCounts(ks, s, key) == |s|
  {
    if s == [] {
      ZeroSums(ks, key, w);
    } else {
      SumKeysSplit(ks, s, key, w);
      SumIndicator(ks, s[0], key, w);
      assert forall i :: 0 <= i < |s| - 1 ==> s[1..][i] == s[i + 1];
      Partition(ks, s[1..], key, w);
    }
  }

  lemma {:induction false} ZeroSums<T, K>(ks: seq<K>, key: T -> K, w: T -> real)
    ensures SumKeyTotals(ks, [], key, w) == 0.0 && SumKeyCounts(ks, [], key) == 0
  {
    if ks != [] { ZeroSums(ks[1..], key, w); }
  }

  /** The grand total of a sequence split in two. */
  lemma {:induction false} TotalConcat<T>(a: seq<T>, b: seq<T>, w: T -> real)
    ensures Total(a + b, w) == Total(a, w) + Total(b, w)
  {
    if a == [] {
      assert a + b == b;
    } else {
      assert (a + b)[0] == a[0];
      assert (a + b)[1..] == a[1..] + b;
      TotalConcat(a[1..], b, w);
    }
  }

  /* ---- Stable insertion sort by a numeric key ---- */

  /** `x` goes no later than `y`: for `desc`, a key at least as large; otherwise at most as large. */
  predicate InOrder(a: real, b: real, desc: bool) {
    if desc then a >= b else a <= b
  }

  predicate SortedBy<R>(s: seq<R>, rank: R -> real, desc: bool) {
    forall i, j :: 0 <= i < j < |s| ==> InOrder(rank(s[i]), rank(s[j]), desc)
  }

  /** Inserts `x` before the first element it may precede, so that equal keys keep their order. */
  function Insert<R>(x: R, s: seq<R>, rank: R -> real, desc: bool): (r: seq<R>)
    requires SortedBy(s, rank, desc)
    ensures SortedBy(r, rank, desc)
    ensures multiset(r) == multiset(s) + multiset{x}
    ensures |r| == |s| + 1
  {
    if s == [] then [x]
    else if InOrder(rank(x), rank(s[0]), desc) then [x] + s
    else
      var rest := Insert(x, s[1..], rank, desc);
      InsertHeadFirst(x, s, rest, rank, desc);
      assert s == [s[0]] + s[1..];
      assert multiset(s) == multiset{s[0]} + multiset(s[1..]);
      [s[0]] + rest
  }

  /** The head of a sorted list that `x` may not precede stays in front of everything `x` is inserted into. */
  lemma InsertHeadFirst<R>(x: R, s: seq<R>, rest: seq<R>, rank: R -> real, desc: bool)
    requires s != [] && SortedBy(s, rank, desc) && SortedBy(rest, rank, desc)
    requires !InOrder(rank(x), rank(s[0]), desc)
    requires multiset(rest) == multiset(s[1..]) + multiset{x}
    ensures SortedBy([s[0]] + rest, rank, desc)
  {
    forall i | 0 <= i < |rest| ensures InOrder(rank(s[0]), rank(rest[i]), desc) {
      var y := rest[i];
      assert y in multiset(rest);
      if y != x {
        assert y in multiset(s[1..]);
        var j :| 0 <= j < |s| - 1 && s[1..][j] == y;
        assert s[j + 1] == y;
      }
    }
    var r := [s[0]] + rest;
    forall i, j | 0 <= i < j < |r| ensures InOrder(rank(r[i]), rank(r[j]), desc) {
      if i == 0 { assert r[j] == rest[j - 1]; } else { assert r[i] == rest[i - 1] && r[j] == rest[j - 1]; }
    }
  }

  /** `$sort` on one numeric key: sorted, and a permutation of the input. */
  function SortBy<R>(s: seq<R>, rank: R -> real, desc: bool): (r: seq<R>)
    ensures SortedBy(r, rank, desc)
    ensures multiset(r) == multiset(s)
    ensures |r| == |s|
  {
    if s == [] then [] else
      assert s == [s[0]] + s[1..];
      Insert(s[0], SortBy(s[1..], rank, desc), rank, desc)
  }

  /** Sorting keeps exactly the elements it was given. */
  lemma SortByMembers<R>(s: seq<R>, rank: R -> real, desc: bool)
    ensures forall x :: x in SortBy(s, rank, desc) <==> x in s
  {
    var r := SortBy(s, rank, desc);
    forall x ensures x in r <==> x in s {
      assert x in r <==> x in multiset(r);
      assert x in s <==> x in multiset(s);
    }
  }

  /** Integer sum of the weights of all elements. */
  function Tally<T>(s: seq<T>, w: T -> int): int {
    if s == [] then 0 else w(s[0]) + Tally(s[1..], w)
  }

  lemma {:induction false} TallyConcat<T>(a: seq<T>, b: seq<T>, w: T -> int)
    ensures Tally(a + b, w) == Tally(a, w) + Tally(b, w)
  {
    if a == [] {
      assert a + b == b;
    } else {
      assert (a + b)[0] == a[0];
      assert (a + b)[1..] == a[1..] + b;
      TallyConcat(a[1..], b, w);
    }
  }

  lemma MultisetWithout<T>(b: seq<T>, j: nat)
    requires j < |b|
    ensures multiset(b[..j] + b[j + 1..]) == multiset(b) - multiset{b[j]}
  {
    assert b == b[..j] + [b[j]] + b[j + 1..];
  }

  lemma TotalWithout<T>(b: seq<T>, j: nat, w: T -> real)
    requires j < |b|
    ensures Total(b, w) == w(b[j]) + Total(b[..j] + b[j + 1..], w)
  {
    assert b == b[..j] + [b[j]] + b[j + 1..];
    TotalConcat(b[..j] + [b[j]], b[j + 1..], w);
    TotalConcat(b[..j], [b[j]], w);
    TotalConcat(b[..j], b[j + 1..], w);
    assert [b[j]][1..] == [];
  }

  lemma TallyWithout<T>(b: seq<T>, j: nat, v: T -> int)
    requires j < |b|
    ensures Tally(b, v) == v(b[j]) + Tally(b[..j] + b[j + 1..], v)
  {
    assert b == b[..j] + [b[j]] + b[j + 1..];
    TallyConcat(b[..j] + [b[j]], b[j + 1..], v);
    TallyConcat(b[..j], [b[j]], v);
    TallyConcat(b[..j], b[j + 1..], v);
    assert [b[j]][1..] == [];
  }

  /** Reordering changes no sum. */
  lemma {:induction false} PermutationSums<T>(a: seq<T>, b: seq<T>, w: T -> real, v: T -> int)
    requires multiset(a) == multiset(b)
    ensures Total(a, w) == Total(b, w)
    ensures Tally(a, v) == Tally(b, v)
  {
    if a == [] {
      assert |b| == |multiset(b)| == 0;
    } else {
      assert a == [a[0]] + a[1..];
      assert multiset(a[1..]) == multiset(a) - multiset{a[0]};
      assert a[0] in multiset(b);
      var j :| 0 <= j < |b| && b[j] == a[0];
      var rest := b[..j] + b[j + 1..];
      MultisetWithout(b, j);
      PermutationSums(a[1..], rest, w, v);
      TotalWithout(b, j, w);
      TallyWithout(b, j, v);
    }
  }

  /** No two elements share a key. */
  predicate DistinctBy<R, K(==)>(s: seq<R>, key: R -> K) {
    forall i, j :: 0 <= i < j < |s| ==> key(s[i]) != key(s[j])
  }

  /** A key that neither `x` nor any element of `s` has is not found after inserting `x`. */
  lemma {:induction false} InsertAvoids<R, K>(x: R, s: seq<R>, rank: R -> real, desc: bool, key: R -> K, k: K)
    requires SortedBy(s, rank, desc) && key(x) != k
    requires forall i :: 0 <= i < |s| ==> key(s[i]) != k
    ensures forall i :: 0 <= i < |Insert(x, s, rank, desc)| ==> key(Insert(x, s, rank, desc)[i]) != k
  {
    var r := Insert(x, s, rank, desc);
    if s == [] {
    } else if InOrder(rank(x), rank(s[0]), desc) {
      forall i | 0 <= i < |r| ensures key(r[i]) != k {
        if i > 0 { assert r[i] == s[i - 1]; }
      }
    } else {
      var rest := Insert(x, s[1..], rank, desc);
      InsertAvoids(x, s[1..], rank, desc, key, k);
      assert r == [s[0]] + rest;
      forall i | 0 <= i < |r| ensures key(r[i]) != k {
        if i > 0 { assert r[i] == rest[i - 1]; }
      }
    }
  }

  lemma {:induction false} InsertDistinct<R, K>(x: R, s: seq<R>, rank: R -> real, desc: bool, key: R -> K)
    requires SortedBy(s, rank, desc) && DistinctBy(s, key)
    requires forall i :: 0 <= i < |s| ==> key(s[i]) != key(x)
    ensures DistinctBy(Insert(x, s, rank, desc), key)
  {
    var r := Insert(x, s, rank, desc);
    if s == [] {
    } else if InOrder(rank(x), rank(s[0]), desc) {
      forall i, j | 0 <= i < j < |r| ensures key(r[i]) != key(r[j]) {
        assert r[j] == s[j - 1];
        if i > 0 { assert r[i] == s[i - 1]; }
      }
    } else {
      var tail := s[1..];
      var rest := Insert(x, tail, rank, desc);
      assert DistinctBy(tail, key) by {
        forall i, j | 0 <= i < j < |tail| ensures key(tail[i]) != key(tail[j]) {
          assert tail[i] == s[i + 1] && tail[j] == s[j + 1];
        }
      }
      InsertDistinct(x, tail, rank, desc, key);
      forall i | 0 <= i < |tail| ensures key(tail[i]) != key(s[0]) {
        assert tail[i] == s[i + 1];
      }
      InsertAvoids(x, tail, rank, desc, key, key(s[0]));
      assert r == [s[0]] + rest;
      forall i, j | 0 <= i < j < |r| ensures key(r[i]) != key(r[j]) {
        assert r[j] == rest[j - 1];
        if i > 0 { assert r[i] == rest[i - 1]; }
      }
    }
  }

  /** Sorting keeps distinct keys distinct. */
  lemma {:induction false} SortByDistinct<R, K>(s: seq<R>, rank: R -> real, desc: bool, key: R -> K)
    requires DistinctBy(s, key)
    ensures DistinctBy(SortBy(s, rank, desc), key)
  {
    if s != [] {
      var tail := s[1..];
      assert DistinctBy(tail, key) by {
        forall i, j | 0 <= i < j < |tail| ensures key(tail[i]) != key(tail[j]) {
          assert tail[i] == s[i + 1] && tail[j] == s[j + 1];
        }
      }
      SortByDistinct(tail, rank, desc, key);
      var sorted := SortBy(tail, rank, desc);
      forall i | 0 <= i < |sorted| ensures key(sorted[i]) != key(s[0]) {
        assert sorted[i] in multiset(tail);
        var j :| 0 <= j < |tail| && tail[j] == sorted[i];
        assert tail[j] == s[j + 1];
      }
      InsertDistinct(s[0], sorted, rank, desc, key);
    }
  }
}
