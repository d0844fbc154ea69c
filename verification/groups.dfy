/**
 * The collection operations the weekly report is built from: keeping the rows that
 * satisfy a condition, summing a column per group key, and taking the first key with
 * the largest value.
 */
module Groups {
  import opened Options

  /** The elements of `s` that satisfy `p`, in their order in `s`. */
  function Filter<T(==,!new)>(s: seq<T>, p: T -> bool): (r: seq<T>)
    ensures |r| <= |s|
    ensures forall x :: x in r <==> x in s && p(x)
  {
    if s == [] then []
    else (if p(s[0]) then [s[0]] else []) + Filter(s[1..], p)
  }

  /** Filtering commutes with concatenation, so it never reorders what it keeps. */
  lemma {:induction false} FilterConcat<T(!new)>(a: seq<T>, b: seq<T>, p: T -> bool)
    ensures Filter(a + b, p) == Filter(a, p) + Filter(b, p)
  {
    if a == [] {
      assert a + b == b;
    } else {
      assert (a + b)[1..] == a[1..] + b;
      FilterConcat(a[1..], b, p);
    }
  }

  /** The keys that occur in `s`. */
  function KeysOf<T(==), K>(s: seq<T>, key: T -> K): set<K> {
    set x | x in s :: key(x)
  }

  /** Sum of `val` over the elements of `s` whose key is `k`. */
  function SumWhere<T(==), K(==)>(s: seq<T>, key: T -> K, k: K, val: T -> int): (r: int)
    ensures k !in KeysOf(s, key) ==> r == 0
  {
    if s == [] then 0
    else (if key(s[0]) == k then val(s[0]) else 0) + SumWhere(s[1..], key, k, val)
  }

  lemma {:induction false} SumWhereConcat<T, K>(a: seq<T>, b: seq<T>, key: T -> K, k: K, val: T -> int)
    ensures SumWhere(a + b, key, k, val) == SumWhere(a, key, k, val) + SumWhere(b, key, k, val)
  {
    if a == [] {
      assert a + b == b;
    } else {
      assert (a + b)[1..] == a[1..] + b;
      SumWhereConcat(a[1..], b, key, k, val);
    }
  }

  /** Sum of `val` over all of `s`. */
  function Total<T>(s: seq<T>, val: T -> int): int {
    if s == [] then 0 else val(s[0]) + Total(s[1..], val)
  }

  lemma KeysOfCons<T, K>(s: seq<T>, key: T -> K)
    requires s != []
    ensures KeysOf(s, key) == {key(s[0])} + KeysOf(s[1..], key)
  {
  }

  /**
   * Group-by-and-sum: one entry per key that occurs in `s`, holding the sum of `val`
   * over the elements with that key (GroupSumCorrect).
   */
  function GroupSum<T, K(==)>(s: seq<T>, key: T -> K, val: T -> int): map<K, int> {
    if s == [] then map[]
    else
      var rest := GroupSum(s[1..], key, val);
      var k := key(s[0]);
      rest[k := val(s[0]) + (if k in rest then rest[k] else 0)]
  }

  lemma {:induction false} GroupSumCorrect<T, K>(s: seq<T>, key: T -> K, val: T -> int)
    ensures GroupSum(s, key, val).Keys == KeysOf(s, key)
    ensures forall k :: k in GroupSum(s, key, val) ==> GroupSum(s, key, val)[k] == SumWhere(s, key, k, val)
  {
    if s != [] {
      GroupSumCorrect(s[1..], key, val);
      KeysOfCons(s, key);
    }
  }

  /** Sum of the values of `g` at the keys `ks`, a missing key counting as zero. */
  function SumOver<K>(ks: seq<K>, g: map<K, int>): int {
    if ks == [] then 0 else (if ks[0] in g then g[ks[0]] else 0) + SumOver(ks[1..], g)
  }

  predicate DistinctKeys<K(==)>(ks: seq<K>) {
    forall i, j :: 0 <= i < j < |ks| ==> ks[i] != ks[j]
  }

  lemma {:induction false} SumOverEmpty<K>(ks: seq<K>)
    ensures SumOver(ks, map[]) == 0
  {
    if ks != [] {
      SumOverEmpty(ks[1..]);
    }
  }

  lemma {:induction false} SumOverUnlisted<K>(ks: seq<K>, g: map<K, int>, k: K, v: int)
    requires k !in ks
    ensures SumOver(ks, g[k := v]) == SumOver(ks, g)
  {
    if ks != [] {
      SumOverUnlisted(ks[1..], g, k, v);
    }
  }

  /** Adding `v` to the value at a listed key adds `v` to the sum over the listed keys. */
  lemma {:induction false} SumOverAdd<K>(ks: seq<K>, g: map<K, int>, k: K, v: int)
    requires DistinctKeys(ks) && k in ks
    ensures SumOver(ks, g[k := v + (if k in g then g[k] else 0)]) == SumOver(ks, g) + v
  {
    if ks[0] == k {
      assert k !in ks[1..] by {
        forall j | 0 <= j < |ks[1..]| ensures ks[1..][j] != k {
          assert ks[1..][j] == ks[j + 1];
        }
      }
      SumOverUnlisted(ks[1..], g, k, v + (if k in g then g[k] else 0));
    } else {
      SumOverAdd(ks[1..], g, k, v);
    }
  }

  /**
   * Summing the group sums over a list that names every key once gives back the sum
   * over all elements: grouping loses nothing and counts nothing twice.
   */
  lemma {:induction false} GroupSumTotal<T, K>(ks: seq<K>, s: seq<T>, key: T -> K, val: T -> int)
    requires DistinctKeys(ks)
    requires forall i :: 0 <= i < |s| ==> key(s[i]) in ks
    ensures SumOver(ks, GroupSum(s, key, val)) == Total(s, val)
  {
    if s == [] {
      SumOverEmpty(ks);
    } else {
      var rest, k := GroupSum(s[1..], key, val), key(s[0]);
      GroupSumTotal(ks, s[1..], key, val);
      SumOverAdd(ks, rest, k, val(s[0]));
    }
  }


  /**
   * The first key of `order` that is in `g` with the largest value of `g`: every key
   * of `g` listed in `order` has a value at most the result's, and every one listed
   * before the result has a strictly smaller value.
   */
  function FirstMax<K(==,!new)>(order: seq<K>, g: map<K, int>): (r: Option<K>)
    requires DistinctKeys(order)
    ensures r.None? <==> forall i :: 0 <= i < |order| ==> order[i] !in g
    ensures r.Some? ==> r.value in g && r.value in order
    ensures r.Some? ==> forall k :: k in order && k in g ==> g[k] <= g[r.value]
    ensures r.Some? ==> forall i, j :: 0 <= i < j < |order| && order[j] == r.value && order[i] in g
                                       ==> g[order[i]] < g[r.value]
  {
    if order == [] then None
    else
      assert forall i :: 0 < i < |order| ==> order[i] == order[1..][i - 1];
      var rest := FirstMax(order[1..], g);
      var k := order[0];
      assert forall x :: x in order <==> x == k || x in order[1..];
      if k in g && (rest.None? || g[k] >= g[rest.value]) then Some(k) else rest
  }
}
