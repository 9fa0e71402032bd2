/** Group-by aggregation over the sales table: `groupby(key)[measure].sum()`,
    `value_counts()`, `sort_values(ascending=False)` and `head(n)`. A grouped
    result is a sequence of (key, total) pairs, one per group. */
module Aggregation {
  import opened Rows

  /** The group keys of a grouped result. */
  function KeysOf<K>(g: seq<(K, int)>): set<K>
  {
    set e | e in g :: e.0
  }

  /** No key appears in two entries. */
  predicate DistinctKeys<K(==)>(g: seq<(K, int)>)
  {
    forall i, j :: 0 <= i < j < |g| ==> g[i].0 != g[j].0
  }

  /** The total held for key `k`, or 0 when `k` has no entry. */
  function Lookup<K(==)>(g: seq<(K, int)>, k: K): int
  {
    if g == [] then 0 else if g[0].0 == k then g[0].1 else Lookup(g[1..], k)
  }

  /** The sum of the totals of a grouped result (its value column). */
  function Total<K>(g: seq<(K, int)>): int
  {
    if g == [] then 0 else g[0].1 + Total(g[1..])
  }

  /** The value column of a grouped result, in entry order. */
  function Values<K>(g: seq<(K, int)>): (vs: seq<int>)
    ensures |vs| == |g|
    ensures forall i :: 0 <= i < |g| ==> vs[i] == g[i].1
  {
    seq(|g|, i requires 0 <= i < |g| => g[i].1)
  }

  /** The rows of `s` whose key is `k`, in table order. */
  function RowsWithKey<T(==,!new), K(==)>(s: seq<T>, key: T -> K, k: K): seq<T>
  {
    Where(s, (x: T) => key(x) == k)
  }

  lemma KeysOfCons<K>(e: (K, int), g: seq<(K, int)>)
    ensures KeysOf([e] + g) == {e.0} + KeysOf(g)
  {
  }

  /** A result with an entry in front has distinct keys exactly when the
      rest has and the front key is not among the rest's keys. */
  lemma DistinctCons<K>(e: (K, int), g: seq<(K, int)>)
    ensures DistinctKeys([e] + g) <==> DistinctKeys(g) && e.0 !in KeysOf(g)
  {
    var h := [e] + g;
    assert forall i :: 0 <= i < |g| ==> h[i + 1] == g[i];
    if DistinctKeys(h) {
      forall i, j | 0 <= i < j < |g| ensures g[i].0 != g[j].0 {
        assert h[i + 1].0 != h[j + 1].0;
      }
      forall x | x in g ensures x.0 != e.0 {
        var j :| 0 <= j < |g| && g[j] == x;
        assert h[0].0 != h[j + 1].0;
      }
    }
    if DistinctKeys(g) && e.0 !in KeysOf(g) {
      forall i, j | 0 <= i < j < |h| ensures h[i].0 != h[j].0 {
        if i == 0 {
          assert h[j] == g[j - 1] && h[j] in g;
        } else {
          assert h[i] == g[i - 1] && h[j] == g[j - 1];
        }
      }
    }
  }

  /** In a result with distinct keys, every entry holds the total that
      Lookup finds for its key. */
  lemma {:induction false} LookupAt<K>(g: seq<(K, int)>, i: nat)
    requires DistinctKeys(g) && i < |g|
    ensures Lookup(g, g[i].0) == g[i].1
  {
    if i > 0 {
      assert g[0].0 != g[i].0;
      assert g[1..][i - 1] == g[i];
      LookupAt(g[1..], i - 1);
    }
  }

  /** Adds the measure `v` of one row with key `k` to a grouped result: the
      entry for `k` grows by `v`, or a new entry `(k, v)` is appended. */
  function Accumulate<K(==,!new)>(g: seq<(K, int)>, k: K, v: int): (r: seq<(K, int)>)
    ensures Total(r) == Total(g) + v
    ensures forall k' :: Lookup(r, k') == Lookup(g, k') + (if k' == k then v else 0)
  {
    if g == [] then [(k, v)]
    else if g[0].0 == k then [(k, g[0].1 + v)] + g[1..]
    else [g[0]] + Accumulate(g[1..], k, v)
  }

  /** Accumulating a row adds its key to the keys, and keeps them distinct. */
  lemma {:induction false} AccumulateKeys<K(!new)>(g: seq<(K, int)>, k: K, v: int)
    ensures KeysOf(Accumulate(g, k, v)) == KeysOf(g) + {k}
    ensures DistinctKeys(g) ==> DistinctKeys(Accumulate(g, k, v))
  {
    if g == [] {
      KeysOfCons((k, v), g);
      DistinctCons((k, v), g);
    } else {
      assert g == [g[0]] + g[1..];
      KeysOfCons(g[0], g[1..]);
      DistinctCons(g[0], g[1..]);
      if g[0].0 == k {
        KeysOfCons((k, g[0].1 + v), g[1..]);
        DistinctCons((k, g[0].1 + v), g[1..]);
      } else {
        var rest := Accumulate(g[1..], k, v);
        AccumulateKeys(g[1..], k, v);
        KeysOfCons(g[0], rest);
        DistinctCons(g[0], rest);
      }
    }
  }

  /** `groupby(key)[measure].sum()`: one entry per distinct key present in
      the table, listed in the order the keys first appear; each entry holds
      the sum of the measure over the rows with its key. */
  function GroupSum<T(==,!new), K(==,!new)>(s: seq<T>, key: T -> K, measure: T -> int): (g: seq<(K, int)>)
    ensures DistinctKeys(g)
    ensures KeysOf(g) == set x | x in s :: key(x)
    ensures forall k :: Lookup(g, k) == Sum(RowsWithKey(s, key, k), measure)
    ensures Total(g) == Sum(s, measure)
    decreases |s|
  {
    if s == [] then []
    else
      var init := s[..|s| - 1];
      var last := s[|s| - 1];
      var g0 := GroupSum(init, key, measure);
      assert s == init + [last];
      assert forall k :: Sum(RowsWithKey(s, key, k), measure)
                         == Sum(RowsWithKey(init, key, k), measure)
                            + (if key(last) == k then measure(last) else 0) by {
        forall k ensures Sum(RowsWithKey(s, key, k), measure)
                      == Sum(RowsWithKey(init, key, k), measure)
                         + (if key(last) == k then measure(last) else 0)
        {
          var sel := (x: T) => key(x) == k;
          WhereConcat(init, [last], sel);
          SumConcat(Where(init, sel), Where([last], sel), measure);
        }
      }
      SumConcat(init, [last], measure);
      AccumulateKeys(g0, key(last), measure(last));
      assert (set x | x in s :: key(x)) == (set x | x in init :: key(x)) + {key(last)};
      Accumulate(g0, key(last), measure(last))
  }

  /** Every entry of a group-by-sum holds the sum of the measure over the
      rows with that entry's key, and a key has an entry exactly when some
      row carries it. */
  lemma GroupSumEntries<T(!new), K(!new)>(s: seq<T>, key: T -> K, measure: T -> int)
    ensures forall i :: 0 <= i < |GroupSum(s, key, measure)| ==>
      GroupSum(s, key, measure)[i].1 == Sum(RowsWithKey(s, key, GroupSum(s, key, measure)[i].0), measure)
    ensures forall k :: k in KeysOf(GroupSum(s, key, measure)) <==> exists x :: x in s && key(x) == k
  {
    var g := GroupSum(s, key, measure);
    forall i | 0 <= i < |g|
      ensures g[i].1 == Sum(RowsWithKey(s, key, g[i].0), measure)
    {
      LookupAt(g, i);
    }
  }

  /** `value_counts()`: grouping with a measure of one per row holds, for
      every key, the number of rows with that key. */
  lemma {:induction false} CountsAreRowCounts<T(!new), K(!new)>(s: seq<T>, key: T -> K, one: T -> int, k: K)
    requires forall x :: one(x) == 1
    ensures Lookup(GroupSum(s, key, one), k) == |RowsWithKey(s, key, k)|
  {
    SumOfOnes(RowsWithKey(s, key, k), one);
  }

  /** The keys of a group-by-sum, and their order, depend only on the table
      and the key: two measures grouped by the same key give entries that
      line up one for one. */
  lemma {:induction false} SameKeyOrder<T(!new), K(!new)>(s: seq<T>, key: T -> K, m1: T -> int, m2: T -> int)
    ensures |GroupSum(s, key, m1)| == |GroupSum(s, key, m2)|
    ensures forall i :: 0 <= i < |GroupSum(s, key, m1)| ==>
      GroupSum(s, key, m1)[i].0 == GroupSum(s, key, m2)[i].0
    decreases |s|
  {
    if s != [] {
      var init := s[..|s| - 1];
      var last := s[|s| - 1];
      SameKeyOrder(init, key, m1, m2);
      AccumulateKeyOrder(GroupSum(init, key, m1), GroupSum(init, key, m2), key(last), m1(last), m2(last));
    }
  }

  /** Accumulating one row into two results whose keys line up keeps them
      lined up. */
  lemma {:induction false} AccumulateKeyOrder<K(!new)>(g1: seq<(K, int)>, g2: seq<(K, int)>, k: K, v1: int, v2: int)
    requires |g1| == |g2| && forall i :: 0 <= i < |g1| ==> g1[i].0 == g2[i].0
    ensures |Accumulate(g1, k, v1)| == |Accumulate(g2, k, v2)|
    ensures forall i :: 0 <= i < |Accumulate(g1, k, v1)| ==>
      Accumulate(g1, k, v1)[i].0 == Accumulate(g2, k, v2)[i].0
  {
    if g1 != [] && g1[0].0 != k {
      AccumulateKeyOrder(g1[1..], g2[1..], k, v1, v2);
    }
  }

  /** Totals never increase along the result. */
  predicate NonIncreasing<K>(g: seq<(K, int)>)
  {
    forall i, j :: 0 <= i < j < |g| ==> g[i].1 >= g[j].1
  }

  /** A result with an entry in front is ordered exactly when the rest is
      and no total in the rest exceeds the front one. */
  lemma NonIncreasingCons<K>(e: (K, int), g: seq<(K, int)>)
    ensures NonIncreasing([e] + g) <==> NonIncreasing(g) && forall x :: x in g ==> x.1 <= e.1
  {
    var h := [e] + g;
    assert forall i :: 0 <= i < |g| ==> h[i + 1] == g[i];
    if NonIncreasing(h) {
      forall i, j | 0 <= i < j < |g| ensures g[i].1 >= g[j].1 {
        assert h[i + 1].1 >= h[j + 1].1;
      }
      forall x | x in g ensures x.1 <= e.1 {
        var j :| 0 <= j < |g| && g[j] == x;
        assert h[0].1 >= h[j + 1].1;
      }
    }
    if NonIncreasing(g) && forall x :: x in g ==> x.1 <= e.1 {
      forall i, j | 0 <= i < j < |h| ensures h[i].1 >= h[j].1 {
        if i == 0 {
          assert h[j] == g[j - 1] && h[j] in g;
        } else {
          assert h[i] == g[i - 1] && h[j] == g[j - 1];
        }
      }
    }
  }

  /** Places `e` into a result ordered by decreasing total, ahead of the
      first entry whose total does not exceed its own. */
  function Insert<K(==)>(e: (K, int), g: seq<(K, int)>): (r: seq<(K, int)>)
    ensures |r| == |g| + 1
    ensures multiset(r) == multiset(g) + multiset{e}
  {
    if g == [] || g[0].1 <= e.1 then [e] + g
    else
      assert g == [g[0]] + g[1..];
      [g[0]] + Insert(e, g[1..])
  }

  /** Inserting into an ordered result keeps it ordered. */
  lemma {:induction false} InsertOrdered<K>(e: (K, int), g: seq<(K, int)>)
    requires NonIncreasing(g)
    ensures NonIncreasing(Insert(e, g))
  {
    if g == [] || g[0].1 <= e.1 {
      forall x | x in g ensures x.1 <= e.1 {
        var j :| 0 <= j < |g| && g[j] == x;
      }
      NonIncreasingCons(e, g);
    } else {
      assert g == [g[0]] + g[1..];
      NonIncreasingCons(g[0], g[1..]);
      InsertOrdered(e, g[1..]);
      var rest := Insert(e, g[1..]);
      forall x | x in rest ensures x.1 <= g[0].1 {
        assert x in multiset(rest);
        assert x == e || x in multiset(g[1..]);
      }
      NonIncreasingCons(g[0], rest);
    }
  }

  /** Inserting adds the entry's key to the keys, and keeps them distinct
      when the key is new. */
  lemma {:induction false} InsertKeys<K>(e: (K, int), g: seq<(K, int)>)
    ensures KeysOf(Insert(e, g)) == KeysOf(g) + {e.0}
    ensures DistinctKeys(g) && e.0 !in KeysOf(g) ==> DistinctKeys(Insert(e, g))
  {
    if g == [] || g[0].1 <= e.1 {
      KeysOfCons(e, g);
      DistinctCons(e, g);
    } else {
      assert g == [g[0]] + g[1..];
      var rest := Insert(e, g[1..]);
      InsertKeys(e, g[1..]);
      KeysOfCons(g[0], g[1..]);
      KeysOfCons(g[0], rest);
      DistinctCons(g[0], g[1..]);
      DistinctCons(g[0], rest);
    }
  }

  /** `sort_values(ascending=False)`: the same entries, by decreasing total.
      Ties are in no promised order. */
  function SortDesc<K(==)>(g: seq<(K, int)>): (r: seq<(K, int)>)
    ensures |r| == |g|
    ensures multiset(r) == multiset(g)
    ensures NonIncreasing(r)
    ensures KeysOf(r) == KeysOf(g)
    ensures DistinctKeys(g) ==> DistinctKeys(r)
  {
    if g == [] then []
    else
      assert g == [g[0]] + g[1..];
      var rest := SortDesc(g[1..]);
      InsertOrdered(g[0], rest);
      InsertKeys(g[0], rest);
      KeysOfCons(g[0], g[1..]);
      DistinctCons(g[0], g[1..]);
      Insert(g[0], rest)
  }

  /** A prefix of a result with distinct keys has distinct keys. */
  lemma DistinctPrefix<K>(g: seq<(K, int)>, m: nat)
    requires m <= |g| && DistinctKeys(g)
    ensures DistinctKeys(g[..m])
  {
  }

  /** A prefix of an ordered result is ordered. */
  lemma NonIncreasingPrefix<K>(g: seq<(K, int)>, m: nat)
    requires m <= |g| && NonIncreasing(g)
    ensures NonIncreasing(g[..m])
  {
  }

  /** `r` holds `n` entries of `g` (all of them when `g` has fewer), by
      decreasing total, and no entry of `g` left out of `r` has a larger
      total than one kept. */
  predicate IsTopN<K(==,!new)>(r: seq<(K, int)>, g: seq<(K, int)>, n: nat)
  {
    && |r| == (if |g| <= n then |g| else n)
    && NonIncreasing(r)
    && multiset(r) <= multiset(g)
    && (|g| <= n ==> multiset(r) == multiset(g))
    && forall x, y :: x in r && y in g && y !in r ==> y.1 <= x.1
  }

  /** The first `m` entries of a sorted permutation of `g` are a top-`m`
      view of `g`: nothing left out has a larger total than something kept. */
  lemma {:induction false} SortedPrefixIsTop<K(!new)>(g: seq<(K, int)>, sorted: seq<(K, int)>, m: nat)
    requires multiset(sorted) == multiset(g) && NonIncreasing(sorted) && m <= |sorted|
    ensures forall x, y :: x in sorted[..m] && y in g && y !in sorted[..m] ==> y.1 <= x.1
  {
    var r := sorted[..m];
    assert forall j :: 0 <= j < m ==> r[j] == sorted[j];
    forall x, y | x in r && y in g && y !in r ensures y.1 <= x.1 {
      var i :| 0 <= i < m && r[i] == x;
      assert y in multiset(sorted);
      var j :| 0 <= j < |sorted| && sorted[j] == y;
    }
  }

  /** `sort_values(ascending=False).head(n)`: the n entries with the largest
      totals, by decreasing total, or all of them when there are fewer; no
      entry left out has a larger total than any entry kept. */
  function TopN<K(==,!new)>(g: seq<(K, int)>, n: nat): (r: seq<(K, int)>)
    ensures IsTopN(r, g, n)
    ensures DistinctKeys(g) ==> DistinctKeys(r)
  {
    var sorted := SortDesc(g);
    var m := if |g| <= n then |g| else n;
    assert sorted == sorted[..m] + sorted[m..];
    assert |g| <= n ==> sorted[..m] == sorted;
    NonIncreasingPrefix(sorted, m);
    SortedPrefixIsTop(g, sorted, m);
    assert DistinctKeys(g) ==> DistinctKeys(sorted[..m]) by {
      if DistinctKeys(g) {
        DistinctPrefix(sorted, m);
      }
    }
    sorted[..m]
  }

  /** The number of entries the top-N views keep (`head(10)`). */
  const TOP: nat := 10
}
