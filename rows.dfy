/** Generic operations on an ordered table of rows: boolean-mask selection
    (`table[mask]` in a dataframe), column sums and the subsequence relation
    that says a selection only drops rows. */
module Rows {

  /** `a` is an order-preserving subsequence of `b`: `a` is `b` with some
      elements dropped and none added, changed or reordered. */
  predicate IsSubsequence<T(==)>(a: seq<T>, b: seq<T>)
    decreases |b|
  {
    if a == [] then true
    else if b == [] then false
    else (a[0] == b[0] && IsSubsequence(a[1..], b[1..])) || IsSubsequence(a, b[1..])
  }

  /** A subsequence is no longer than its host and holds no element,
      counted with multiplicity, that the host does not hold. */
  lemma {:induction false} SubsequenceBounds<T>(a: seq<T>, b: seq<T>)
    requires IsSubsequence(a, b)
    ensures |a| <= |b|
    ensures multiset(a) <= multiset(b)
  {
    if a != [] {
      assert b != [];
      assert b == [b[0]] + b[1..];
      if a[0] == b[0] && IsSubsequence(a[1..], b[1..]) {
        SubsequenceBounds(a[1..], b[1..]);
        assert a == [a[0]] + a[1..];
      } else {
        SubsequenceBounds(a, b[1..]);
      }
    }
  }

  /** The rows of `s` for which `keep` holds, in their original order. */
  function Where<T(==,!new)>(s: seq<T>, keep: T -> bool): (r: seq<T>)
    ensures |r| <= |s|
    ensures forall x :: x in r ==> x in s && keep(x)
    ensures forall x :: x in s && keep(x) ==> x in r
    ensures IsSubsequence(r, s)
  {
    if s == [] then []
    else if keep(s[0]) then [s[0]] + Where(s[1..], keep)
    else Where(s[1..], keep)
  }

  /** Selection keeps every copy of a row the mask holds for, and no copy of
      any other row: with `IsSubsequence`, this fixes the selection exactly. */
  lemma {:induction false} WhereCounts<T(!new)>(s: seq<T>, keep: T -> bool)
    ensures forall x :: multiset(Where(s, keep))[x] == if keep(x) then multiset(s)[x] else 0
  {
    if s != [] {
      WhereCounts(s[1..], keep);
      assert s == [s[0]] + s[1..];
    }
  }

  /** A mask that holds for every row selects the whole table. */
  lemma {:induction false} WhereAll<T(!new)>(s: seq<T>, keep: T -> bool)
    requires forall x :: x in s ==> keep(x)
    ensures Where(s, keep) == s
  {
    if s != [] {
      WhereAll(s[1..], keep);
    }
  }

  /** Two masks that agree on every row of the table select the same rows. */
  lemma {:induction false} WhereAgree<T(!new)>(s: seq<T>, p: T -> bool, q: T -> bool)
    requires forall x :: x in s ==> p(x) == q(x)
    ensures Where(s, p) == Where(s, q)
  {
    if s != [] {
      WhereAgree(s[1..], p, q);
    }
  }

  /** Selecting by `p` and then by `q` is selecting once by `p && q`. */
  lemma {:induction false} WhereWhere<T(!new)>(s: seq<T>, p: T -> bool, q: T -> bool, both: T -> bool)
    requires forall x :: x in s ==> both(x) == (p(x) && q(x))
    ensures Where(Where(s, p), q) == Where(s, both)
  {
    if s != [] {
      WhereWhere(s[1..], p, q, both);
      if p(s[0]) {
        assert Where(s, p) == [s[0]] + Where(s[1..], p);
        assert Where(s, p)[0] == s[0] && Where(s, p)[1..] == Where(s[1..], p);
      }
    }
  }

  /** Selection distributes over concatenation of tables. */
  lemma {:induction false} WhereConcat<T(!new)>(a: seq<T>, b: seq<T>, keep: T -> bool)
    ensures Where(a + b, keep) == Where(a, keep) + Where(b, keep)
  {
    if a == [] {
      assert a + b == b;
    } else {
      assert (a + b)[0] == a[0] && (a + b)[1..] == a[1..] + b;
      WhereConcat(a[1..], b, keep);
    }
  }

  /** The sum of `measure` over the rows of `s` (`table[column].sum()`);
      0 for a table with no rows. */
  function Sum<T>(s: seq<T>, measure: T -> int): int
  {
    if s == [] then 0 else measure(s[0]) + Sum(s[1..], measure)
  }

  /** A column sum over two tables put together is the sum of the two sums. */
  lemma {:induction false} SumConcat<T>(a: seq<T>, b: seq<T>, measure: T -> int)
    ensures Sum(a + b, measure) == Sum(a, measure) + Sum(b, measure)
  {
    if a == [] {
      assert a + b == b;
    } else {
      assert (a + b)[0] == a[0] && (a + b)[1..] == a[1..] + b;
      SumConcat(a[1..], b, measure);
    }
  }

  /** A column of non-negative values has a non-negative sum. */
  lemma {:induction false} SumNonNegative<T>(s: seq<T>, measure: T -> int)
    requires forall x :: x in s ==> measure(x) >= 0
    ensures Sum(s, measure) >= 0
  {
    if s != [] {
      SumNonNegative(s[1..], measure);
    }
  }

  /** Summing a column that is 1 on every row counts the rows. */
  lemma {:induction false} SumOfOnes<T>(s: seq<T>, measure: T -> int)
    requires forall x :: x in s ==> measure(x) == 1
    ensures Sum(s, measure) == |s|
  {
    if s != [] {
      SumOfOnes(s[1..], measure);
    }
  }
}
