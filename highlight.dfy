/** The bar-colour rule of the time-analysis charts: the largest group total
    is drawn green, the smallest red, every other one light gray. */
module Highlight {

  datatype Colour = Green | Red | LightGray

  /** Entry `i` is a largest value of `vs`. */
  predicate IsGreatest(vs: seq<int>, i: nat)
    requires i < |vs|
  {
    forall j :: 0 <= j < |vs| ==> vs[j] <= vs[i]
  }

  /** Entry `i` is a smallest value of `vs`. */
  predicate IsLeast(vs: seq<int>, i: nat)
    requires i < |vs|
  {
    forall j :: 0 <= j < |vs| ==> vs[i] <= vs[j]
  }

  /** `series.max()` of a non-empty column. */
  function Max(vs: seq<int>): (m: int)
    requires |vs| > 0
    ensures m in vs
    ensures forall j :: 0 <= j < |vs| ==> vs[j] <= m
  {
    if |vs| == 1 then vs[0]
    else
      var rest := Max(vs[1..]);
      assert forall j :: 1 <= j < |vs| ==> vs[j] == vs[1..][j - 1];
      if vs[0] >= rest then vs[0] else rest
  }

  /** `series.min()` of a non-empty column. */
  function Min(vs: seq<int>): (m: int)
    requires |vs| > 0
    ensures m in vs
    ensures forall j :: 0 <= j < |vs| ==> m <= vs[j]
  {
    if |vs| == 1 then vs[0]
    else
      var rest := Min(vs[1..]);
      assert forall j :: 1 <= j < |vs| ==> vs[j] == vs[1..][j - 1];
      if vs[0] <= rest then vs[0] else rest
  }

  /** The colour list built beside a grouped chart: one colour per group
      total, in the groups' order; green for a total equal to the maximum,
      otherwise red for one equal to the minimum, otherwise light gray. An
      empty column gives an empty list. */
  function Colours(vs: seq<int>): (cs: seq<Colour>)
    ensures |cs| == |vs|
    ensures forall i :: 0 <= i < |vs| ==> (cs[i] == Green <==> IsGreatest(vs, i))
    ensures forall i :: 0 <= i < |vs| ==> (cs[i] == Red <==> IsLeast(vs, i) && !IsGreatest(vs, i))
    ensures forall i :: 0 <= i < |vs| ==> (cs[i] == LightGray <==> !IsLeast(vs, i) && !IsGreatest(vs, i))
  {
    if vs == [] then []
    else
      var hi := Max(vs);
      var lo := Min(vs);
      seq(|vs|, i requires 0 <= i < |vs| =>
        if vs[i] == hi then Green else if vs[i] == lo then Red else LightGray)
  }

  /** A chart with a single group draws it green. */
  lemma SingleGroupIsGreen(vs: seq<int>)
    requires |vs| == 1
    ensures Colours(vs) == [Green]
  {
  }

  /** When every total is the same, every bar is green: the maximum test
      comes first, so red never appears. */
  lemma UniformTotalsAreGreen(vs: seq<int>)
    requires forall i, j :: 0 <= i < |vs| && 0 <= j < |vs| ==> vs[i] == vs[j]
    ensures forall i :: 0 <= i < |vs| ==> Colours(vs)[i] == Green
  {
  }

  /** Every non-empty chart has a green bar. */
  lemma SomeBarIsGreen(vs: seq<int>)
    requires |vs| > 0
    ensures Green in Colours(vs)
  {
    var hi := Max(vs);
    var i :| 0 <= i < |vs| && vs[i] == hi;
    assert IsGreatest(vs, i);
    assert Colours(vs)[i] == Green;
  }

  /** A chart whose totals are not all equal has a red bar. */
  lemma SomeBarIsRed(vs: seq<int>, a: nat, b: nat)
    requires a < |vs| && b < |vs| && vs[a] != vs[b]
    ensures Red in Colours(vs)
  {
    var lo := Min(vs);
    var i :| 0 <= i < |vs| && vs[i] == lo;
    assert IsLeast(vs, i);
    assert vs[i] < vs[a] || vs[i] < vs[b];
    assert !IsGreatest(vs, i);
    assert Colours(vs)[i] == Red;
  }
}
