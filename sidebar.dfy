/** The sidebar filter pane: the user's selections and the step-by-step
    narrowing of the sales table that every filtered view starts from. */
module Sidebar {
  import opened Rows
  import opened Sales

  /** The value of a single-select box whose first option is the placeholder
      'Select' and whose other options are the values of a column. */
  datatype Choice<T> = Placeholder | Chosen(value: T)

  /** The placeholder option of the quarter and season boxes, compared as a
      string against their selected value. */
  const PLACEHOLDER: string := "Select"

  /** Everything the sidebar collects. Year, quarter and season are single
      selects; month, day, category and size are multi-selects, where an
      empty list means nothing was picked. */
  datatype Selection = Selection(
    year: Choice<int>,
    months: seq<string>,
    quarter: string,
    days: seq<string>,
    season: string,
    categories: seq<string>,
    sizes: seq<string>)

  /** The sidebar as it first appears: every box on its placeholder, every
      multi-select empty. */
  predicate NothingSelected(c: Selection)
  {
    c.year == Placeholder && c.months == [] && c.quarter == PLACEHOLDER &&
    c.days == [] && c.season == PLACEHOLDER
  }

  // One predicate per guarded filter step: a row passes a step that is
  // switched off, and otherwise passes when it matches the selection.
  predicate YearPasses(c: Selection, r: Record)
  {
    c.year.Placeholder? || r.year == c.year.value
  }

  predicate MonthPasses(c: Selection, r: Record)
  {
    c.months == [] || r.month in c.months
  }

  predicate QuarterPasses(c: Selection, r: Record)
  {
    c.quarter == PLACEHOLDER || r.quarter == c.quarter
  }

  predicate DayPasses(c: Selection, r: Record)
  {
    c.days == [] || r.day in c.days
  }

  predicate SeasonPasses(c: Selection, r: Record)
  {
    c.season == PLACEHOLDER || r.season == c.season
  }

  /** A row meets the whole selection when it passes every step. Category
      and size take no part. */
  predicate Matches(c: Selection, r: Record)
  {
    PassesUpToDay(c, r) && SeasonPasses(c, r)
  }

  // The rows that survive the first two, three and four steps.
  predicate PassesUpToMonth(c: Selection, r: Record)
  {
    YearPasses(c, r) && MonthPasses(c, r)
  }

  predicate PassesUpToQuarter(c: Selection, r: Record)
  {
    PassesUpToMonth(c, r) && QuarterPasses(c, r)
  }

  predicate PassesUpToDay(c: Selection, r: Record)
  {
    PassesUpToQuarter(c, r) && DayPasses(c, r)
  }

  /** The filtered table, specified in one step: the rows of `df` that meet
      the selection, in table order, each kept as often as it occurs. */
  function Filtered(df: seq<Record>, c: Selection): (r: seq<Record>)
    ensures IsSubsequence(r, df)
    ensures forall x :: x in r ==> x in df && Matches(c, x)
    ensures forall x :: x in df && Matches(c, x) ==> x in r
    ensures forall x :: multiset(r)[x] == if Matches(c, x) then multiset(df)[x] else 0
  {
    WhereCounts(df, (x: Record) => Matches(c, x));
    Where(df, (x: Record) => Matches(c, x))
  }

  /** The sidebar's filter pipeline: start from a copy of the table and
      narrow it under five guards, one criterion at a time. The result is
      the one-step selection by the conjunction of the active criteria. */
  method ApplySidebarFilters(df: seq<Record>, c: Selection) returns (filtered: seq<Record>)
    ensures filtered == Filtered(df, c)
  {
    filtered := df;

    if c.year != Placeholder {
      var year := c.year.value;
      var byYear := (r: Record) => r.year == year;
      filtered := Where(filtered, byYear);
      WhereAgree(df, byYear, (r: Record) => YearPasses(c, r));
    } else {
      WhereAll(df, (r: Record) => YearPasses(c, r));
    }

    if c.months != [] {
      var byMonth := (r: Record) => r.month in c.months;
      filtered := Where(filtered, byMonth);
      WhereWhere(df, (r: Record) => YearPasses(c, r), byMonth, (r: Record) => PassesUpToMonth(c, r));
    } else {
      WhereAgree(df, (r: Record) => YearPasses(c, r), (r: Record) => PassesUpToMonth(c, r));
    }

    if c.quarter != PLACEHOLDER {
      var byQuarter := (r: Record) => r.quarter == c.quarter;
      filtered := Where(filtered, byQuarter);
      WhereWhere(df, (r: Record) => PassesUpToMonth(c, r), byQuarter, (r: Record) => PassesUpToQuarter(c, r));
    } else {
      WhereAgree(df, (r: Record) => PassesUpToMonth(c, r), (r: Record) => PassesUpToQuarter(c, r));
    }

    if c.days != [] {
      var byDay := (r: Record) => r.day in c.days;
      filtered := Where(filtered, byDay);
      WhereWhere(df, (r: Record) => PassesUpToQuarter(c, r), byDay, (r: Record) => PassesUpToDay(c, r));
    } else {
      WhereAgree(df, (r: Record) => PassesUpToQuarter(c, r), (r: Record) => PassesUpToDay(c, r));
    }

    if c.season != PLACEHOLDER {
      var bySeason := (r: Record) => r.season == c.season;
      filtered := Where(filtered, bySeason);
      WhereWhere(df, (r: Record) => PassesUpToDay(c, r), bySeason, (r: Record) => Matches(c, r));
    } else {
      WhereAgree(df, (r: Record) => PassesUpToDay(c, r), (r: Record) => Matches(c, r));
    }
  }

  /** With every box on its placeholder and every multi-select empty, the
      filtered table is the whole table. */
  lemma NothingSelectedKeepsAll(df: seq<Record>, c: Selection)
    requires NothingSelected(c)
    ensures Filtered(df, c) == df
  {
    WhereAll(df, (x: Record) => Matches(c, x));
  }

  /** Every kept row satisfies each active criterion: year, quarter and
      season equal the selection, month and day are among the picked ones;
      and every row that satisfies them all is kept. */
  lemma FilteredRowsMeetSelection(df: seq<Record>, c: Selection, x: Record)
    ensures x in Filtered(df, c) <==>
      x in df &&
      (c.year.Chosen? ==> x.year == c.year.value) &&
      (c.months != [] ==> x.month in c.months) &&
      (c.quarter != PLACEHOLDER ==> x.quarter == c.quarter) &&
      (c.days != [] ==> x.day in c.days) &&
      (c.season != PLACEHOLDER ==> x.season == c.season)
  {
  }

  /** Filtering only drops rows: the result is no longer than the table and
      holds no row, counted with multiplicity, that the table lacks. */
  lemma FilteringOnlyDrops(df: seq<Record>, c: Selection)
    ensures |Filtered(df, c)| <= |df|
    ensures multiset(Filtered(df, c)) <= multiset(df)
  {
    SubsequenceBounds(Filtered(df, c), df);
  }

  /** The category and size selections are collected but never applied:
      whatever they hold, the filtered table is the same. */
  lemma CategoryAndSizeIgnored(df: seq<Record>, c: Selection, categories: seq<string>, sizes: seq<string>)
    ensures Filtered(df, c.(categories := categories, sizes := sizes)) == Filtered(df, c)
  {
    var c' := c.(categories := categories, sizes := sizes);
    var p := (x: Record) => Matches(c', x);
    var q := (x: Record) => Matches(c, x);
    WhereAgree(df, p, q);
    assert Filtered(df, c') == Where(df, p) && Filtered(df, c) == Where(df, q);
  }
}
