/**
 * The fallback estimate, `calculate_monthly_mean` (flask/app.py, lines
 * 58-71): the mean of a series' per-calendar-month totals.
 */
module Fallback {
  import opened Dates
  import opened Grouping
  import opened Series

  /** The series keyed by calendar month, `ds.dt.to_period('M')`. */
  function MonthRows(s: seq<Point>): seq<((int, int), real)>
  {
    if |s| == 0 then [] else [(MonthOf(s[0].date), s[0].amount)] + MonthRows(s[1..])
  }

  /** `groupby('month')['y'].sum()`: one total per calendar month present. */
  function MonthlyTotals(s: seq<Point>): seq<((int, int), real)>
  {
    GroupSum(MonthRows(s))
  }

  /** Sum of the amounts of the points of `s` dated in month `ym`. */
  function MonthSum(s: seq<Point>, ym: (int, int)): real
  {
    if |s| == 0 then 0.0
    else (if MonthOf(s[0].date) == ym then s[0].amount else 0.0) + MonthSum(s[1..], ym)
  }

  /** The calendar months the series touches. */
  function Months(s: seq<Point>): set<(int, int)>
  {
    if |s| == 0 then {} else {MonthOf(s[0].date)} + Months(s[1..])
  }

  lemma {:induction false} MonthRowsFacts(s: seq<Point>)
    ensures Total(MonthRows(s)) == SeriesTotal(s)
    ensures forall ym :: SumWhere(MonthRows(s), ym) == MonthSum(s, ym)
    ensures Keys(MonthRows(s)) == Months(s)
  {
    if |s| > 0 {
      MonthRowsFacts(s[1..]);
      assert MonthRows(s)[1..] == MonthRows(s[1..]);
    }
  }

  /**
   * One row per calendar month of the series, no month twice, each carrying
   * the sum of that month's amounts; the month totals add up to the series.
   */
  lemma {:induction false} MonthlyTotalsSpec(s: seq<Point>)
    ensures forall i, j :: 0 <= i < j < |MonthlyTotals(s)| ==> MonthlyTotals(s)[i].0 != MonthlyTotals(s)[j].0
    ensures forall i :: 0 <= i < |MonthlyTotals(s)| ==> MonthlyTotals(s)[i].1 == MonthSum(s, MonthlyTotals(s)[i].0)
    ensures Keys(MonthlyTotals(s)) == Months(s)
    ensures Total(MonthlyTotals(s)) == SeriesTotal(s)
  {
    MonthRowsFacts(s);
    GroupSumRows(MonthRows(s));
  }

  /** The mean of the monthly totals; the series is never empty here. */
  function MonthlyMean(s: seq<Point>): real
    requires |s| > 0
  {
    var g := MonthlyTotals(s);
    MonthRowsFacts(s);
    Total(g) / |g| as real
  }

  /** The estimate times the number of months present is the series' total. */
  lemma {:induction false} MonthlyMeanTimesMonths(s: seq<Point>)
    requires |s| > 0
    ensures |MonthlyTotals(s)| > 0
    ensures MonthlyMean(s) * |MonthlyTotals(s)| as real == SeriesTotal(s)
  {
    MonthRowsFacts(s);
  }

  /** The estimate lies between the smallest and the largest monthly total. */
  lemma {:induction false} MonthlyMeanBetween(s: seq<Point>)
    requires |s| > 0
    ensures |MonthlyTotals(s)| > 0
    ensures MinAmount(MonthlyTotals(s)) <= MonthlyMean(s) <= MaxAmount(MonthlyTotals(s))
  {
    MonthRowsFacts(s);
    MeanBetween(MonthlyTotals(s));
  }

  lemma {:induction false} SameMonth(s: seq<Point>)
    requires |s| > 0
    requires forall i :: 0 <= i < |s| ==> MonthOf(s[i].date) == MonthOf(s[0].date)
    ensures Months(s) == {MonthOf(s[0].date)}
  {
    if |s| > 1 {
      assert forall i :: 0 <= i < |s[1..]| ==> s[1..][i] == s[i + 1];
      SameMonth(s[1..]);
    }
  }

  /** A series confined to one calendar month is estimated at that month's total. */
  lemma {:induction false} SingleMonthMean(s: seq<Point>)
    requires |s| > 0
    requires forall i :: 0 <= i < |s| ==> MonthOf(s[i].date) == MonthOf(s[0].date)
    ensures MonthlyMean(s) == SeriesTotal(s)
  {
    var g := MonthlyTotals(s);
    MonthlyTotalsSpec(s);
    SameMonth(s);
    DistinctKeysCount(g);
    assert |g| == 1;
  }
}
