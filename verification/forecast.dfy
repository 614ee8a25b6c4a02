/**
 * The per-category decision and the assembly of the result mapping,
 * `predict` (flask/app.py, lines 99-152), with the seasonal forecaster
 * (Prophet) as a parameter.
 */
module Forecast {
  import opened Wrappers
  import opened Dates
  import opened Records
  import opened Grouping
  import opened Series
  import opened Sufficiency
  import opened Fallback

  /** A score strictly above this takes the seasonal path. */
  const Threshold: real := 0.5

  /** Days forecast beyond the history, `make_future_dataframe(periods=30)`. */
  const Horizon: nat := 30

  datatype Path = Seasonal | MonthlyFallback

  /**
   * The seasonal forecaster: fits a model to a series and returns the `yhat`
   * column of its forecast, or `None` when the fit fails. Prophet forecasts
   * the history's dates followed by the horizon's.
   */
  type Forecaster = seq<Point> -> Option<seq<real>>

  /** `if sufficiency_score > 0.5`; an undefined (NaN) score compares false. */
  function Route(score: Option<real>): Path
  {
    if score.Some? && score.value > Threshold then Seasonal else MonthlyFallback
  }

  /** `forecast.tail(30)['yhat'].sum()`: the last (at most) 30 forecast values. */
  function TailSum(yhat: seq<real>): real
  {
    var k := if |yhat| < Horizon then |yhat| else Horizon;
    Sum(yhat[|yhat| - k..])
  }

  /** The prediction for one category's series, `None` when the seasonal fit fails. */
  function ForecastCategory(s: seq<Point>, prophet: Forecaster): Option<real>
    requires |s| > 0
  {
    if Route(Score(s)) == Seasonal then
      match prophet(s)
      case None => None
      case Some(yhat) => Some(TailSum(yhat))
    else
      Some(MonthlyMean(s))
  }

  /** A series of one point is undefined to the score and falls back to its own amount. */
  lemma {:induction false} SinglePointFallsBack(s: seq<Point>, prophet: Forecaster)
    requires |s| == 1
    ensures Score(s).None?
    ensures ForecastCategory(s, prophet) == Some(s[0].amount)
  {
    SingleMonthMean(s);
    assert s[1..] == [];
  }

  /**
   * When the score does not exceed the threshold, the forecaster is never
   * consulted: the prediction is the monthly mean whatever it would return.
   */
  lemma {:induction false} LowScoreIgnoresForecaster(s: seq<Point>, prophet: Forecaster, other: Forecaster)
    requires |s| > 0
    requires Score(s).None? || Score(s).value <= Threshold
    ensures ForecastCategory(s, prophet) == ForecastCategory(s, other) == Some(MonthlyMean(s))
  {
  }

  /**
   * A score strictly above the threshold hands the series to the forecaster:
   * its failure is the category's failure, and otherwise its tail is summed.
   */
  lemma {:induction false} HighScoreUsesForecaster(s: seq<Point>, prophet: Forecaster)
    requires |s| > 0
    ensures Score(s).Some? && Score(s).value > Threshold ==>
      (ForecastCategory(s, prophet).None? <==> prophet(s).None?) &&
      (prophet(s).Some? ==> ForecastCategory(s, prophet) == Some(TailSum(prophet(s).value)))
  {
  }

  /** The seasonal path is only ever taken for at least two distinct dates. */
  lemma {:induction false} SeasonalNeedsTwoPoints(s: seq<Point>)
    ensures Route(Score(s)) == Seasonal ==> |s| >= 2
  {
  }

  /** Thirty or more distinct dates always take the seasonal path. */
  lemma {:induction false} ThirtyDaysGoSeasonal(s: seq<Point>, prophet: Forecaster)
    requires |s| >= 30
    ensures Route(Score(s)) == Seasonal
    ensures ForecastCategory(s, prophet).None? <==> prophet(s).None?
  {
    ThirtyPointsExceedHalf(s);
  }

  /**
   * On the seasonal path, with a forecast covering the history and then the
   * horizon, the prediction is the sum of exactly the horizon's values: the
   * history's fitted values are left out.
   */
  lemma {:induction false} SeasonalSumsHorizonOnly(s: seq<Point>, prophet: Forecaster, yhat: seq<real>)
    requires |s| > 0 && |yhat| == |s| + Horizon
    ensures Route(Score(s)) == Seasonal && prophet(s) == Some(yhat) ==>
      ForecastCategory(s, prophet) == Some(Sum(yhat[|s|..])) &&
      ForecastCategory(s, prophet).value == Sum(yhat) - Sum(yhat[..|s|])
  {
    SumAppend(yhat[..|s|], yhat[|s|..]);
    assert yhat[..|s|] + yhat[|s|..] == yhat;
  }

  /** Three days of 10, 10 and 11, the first and the last a year apart. */
  function BoundarySeries(): seq<Point>
  {
    [Point(Date(2023, 1, 1), 10.0), Point(Date(2023, 6, 1), 10.0), Point(Date(2024, 1, 1), 11.0)]
  }

  lemma {:induction false} BoundarySpan()
    ensures SpanDays(BoundarySeries()) == 365
  {
    var s := BoundarySeries();
    var a, b, c := DayNumber(s[0].date), DayNumber(s[1].date), DayNumber(s[2].date);
    assert DaysBeforeYear(2024) == DaysBeforeYear(2023) + 365;
    assert a < b < c by {
      DayNumberMonotone(s[0].date, s[1].date);
      DayNumberMonotone(s[1].date, s[2].date);
    }
    assert c - a == 365;
  }

  lemma {:induction false} BoundaryVariance()
    ensures SampleVariance(Amounts(BoundarySeries())) == Some(1.0 / 3.0)
  {
    var ys := Amounts(BoundarySeries());
    assert ys == [10.0, 10.0, 11.0];
    assert Sum(ys) == 31.0 by {
      assert ys[1..] == [10.0, 11.0];
      assert ys[1..][1..] == [11.0];
      assert ys[1..][1..][1..] == [];
    }
    var m := Mean(ys);
    assert m == 31.0 / 3.0;
    assert SquaredDeviations(ys, m) == 2.0 / 3.0 by {
      assert ys[1..] == [10.0, 11.0];
      assert ys[1..][1..] == [11.0];
      assert ys[1..][1..][1..] == [];
    }
  }

  /**
   * A score of exactly 0.5 stays on the fallback path: the boundary series
   * scores 0.05 + 0.3 + 0.15.
   */
  lemma {:induction false} ThresholdIsStrict(prophet: Forecaster)
    ensures Score(BoundarySeries()) == Some(0.5)
    ensures ForecastCategory(BoundarySeries(), prophet) == Some(MonthlyMean(BoundarySeries()))
  {
    BoundarySpan();
    BoundaryVariance();
  }

  /** Two January days of 100 and 50 and a February day of 30. */
  function TwoMonthSeries(): seq<Point>
  {
    [Point(Date(2024, 1, 5), 100.0), Point(Date(2024, 1, 20), 50.0), Point(Date(2024, 2, 10), 30.0)]
  }

  lemma {:induction false} TwoMonthSpan()
    ensures SpanDays(TwoMonthSeries()) == 36
  {
    var s := TwoMonthSeries();
    assert DayNumber(s[0].date) < DayNumber(s[1].date) < DayNumber(s[2].date) by {
      DayNumberMonotone(s[0].date, s[1].date);
      DayNumberMonotone(s[1].date, s[2].date);
    }
    assert DayNumber(s[2].date) - DayNumber(s[0].date) == 36;
  }

  lemma {:induction false} TwoMonthMean()
    ensures MonthlyMean(TwoMonthSeries()) == 90.0
  {
    var s := TwoMonthSeries();
    var g := MonthlyTotals(s);
    MonthlyTotalsSpec(s);
    DistinctKeysCount(g);
    assert s[1..] == [s[1], s[2]] && s[1..][1..] == [s[2]] && s[1..][1..][1..] == [];
    assert Months(s) == {(2024, 1), (2024, 2)};
    assert SeriesTotal(s) == 180.0;
  }

  /**
   * Monthly totals of 150 and 30 give a fallback of 90: three points over
   * 36 days score far below the threshold, so the forecaster is not used.
   */
  lemma {:induction false} TwoMonthFallback(prophet: Forecaster)
    ensures Route(Score(TwoMonthSeries())) == MonthlyFallback
    ensures ForecastCategory(TwoMonthSeries(), prophet) == Some(90.0)
  {
    TwoMonthSpan();
    TwoMonthMean();
  }
}
