/**
 * The data-sufficiency score of one category's series,
 * `calculate_data_sufficiency` (flask/app.py, lines 21-39).
 */
module Sufficiency {
  import opened Wrappers
  import opened Dates
  import opened Grouping
  import opened Series

  /** The `y` column of a series. */
  function Amounts(s: seq<Point>): (ys: seq<real>)
    ensures |ys| == |s|
    ensures forall i :: 0 <= i < |s| ==> ys[i] == s[i].amount
  {
    if |s| == 0 then [] else [s[0].amount] + Amounts(s[1..])
  }

  function Mean(ys: seq<real>): real
    requires |ys| > 0
  {
    Sum(ys) / |ys| as real
  }

  lemma {:induction false} Square(d: real)
    ensures d * d >= 0.0
  {
  }

  /** Sum of the squared deviations of `ys` from `m`. */
  function SquaredDeviations(ys: seq<real>, m: real): (r: real)
    ensures r >= 0.0
  {
    if |ys| == 0 then 0.0
    else
      Square(ys[0] - m);
      (ys[0] - m) * (ys[0] - m) + SquaredDeviations(ys[1..], m)
  }

  /**
   * pandas' `Series.var()`: the sample variance (divisor n - 1), which is NaN,
   * here `None`, for fewer than two values.
   */
  function SampleVariance(ys: seq<real>): (r: Option<real>)
    ensures r.Some? <==> |ys| >= 2
    ensures r.Some? ==> r.value >= 0.0
  {
    if |ys| < 2 then None
    else Some(SquaredDeviations(ys, Mean(ys)) / (|ys| - 1) as real)
  }

  lemma {:induction false} SumOfConstant(ys: seq<real>, c: real)
    requires forall i :: 0 <= i < |ys| ==> ys[i] == c
    ensures Sum(ys) == |ys| as real * c
  {
    if |ys| > 0 {
      assert forall i :: 0 <= i < |ys[1..]| ==> ys[1..][i] == ys[i + 1];
      SumOfConstant(ys[1..], c);
    }
  }

  lemma {:induction false} NoDeviation(ys: seq<real>, m: real)
    requires forall i :: 0 <= i < |ys| ==> ys[i] == m
    ensures SquaredDeviations(ys, m) == 0.0
  {
    if |ys| > 0 {
      assert forall i :: 0 <= i < |ys[1..]| ==> ys[1..][i] == ys[i + 1];
      NoDeviation(ys[1..], m);
      assert ys[0] - m == 0.0;
    }
  }

  /** Equal daily amounts have zero sample variance. */
  lemma {:induction false} ConstantVarianceIsZero(ys: seq<real>)
    requires |ys| >= 2
    requires forall i :: 0 <= i < |ys| ==> ys[i] == ys[0]
    ensures SampleVariance(ys) == Some(0.0)
  {
    SumOfConstant(ys, ys[0]);
    assert Mean(ys) == ys[0];
    NoDeviation(ys, ys[0]);
  }

  /** Earliest day ordinal of a non-empty series. */
  function FirstDay(s: seq<Point>): (r: int)
    requires |s| > 0
    ensures forall i :: 0 <= i < |s| ==> r <= DayNumber(s[i].date)
    ensures exists i :: 0 <= i < |s| && r == DayNumber(s[i].date)
  {
    if |s| == 1 then DayNumber(s[0].date)
    else
      var m := FirstDay(s[1..]);
      assert forall i :: 1 <= i < |s| ==> s[i] == s[1..][i - 1];
      if DayNumber(s[0].date) <= m then DayNumber(s[0].date) else m
  }

  /** Latest day ordinal of a non-empty series. */
  function LastDay(s: seq<Point>): (r: int)
    requires |s| > 0
    ensures forall i :: 0 <= i < |s| ==> DayNumber(s[i].date) <= r
    ensures exists i :: 0 <= i < |s| && r == DayNumber(s[i].date)
  {
    if |s| == 1 then DayNumber(s[0].date)
    else
      var m := LastDay(s[1..]);
      assert forall i :: 1 <= i < |s| ==> s[i] == s[1..][i - 1];
      if DayNumber(s[0].date) >= m then DayNumber(s[0].date) else m
  }

  /** `(df['ds'].max() - df['ds'].min()).days`. */
  function SpanDays(s: seq<Point>): (r: nat)
    requires |s| > 0
  {
    LastDay(s) - FirstDay(s)
  }

  /** The weighted formula of lines 33-37, for a defined variance. */
  function Formula(n: int, span: int, variance: real): real
    requires variance >= 0.0
  {
    0.5 * (n as real / 30.0) + 0.3 * (span as real / 365.0) + 0.2 * (1.0 / (1.0 + variance))
  }

  /** The volume and span terms of the score, the part that never depends on the amounts. */
  function VolumeAndSpan(s: seq<Point>): real
    requires |s| > 0
  {
    0.5 * (|s| as real / 30.0) + 0.3 * (SpanDays(s) as real / 365.0)
  }

  /**
   * The sufficiency score. It is undefined (NaN in pandas) exactly when the
   * variance is, i.e. for a series of fewer than two points; otherwise the
   * stability term adds a share in (0, 0.2] to the volume and span terms.
   */
  function Score(s: seq<Point>): (r: Option<real>)
    ensures r.Some? <==> |s| >= 2
    ensures r.Some? ==> 0.0 < VolumeAndSpan(s) < r.value <= VolumeAndSpan(s) + 0.2
  {
    match SampleVariance(Amounts(s))
    case None => None
    case Some(v) =>
      assert 1.0 / (1.0 + v) <= 1.0;
      Some(Formula(|s|, SpanDays(s), v))
  }

  /**
   * The formula grows with the number of points and the span and shrinks as
   * the variance grows.
   */
  lemma {:induction false} FormulaMonotone(n: int, n': int, span: int, span': int, v: real, v': real)
    requires n <= n' && span <= span' && 0.0 <= v' <= v
    ensures Formula(n, span, v) <= Formula(n', span', v')
  {
    assert 1.0 + v' <= 1.0 + v;
    assert 1.0 / (1.0 + v) <= 1.0 / (1.0 + v') by {
      assert (1.0 / (1.0 + v)) * (1.0 + v) == 1.0;
      assert (1.0 / (1.0 + v')) * (1.0 + v') == 1.0;
    }
  }

  /** A series whose daily totals never change gets the whole stability weight. */
  lemma {:induction false} ConstantSeriesScore(s: seq<Point>)
    requires |s| >= 2
    requires forall i :: 0 <= i < |s| ==> s[i].amount == s[0].amount
    ensures Score(s) == Some(VolumeAndSpan(s) + 0.2)
  {
    ConstantVarianceIsZero(Amounts(s));
  }

  /** Thirty distinct days of spending outweigh the threshold on their own. */
  lemma {:induction false} ThirtyPointsExceedHalf(s: seq<Point>)
    requires |s| >= 30
    ensures Score(s).Some? && Score(s).value > 0.5
  {
  }
}
