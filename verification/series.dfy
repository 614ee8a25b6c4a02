/**
 * Same-day aggregation (flask/app.py, line 118) and the per-category views
 * of the aggregated table used by the forecasting loop (lines 124-126).
 */
module Series {
  import opened Dates
  import opened Records
  import opened Grouping

  /** One row of a category's series: a date and the day's summed amount. */
  datatype Point = Point(date: Date, amount: real)

  /** A row of the expense table keyed by (category, date). */
  type Row = ((string, Date), real)

  function Rows(txns: seq<Txn>): seq<Row>
  {
    if |txns| == 0 then []
    else [((txns[0].category, txns[0].date), txns[0].amount)] + Rows(txns[1..])
  }

  /** `df.groupby(['category', 'ds'])['y'].sum()`. */
  function Aggregate(txns: seq<Txn>): seq<Row>
  {
    GroupSum(Rows(txns))
  }

  /** Sum of the amounts of the rows of `txns` in category `c` on day `d`. */
  function SumOn(txns: seq<Txn>, c: string, d: Date): real
  {
    if |txns| == 0 then 0.0
    else (if txns[0].category == c && txns[0].date == d then txns[0].amount else 0.0) + SumOn(txns[1..], c, d)
  }

  /** Sum of the amounts of the rows of `txns` in category `c`. */
  function CategoryTotal(txns: seq<Txn>, c: string): real
  {
    if |txns| == 0 then 0.0
    else (if txns[0].category == c then txns[0].amount else 0.0) + CategoryTotal(txns[1..], c)
  }

  lemma {:induction false} RowsSumWhere(txns: seq<Txn>, c: string, d: Date)
    ensures SumWhere(Rows(txns), (c, d)) == SumOn(txns, c, d)
  {
    if |txns| > 0 {
      RowsSumWhere(txns[1..], c, d);
      assert Rows(txns)[1..] == Rows(txns[1..]);
    }
  }

  lemma {:induction false} RowsKeys(txns: seq<Txn>, c: string, d: Date)
    ensures (c, d) in Keys(Rows(txns)) <==> exists i :: 0 <= i < |txns| && txns[i].category == c && txns[i].date == d
  {
    if |txns| > 0 {
      RowsKeys(txns[1..], c, d);
      assert Rows(txns)[1..] == Rows(txns[1..]);
      if exists i :: 0 <= i < |txns[1..]| && txns[1..][i].category == c && txns[1..][i].date == d {
        var i :| 0 <= i < |txns[1..]| && txns[1..][i].category == c && txns[1..][i].date == d;
        assert txns[i + 1] == txns[1..][i];
      }
      if exists i :: 0 <= i < |txns| && txns[i].category == c && txns[i].date == d {
        var i :| 0 <= i < |txns| && txns[i].category == c && txns[i].date == d;
        if i > 0 {
          assert txns[1..][i - 1] == txns[i];
        }
      }
    }
  }

  /**
   * After aggregation every (category, date) pair of the input occurs exactly
   * once, no other pair occurs, and its amount is the sum of all amounts
   * recorded for that pair.
   */
  lemma {:induction false} AggregateSpec(txns: seq<Txn>)
    ensures forall i, j :: 0 <= i < j < |Aggregate(txns)| ==> Aggregate(txns)[i].0 != Aggregate(txns)[j].0
    ensures forall i :: 0 <= i < |Aggregate(txns)| ==>
      Aggregate(txns)[i].1 == SumOn(txns, Aggregate(txns)[i].0.0, Aggregate(txns)[i].0.1)
    ensures forall c, d ::
      (exists i :: 0 <= i < |Aggregate(txns)| && Aggregate(txns)[i].0 == (c, d)) <==>
      (exists i :: 0 <= i < |txns| && txns[i].category == c && txns[i].date == d)
  {
    var agg := Aggregate(txns);
    GroupSumRows(Rows(txns));
    forall i | 0 <= i < |agg|
      ensures agg[i].1 == SumOn(txns, agg[i].0.0, agg[i].0.1)
    {
      RowsSumWhere(txns, agg[i].0.0, agg[i].0.1);
    }
    forall c, d
      ensures
        (exists i :: 0 <= i < |agg| && agg[i].0 == (c, d)) <==>
        (exists i :: 0 <= i < |txns| && txns[i].category == c && txns[i].date == d)
    {
      RowsKeys(txns, c, d);
    }
  }

  /** `df[df['category'] == c]`, as a series of (date, amount) points. */
  function SeriesOf(agg: seq<Row>, c: string): (s: seq<Point>)
    ensures |s| > 0 <==> InTable(agg, c)
  {
    if |agg| == 0 then []
    else
      InTableCons(agg, c);
      (if agg[0].0.0 == c then [Point(agg[0].0.1, agg[0].1)] else []) + SeriesOf(agg[1..], c)
  }

  lemma {:induction false} SeriesOfMembers(agg: seq<Row>, c: string)
    ensures forall p :: p in SeriesOf(agg, c) ==> ((c, p.date), p.amount) in agg
    ensures forall i :: 0 <= i < |agg| && agg[i].0.0 == c ==> Point(agg[i].0.1, agg[i].1) in SeriesOf(agg, c)
  {
    if |agg| > 0 {
      SeriesOfMembers(agg[1..], c);
      forall i | 1 <= i < |agg| && agg[i].0.0 == c
        ensures Point(agg[i].0.1, agg[i].1) in SeriesOf(agg[1..], c)
      {
        assert agg[1..][i - 1] == agg[i];
      }
    }
  }

  lemma {:induction false} SeriesOfDistinct(agg: seq<Row>, c: string)
    requires DistinctKeys(agg)
    ensures forall i, j :: 0 <= i < j < |SeriesOf(agg, c)| ==> SeriesOf(agg, c)[i].date != SeriesOf(agg, c)[j].date
  {
    if |agg| > 0 {
      var rest := SeriesOf(agg[1..], c);
      assert DistinctKeys(agg[1..]) by {
        forall i, j | 0 <= i < j < |agg[1..]|
          ensures agg[1..][i].0 != agg[1..][j].0
        {
          assert agg[1..][i] == agg[i + 1] && agg[1..][j] == agg[j + 1];
        }
      }
      SeriesOfDistinct(agg[1..], c);
      if agg[0].0.0 == c {
        NotInTail(agg);
        SeriesOfMembers(agg[1..], c);
        forall j | 0 <= j < |rest|
          ensures rest[j].date != agg[0].0.1
        {
          assert rest[j] in rest;
          KeysMembership(agg[1..], (c, rest[j].date));
        }
        assert SeriesOf(agg, c) == [Point(agg[0].0.1, agg[0].1)] + rest;
      } else {
        assert SeriesOf(agg, c) == rest;
      }
    }
  }

  function SeriesTotal(s: seq<Point>): real
  {
    if |s| == 0 then 0.0 else s[0].amount + SeriesTotal(s[1..])
  }

  lemma {:induction false} SeriesOfTotal(agg: seq<Row>, c: string)
    ensures SeriesTotal(SeriesOf(agg, c)) == SumIf(agg, (k: (string, Date)) => k.0 == c)
  {
    if |agg| > 0 {
      SeriesOfTotal(agg[1..], c);
      var head := if agg[0].0.0 == c then [Point(agg[0].0.1, agg[0].1)] else [];
      assert (head + SeriesOf(agg[1..], c))[|head|..] == SeriesOf(agg[1..], c);
      if |head| == 1 {
        assert (head + SeriesOf(agg[1..], c))[1..] == SeriesOf(agg[1..], c);
      }
    }
  }

  lemma {:induction false} RowsCategoryTotal(txns: seq<Txn>, c: string)
    ensures SumIf(Rows(txns), (k: (string, Date)) => k.0 == c) == CategoryTotal(txns, c)
  {
    if |txns| > 0 {
      RowsCategoryTotal(txns[1..], c);
      assert Rows(txns)[1..] == Rows(txns[1..]);
    }
  }

  /**
   * A category's aggregated series has one point per distinct date, each
   * carrying that day's total, and its amounts add up to the category's total.
   */
  lemma {:induction false} CategorySeriesSpec(txns: seq<Txn>, c: string)
    ensures forall i, j :: 0 <= i < j < |SeriesOf(Aggregate(txns), c)| ==>
      SeriesOf(Aggregate(txns), c)[i].date != SeriesOf(Aggregate(txns), c)[j].date
    ensures forall p :: p in SeriesOf(Aggregate(txns), c) ==> p.amount == SumOn(txns, c, p.date)
    ensures forall i :: 0 <= i < |txns| && txns[i].category == c ==>
      exists p :: p in SeriesOf(Aggregate(txns), c) && p.date == txns[i].date
    ensures forall p :: p in SeriesOf(Aggregate(txns), c) ==>
      exists i :: 0 <= i < |txns| && txns[i].category == c && txns[i].date == p.date
    ensures SeriesTotal(SeriesOf(Aggregate(txns), c)) == CategoryTotal(txns, c)
  {
    var agg := Aggregate(txns);
    var s := SeriesOf(agg, c);
    SeriesOfDistinct(agg, c);
    SeriesOfMembers(agg, c);
    AggregateSpec(txns);
    forall p | p in s
      ensures p.amount == SumOn(txns, c, p.date)
      ensures exists i :: 0 <= i < |txns| && txns[i].category == c && txns[i].date == p.date
    {
      var k :| 0 <= k < |agg| && agg[k] == ((c, p.date), p.amount);
      assert agg[k].0 == (c, p.date);
    }
    forall i | 0 <= i < |txns| && txns[i].category == c
      ensures exists p :: p in s && p.date == txns[i].date
    {
      var k :| 0 <= k < |agg| && agg[k].0 == (c, txns[i].date);
      assert Point(agg[k].0.1, agg[k].1) in s;
    }
    SeriesOfTotal(agg, c);
    GroupSumPreservesSumIf(Rows(txns), (k: (string, Date)) => k.0 == c);
    RowsCategoryTotal(txns, c);
  }

  /** Some row of the table is in category `c`. */
  predicate InTable(agg: seq<Row>, c: string)
  {
    exists i :: 0 <= i < |agg| && agg[i].0.0 == c
  }

  lemma {:induction false} InTableCons(agg: seq<Row>, c: string)
    requires |agg| > 0
    ensures InTable(agg, c) <==> agg[0].0.0 == c || InTable(agg[1..], c)
  {
    if InTable(agg[1..], c) {
      var i :| 0 <= i < |agg[1..]| && agg[1..][i].0.0 == c;
      assert agg[i + 1] == agg[1..][i];
    }
    if InTable(agg, c) {
      var i :| 0 <= i < |agg| && agg[i].0.0 == c;
      if i > 0 {
        assert agg[1..][i - 1] == agg[i];
      }
    }
  }

  /** `df['category'].unique()`: each category of the table once. */
  function Categories(agg: seq<Row>): (cs: seq<string>)
    ensures forall i, j :: 0 <= i < j < |cs| ==> cs[i] != cs[j]
    ensures forall c :: c in cs <==> InTable(agg, c)
  {
    if |agg| == 0 then []
    else
      var rest := Categories(agg[1..]);
      assert forall c :: InTable(agg, c) <==> agg[0].0.0 == c || InTable(agg[1..], c) by {
        forall c
          ensures InTable(agg, c) <==> agg[0].0.0 == c || InTable(agg[1..], c)
        {
          InTableCons(agg, c);
        }
      }
      if agg[0].0.0 in rest then rest else [agg[0].0.0] + rest
  }
}
