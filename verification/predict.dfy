/**
 * The request pipeline of `predict` (flask/app.py, lines 99-152) from the
 * stored category mapping to the result mapping: extraction, date parsing,
 * aggregation, and the per-category loop in which one failed fit aborts all.
 */
module Pipeline {
  import opened Wrappers
  import opened Dates
  import opened Records
  import opened Grouping
  import opened Series
  import opened Sufficiency
  import opened Forecast

  /** Why a request produces no predictions. */
  datatype PredictError =
    | NoExpenses                 // the empty frame has no `ds` column (line 115)
    | UnparseableDate(d: Date)   // `pd.to_datetime` rejects a date (line 115)
    | FitFailed(category: string)

  /** The first extracted date `pd.to_datetime` rejects, if any. */
  function FirstUnparseable(txns: seq<Txn>): (r: Option<Date>)
    ensures r.None? <==> forall i :: 0 <= i < |txns| ==> Parseable(txns[i].date)
    ensures r.Some? ==> !Parseable(r.value) && exists i :: 0 <= i < |txns| && txns[i].date == r.value
  {
    if |txns| == 0 then None
    else if !Parseable(txns[0].date) then Some(txns[0].date)
    else
      var r := FirstUnparseable(txns[1..]);
      assert forall i :: 1 <= i < |txns| ==> txns[i] == txns[1..][i - 1];
      r
  }

  /**
   * The forecasting loop over the categories in `cats`: one entry per
   * category, or the first fit failure, which aborts the whole result.
   */
  function Assemble(cats: seq<string>, agg: seq<Row>, prophet: Forecaster): Result<map<string, real>, PredictError>
    requires forall c :: c in cats ==> InTable(agg, c)
  {
    if |cats| == 0 then Success(map[])
    else
      var c := cats[0];
      assert forall c' :: c' in cats[1..] ==> c' in cats;
      match ForecastCategory(SeriesOf(agg, c), prophet)
      case None => Failure(FitFailed(c))
      case Some(v) =>
        match Assemble(cats[1..], agg, prophet)
        case Failure(e) => Failure(e)
        case Success(m) => Success(m[c := v])
  }

  /** The seasonal fit for category `c` of the table fails. */
  predicate FitFails(agg: seq<Row>, c: string, prophet: Forecaster)
    requires InTable(agg, c)
  {
    ForecastCategory(SeriesOf(agg, c), prophet).None?
  }

  /** The loop fails exactly when some category's fit fails, and then with a fit error. */
  lemma {:induction false} AssembleFailure(cats: seq<string>, agg: seq<Row>, prophet: Forecaster)
    requires forall c :: c in cats ==> InTable(agg, c)
    ensures Assemble(cats, agg, prophet).Failure? <==> exists c :: c in cats && FitFails(agg, c, prophet)
    ensures Assemble(cats, agg, prophet).Failure? ==> Assemble(cats, agg, prophet).error.FitFailed?
  {
    if |cats| > 0 {
      var c := cats[0];
      var rest := cats[1..];
      assert forall c' :: c' in cats <==> c' == c || c' in rest;
      AssembleFailure(rest, agg, prophet);
      if ForecastCategory(SeriesOf(agg, c), prophet).None? {
        assert FitFails(agg, c, prophet);
      }
    }
  }

  /** A successful loop maps each listed category, and nothing else, to its own prediction. */
  lemma {:induction false} AssembleSuccess(cats: seq<string>, agg: seq<Row>, prophet: Forecaster)
    requires forall c :: c in cats ==> InTable(agg, c)
    ensures Assemble(cats, agg, prophet).Success? ==>
      forall c :: c in Assemble(cats, agg, prophet).value <==> c in cats
    ensures Assemble(cats, agg, prophet).Success? ==>
      forall c :: c in cats ==> ForecastCategory(SeriesOf(agg, c), prophet) == Some(Assemble(cats, agg, prophet).value[c])
  {
    if |cats| > 0 {
      var c := cats[0];
      var rest := cats[1..];
      assert forall c' :: c' in cats <==> c' == c || c' in rest;
      AssembleSuccess(rest, agg, prophet);
      var head := ForecastCategory(SeriesOf(agg, c), prophet);
      var tail := Assemble(rest, agg, prophet);
      if head.Some? && tail.Success? {
        assert Assemble(cats, agg, prophet) == Success(tail.value[c := head.value]);
      }
    }
  }

  lemma {:induction false} AssembleSpec(cats: seq<string>, agg: seq<Row>, prophet: Forecaster)
    requires forall c :: c in cats ==> InTable(agg, c)
    ensures Assemble(cats, agg, prophet).Success? ==>
      forall c :: c in Assemble(cats, agg, prophet).value <==> c in cats
    ensures Assemble(cats, agg, prophet).Success? ==>
      forall c :: c in cats ==> ForecastCategory(SeriesOf(agg, c), prophet) == Some(Assemble(cats, agg, prophet).value[c])
    ensures Assemble(cats, agg, prophet).Failure? <==> exists c :: c in cats && FitFails(agg, c, prophet)
    ensures Assemble(cats, agg, prophet).Failure? ==> Assemble(cats, agg, prophet).error.FitFailed?
  {
    AssembleFailure(cats, agg, prophet);
    AssembleSuccess(cats, agg, prophet);
  }

  /** The whole pipeline of `predict` after the user's document is fetched. */
  function Predict(entries: seq<(string, Stored)>, prophet: Forecaster): Result<map<string, real>, PredictError>
  {
    var txns := Extract(entries);
    if |txns| == 0 then Failure(NoExpenses)
    else
      match FirstUnparseable(txns)
      case Some(d) => Failure(UnparseableDate(d))
      case None =>
        var agg := Aggregate(txns);
        Assemble(Categories(agg), agg, prophet)
  }

  /** A complete item is stored under the non-income label `c`. */
  ghost predicate HasExpense(entries: seq<(string, Stored)>, c: string)
  {
    exists i, j :: Eligible(entries, i, j) && entries[i].0 == c
  }

  /** The aggregated daily series of category `c` for the stored mapping. */
  function CategorySeries(entries: seq<(string, Stored)>, c: string): seq<Point>
  {
    SeriesOf(Aggregate(Extract(entries)), c)
  }

  /** Sum of the amounts of the complete items of `items` dated `d`. */
  function ItemsOn(items: seq<Item>, d: Date): real
  {
    if |items| == 0 then 0.0
    else (if Complete(items[0]) && items[0].date.value == d then items[0].amount.value else 0.0) + ItemsOn(items[1..], d)
  }

  /** What the stored mapping records as spent in category `c` on day `d`. */
  function RecordedOn(entries: seq<(string, Stored)>, c: string, d: Date): real
  {
    if |entries| == 0 then 0.0
    else
      (if entries[0].0 == c && !IsIncome(c) && entries[0].1.ItemList? then ItemsOn(entries[0].1.items, d) else 0.0)
      + RecordedOn(entries[1..], c, d)
  }

  lemma {:induction false} SumOnAppend(a: seq<Txn>, b: seq<Txn>, c: string, d: Date)
    ensures SumOn(a + b, c, d) == SumOn(a, c, d) + SumOn(b, c, d)
  {
    if |a| == 0 {
      assert a + b == b;
    } else {
      assert (a + b)[0] == a[0];
      assert (a + b)[1..] == a[1..] + b;
      SumOnAppend(a[1..], b, c, d);
    }
  }

  lemma {:induction false} KeptSumOn(category: string, items: seq<Item>, c: string, d: Date)
    ensures SumOn(Kept(category, items), c, d) == if category == c then ItemsOn(items, d) else 0.0
  {
    if |items| > 0 {
      var head := if Complete(items[0]) then [Txn(category, items[0].date.value, items[0].amount.value)] else [];
      KeptSumOn(category, items[1..], c, d);
      SumOnAppend(head, Kept(category, items[1..]), c, d);
    }
  }

  /** The extracted rows of category `c` on day `d` add up to what is recorded for that day. */
  lemma {:induction false} ExtractSumOn(entries: seq<(string, Stored)>, c: string, d: Date)
    ensures SumOn(Extract(entries), c, d) == RecordedOn(entries, c, d)
  {
    if |entries| > 0 {
      ExtractSumOn(entries[1..], c, d);
      SumOnAppend(ExtractEntry(entries[0].0, entries[0].1), Extract(entries[1..]), c, d);
      if !IsIncome(entries[0].0) && entries[0].1.ItemList? {
        KeptSumOn(entries[0].0, entries[0].1.items, c, d);
      }
    }
  }

  /** The date of the item at position `j` of entry `i`, where the item is complete. */
  function ItemDate(entries: seq<(string, Stored)>, i: int, j: int): Date
    requires Eligible(entries, i, j)
  {
    entries[i].1.items[j].date.value
  }

  lemma {:induction false} RecordedDaysHavePoints(entries: seq<(string, Stored)>, c: string)
    ensures forall i, j :: Eligible(entries, i, j) && entries[i].0 == c ==>
      exists p :: p in CategorySeries(entries, c) && p.date == ItemDate(entries, i, j)
  {
    var txns := Extract(entries);
    ExtractSpec(entries);
    CategorySeriesSpec(txns, c);
    forall i, j | Eligible(entries, i, j) && entries[i].0 == c
      ensures exists p :: p in CategorySeries(entries, c) && p.date == ItemDate(entries, i, j)
    {
      var t := TxnOf(entries, i, j);
      assert t in txns;
      var n :| 0 <= n < |txns| && txns[n] == t;
      assert txns[n].category == c;
    }
  }

  lemma {:induction false} PointsAreRecordedDays(entries: seq<(string, Stored)>, c: string)
    ensures forall p :: p in CategorySeries(entries, c) ==>
      exists i, j :: Eligible(entries, i, j) && entries[i].0 == c && ItemDate(entries, i, j) == p.date
  {
    var txns := Extract(entries);
    ExtractSpec(entries);
    CategorySeriesSpec(txns, c);
    forall p | p in CategorySeries(entries, c)
      ensures exists i, j :: Eligible(entries, i, j) && entries[i].0 == c && ItemDate(entries, i, j) == p.date
    {
      var n :| 0 <= n < |txns| && txns[n].category == c && txns[n].date == p.date;
      assert txns[n] in txns;
      var i, j :| Yields(entries, i, j, txns[n]);
      assert Eligible(entries, i, j) && ItemDate(entries, i, j) == p.date;
    }
  }

  /**
   * A category's series has exactly one point per day on which the stored
   * mapping holds a complete item under that label, and each point carries
   * everything recorded for the category on that day.
   */
  lemma {:induction false} CategorySeriesRecorded(entries: seq<(string, Stored)>, c: string)
    ensures forall i, j :: 0 <= i < j < |CategorySeries(entries, c)| ==>
      CategorySeries(entries, c)[i].date != CategorySeries(entries, c)[j].date
    ensures forall i, j :: Eligible(entries, i, j) && entries[i].0 == c ==>
      exists p :: p in CategorySeries(entries, c) && p.date == ItemDate(entries, i, j)
    ensures forall p :: p in CategorySeries(entries, c) ==>
      exists i, j :: Eligible(entries, i, j) && entries[i].0 == c && ItemDate(entries, i, j) == p.date
    ensures forall p :: p in CategorySeries(entries, c) ==> p.amount == RecordedOn(entries, c, p.date)
  {
    CategorySeriesSpec(Extract(entries), c);
    RecordedDaysHavePoints(entries, c);
    PointsAreRecordedDays(entries, c);
    forall p | p in CategorySeries(entries, c)
      ensures p.amount == RecordedOn(entries, c, p.date)
    {
      ExtractSumOn(entries, c, p.date);
    }
  }

  lemma {:induction false} TableHasOnlyExpenses(entries: seq<(string, Stored)>, c: string)
    requires InTable(Aggregate(Extract(entries)), c)
    ensures HasExpense(entries, c)
  {
    var txns := Extract(entries);
    var agg := Aggregate(txns);
    var k :| 0 <= k < |agg| && agg[k].0.0 == c;
    var d := agg[k].0.1;
    AggregateSpec(txns);
    assert exists k' :: 0 <= k' < |agg| && agg[k'].0 == (c, d);
    var n :| 0 <= n < |txns| && txns[n].category == c && txns[n].date == d;
    ExtractSpec(entries);
    assert txns[n] in txns;
    var i, j :| Yields(entries, i, j, txns[n]);
    assert Eligible(entries, i, j) && entries[i].0 == c;
  }

  lemma {:induction false} ExpenseInTable(entries: seq<(string, Stored)>, c: string)
    requires HasExpense(entries, c)
    ensures InTable(Aggregate(Extract(entries)), c)
  {
    var txns := Extract(entries);
    var agg := Aggregate(txns);
    var i, j :| Eligible(entries, i, j) && entries[i].0 == c;
    var t := TxnOf(entries, i, j);
    ExtractSpec(entries);
    assert t in txns;
    var n :| 0 <= n < |txns| && txns[n] == t;
    AggregateSpec(txns);
    assert exists n' :: 0 <= n' < |txns| && txns[n'].category == c && txns[n'].date == t.date;
    var k :| 0 <= k < |agg| && agg[k].0 == (c, t.date);
    assert agg[k].0.0 == c;
  }

  /** A category has a row in the aggregated table exactly when it has an expense item. */
  lemma {:induction false} InTableIffExpense(entries: seq<(string, Stored)>, c: string)
    ensures InTable(Aggregate(Extract(entries)), c) <==> HasExpense(entries, c)
  {
    if InTable(Aggregate(Extract(entries)), c) {
      TableHasOnlyExpenses(entries, c);
    }
    if HasExpense(entries, c) {
      ExpenseInTable(entries, c);
    }
  }

  /** Extraction yields nothing exactly when no complete item sits under a non-income label. */
  lemma {:induction false} ExtractEmptyIff(entries: seq<(string, Stored)>)
    ensures |Extract(entries)| == 0 <==> forall i, j :: !Eligible(entries, i, j)
  {
    ExtractSpec(entries);
    if |Extract(entries)| > 0 {
      var t := Extract(entries)[0];
      assert t in Extract(entries);
      var i, j :| Yields(entries, i, j, t);
      assert Eligible(entries, i, j);
    }
  }

  /**
   * A successful prediction maps exactly the labels that hold an expense, never
   * an income label, each to the decision for its own aggregated series; the
   * request fails for want of expenses exactly when no such item exists.
   */
  lemma {:induction false} PredictSpec(entries: seq<(string, Stored)>, prophet: Forecaster)
    ensures Predict(entries, prophet) == Failure(NoExpenses) <==> forall i, j :: !Eligible(entries, i, j)
    ensures Predict(entries, prophet).Success? ==>
      forall c :: c in Predict(entries, prophet).value <==> HasExpense(entries, c)
    ensures Predict(entries, prophet).Success? ==>
      forall c :: c in Predict(entries, prophet).value ==> !IsIncome(c) && |CategorySeries(entries, c)| > 0
    ensures Predict(entries, prophet).Success? ==>
      forall c :: c in Predict(entries, prophet).value ==>
        ForecastCategory(CategorySeries(entries, c), prophet) == Some(Predict(entries, prophet).value[c])
  {
    var txns := Extract(entries);
    ExtractEmptyIff(entries);
    var r := Predict(entries, prophet);
    if |txns| > 0 && FirstUnparseable(txns).None? {
      var agg := Aggregate(txns);
      var cats := Categories(agg);
      AssembleSpec(cats, agg, prophet);
      forall c
        ensures InTable(agg, c) <==> HasExpense(entries, c)
      {
        InTableIffExpense(entries, c);
      }
      forall c | InTable(agg, c)
        ensures !IsIncome(c)
      {
        var i, j :| Eligible(entries, i, j) && entries[i].0 == c;
      }
    }
  }

  /** Every stored expense date is one `pd.to_datetime` accepts. */
  ghost predicate AllDatesParse(entries: seq<(string, Stored)>)
  {
    forall i, j :: Eligible(entries, i, j) ==> Parseable(entries[i].1.items[j].date.value)
  }

  lemma {:induction false} UnparseableIsStored(entries: seq<(string, Stored)>)
    requires FirstUnparseable(Extract(entries)).Some?
    ensures !AllDatesParse(entries)
  {
    var txns := Extract(entries);
    var d := FirstUnparseable(txns).value;
    var n :| 0 <= n < |txns| && txns[n].date == d;
    ExtractSpec(entries);
    assert txns[n] in txns;
    var i, j :| Yields(entries, i, j, txns[n]);
    assert Eligible(entries, i, j) && entries[i].1.items[j].date.value == d;
  }

  lemma {:induction false} StoredIsUnparseable(entries: seq<(string, Stored)>)
    requires !AllDatesParse(entries)
    ensures FirstUnparseable(Extract(entries)).Some?
  {
    var txns := Extract(entries);
    var i, j :| Eligible(entries, i, j) && !Parseable(entries[i].1.items[j].date.value);
    var t := TxnOf(entries, i, j);
    ExtractSpec(entries);
    assert t in txns;
    var n :| 0 <= n < |txns| && txns[n] == t;
    assert !Parseable(txns[n].date);
  }

  /**
   * A stored date outside what `pd.to_datetime` accepts fails the whole
   * request, and it is the only way to fail with that error.
   */
  lemma {:induction false} UnparseableDateFails(entries: seq<(string, Stored)>, prophet: Forecaster)
    ensures (Predict(entries, prophet).Failure? && Predict(entries, prophet).error.UnparseableDate?) <==>
      !AllDatesParse(entries)
  {
    var txns := Extract(entries);
    var r := Predict(entries, prophet);
    if |txns| == 0 {
      ExtractEmptyIff(entries);
      assert r == Failure(NoExpenses);
    } else if FirstUnparseable(txns).Some? {
      UnparseableIsStored(entries);
    } else {
      if !AllDatesParse(entries) {
        StoredIsUnparseable(entries);
      }
      var agg := Aggregate(txns);
      AssembleSpec(Categories(agg), agg, prophet);
      assert r == Assemble(Categories(agg), agg, prophet);
    }
  }

  /**
   * A seasonal-routed category whose fit fails aborts the whole request,
   * whatever the other categories would have produced.
   */
  lemma {:induction false} FitFailureAborts(entries: seq<(string, Stored)>, prophet: Forecaster, c: string)
    requires HasExpense(entries, c)
    requires AllDatesParse(entries)
    ensures Route(Score(CategorySeries(entries, c))) == Seasonal && prophet(CategorySeries(entries, c)).None? ==>
      Predict(entries, prophet).Failure? && Predict(entries, prophet).error.FitFailed?
  {
    var txns := Extract(entries);
    var agg := Aggregate(txns);
    ExtractEmptyIff(entries);
    UnparseableDateFails(entries, prophet);
    InTableIffExpense(entries, c);
    AssembleSpec(Categories(agg), agg, prophet);
    if Route(Score(CategorySeries(entries, c))) == Seasonal && prophet(CategorySeries(entries, c)).None? {
      assert FitFails(agg, c, prophet);
    }
  }

  /**
   * Once there is an expense and every date parses, the request fails exactly
   * when some expense category's own decision fails: it takes the seasonal
   * path and its fit fails.
   */
  lemma {:induction false} PredictFailsIff(entries: seq<(string, Stored)>, prophet: Forecaster)
    requires exists i, j :: Eligible(entries, i, j)
    requires AllDatesParse(entries)
    ensures Predict(entries, prophet).Failure? <==>
      exists c :: HasExpense(entries, c) && |CategorySeries(entries, c)| > 0 &&
        ForecastCategory(CategorySeries(entries, c), prophet).None?
    ensures Predict(entries, prophet).Failure? ==> Predict(entries, prophet).error.FitFailed?
  {
    var txns := Extract(entries);
    var agg := Aggregate(txns);
    var cats := Categories(agg);
    ExtractEmptyIff(entries);
    UnparseableDateFails(entries, prophet);
    assert Predict(entries, prophet) == Assemble(cats, agg, prophet);
    AssembleFailure(cats, agg, prophet);
    forall c
      ensures c in cats <==> HasExpense(entries, c)
    {
      InTableIffExpense(entries, c);
    }
    if Predict(entries, prophet).Failure? {
      var c :| c in cats && FitFails(agg, c, prophet);
      assert HasExpense(entries, c) && CategorySeries(entries, c) == SeriesOf(agg, c);
    }
    if exists c :: HasExpense(entries, c) && |CategorySeries(entries, c)| > 0 &&
        ForecastCategory(CategorySeries(entries, c), prophet).None? {
      var c :| HasExpense(entries, c) && |CategorySeries(entries, c)| > 0 &&
        ForecastCategory(CategorySeries(entries, c), prophet).None?;
      assert c in cats && FitFails(agg, c, prophet);
    }
  }

  /**
   * With every date parseable and a forecaster that never fails, any mapping
   * holding an expense yields a prediction.
   */
  lemma {:induction false} ReliableForecasterSucceeds(entries: seq<(string, Stored)>, prophet: Forecaster)
    requires exists i, j :: Eligible(entries, i, j)
    requires AllDatesParse(entries)
    requires forall s :: prophet(s).Some?
    ensures Predict(entries, prophet).Success?
  {
    var txns := Extract(entries);
    var agg := Aggregate(txns);
    ExtractEmptyIff(entries);
    UnparseableDateFails(entries, prophet);
    AssembleSpec(Categories(agg), agg, prophet);
  }
}
