/**
 * Group-by-key summation over rows of (key, amount), the operation pandas'
 * `groupby(...)[...].sum()` performs. The same definition serves the
 * (category, date) aggregation of the transaction table and the calendar-month
 * grouping of the fallback estimate.
 */
module Grouping {

  /** Sum of a sequence of amounts. */
  function Sum(xs: seq<real>): real
  {
    if |xs| == 0 then 0.0 else xs[0] + Sum(xs[1..])
  }

  /** Sum of the amounts of all rows. */
  function Total<K>(rows: seq<(K, real)>): real
  {
    if |rows| == 0 then 0.0 else rows[0].1 + Total(rows[1..])
  }

  /** Sum of the amounts of the rows whose key is `k`. */
  function SumWhere<K(==)>(rows: seq<(K, real)>, k: K): real
  {
    if |rows| == 0 then 0.0
    else (if rows[0].0 == k then rows[0].1 else 0.0) + SumWhere(rows[1..], k)
  }

  /** Sum of the amounts of the rows whose key satisfies `p`. */
  function SumIf<K>(rows: seq<(K, real)>, p: K -> bool): real
  {
    if |rows| == 0 then 0.0
    else (if p(rows[0].0) then rows[0].1 else 0.0) + SumIf(rows[1..], p)
  }

  /** The set of keys occurring in `rows`. */
  function Keys<K>(rows: seq<(K, real)>): set<K>
  {
    if |rows| == 0 then {} else {rows[0].0} + Keys(rows[1..])
  }

  /** No key occurs twice in `g`. */
  predicate DistinctKeys<K(==)>(g: seq<(K, real)>)
  {
    forall i, j :: 0 <= i < j < |g| ==> g[i].0 != g[j].0
  }

  lemma {:induction false} KeysMembership<K>(rows: seq<(K, real)>, k: K)
    ensures k in Keys(rows) <==> exists i :: 0 <= i < |rows| && rows[i].0 == k
  {
    if |rows| > 0 {
      KeysMembership(rows[1..], k);
      if k in Keys(rows[1..]) {
        var i :| 0 <= i < |rows[1..]| && rows[1..][i].0 == k;
        assert rows[i + 1].0 == k;
      }
      if exists i :: 0 <= i < |rows| && rows[i].0 == k {
        var i :| 0 <= i < |rows| && rows[i].0 == k;
        if i > 0 { assert rows[1..][i - 1].0 == k; }
      }
    }
  }

  /** A key that does not occur contributes nothing. */
  lemma {:induction false} SumWhereAbsent<K>(rows: seq<(K, real)>, k: K)
    requires k !in Keys(rows)
    ensures SumWhere(rows, k) == 0.0
  {
    if |rows| > 0 {
      SumWhereAbsent(rows[1..], k);
    }
  }

  /**
   * Adds amount `a` to the row keyed `k`, or appends a new row when `k` is
   * not present yet.
   */
  function AddInto<K(==,!new)>(g: seq<(K, real)>, k: K, a: real): (r: seq<(K, real)>)
    ensures Keys(r) == Keys(g) + {k}
    ensures k !in Keys(g) ==> |r| == |g| + 1
    ensures k in Keys(g) ==> |r| == |g|
    ensures forall k' :: SumWhere(r, k') == SumWhere(g, k') + (if k' == k then a else 0.0)
    ensures Total(r) == Total(g) + a
  {
    if |g| == 0 then [(k, a)]
    else if g[0].0 == k then [(k, g[0].1 + a)] + g[1..]
    else
      var rest := AddInto(g[1..], k, a);
      assert ([g[0]] + rest)[1..] == rest;
      [g[0]] + rest
  }

  lemma {:induction false} AddIntoDistinct<K(!new)>(g: seq<(K, real)>, k: K, a: real)
    requires DistinctKeys(g)
    ensures DistinctKeys(AddInto(g, k, a))
  {
    if |g| > 0 && g[0].0 != k {
      AddIntoDistinct(g[1..], k, a);
      var rest := AddInto(g[1..], k, a);
      NotInTail(g);
      forall j | 0 <= j < |rest|
        ensures rest[j].0 != g[0].0
      {
        KeysMembership(rest, rest[j].0);
      }
      assert ([g[0]] + rest)[1..] == rest;
    }
  }

  /** In a table with distinct keys, the head's key does not recur in the tail. */
  lemma {:induction false} NotInTail<K>(g: seq<(K, real)>)
    requires DistinctKeys(g)
    requires |g| > 0
    ensures g[0].0 !in Keys(g[1..])
  {
    KeysMembership(g[1..], g[0].0);
    forall j | 0 <= j < |g[1..]|
      ensures g[1..][j].0 != g[0].0
    {
      assert g[1..][j] == g[j + 1];
    }
  }

  lemma {:induction false} AddIntoSumIf<K(!new)>(g: seq<(K, real)>, k: K, a: real, p: K -> bool)
    ensures SumIf(AddInto(g, k, a), p) == SumIf(g, p) + (if p(k) then a else 0.0)
  {
    if |g| > 0 && g[0].0 != k {
      AddIntoSumIf(g[1..], k, a, p);
      var rest := AddInto(g[1..], k, a);
      assert ([g[0]] + rest)[1..] == rest;
    }
  }

  /**
   * One row per distinct key, carrying the sum of the amounts of all rows
   * with that key.
   */
  function GroupSum<K(==,!new)>(rows: seq<(K, real)>): (g: seq<(K, real)>)
    ensures DistinctKeys(g)
    ensures Keys(g) == Keys(rows)
    ensures forall k :: SumWhere(g, k) == SumWhere(rows, k)
    ensures Total(g) == Total(rows)
  {
    if |rows| == 0 then []
    else
      var g := GroupSum(rows[1..]);
      AddIntoDistinct(g, rows[0].0, rows[0].1);
      AddInto(g, rows[0].0, rows[0].1)
  }

  /** In a table with distinct keys, each row's amount is the sum for its key. */
  lemma {:induction false} DistinctRowIsSum<K>(g: seq<(K, real)>, i: int)
    requires DistinctKeys(g)
    requires 0 <= i < |g|
    ensures g[i].1 == SumWhere(g, g[i].0)
  {
    if i == 0 {
      NotInTail(g);
      SumWhereAbsent(g[1..], g[0].0);
    } else {
      assert g[1..][i - 1] == g[i];
      DistinctRowIsSum(g[1..], i - 1);
    }
  }

  /**
   * Grouping keeps every key of the input exactly once and gives each group
   * the sum of all input amounts carrying its key.
   */
  lemma {:induction false} GroupSumRows<K(!new)>(rows: seq<(K, real)>)
    ensures forall i, j :: 0 <= i < j < |GroupSum(rows)| ==> GroupSum(rows)[i].0 != GroupSum(rows)[j].0
    ensures forall i :: 0 <= i < |GroupSum(rows)| ==> GroupSum(rows)[i].1 == SumWhere(rows, GroupSum(rows)[i].0)
    ensures forall k :: k in Keys(rows) <==> exists i :: 0 <= i < |GroupSum(rows)| && GroupSum(rows)[i].0 == k
  {
    var g := GroupSum(rows);
    forall i | 0 <= i < |g|
      ensures g[i].1 == SumWhere(rows, g[i].0)
    {
      DistinctRowIsSum(g, i);
    }
    forall k
      ensures k in Keys(rows) <==> exists i :: 0 <= i < |g| && g[i].0 == k
    {
      KeysMembership(g, k);
    }
  }

  /** Grouping preserves the sum over any set of keys. */
  lemma {:induction false} GroupSumPreservesSumIf<K(!new)>(rows: seq<(K, real)>, p: K -> bool)
    ensures SumIf(GroupSum(rows), p) == SumIf(rows, p)
  {
    if |rows| > 0 {
      GroupSumPreservesSumIf(rows[1..], p);
      AddIntoSumIf(GroupSum(rows[1..]), rows[0].0, rows[0].1, p);
    }
  }

  /** A table with distinct keys has as many rows as keys. */
  lemma {:induction false} DistinctKeysCount<K>(g: seq<(K, real)>)
    requires DistinctKeys(g)
    ensures |Keys(g)| == |g|
  {
    if |g| > 0 {
      NotInTail(g);
      assert DistinctKeys(g[1..]) by {
        forall i, j | 0 <= i < j < |g[1..]|
          ensures g[1..][i].0 != g[1..][j].0
        {
          assert g[1..][i] == g[i + 1] && g[1..][j] == g[j + 1];
        }
      }
      DistinctKeysCount(g[1..]);
    }
  }

  /** Bounding every amount bounds the total. */
  lemma {:induction false} TotalBounds<K>(rows: seq<(K, real)>, lo: real, hi: real)
    requires forall i :: 0 <= i < |rows| ==> lo <= rows[i].1 <= hi
    ensures |rows| as real * lo <= Total(rows) <= |rows| as real * hi
  {
    if |rows| > 0 {
      assert forall i :: 0 <= i < |rows[1..]| ==> rows[1..][i] == rows[i + 1];
      TotalBounds(rows[1..], lo, hi);
    }
  }

  /** Smallest amount of a non-empty table. */
  function MinAmount<K>(rows: seq<(K, real)>): (r: real)
    requires |rows| > 0
    ensures forall i :: 0 <= i < |rows| ==> r <= rows[i].1
    ensures exists i :: 0 <= i < |rows| && r == rows[i].1
  {
    if |rows| == 1 then rows[0].1
    else
      var m := MinAmount(rows[1..]);
      assert forall i :: 1 <= i < |rows| ==> rows[i] == rows[1..][i - 1];
      if rows[0].1 <= m then rows[0].1 else m
  }

  /** Largest amount of a non-empty table. */
  function MaxAmount<K>(rows: seq<(K, real)>): (r: real)
    requires |rows| > 0
    ensures forall i :: 0 <= i < |rows| ==> rows[i].1 <= r
    ensures exists i :: 0 <= i < |rows| && r == rows[i].1
  {
    if |rows| == 1 then rows[0].1
    else
      var m := MaxAmount(rows[1..]);
      assert forall i :: 1 <= i < |rows| ==> rows[i] == rows[1..][i - 1];
      if rows[0].1 >= m then rows[0].1 else m
  }

  /** The mean amount of a non-empty table lies between its extremes. */
  lemma {:induction false} MeanBetween<K>(rows: seq<(K, real)>)
    requires |rows| > 0
    ensures MinAmount(rows) <= Total(rows) / |rows| as real <= MaxAmount(rows)
  {
    var lo, hi := MinAmount(rows), MaxAmount(rows);
    TotalBounds(rows, lo, hi);
    DivBounds(Total(rows), |rows| as real, lo, hi);
  }

  lemma {:induction false} DivBounds(t: real, n: real, lo: real, hi: real)
    requires n > 0.0
    requires n * lo <= t <= n * hi
    ensures lo <= t / n <= hi
  {
  }

  lemma {:induction false} SumAppend(a: seq<real>, b: seq<real>)
    ensures Sum(a + b) == Sum(a) + Sum(b)
  {
    if |a| == 0 {
      assert a + b == b;
    } else {
      assert (a + b)[1..] == a[1..] + b;
      SumAppend(a[1..], b);
    }
  }
}
