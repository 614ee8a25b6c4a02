/**
 * Extraction of expense rows from a user's stored `transactions` mapping
 * (category label -> list of {date, amount} items), as `predict` does before
 * building its data frame (flask/app.py, lines 99-109).
 */
module Records {
  import opened Wrappers
  import opened Dates

  /** One stored item; a field the item lacks is `None`. */
  datatype Item = Item(date: Option<Date>, amount: Option<real>)

  /** A category's stored value: a list of items, or a value of any other type. */
  datatype Stored = ItemList(items: seq<Item>) | NotAList

  /** One extracted expense row (`ds`, `y`, `category`). */
  datatype Txn = Txn(category: string, date: Date, amount: real)

  /** ASCII lower-casing of one character. */
  function LowerChar(c: char): char
  {
    if 'A' <= c <= 'Z' then (c as int + 32) as char else c
  }

  function Lower(s: string): string
  {
    seq(|s|, i requires 0 <= i < |s| => LowerChar(s[i]))
  }

  /**
   * The category is the reserved income category in some casing. ASCII
   * lower-casing decides `category.lower() == 'income'` exactly: no other
   * character lower-cases to a single letter of "income".
   */
  predicate IsIncome(category: string)
  {
    Lower(category) == "income"
  }

  /** The item has both a `date` and an `amount` key. */
  predicate Complete(it: Item)
  {
    it.date.Some? && it.amount.Some?
  }

  function Kept(category: string, items: seq<Item>): seq<Txn>
  {
    if |items| == 0 then []
    else
      (if Complete(items[0]) then [Txn(category, items[0].date.value, items[0].amount.value)] else [])
      + Kept(category, items[1..])
  }

  /** The rows one category contributes. */
  function ExtractEntry(category: string, stored: Stored): seq<Txn>
  {
    if IsIncome(category) || !stored.ItemList? then [] else Kept(category, stored.items)
  }

  /** The item at position `j` of entry `i` is a complete item yielding `t`. */
  predicate Yields(entries: seq<(string, Stored)>, i: int, j: int, t: Txn)
  {
    && 0 <= i < |entries|
    && entries[i].0 == t.category
    && entries[i].1.ItemList?
    && 0 <= j < |entries[i].1.items|
    && entries[i].1.items[j] == Item(Some(t.date), Some(t.amount))
  }

  /** The entry at position `i` is a non-income list whose item `j` is complete. */
  predicate Eligible(entries: seq<(string, Stored)>, i: int, j: int)
  {
    && 0 <= i < |entries|
    && !IsIncome(entries[i].0)
    && entries[i].1.ItemList?
    && 0 <= j < |entries[i].1.items|
    && Complete(entries[i].1.items[j])
  }

  function TxnOf(entries: seq<(string, Stored)>, i: int, j: int): Txn
    requires Eligible(entries, i, j)
  {
    var it := entries[i].1.items[j];
    Txn(entries[i].0, it.date.value, it.amount.value)
  }

  /** The number of items of `items` carrying both a date and an amount. */
  function CompleteCount(items: seq<Item>): nat
  {
    if |items| == 0 then 0 else (if Complete(items[0]) then 1 else 0) + CompleteCount(items[1..])
  }

  lemma {:induction false} KeptSpec(category: string, items: seq<Item>)
    ensures |Kept(category, items)| == CompleteCount(items)
    ensures forall t :: t in Kept(category, items) ==>
      t.category == category && exists j :: 0 <= j < |items| && items[j] == Item(Some(t.date), Some(t.amount))
    ensures forall j :: 0 <= j < |items| && Complete(items[j]) ==>
      Txn(category, items[j].date.value, items[j].amount.value) in Kept(category, items)
  {
    if |items| > 0 {
      KeptSpec(category, items[1..]);
      forall t | t in Kept(category, items[1..])
        ensures exists j :: 0 <= j < |items| && items[j] == Item(Some(t.date), Some(t.amount))
      {
        var j :| 0 <= j < |items[1..]| && items[1..][j] == Item(Some(t.date), Some(t.amount));
        assert items[j + 1] == items[1..][j];
      }
      forall j | 1 <= j < |items| && Complete(items[j])
        ensures Txn(category, items[j].date.value, items[j].amount.value) in Kept(category, items[1..])
      {
        assert items[1..][j - 1] == items[j];
      }
    }
  }

  /**
   * Flattens the stored mapping into expense rows: income categories,
   * non-list values and items lacking a date or an amount are skipped.
   */
  function Extract(entries: seq<(string, Stored)>): seq<Txn>
  {
    if |entries| == 0 then []
    else ExtractEntry(entries[0].0, entries[0].1) + Extract(entries[1..])
  }

  /**
   * Every extracted row is a complete item of a non-income list, under its
   * own category label unchanged, and every such item is extracted.
   */
  lemma {:induction false} ExtractSpec(entries: seq<(string, Stored)>)
    ensures forall t :: t in Extract(entries) ==> !IsIncome(t.category)
    ensures forall t :: t in Extract(entries) ==> exists i, j :: Yields(entries, i, j, t)
    ensures forall i, j :: Eligible(entries, i, j) ==> TxnOf(entries, i, j) in Extract(entries)
  {
    if |entries| > 0 {
      var head := ExtractEntry(entries[0].0, entries[0].1);
      var rest := Extract(entries[1..]);
      ExtractSpec(entries[1..]);
      if entries[0].1.ItemList? {
        KeptSpec(entries[0].0, entries[0].1.items);
      }
      forall t | t in head
        ensures exists i, j :: Yields(entries, i, j, t)
      {
        var j :| 0 <= j < |entries[0].1.items| && entries[0].1.items[j] == Item(Some(t.date), Some(t.amount));
        assert Yields(entries, 0, j, t);
      }
      forall t | t in rest
        ensures exists i, j :: Yields(entries, i, j, t)
      {
        var i, j :| Yields(entries[1..], i, j, t);
        assert Yields(entries, i + 1, j, t);
      }
      forall i, j | Eligible(entries, i, j)
        ensures TxnOf(entries, i, j) in head + rest
      {
        if i > 0 {
          assert Eligible(entries[1..], i - 1, j);
          assert TxnOf(entries[1..], i - 1, j) == TxnOf(entries, i, j);
        }
      }
    }
  }
}
