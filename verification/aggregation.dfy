/**
 * Grouping and aggregation of data rows (`getAggValues` and `isBarChart` in
 * visualizations/index.ts). Rows are grouped by the value of a key field, in
 * the order keys first appear, as d3's `nest().key(...).entries(...)` does,
 * and each group is reduced with one of d3's reducers.
 */
module Aggregation {
  import opened Wrappers
  import opened Values
  import opened Specs

  // ---------------------------------------------------------------------------
  // Reducers over the numbers of a column
  // ---------------------------------------------------------------------------

  /**
   * The numbers among the cells, in order: what d3's `sum`, `mean`, `median`,
   * `min` and `max` read. Null, undefined, NaN and strings are skipped (null
   * would add 0 to a sum, which changes nothing).
   */
  function Numbers(vs: seq<Value>): (r: seq<real>)
    ensures |r| <= |vs|
    ensures forall x :: x in r <==> Num(x) in vs
    ensures (forall i :: 0 <= i < |vs| ==> vs[i].Num?) ==> |r| == |vs|
  {
    NumberCellsFacts(vs);
    NumberCells(vs)
  }

  /** The numeric cells' values, cell by cell; `Numbers` states what they are. */
  function NumberCells(vs: seq<Value>): seq<real> {
    if |vs| == 0 then []
    else (if vs[0].Num? then [vs[0].n] else []) + NumberCells(vs[1..])
  }

  lemma {:induction false} NumberCellsFacts(vs: seq<Value>)
    ensures |NumberCells(vs)| <= |vs|
    ensures forall x :: x in NumberCells(vs) <==> Num(x) in vs
    ensures (forall i :: 0 <= i < |vs| ==> vs[i].Num?) ==> |NumberCells(vs)| == |vs|
  {
    if |vs| > 0 {
      NumberCellsFacts(vs[1..]);
      assert vs == [vs[0]] + vs[1..];
    }
  }

  /** The column holds no number exactly when no number is picked out of it. */
  lemma {:induction false} NumbersEmpty(vs: seq<Value>)
    ensures |Numbers(vs)| == 0 <==> forall i :: 0 <= i < |vs| ==> !vs[i].Num?
  {
    if |vs| > 0 {
      NumbersEmpty(vs[1..]);
      assert forall i :: 1 <= i < |vs| ==> vs[i] == vs[1..][i - 1];
    }
  }

  /** Some cell of the column is a number. */
  predicate AnyNumber(vs: seq<Value>) {
    |vs| > 0 && (vs[0].Num? || AnyNumber(vs[1..]))
  }

  /** The column yields numbers exactly when some cell is a number. */
  lemma {:induction false} NumbersOfAnyNumber(vs: seq<Value>)
    ensures |Numbers(vs)| == 0 <==> !AnyNumber(vs)
  {
    if |vs| > 0 {
      NumbersOfAnyNumber(vs[1..]);
    }
  }

  function SumOf(xs: seq<real>): real {
    if |xs| == 0 then 0.0 else xs[0] + SumOf(xs[1..])
  }

  /** `d3.min` over the numbers: the least of them. */
  function MinOf(xs: seq<real>): (m: real)
    requires |xs| > 0
    ensures m in xs
    ensures forall i :: 0 <= i < |xs| ==> m <= xs[i]
  {
    if |xs| == 1 then xs[0]
    else
      var rest := MinOf(xs[1..]);
      if xs[0] <= rest then xs[0] else rest
  }

  /** `d3.max` over the numbers: the greatest of them. */
  function MaxOf(xs: seq<real>): (m: real)
    requires |xs| > 0
    ensures m in xs
    ensures forall i :: 0 <= i < |xs| ==> xs[i] <= m
  {
    if |xs| == 1 then xs[0]
    else
      var rest := MaxOf(xs[1..]);
      if xs[0] >= rest then xs[0] else rest
  }

  predicate IsSorted(s: seq<real>) {
    forall i, j :: 0 <= i < j < |s| ==> s[i] <= s[j]
  }

  function InsertSorted(x: real, s: seq<real>): (r: seq<real>)
    requires IsSorted(s)
    ensures IsSorted(r)
    ensures multiset(r) == multiset(s) + multiset{x}
    ensures |r| == |s| + 1
    ensures forall k :: 0 <= k < |r| ==> x <= r[k] || (|s| > 0 && s[0] <= r[k])
  {
    if |s| == 0 then [x]
    else if x <= s[0] then
      ConsSorted(x, s);
      [x] + s
    else
      var tail := InsertSorted(x, s[1..]);
      InsertBehind(x, s, tail);
      [s[0]] + tail
  }

  /** Putting the head of `s` in front of `x` inserted into the rest of `s` keeps it sorted and loses nothing. */
  lemma InsertBehind(x: real, s: seq<real>, tail: seq<real>)
    requires |s| > 0 && s[0] < x && IsSorted(s) && IsSorted(tail)
    requires multiset(tail) == multiset(s[1..]) + multiset{x}
    requires forall k :: 0 <= k < |tail| ==> x <= tail[k] || (|s| > 1 && s[1] <= tail[k])
    ensures IsSorted([s[0]] + tail)
    ensures multiset([s[0]] + tail) == multiset(s) + multiset{x}
  {
    forall k | 0 <= k < |tail| ensures s[0] <= tail[k] {
      if |s| > 1 {
        assert s[0] <= s[1];
      }
    }
    ConsSorted(s[0], tail);
    assert s == [s[0]] + s[1..];
  }

  /** A number no greater than any element of a sorted list can go in front of it. */
  lemma ConsSorted(h: real, t: seq<real>)
    requires IsSorted(t)
    requires forall k :: 0 <= k < |t| ==> h <= t[k]
    ensures IsSorted([h] + t)
  {
    var r := [h] + t;
    forall i, j | 0 <= i < j < |r|
      ensures r[i] <= r[j]
    {
      assert r[j] == t[j - 1];
      if i > 0 {
        assert r[i] == t[i - 1];
      }
    }
  }

  /** The numbers in ascending order, as `numbers.sort(ascending)`. */
  function SortReals(xs: seq<real>): (r: seq<real>)
    ensures IsSorted(r)
    ensures multiset(r) == multiset(xs)
    ensures |r| == |xs|
  {
    if |xs| == 0 then []
    else
      assert xs == [xs[0]] + xs[1..];
      InsertSorted(xs[0], SortReals(xs[1..]))
  }

  /**
   * `d3.median`: `d3.quantile` at 0.5 of the sorted numbers, which is the
   * middle number, or the midpoint of the two middle numbers. It lies between
   * the least and the greatest number and, for an odd count, is one of them.
   */
  function MedianOf(xs: seq<real>): (r: real)
    requires |xs| > 0
    ensures MinOf(xs) <= r <= MaxOf(xs)
    ensures |xs| % 2 == 1 ==> r in xs
  {
    var n := |xs|;
    if n % 2 == 1 then
      SortedAt(xs, n / 2)
    else
      SortedAtOrdered(xs, n / 2 - 1);
      SortedAt(xs, n / 2 - 1) + (SortedAt(xs, n / 2) - SortedAt(xs, n / 2 - 1)) * 0.5
  }

  /** The `i`-th smallest number: it comes from the input and lies between the ends. */
  function SortedAt(xs: seq<real>, i: nat): (r: real)
    requires i < |xs|
    ensures r in xs
    ensures MinOf(xs) <= r <= MaxOf(xs)
  {
    SortedIsFromInput(xs, i);
    BetweenMinAndMax(xs, SortReals(xs)[i]);
    SortReals(xs)[i]
  }

  lemma SortedAtOrdered(xs: seq<real>, i: nat)
    requires i + 1 < |xs|
    ensures SortedAt(xs, i) <= SortedAt(xs, i + 1)
  {
  }

  /** Every member of the list lies between its least and greatest element. */
  lemma BetweenMinAndMax(xs: seq<real>, x: real)
    requires x in xs
    ensures MinOf(xs) <= x <= MaxOf(xs)
  {
    var k := FirstIndex(xs, x);
  }

  /** Every sorted number comes from the input. */
  lemma SortedIsFromInput(xs: seq<real>, i: nat)
    requires i < |xs|
    ensures SortReals(xs)[i] in xs
  {
    var s := SortReals(xs);
    assert s[i] in multiset(s);
  }

  /** The aggregates d3 leaves undefined on a group without numbers. */
  predicate NeedsNumbers(agg: Option<Aggregate>) {
    agg == Some(Mean) || agg == Some(Median) || agg == Some(Min) || agg == Some(Max)
  }

  /**
   * The rollup of getAggValues: the group's rows reduced over `field` with the
   * named aggregate. `sum`, a missing aggregate and any unrecognised name sum
   * the numbers; `count` is the number of rows; `mean`, `median`, `min` and
   * `max` are undefined for a group without numbers.
   */
  function Reduce(rows: seq<Row>, field: string, agg: Option<Aggregate>): (r: Value)
    ensures agg == Some(Count) ==> r == Num(|rows| as real)
    ensures NeedsNumbers(agg) ==> (r.Undef? <==> !AnyNumber(Column(rows, field)))
    ensures !NeedsNumbers(agg) ==> r.Num?
    ensures r.Num? || r.Undef?
  {
    var xs := Numbers(Column(rows, field));
    NumbersOfAnyNumber(Column(rows, field));
    match agg
    case Some(Sum) => Num(SumOf(xs))
    case Some(Mean) => if |xs| == 0 then Undef else Num(SumOf(xs) / |xs| as real)
    case Some(Median) => if |xs| == 0 then Undef else Num(MedianOf(xs))
    case Some(Min) => if |xs| == 0 then Undef else Num(MinOf(xs))
    case Some(Max) => if |xs| == 0 then Undef else Num(MaxOf(xs))
    case Some(Count) => Num(|rows| as real)
    case _ => Num(SumOf(xs))
  }

  // ---------------------------------------------------------------------------
  // Grouping
  // ---------------------------------------------------------------------------

  /** A group of rows sharing one key value. */
  datatype Group = Group(key: Value, rows: seq<Row>)

  /** Appends a row to the group of its key, opening a new group for a new key. */
  function AddRow(gs: seq<Group>, k: Value, row: Row): seq<Group> {
    if |gs| == 0 then [Group(k, [row])]
    else if gs[0].key == k then [Group(k, gs[0].rows + [row])] + gs[1..]
    else [gs[0]] + AddRow(gs[1..], k, row)
  }

  /** A row with a new key opens a new group at the end. */
  lemma {:induction false} AddRowNewKey(gs: seq<Group>, k: Value, row: Row)
    requires forall i :: 0 <= i < |gs| ==> gs[i].key != k
    ensures AddRow(gs, k, row) == gs + [Group(k, [row])]
  {
    if |gs| > 0 {
      AddRowNewKey(gs[1..], k, row);
    }
  }

  /** A row with a known key joins the first group of that key. */
  lemma {:induction false} AddRowKnownKey(gs: seq<Group>, k: Value, row: Row, i: nat)
    requires i < |gs| && gs[i].key == k
    requires forall j :: 0 <= j < i ==> gs[j].key != k
    ensures AddRow(gs, k, row) == gs[i := Group(k, gs[i].rows + [row])]
  {
    if i > 0 {
      AddRowKnownKey(gs[1..], k, row, i - 1);
    }
  }

  /** `d3.nest().key(d => d[keyField]).entries(rows)`: rows dealt into groups in one pass. */
  function Nest(rows: seq<Row>, keyField: string): seq<Group>
    decreases |rows|
  {
    if |rows| == 0 then []
    else
      var last := rows[|rows| - 1];
      AddRow(Nest(rows[..|rows| - 1], keyField), Get(last, keyField), last)
  }

  /** The reference grouping: the rows whose key is `k`, in input order. */
  function RowsWithKey(rows: seq<Row>, keyField: string, k: Value): (r: seq<Row>)
    ensures |r| <= |rows|
    decreases |rows|
  {
    if |rows| == 0 then []
    else
      var last := rows[|rows| - 1];
      RowsWithKey(rows[..|rows| - 1], keyField, k) + (if Get(last, keyField) == k then [last] else [])
  }

  /** The distinct key values of the rows, in first-appearance order. */
  function Keys(rows: seq<Row>, keyField: string): seq<Value> {
    Distinct(Column(rows, keyField))
  }

  /**
   * The one-pass grouping agrees with the reference: one group per distinct
   * key, in first-appearance order, holding exactly the rows with that key.
   */
  lemma {:induction false} NestIsGrouping(rows: seq<Row>, keyField: string)
    ensures |Nest(rows, keyField)| == |Keys(rows, keyField)|
    ensures forall i :: 0 <= i < |Nest(rows, keyField)| ==>
      Nest(rows, keyField)[i] == Group(Keys(rows, keyField)[i], RowsWithKey(rows, keyField, Keys(rows, keyField)[i]))
    decreases |rows|
  {
    if |rows| > 0 {
      var p := rows[..|rows| - 1];
      var last := rows[|rows| - 1];
      var k := Get(last, keyField);
      NestIsGrouping(p, keyField);
      NestStep(rows, p, last, keyField);
    }
  }

  /** One step of the grouping proof: dealing the last row into groups that already match the reference. */
  lemma NestStep(rows: seq<Row>, p: seq<Row>, last: Row, keyField: string)
    requires |rows| > 0 && p == rows[..|rows| - 1] && last == rows[|rows| - 1]
    requires |Nest(p, keyField)| == |Keys(p, keyField)|
    requires forall i :: 0 <= i < |Nest(p, keyField)| ==>
      Nest(p, keyField)[i] == Group(Keys(p, keyField)[i], RowsWithKey(p, keyField, Keys(p, keyField)[i]))
    ensures |Nest(rows, keyField)| == |Keys(rows, keyField)|
    ensures forall i :: 0 <= i < |Nest(rows, keyField)| ==>
      Nest(rows, keyField)[i] == Group(Keys(rows, keyField)[i], RowsWithKey(rows, keyField, Keys(rows, keyField)[i]))
  {
    var k := Get(last, keyField);
    assert Keys(rows, keyField) == if k in Keys(p, keyField) then Keys(p, keyField) else Keys(p, keyField) + [k] by {
      assert Column(rows, keyField) == Column(p, keyField) + [k] by {
        assert rows == p + [last];
        ColumnAppend(p, last, keyField);
      }
      DistinctAppend(Column(p, keyField), k);
    }
    assert Nest(rows, keyField) == AddRow(Nest(p, keyField), k, last);
    if k in Keys(p, keyField) {
      NestStepKnownKey(rows, p, last, keyField);
    } else {
      NestStepNewKey(rows, p, last, keyField);
    }
  }

  lemma NestStepKnownKey(rows: seq<Row>, p: seq<Row>, last: Row, keyField: string)
    requires |rows| > 0 && p == rows[..|rows| - 1] && last == rows[|rows| - 1]
    requires |Nest(p, keyField)| == |Keys(p, keyField)|
    requires forall i :: 0 <= i < |Nest(p, keyField)| ==>
      Nest(p, keyField)[i] == Group(Keys(p, keyField)[i], RowsWithKey(p, keyField, Keys(p, keyField)[i]))
    requires Nest(rows, keyField) == AddRow(Nest(p, keyField), Get(last, keyField), last)
    requires Get(last, keyField) in Keys(p, keyField)
    requires Keys(rows, keyField) == Keys(p, keyField)
    ensures |Nest(rows, keyField)| == |Keys(rows, keyField)|
    ensures forall i :: 0 <= i < |Nest(rows, keyField)| ==>
      Nest(rows, keyField)[i] == Group(Keys(rows, keyField)[i], RowsWithKey(rows, keyField, Keys(rows, keyField)[i]))
  {
    var k := Get(last, keyField);
    var gs := Nest(p, keyField);
    var ks := Keys(p, keyField);
    var ns := Nest(rows, keyField);
    var i := FirstIndex(ks, k);
    assert forall j :: 0 <= j < i ==> gs[j].key != k;
    AddRowKnownKey(gs, k, last, i);
    assert NoDuplicates(ks);
    forall j | 0 <= j < |ns|
      ensures ns[j] == Group(ks[j], RowsWithKey(rows, keyField, ks[j]))
    {
      RowsWithKeyStep(rows, keyField, ks[j]);
      if j != i {
        assert ks[j] != k;
        assert ns[j] == gs[j];
      }
    }
  }

  lemma NestStepNewKey(rows: seq<Row>, p: seq<Row>, last: Row, keyField: string)
    requires |rows| > 0 && p == rows[..|rows| - 1] && last == rows[|rows| - 1]
    requires |Nest(p, keyField)| == |Keys(p, keyField)|
    requires forall i :: 0 <= i < |Nest(p, keyField)| ==>
      Nest(p, keyField)[i] == Group(Keys(p, keyField)[i], RowsWithKey(p, keyField, Keys(p, keyField)[i]))
    requires Nest(rows, keyField) == AddRow(Nest(p, keyField), Get(last, keyField), last)
    requires Get(last, keyField) !in Keys(p, keyField)
    requires Keys(rows, keyField) == Keys(p, keyField) + [Get(last, keyField)]
    ensures |Nest(rows, keyField)| == |Keys(rows, keyField)|
    ensures forall i :: 0 <= i < |Nest(rows, keyField)| ==>
      Nest(rows, keyField)[i] == Group(Keys(rows, keyField)[i], RowsWithKey(rows, keyField, Keys(rows, keyField)[i]))
  {
    var k := Get(last, keyField);
    var gs := Nest(p, keyField);
    var ks' := Keys(rows, keyField);
    var ns := Nest(rows, keyField);
    assert forall j :: 0 <= j < |gs| ==> gs[j].key != k;
    AddRowNewKey(gs, k, last);
    forall j | 0 <= j < |ns|
      ensures ns[j] == Group(ks'[j], RowsWithKey(rows, keyField, ks'[j]))
    {
      RowsWithKeyStep(rows, keyField, ks'[j]);
      if j == |gs| {
        RowsWithKeyAbsent(p, keyField, k);
      }
    }
  }

  lemma RowsWithKeyStep(rows: seq<Row>, keyField: string, k: Value)
    requires |rows| > 0
    ensures RowsWithKey(rows, keyField, k) == RowsWithKey(rows[..|rows| - 1], keyField, k)
      + (if Get(rows[|rows| - 1], keyField) == k then [rows[|rows| - 1]] else [])
  {
  }

  lemma {:induction false} RowsWithKeyAbsent(rows: seq<Row>, keyField: string, k: Value)
    requires k !in Column(rows, keyField)
    ensures RowsWithKey(rows, keyField, k) == []
    decreases |rows|
  {
    if |rows| > 0 {
      var p := rows[..|rows| - 1];
      assert rows == p + [rows[|rows| - 1]];
      ColumnAppend(p, rows[|rows| - 1], keyField);
      RowsWithKeyAbsent(p, keyField, k);
    }
  }

  /** Every row of a group holds the group's key. */
  lemma {:induction false} RowsWithKeyHaveKey(rows: seq<Row>, keyField: string, k: Value)
    ensures forall r :: r in RowsWithKey(rows, keyField, k) ==> Get(r, keyField) == k
    decreases |rows|
  {
    if |rows| > 0 {
      RowsWithKeyHaveKey(rows[..|rows| - 1], keyField, k);
    }
  }

  function TotalRows(gs: seq<Group>): nat {
    if |gs| == 0 then 0 else |gs[0].rows| + TotalRows(gs[1..])
  }

  lemma {:induction false} AddRowTotal(gs: seq<Group>, k: Value, row: Row)
    ensures TotalRows(AddRow(gs, k, row)) == TotalRows(gs) + 1
    decreases |gs|
  {
    if |gs| > 0 && gs[0].key != k {
      AddRowTotal(gs[1..], k, row);
      assert AddRow(gs, k, row)[1..] == AddRow(gs[1..], k, row);
    } else if |gs| > 0 {
      assert AddRow(gs, k, row)[1..] == gs[1..];
    }
  }

  /** The groups together hold every input row exactly once: their sizes add up to the input length. */
  lemma {:induction false} NestPartitionsRows(rows: seq<Row>, keyField: string)
    ensures TotalRows(Nest(rows, keyField)) == |rows|
    decreases |rows|
  {
    if |rows| > 0 {
      var p := rows[..|rows| - 1];
      NestPartitionsRows(p, keyField);
      AddRowTotal(Nest(p, keyField), Get(rows[|rows| - 1], keyField), rows[|rows| - 1]);
    }
  }

  // ---------------------------------------------------------------------------
  // getAggValues
  // ---------------------------------------------------------------------------

  /** An entry of `d3.nest().entries(...)` with a rollup: `{key, value}`. */
  datatype Entry = Entry(key: Value, value: Value)

  /**
   * `getAggValues(values, keyField, valueField, aggregate)`: one entry per
   * distinct key, in first-appearance order, whose value reduces that key's
   * rows over `valueField`.
   */
  function GetAggValues(values: seq<Row>, keyField: string, valueField: string, agg: Option<Aggregate>): (r: seq<Entry>)
    ensures |r| == |Keys(values, keyField)|
    ensures forall i :: 0 <= i < |r| ==> r[i].key == Keys(values, keyField)[i]
    ensures forall i :: 0 <= i < |r| ==>
      r[i].value == Reduce(RowsWithKey(values, keyField, r[i].key), valueField, agg)
  {
    var gs := Nest(values, keyField);
    NestIsGrouping(values, keyField);
    seq(|gs|, i requires 0 <= i < |gs| => Entry(gs[i].key, Reduce(gs[i].rows, valueField, agg)))
  }

  /**
   * Every input row lands in exactly one entry: the entry of its own key
   * exists and is unique, and no row falls outside the groups.
   */
  lemma EveryRowInOneGroup(values: seq<Row>, keyField: string, valueField: string, agg: Option<Aggregate>, j: nat)
    requires j < |values|
    ensures var r := GetAggValues(values, keyField, valueField, agg);
      exists i :: 0 <= i < |r| && r[i].key == Get(values[j], keyField)
        && values[j] in RowsWithKey(values, keyField, r[i].key)
        && forall i' :: 0 <= i' < |r| && i' != i ==> r[i'].key != Get(values[j], keyField)
  {
    var r := GetAggValues(values, keyField, valueField, agg);
    var k := Get(values[j], keyField);
    var i := KeyHasOneSlot(values, keyField, j);
    RowInItsGroup(values, keyField, j);
    assert r[i].key == k;
  }

  /** The key of every row appears exactly once among the keys. */
  lemma KeyHasOneSlot(values: seq<Row>, keyField: string, j: nat) returns (i: nat)
    requires j < |values|
    ensures i < |Keys(values, keyField)| && Keys(values, keyField)[i] == Get(values[j], keyField)
    ensures forall i' :: 0 <= i' < |Keys(values, keyField)| && i' != i ==> Keys(values, keyField)[i'] != Get(values[j], keyField)
  {
    var ks := Keys(values, keyField);
    assert Column(values, keyField)[j] == Get(values[j], keyField);
    i := FirstIndex(ks, Get(values[j], keyField));
  }

  lemma {:induction false} RowInItsGroup(rows: seq<Row>, keyField: string, j: nat)
    requires j < |rows|
    ensures rows[j] in RowsWithKey(rows, keyField, Get(rows[j], keyField))
    decreases |rows|
  {
    var p := rows[..|rows| - 1];
    if j < |rows| - 1 {
      assert rows[j] == p[j];
      RowInItsGroup(p, keyField, j);
    }
  }

  function SumCounts(es: seq<Entry>): real {
    if |es| == 0 then 0.0
    else (if es[0].value.Num? then es[0].value.n else 0.0) + SumCounts(es[1..])
  }

  lemma {:induction false} SumCountsIsTotal(gs: seq<Group>, es: seq<Entry>)
    requires |es| == |gs|
    requires forall i :: 0 <= i < |gs| ==> es[i].value == Num(|gs[i].rows| as real)
    ensures SumCounts(es) == TotalRows(gs) as real
    decreases |gs|
  {
    if |gs| > 0 {
      SumCountsIsTotal(gs[1..], es[1..]);
    }
  }

  /**
   * With `count`, each entry holds its group's row count and the counts over
   * all entries add up to the number of input rows.
   */
  lemma CountsSumToInputLength(values: seq<Row>, keyField: string, valueField: string)
    ensures var r := GetAggValues(values, keyField, valueField, Some(Count));
      && (forall i :: 0 <= i < |r| ==> r[i].value == Num(|RowsWithKey(values, keyField, r[i].key)| as real))
      && SumCounts(r) == |values| as real
  {
    var r := GetAggValues(values, keyField, valueField, Some(Count));
    var gs := Nest(values, keyField);
    NestIsGrouping(values, keyField);
    forall i | 0 <= i < |r|
      ensures r[i].value == Num(|RowsWithKey(values, keyField, r[i].key)| as real)
      ensures r[i].value == Num(|gs[i].rows| as real)
    {
      ReduceCount(RowsWithKey(values, keyField, r[i].key), valueField);
    }
    NestPartitionsRows(values, keyField);
    SumCountsIsTotal(gs, r);
  }

  lemma ReduceCount(rows: seq<Row>, field: string)
    ensures Reduce(rows, field, Some(Count)) == Num(|rows| as real)
  {
  }

  lemma ReduceDefaultIsSum(rows: seq<Row>, field: string)
    ensures Reduce(rows, field, None) == Reduce(rows, field, Some(Sum))
    ensures Reduce(rows, field, Some(Unrecognised)) == Reduce(rows, field, Some(Sum))
  {
  }

  /** A missing aggregate and an unrecognised one both behave exactly like `sum`. */
  lemma DefaultAggregateIsSum(values: seq<Row>, keyField: string, valueField: string)
    ensures GetAggValues(values, keyField, valueField, None) == GetAggValues(values, keyField, valueField, Some(Sum))
    ensures GetAggValues(values, keyField, valueField, Some(Unrecognised)) == GetAggValues(values, keyField, valueField, Some(Sum))
  {
    var a := GetAggValues(values, keyField, valueField, None);
    var b := GetAggValues(values, keyField, valueField, Some(Sum));
    var c := GetAggValues(values, keyField, valueField, Some(Unrecognised));
    forall i | 0 <= i < |b|
      ensures a[i] == b[i] && c[i] == b[i]
    {
      ReduceDefaultIsSum(RowsWithKey(values, keyField, b[i].key), valueField);
    }
  }

  /** `min` of a set of rows, read off the numbers of its column. */
  lemma ReduceMinIs(rows: seq<Row>, field: string)
    ensures var xs := Numbers(Column(rows, field));
      Reduce(rows, field, Some(Min)) == (if |xs| == 0 then Undef else Num(MinOf(xs)))
  {
  }

  /** `max` of a set of rows, read off the numbers of its column. */
  lemma ReduceMaxIs(rows: seq<Row>, field: string)
    ensures var xs := Numbers(Column(rows, field));
      Reduce(rows, field, Some(Max)) == (if |xs| == 0 then Undef else Num(MaxOf(xs)))
  {
  }

  /** `median` of a set of rows, read off the numbers of its column. */
  lemma ReduceMedianIs(rows: seq<Row>, field: string)
    ensures var xs := Numbers(Column(rows, field));
      Reduce(rows, field, Some(Median)) == (if |xs| == 0 then Undef else Num(MedianOf(xs)))
  {
  }

  /**
   * `min` and `max` of a set of rows: undefined exactly when the column holds
   * no number, and otherwise the least and the greatest of its numbers.
   */
  lemma ReduceMinMax(rows: seq<Row>, field: string)
    ensures var lo := Reduce(rows, field, Some(Min));
      var hi := Reduce(rows, field, Some(Max));
      var col := Column(rows, field);
      && (lo.Undef? <==> forall k :: 0 <= k < |col| ==> !col[k].Num?)
      && (lo.Num? <==> hi.Num?)
      && (lo.Num? ==> lo in col && hi in col)
      && (lo.Num? ==> forall k :: 0 <= k < |col| && col[k].Num? ==> lo.n <= col[k].n <= hi.n)
  {
    var col := Column(rows, field);
    var xs := Numbers(col);
    NumbersEmpty(col);
    ReduceMinIs(rows, field);
    ReduceMaxIs(rows, field);
    if |xs| > 0 {
      var lo, hi := MinOf(xs), MaxOf(xs);
      assert Num(lo) in col && Num(hi) in col;
      forall k | 0 <= k < |col| && col[k].Num?
        ensures lo <= col[k].n <= hi
      {
        assert col[k] == Num(col[k].n);
        assert col[k].n in xs;
      }
    }
  }

  /** The running total of a column, row by row from the last one back; non-numbers add nothing. */
  function ColumnTotal(rows: seq<Row>, field: string): real
    decreases |rows|
  {
    if |rows| == 0 then 0.0
    else ColumnTotal(rows[..|rows| - 1], field) + AmountOf(Get(rows[|rows| - 1], field))
  }

  /** How many rows hold a number in the field, counted row by row from the last one back. */
  function NumericCount(rows: seq<Row>, field: string): nat
    decreases |rows|
  {
    if |rows| == 0 then 0
    else NumericCount(rows[..|rows| - 1], field) + (if Get(rows[|rows| - 1], field).Num? then 1 else 0)
  }

  lemma {:induction false} NumbersAppend(a: seq<Value>, b: seq<Value>)
    ensures Numbers(a + b) == Numbers(a) + Numbers(b)
  {
    NumberCellsAppend(a, b);
  }

  lemma {:induction false} NumberCellsAppend(a: seq<Value>, b: seq<Value>)
    ensures NumberCells(a + b) == NumberCells(a) + NumberCells(b)
    decreases |a|
  {
    if |a| > 0 {
      assert (a + b)[0] == a[0];
      assert (a + b)[1..] == a[1..] + b;
      NumberCellsAppend(a[1..], b);
    } else {
      assert a + b == b;
    }
  }

  lemma {:induction false} SumOfAppend(x: seq<real>, y: seq<real>)
    ensures SumOf(x + y) == SumOf(x) + SumOf(y)
    decreases |x|
  {
    if |x| > 0 {
      assert (x + y)[0] == x[0];
      assert (x + y)[1..] == x[1..] + y;
      SumOfAppend(x[1..], y);
    } else {
      assert x + y == y;
    }
  }

  /** A further row adds its cell's number, if it holds one, at the end of the column's numbers. */
  lemma NumbersOfLastRow(p: seq<Row>, last: Row, field: string)
    ensures var v := Get(last, field);
      Numbers(Column(p + [last], field)) == Numbers(Column(p, field)) + (if v.Num? then [v.n] else [])
  {
    var v := Get(last, field);
    ColumnAppend(p, last, field);
    NumbersAppend(Column(p, field), [v]);
    assert [v][1..] == [];
    assert NumberCells([v]) == (if v.Num? then [v.n] else []) + NumberCells([]);
  }

  /** The numbers of a column grow by the last row's amount. */
  lemma SumOfNumbersStep(p: seq<Row>, last: Row, field: string)
    ensures SumOf(Numbers(Column(p + [last], field))) == SumOf(Numbers(Column(p, field))) + AmountOf(Get(last, field))
  {
    var v := Get(last, field);
    NumbersOfLastRow(p, last, field);
    SumOfAppend(Numbers(Column(p, field)), if v.Num? then [v.n] else []);
  }

  lemma {:induction false} SumOfColumnIsTotal(rows: seq<Row>, field: string)
    ensures SumOf(Numbers(Column(rows, field))) == ColumnTotal(rows, field)
    decreases |rows|
  {
    if |rows| > 0 {
      var p, last := rows[..|rows| - 1], rows[|rows| - 1];
      assert rows == p + [last];
      SumOfColumnIsTotal(p, field);
      SumOfNumbersStep(p, last, field);
    } else {
      assert Column(rows, field) == [];
    }
  }

  /** `sum` (and so a missing or unrecognised aggregate) is the arithmetic total of the column. */
  lemma ReduceSumIsColumnTotal(rows: seq<Row>, field: string)
    ensures Reduce(rows, field, Some(Sum)) == Num(ColumnTotal(rows, field))
  {
    SumOfColumnIsTotal(rows, field);
  }

  /** The numbers d3 reduces over are as many as the rows holding a number. */
  lemma {:induction false} NumbersCountIsNumericCount(rows: seq<Row>, field: string)
    ensures |Numbers(Column(rows, field))| == NumericCount(rows, field)
    decreases |rows|
  {
    if |rows| > 0 {
      var p, last := rows[..|rows| - 1], rows[|rows| - 1];
      assert rows == p + [last];
      NumbersCountIsNumericCount(p, field);
      NumbersOfLastRow(p, last, field);
    } else {
      assert Column(rows, field) == [];
    }
  }

  /**
   * `mean` of any group: undefined exactly when no row holds a number, and
   * otherwise the total of the numbers over how many there are, so cells
   * that hold no number leave both the total and the divisor alone.
   */
  lemma {:induction false} ReduceMeanIsAverage(rows: seq<Row>, field: string)
    ensures NumericCount(rows, field) == 0 <==> Reduce(rows, field, Some(Mean)).Undef?
    ensures NumericCount(rows, field) > 0 ==>
      Reduce(rows, field, Some(Mean)) == Num(ColumnTotal(rows, field) / NumericCount(rows, field) as real)
  {
    NumbersCountIsNumericCount(rows, field);
    SumOfColumnIsTotal(rows, field);
  }

  /** The mean of rows that all hold numbers is their sum divided by their count. */
  lemma ReduceMean(rows: seq<Row>, field: string)
    requires |rows| > 0
    requires forall k :: 0 <= k < |rows| ==> Get(rows[k], field).Num?
    ensures var s := Reduce(rows, field, Some(Sum));
      var c := Reduce(rows, field, Some(Count));
      var m := Reduce(rows, field, Some(Mean));
      m.Num? && s.Num? && c.Num? && c.n > 0.0 && m.n == s.n / c.n
  {
    assert |Numbers(Column(rows, field))| == |rows|;
  }

  /** The median of a set of rows lies between their min and max. */
  lemma ReduceMedian(rows: seq<Row>, field: string)
    ensures var lo := Reduce(rows, field, Some(Min));
      var hi := Reduce(rows, field, Some(Max));
      var md := Reduce(rows, field, Some(Median));
      (md.Num? <==> lo.Num?) && (md.Num? ==> lo.n <= md.n <= hi.n)
  {
    ReduceMinIs(rows, field);
    ReduceMaxIs(rows, field);
    ReduceMedianIs(rows, field);
  }

  // ---------------------------------------------------------------------------
  // Aggregated rows (the row-shaped variant the data stage calls)
  // ---------------------------------------------------------------------------

  /** Writes each value field's reduction of `rows` into `row`, field by field. */
  function WriteReductions(row: Row, rows: seq<Row>, fields: seq<string>, agg: Option<Aggregate>): (r: Row)
    ensures forall f :: f in r <==> f in row || f in fields
    ensures forall f :: f in fields ==> r[f] == Reduce(rows, f, agg)
    ensures forall f :: f in row && f !in fields ==> r[f] == row[f]
    decreases |fields|
  {
    if |fields| == 0 then row
    else WriteReductions(row[fields[0] := Reduce(rows, fields[0], agg)], rows, fields[1..], agg)
  }

  /**
   * `rows` are the aggregation of `values` by `keyField`: one row per distinct
   * key, in first-appearance order, holding the key and, under each value
   * field, the reduction of that key's rows.
   */
  ghost predicate IsAggregationOf(rows: seq<Row>, values: seq<Row>, keyField: string, valueFields: seq<string>, agg: Option<Aggregate>) {
    && |rows| == |Keys(values, keyField)|
    && (forall i, f :: 0 <= i < |rows| ==> (f in rows[i] <==> f == keyField || f in valueFields))
    && (keyField !in valueFields ==> forall i :: 0 <= i < |rows| ==> Get(rows[i], keyField) == Keys(values, keyField)[i])
    && (forall i, f :: 0 <= i < |rows| && f in valueFields ==>
          Get(rows[i], f) == Reduce(RowsWithKey(values, keyField, Keys(values, keyField)[i]), f, agg))
  }

  /**
   * The row-shaped variant of getAggValues the data stage calls: the same
   * grouping and reduction, one output row per key.
   */
  function AggRows(values: seq<Row>, keyField: string, valueFields: seq<string>, agg: Option<Aggregate>): (r: seq<Row>)
    ensures IsAggregationOf(r, values, keyField, valueFields, agg)
  {
    AggregateGroupsIsAggregation(values, keyField, valueFields, agg);
    AggregateGroups(Nest(values, keyField), keyField, valueFields, agg)
  }

  /** One row per group: its key under `keyField` and the reductions of its rows. */
  function AggregateGroups(gs: seq<Group>, keyField: string, valueFields: seq<string>, agg: Option<Aggregate>): seq<Row> {
    seq(|gs|, i requires 0 <= i < |gs| => WriteReductions(map[keyField := gs[i].key], gs[i].rows, valueFields, agg))
  }

  lemma AggregateGroupsIsAggregation(values: seq<Row>, keyField: string, valueFields: seq<string>, agg: Option<Aggregate>)
    ensures IsAggregationOf(AggregateGroups(Nest(values, keyField), keyField, valueFields, agg), values, keyField, valueFields, agg)
  {
    var gs := Nest(values, keyField);
    var rows := AggregateGroups(gs, keyField, valueFields, agg);
    var keys := Keys(values, keyField);
    NestIsGrouping(values, keyField);
    forall i | 0 <= i < |rows|
      ensures forall f :: f in rows[i] <==> f == keyField || f in valueFields
      ensures keyField !in valueFields ==> Get(rows[i], keyField) == keys[i]
      ensures forall f :: f in valueFields ==> Get(rows[i], f) == Reduce(RowsWithKey(values, keyField, keys[i]), f, agg)
    {
      assert gs[i] == Group(keys[i], RowsWithKey(values, keyField, keys[i]));
    }
  }

  /** Aggregated rows carry each key once. */
  lemma AggRowsKeysDistinct(values: seq<Row>, keyField: string, valueFields: seq<string>, agg: Option<Aggregate>)
    requires keyField !in valueFields
    ensures Column(AggRows(values, keyField, valueFields, agg), keyField) == Keys(values, keyField)
    ensures NoDuplicates(Column(AggRows(values, keyField, valueFields, agg), keyField))
  {
  }

  // ---------------------------------------------------------------------------
  // isBarChart
  // ---------------------------------------------------------------------------

  /** `isBarChart` of index.ts: x ordinal and y quantitative. */
  predicate IsBarChart(s: Spec) {
    s.encoding.x.ftype == Ordinal && s.encoding.y.ftype == Quantitative
  }
}
