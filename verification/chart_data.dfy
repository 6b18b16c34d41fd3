/**
 * Per-chart data resolution and the derived difference data
 * (`getChartData` in visualizations/data-handler/chart-data-manager.ts).
 */
module ChartDataManager {
  import opened Wrappers
  import opened Values
  import opened Specs
  import opened Aggregation

  /**
   * `getPivotData(values, keyFields, valueField, aggregate, domains?)`. The
   * pivot helper is not part of this model; the operations that call it take
   * it as a parameter and promise nothing about its rows.
   */
  type Pivot = (seq<Row>, seq<string>, string, Option<Aggregate>, Option<seq<seq<Value>>>) -> seq<Row>

  /** `{A, B}`: each chart's resolved rows, undefined when not computed. */
  datatype ChartData = ChartData(a: Option<seq<Row>>, b: Option<seq<Row>>)

  /** A bar chart is vertical when its y channel is quantitative. */
  predicate IsVerticalBar(s: Spec) {
    s.encoding.y.ftype == Quantitative
  }

  /** The category channel of a bar chart. */
  function NominalDef(s: Spec): FieldDef {
    if IsVerticalBar(s) then s.encoding.x else s.encoding.y
  }

  /** The value channel of a bar chart, whose aggregate the bars use. */
  function QuantDef(s: Spec): FieldDef {
    if IsVerticalBar(s) then s.encoding.y else s.encoding.x
  }

  /**
   * One chart's resolved data. A heatmap pivots its rows by (x, y); a bar
   * chart aggregates its value field per category; a scatterplot aggregates
   * x and y per color group with x's aggregate, or passes its rows through
   * when x names no aggregate; a chart of no known kind gets no data.
   */
  function ResolveChart(spec: Spec, pivot: Pivot, domains: Option<seq<seq<Value>>>): (r: Result<Option<seq<Row>>, Fault>)
    ensures spec.kind == Unclassified ==> r == Success(None)
    ensures spec.kind == Heatmap ==> (r.Failure? <==> spec.encoding.color.None?)
    ensures spec.kind == Heatmap && r.Success? ==> r.value.Some?
    ensures spec.kind == BarChart ==> r.Success? && r.value.Some?
    ensures spec.kind == BarChart ==>
      IsAggregationOf(r.value.value, spec.values, NominalDef(spec).field, [QuantDef(spec).field], QuantDef(spec).aggregate)
    ensures spec.kind == Scatterplot && !IsAggregated(spec.encoding.x.aggregate) ==> r == Success(Some(spec.values))
    ensures spec.kind == Scatterplot && IsAggregated(spec.encoding.x.aggregate) ==>
      && (r.Failure? <==> spec.encoding.color.None?)
      && (r.Success? ==>
            && r.value.Some?
            && IsAggregationOf(r.value.value, spec.values, spec.encoding.color.value.field,
                 [spec.encoding.x.field, spec.encoding.y.field], spec.encoding.x.aggregate))
    ensures r.Failure? ==> r.error == MissingColor
  {
    var enc := spec.encoding;
    match spec.kind
    case Heatmap =>
      if enc.color.None? then Failure(MissingColor)
      else Success(Some(pivot(spec.values, [enc.x.field, enc.y.field], enc.color.value.field, enc.color.value.aggregate, domains)))
    case BarChart =>
      Success(Some(AggRows(spec.values, NominalDef(spec).field, [QuantDef(spec).field], QuantDef(spec).aggregate)))
    case Scatterplot =>
      if !IsAggregated(enc.x.aggregate) then Success(Some(spec.values))
      else if enc.color.None? then Failure(MissingColor)
      else Success(Some(AggRows(spec.values, enc.color.value.field, [enc.x.field, enc.y.field], enc.x.aggregate)))
    case Unclassified => Success(None)
  }

  // ---------------------------------------------------------------------------
  // Difference data
  // ---------------------------------------------------------------------------

  /**
   * Both-bar difference: for each of A's rows, A's key and A's value minus the
   * value of the first B row whose key is strictly equal. A key B lacks stops
   * the computation.
   */
  function BarDifference(aRows: seq<Row>, bRows: seq<Row>, an: string, aq: string, bn: string, bq: string): (r: Result<seq<Row>, Fault>)
    ensures r.Success? <==> forall i :: 0 <= i < |aRows| ==> MatchKey(bRows, bn, Get(aRows[i], an)).Some?
    ensures r.Failure? ==> r.error == NoMatch
    ensures r.Success? ==> |r.value| == |aRows|
    ensures r.Success? ==> forall i :: 0 <= i < |aRows| ==>
      var j := MatchKey(bRows, bn, Get(aRows[i], an)).value;
      && r.value[i].Keys == {an, aq}
      && Get(r.value[i], aq) == Minus(Get(aRows[i], aq), Get(bRows[j], bq))
      && (an != aq ==> Get(r.value[i], an) == Get(aRows[i], an))
  {
    if forall i :: 0 <= i < |aRows| ==> MatchKey(bRows, bn, Get(aRows[i], an)).Some? then
      Success(seq(|aRows|, i requires 0 <= i < |aRows| =>
        var a := aRows[i];
        var b := bRows[MatchKey(bRows, bn, Get(a, an)).value];
        map[an := Get(a, an)][aq := Minus(Get(a, aq), Get(b, bq))]))
    else Failure(NoMatch)
  }

  /** The difference of two heatmap cells: no difference when both are null or undefined. */
  function CellDifference(u: Value, v: Value): (r: Value)
    ensures IsNullish(u) && IsNullish(v) ==> r.Undef?
    ensures u.Num? && v.Num? ==> r == Num(u.n - v.n)
    ensures u.Null? && v.Num? ==> r == Num(-v.n)
    ensures !r.Num? ==> r.Undef? || r.NaN?
  {
    if IsNullish(u) && IsNullish(v) then Undef else Minus(u, v)
  }

  /**
   * Both-heatmap difference: for each of A's cells, its (x, y) key and the
   * difference between its color value and that of the first B cell with the
   * same (x, y) key. A key pair B lacks stops the computation.
   */
  function HeatmapDifference(aRows: seq<Row>, bRows: seq<Row>, aX: string, aY: string, aC: string, bX: string, bY: string, bC: string): (r: Result<seq<Row>, Fault>)
    ensures r.Success? <==> forall i :: 0 <= i < |aRows| ==>
      MatchCell(bRows, bX, Get(aRows[i], aX), bY, Get(aRows[i], aY)).Some?
    ensures r.Failure? ==> r.error == NoMatch
    ensures r.Success? ==> |r.value| == |aRows|
    ensures r.Success? ==> forall i :: 0 <= i < |aRows| ==>
      var j := MatchCell(bRows, bX, Get(aRows[i], aX), bY, Get(aRows[i], aY)).value;
      && r.value[i].Keys == {aX, aY, aC}
      && Get(r.value[i], aC) == CellDifference(Get(aRows[i], aC), Get(bRows[j], bC))
      && (aX != aC && aX != aY ==> Get(r.value[i], aX) == Get(aRows[i], aX))
      && (aY != aC ==> Get(r.value[i], aY) == Get(aRows[i], aY))
  {
    if forall i :: 0 <= i < |aRows| ==> MatchCell(bRows, bX, Get(aRows[i], aX), bY, Get(aRows[i], aY)).Some? then
      Success(seq(|aRows|, i requires 0 <= i < |aRows| =>
        var a := aRows[i];
        var b := bRows[MatchCell(bRows, bX, Get(a, aX), bY, Get(a, aY)).value];
        map[aX := Get(a, aX)][aY := Get(a, aY)][aC := CellDifference(Get(a, aC), Get(b, bC))]))
    else Failure(NoMatch)
  }

  /**
   * Aggregated-scatterplot difference: for each of A's color groups, the
   * group's color and A's x and y minus those of the first B group with the
   * same color. A color B lacks stops the computation.
   */
  function ScatterGroupDifference(aRows: seq<Row>, bRows: seq<Row>, aX: string, aY: string, aC: string, bX: string, bY: string, bC: string): (r: Result<seq<Row>, Fault>)
    ensures r.Success? <==> forall i :: 0 <= i < |aRows| ==> MatchKey(bRows, bC, Get(aRows[i], aC)).Some?
    ensures r.Failure? ==> r.error == NoMatch
    ensures r.Success? ==> |r.value| == |aRows|
    ensures r.Success? ==> forall i :: 0 <= i < |aRows| ==>
      var j := MatchKey(bRows, bC, Get(aRows[i], aC)).value;
      && r.value[i].Keys == {aC, aX, aY}
      && Get(r.value[i], aY) == Minus(Get(aRows[i], aY), Get(bRows[j], bY))
      && (aX != aY ==> Get(r.value[i], aX) == Minus(Get(aRows[i], aX), Get(bRows[j], bX)))
      && (aC != aX && aC != aY ==> Get(r.value[i], aC) == Get(aRows[i], aC))
  {
    if forall i :: 0 <= i < |aRows| ==> MatchKey(bRows, bC, Get(aRows[i], aC)).Some? then
      Success(seq(|aRows|, i requires 0 <= i < |aRows| =>
        var a := aRows[i];
        var b := bRows[MatchKey(bRows, bC, Get(a, aC)).value];
        map[aC := Get(a, aC)][aX := Minus(Get(a, aX), Get(b, bX))][aY := Minus(Get(a, aY), Get(b, bY))]))
    else Failure(NoMatch)
  }

  /**
   * Unaggregated-scatterplot difference: A's i-th point minus B's i-th point,
   * aligned by position only. B needs at least as many points as A.
   */
  function ScatterIndexDifference(aRows: seq<Row>, bRows: seq<Row>, aX: string, aY: string, aC: string, bX: string, bY: string): (r: Result<seq<Row>, Fault>)
    ensures r.Success? <==> |bRows| >= |aRows|
    ensures r.Failure? ==> r.error == NoMatch
    ensures r.Success? ==> |r.value| == |aRows|
    ensures r.Success? ==> forall i :: 0 <= i < |aRows| ==>
      && r.value[i].Keys == {aC, aX, aY}
      && Get(r.value[i], aY) == Minus(Get(aRows[i], aY), Get(bRows[i], bY))
      && (aX != aY ==> Get(r.value[i], aX) == Minus(Get(aRows[i], aX), Get(bRows[i], bX)))
      && (aC != aX && aC != aY ==> Get(r.value[i], aC) == Get(aRows[i], aC))
  {
    if |bRows| >= |aRows| then
      Success(seq(|aRows|, i requires 0 <= i < |aRows| =>
        var a := aRows[i];
        var b := bRows[i];
        map[aC := Get(a, aC)][aX := Minus(Get(a, aX), Get(b, bX))][aY := Minus(Get(a, aY), Get(b, bY))]))
    else Failure(NoMatch)
  }

  /** Both charts are aggregated scatterplots. */
  predicate IsBothAggregatedScatterplot(A: Spec, B: Spec) {
    A.kind == Scatterplot && B.kind == Scatterplot && IsChartDataAggregated(A) && IsChartDataAggregated(B)
  }

  /**
   * The explicit-encoding step: replaces A's resolved rows by their difference
   * from B's when both charts are of the same kind, and leaves them alone
   * otherwise. Bars align by category, heatmaps by (x, y) cell, aggregated
   * scatterplots by color group and all other scatterplots by position; a
   * heatmap or aggregated scatterplot pair needs a color on both sides, any
   * other scatterplot pair on A's side.
   */
  function Difference(A: Spec, B: Spec, a: Option<seq<Row>>, b: Option<seq<Row>>): (r: Result<Option<seq<Row>>, Fault>)
    ensures A.kind != B.kind || A.kind == Unclassified ==> r == Success(a)
    ensures r.Success? && A.kind == B.kind && A.kind != Unclassified ==> r.value.Some? && a.Some? && b.Some?
    ensures A.kind == B.kind && A.kind != Unclassified && (a.None? || b.None?) ==> r == Failure(MissingData)
    ensures A.kind == BarChart && B.kind == BarChart && a.Some? && b.Some? ==>
      var d := BarDifference(a.value, b.value, NominalDef(A).field, QuantDef(A).field, NominalDef(B).field, QuantDef(B).field);
      && (r.Success? <==> d.Success?)
      && (r.Success? ==> r.value == Some(d.value))
    ensures A.kind == Heatmap && B.kind == Heatmap && a.Some? && b.Some? ==>
      && (A.encoding.color.None? || B.encoding.color.None? ==> r == Failure(MissingColor))
      && (A.encoding.color.Some? && B.encoding.color.Some? ==>
            var d := HeatmapDifference(a.value, b.value, A.encoding.x.field, A.encoding.y.field, A.encoding.color.value.field,
                                       B.encoding.x.field, B.encoding.y.field, B.encoding.color.value.field);
            && (r.Success? <==> d.Success?)
            && (r.Success? ==> r.value == Some(d.value)))
    ensures IsBothAggregatedScatterplot(A, B) && a.Some? && b.Some? ==>
      && (A.encoding.color.None? || B.encoding.color.None? ==> r == Failure(MissingColor))
      && (A.encoding.color.Some? && B.encoding.color.Some? ==>
            var d := ScatterGroupDifference(a.value, b.value, A.encoding.x.field, A.encoding.y.field, A.encoding.color.value.field,
                                            B.encoding.x.field, B.encoding.y.field, B.encoding.color.value.field);
            && (r.Success? <==> d.Success?)
            && (r.Success? ==> r.value == Some(d.value)))
    ensures A.kind == Scatterplot && B.kind == Scatterplot && !IsBothAggregatedScatterplot(A, B) && a.Some? && b.Some? ==>
      && (A.encoding.color.None? ==> r == Failure(MissingColor))
      && (A.encoding.color.Some? ==>
            var d := ScatterIndexDifference(a.value, b.value, A.encoding.x.field, A.encoding.y.field, A.encoding.color.value.field,
                                            B.encoding.x.field, B.encoding.y.field);
            && (r.Success? <==> d.Success?)
            && (r.Success? ==> r.value == Some(d.value)))
  {
    if a.None? || b.None? then
      if A.kind == B.kind && A.kind != Unclassified then Failure(MissingData) else Success(a)
    else if A.kind == BarChart && B.kind == BarChart then
      var d :- BarDifference(a.value, b.value, NominalDef(A).field, QuantDef(A).field, NominalDef(B).field, QuantDef(B).field);
      Success(Some(d))
    else if A.kind == Heatmap && B.kind == Heatmap then
      if A.encoding.color.None? || B.encoding.color.None? then Failure(MissingColor)
      else
        var d :- HeatmapDifference(a.value, b.value, A.encoding.x.field, A.encoding.y.field, A.encoding.color.value.field,
                                   B.encoding.x.field, B.encoding.y.field, B.encoding.color.value.field);
        Success(Some(d))
    else if A.kind == Scatterplot && B.kind == Scatterplot then
      if IsBothAggregatedScatterplot(A, B) then
        if A.encoding.color.None? || B.encoding.color.None? then Failure(MissingColor)
        else
          var d :- ScatterGroupDifference(a.value, b.value, A.encoding.x.field, A.encoding.y.field, A.encoding.color.value.field,
                                          B.encoding.x.field, B.encoding.y.field, B.encoding.color.value.field);
          Success(Some(d))
      else if A.encoding.color.None? then Failure(MissingColor)
      else
        var d :- ScatterIndexDifference(a.value, b.value, A.encoding.x.field, A.encoding.y.field, A.encoding.color.value.field,
                                        B.encoding.x.field, B.encoding.y.field);
        Success(Some(d))
    else Success(a)
  }

  /**
   * `getChartData(A, B?, C?, domains?)`: resolves A, then B when given; with
   * a comparison that asks for an explicit encoding, replaces A's rows by the
   * difference data. B's resolved rows are never changed by that step.
   */
  function GetChartData(A: Spec, B: Option<Spec>, C: Option<CompSpec>, pivot: Pivot, domains: Option<seq<seq<Value>>>): (r: Result<ChartData, Fault>)
    ensures r.Success? ==> ResolveChart(A, pivot, domains).Success?
    ensures B.None? ==> (r.Success? <==> ResolveChart(A, pivot, domains).Success?)
    ensures B.None? && r.Success? ==> r.value == ChartData(ResolveChart(A, pivot, domains).value, None)
    ensures B.Some? && r.Success? ==>
      ResolveChart(B.value, pivot, domains).Success? && r.value.b == ResolveChart(B.value, pivot, domains).value
    ensures C.None? || !C.value.explicitEncoding ==>
      (r.Success? <==>
         && ResolveChart(A, pivot, domains).Success?
         && (B.Some? ==> ResolveChart(B.value, pivot, domains).Success?))
    ensures (C.None? || !C.value.explicitEncoding) && r.Success? ==> r.value.a == ResolveChart(A, pivot, domains).value
  {
    var a :- ResolveChart(A, pivot, domains);
    var b :- if B.None? then Success(None) else ResolveChart(B.value, pivot, domains);
    if C.None? || !C.value.explicitEncoding || B.None? then Success(ChartData(a, b))
    else
      var d :- Difference(A, B.value, a, b);
      Success(ChartData(d, b))
  }

  // ---------------------------------------------------------------------------
  // Properties of the difference data
  // ---------------------------------------------------------------------------

  /**
   * Between two aggregated bar charts, the first B row whose key is strictly
   * equal to A's i-th key is the row of that very key.
   */
  lemma MatchedBarRowHasKey(bVals: seq<Row>, bn: string, bq: string, aggB: Option<Aggregate>, key: Value)
    requires bn != bq
    requires MatchKey(AggRows(bVals, bn, [bq], aggB), bn, key).Some?
    ensures var bRows := AggRows(bVals, bn, [bq], aggB);
      var j := MatchKey(bRows, bn, key).value;
      && j < |Keys(bVals, bn)| && Keys(bVals, bn)[j] == key
      && Get(bRows[j], bq) == Reduce(RowsWithKey(bVals, bn, key), bq, aggB)
  {
    var bRows := AggRows(bVals, bn, [bq], aggB);
    var j := MatchKey(bRows, bn, key).value;
    assert Get(bRows[j], bn) == Keys(bVals, bn)[j];
    assert bq in [bq];
  }

  /** A strictly equal key is found in B exactly when it is one of B's keys and not NaN. */
  lemma MatchKeyFound(bRows: seq<Row>, bn: string, key: Value)
    ensures MatchKey(bRows, bn, key).Some? <==> !key.NaN? && key in Column(bRows, bn)
  {
    if !key.NaN? && key in Column(bRows, bn) {
      var j :| 0 <= j < |bRows| && Column(bRows, bn)[j] == key;
      assert StrictEq(Get(bRows[j], bn), key);
    }
  }

  /** Over any rows, the both-bar difference succeeds exactly when every key of A is a key of B and not NaN. */
  lemma BarDifferenceSucceedsOnRows(aRows: seq<Row>, bRows: seq<Row>, an: string, aq: string, bn: string, bq: string)
    ensures BarDifference(aRows, bRows, an, aq, bn, bq).Success?
      <==> forall k :: k in Column(aRows, an) ==> !k.NaN? && k in Column(bRows, bn)
  {
    forall i | 0 <= i < |aRows|
      ensures MatchKey(bRows, bn, Get(aRows[i], an)).Some? <==> !Get(aRows[i], an).NaN? && Get(aRows[i], an) in Column(bRows, bn)
    {
      MatchKeyFound(bRows, bn, Get(aRows[i], an));
    }
    if !BarDifference(aRows, bRows, an, aq, bn, bq).Success? {
      var i :| 0 <= i < |aRows| && MatchKey(bRows, bn, Get(aRows[i], an)).None?;
      assert Column(aRows, an)[i] == Get(aRows[i], an);
    }
  }

  /**
   * The both-bar difference succeeds exactly when every category of A is a
   * category of B (and is not NaN, which equals nothing).
   */
  lemma BarDifferenceSucceedsIff(aVals: seq<Row>, bVals: seq<Row>, an: string, aq: string, bn: string, bq: string,
                                 aggA: Option<Aggregate>, aggB: Option<Aggregate>)
    requires an != aq && bn != bq
    ensures BarDifference(AggRows(aVals, an, [aq], aggA), AggRows(bVals, bn, [bq], aggB), an, aq, bn, bq).Success?
      <==> forall k :: k in Keys(aVals, an) ==> !k.NaN? && k in Keys(bVals, bn)
  {
    assert an !in [aq] && bn !in [bq];
    AggRowsKeysDistinct(aVals, an, [aq], aggA);
    AggRowsKeysDistinct(bVals, bn, [bq], aggB);
    BarDifferenceSucceedsOnRows(AggRows(aVals, an, [aq], aggA), AggRows(bVals, bn, [bq], aggB), an, aq, bn, bq);
  }

  /**
   * The both-bar difference is the per-category gap between the two charts:
   * A's i-th category keeps its key, and its value is A's aggregate over the
   * category minus B's aggregate over the same category.
   */
  lemma BarDifferenceIsCategoryGap(aVals: seq<Row>, bVals: seq<Row>, an: string, aq: string, bn: string, bq: string,
                                   aggA: Option<Aggregate>, aggB: Option<Aggregate>, i: int)
    requires an != aq && bn != bq
    requires BarDifference(AggRows(aVals, an, [aq], aggA), AggRows(bVals, bn, [bq], aggB), an, aq, bn, bq).Success?
    requires 0 <= i < |Keys(aVals, an)|
    ensures var d := BarDifference(AggRows(aVals, an, [aq], aggA), AggRows(bVals, bn, [bq], aggB), an, aq, bn, bq).value;
      var key := Keys(aVals, an)[i];
      && |d| == |Keys(aVals, an)|
      && Get(d[i], an) == key
      && Get(d[i], aq) == Minus(Reduce(RowsWithKey(aVals, an, key), aq, aggA), Reduce(RowsWithKey(bVals, bn, key), bq, aggB))
  {
    var aRows := AggRows(aVals, an, [aq], aggA);
    var key := Keys(aVals, an)[i];
    assert Get(aRows[i], an) == key;
    assert aq in [aq];
    MatchedBarRowHasKey(bVals, bn, bq, aggB, key);
  }

  /** A bar chart compared with itself shows a zero gap wherever its aggregate is a number. */
  lemma BarSelfDifferenceIsZero(vals: seq<Row>, an: string, aq: string, agg: Option<Aggregate>, i: int)
    requires an != aq
    requires BarDifference(AggRows(vals, an, [aq], agg), AggRows(vals, an, [aq], agg), an, aq, an, aq).Success?
    requires 0 <= i < |Keys(vals, an)|
    requires Reduce(RowsWithKey(vals, an, Keys(vals, an)[i]), aq, agg).Num?
    ensures Get(BarDifference(AggRows(vals, an, [aq], agg), AggRows(vals, an, [aq], agg), an, aq, an, aq).value[i], aq) == Num(0.0)
  {
    BarDifferenceIsCategoryGap(vals, vals, an, aq, an, aq, agg, agg, i);
  }

  /** Swapping the two heatmaps negates the difference of two numeric cells. */
  lemma CellDifferenceAntiSymmetric(u: Value, v: Value)
    requires ToNumber(u).Some? && ToNumber(v).Some?
    requires !(IsNullish(u) && IsNullish(v))
    ensures CellDifference(u, v).Num? && CellDifference(v, u).Num?
    ensures CellDifference(u, v).n == -CellDifference(v, u).n
  {
  }

  /**
   * Under an explicit encoding of two bar charts, A's data becomes the
   * per-category gap to B while B keeps its own aggregated bars.
   */
  lemma ExplicitBarsShowCategoryGap(A: Spec, B: Spec, C: CompSpec, pivot: Pivot, domains: Option<seq<seq<Value>>>, i: int)
    requires A.kind == BarChart && B.kind == BarChart && C.explicitEncoding
    requires NominalDef(A).field != QuantDef(A).field && NominalDef(B).field != QuantDef(B).field
    requires GetChartData(A, Some(B), Some(C), pivot, domains).Success?
    requires 0 <= i < |Keys(A.values, NominalDef(A).field)|
    ensures var d := GetChartData(A, Some(B), Some(C), pivot, domains).value;
      var an := NominalDef(A).field;
      var aq := QuantDef(A).field;
      var key := Keys(A.values, an)[i];
      && d.a.Some? && d.b.Some?
      && |d.a.value| == |Keys(A.values, an)|
      && Get(d.a.value[i], an) == key
      && Get(d.a.value[i], aq) ==
           Minus(Reduce(RowsWithKey(A.values, an, key), aq, QuantDef(A).aggregate),
                 Reduce(RowsWithKey(B.values, NominalDef(B).field, key), QuantDef(B).field, QuantDef(B).aggregate))
      && IsAggregationOf(d.b.value, B.values, NominalDef(B).field, [QuantDef(B).field], QuantDef(B).aggregate)
  {
    BarDifferenceIsCategoryGap(A.values, B.values, NominalDef(A).field, QuantDef(A).field, NominalDef(B).field, QuantDef(B).field,
                               QuantDef(A).aggregate, QuantDef(B).aggregate, i);
  }

  /**
   * Swapping the two bar charts negates the difference of every category
   * both charts aggregate to a number.
   */
  lemma BarDifferenceAntiSymmetric(aVals: seq<Row>, bVals: seq<Row>, an: string, aq: string, bn: string, bq: string,
                                   aggA: Option<Aggregate>, aggB: Option<Aggregate>, i: int, j: int)
    requires an != aq && bn != bq
    requires BarDifference(AggRows(aVals, an, [aq], aggA), AggRows(bVals, bn, [bq], aggB), an, aq, bn, bq).Success?
    requires BarDifference(AggRows(bVals, bn, [bq], aggB), AggRows(aVals, an, [aq], aggA), bn, bq, an, aq).Success?
    requires 0 <= i < |Keys(aVals, an)| && 0 <= j < |Keys(bVals, bn)| && Keys(aVals, an)[i] == Keys(bVals, bn)[j]
    requires Reduce(RowsWithKey(aVals, an, Keys(aVals, an)[i]), aq, aggA).Num?
    requires Reduce(RowsWithKey(bVals, bn, Keys(bVals, bn)[j]), bq, aggB).Num?
    ensures var ab := BarDifference(AggRows(aVals, an, [aq], aggA), AggRows(bVals, bn, [bq], aggB), an, aq, bn, bq).value;
      var ba := BarDifference(AggRows(bVals, bn, [bq], aggB), AggRows(aVals, an, [aq], aggA), bn, bq, an, aq).value;
      && Get(ab[i], aq).Num? && Get(ba[j], bq).Num?
      && Get(ab[i], aq).n == -Get(ba[j], bq).n
  {
    var key := Keys(aVals, an)[i];
    BarDifferenceIsCategoryGap(aVals, bVals, an, aq, bn, bq, aggA, aggB, i);
    BarDifferenceIsCategoryGap(bVals, aVals, bn, bq, an, aq, aggB, aggA, j);
    MinusAntiSymmetric(Reduce(RowsWithKey(aVals, an, key), aq, aggA), Reduce(RowsWithKey(bVals, bn, key), bq, aggB));
  }

  /**
   * Through the whole `getChartData`, explicit heatmaps show for each of A's
   * pivoted cells the difference between its color value and that of B's
   * cell at the same (x, y); both heatmaps have a color.
   */
  lemma ExplicitHeatmapsShowCellGap(A: Spec, B: Spec, C: CompSpec, pivot: Pivot, domains: Option<seq<seq<Value>>>)
    requires A.kind == Heatmap && B.kind == Heatmap && C.explicitEncoding
    requires GetChartData(A, Some(B), Some(C), pivot, domains).Success?
    ensures A.encoding.color.Some? && B.encoding.color.Some?
    ensures var d := GetChartData(A, Some(B), Some(C), pivot, domains).value;
      var a := ResolveChart(A, pivot, domains).value.value;
      var b := ResolveChart(B, pivot, domains).value.value;
      var aX, aY, aC := A.encoding.x.field, A.encoding.y.field, A.encoding.color.value.field;
      var bX, bY, bC := B.encoding.x.field, B.encoding.y.field, B.encoding.color.value.field;
      && d.a.Some? && d.b == Some(b) && |d.a.value| == |a|
      && forall i :: 0 <= i < |a| ==>
           var j := MatchCell(b, bX, Get(a[i], aX), bY, Get(a[i], aY)).value;
           Get(d.a.value[i], aC) == CellDifference(Get(a[i], aC), Get(b[j], bC))
  {
  }

  /**
   * Through the whole `getChartData`, explicit unaggregated scatterplots show
   * A's i-th point minus B's i-th point, B having at least as many points.
   */
  lemma ExplicitScattersShowPointGap(A: Spec, B: Spec, C: CompSpec, pivot: Pivot, domains: Option<seq<seq<Value>>>, i: int)
    requires A.kind == Scatterplot && B.kind == Scatterplot && C.explicitEncoding
    requires !IsAggregated(A.encoding.x.aggregate) && !IsAggregated(B.encoding.x.aggregate)
    requires A.encoding.x.field != A.encoding.y.field
    requires GetChartData(A, Some(B), Some(C), pivot, domains).Success?
    requires 0 <= i < |A.values|
    ensures A.encoding.color.Some? && |B.values| >= |A.values|
    ensures var d := GetChartData(A, Some(B), Some(C), pivot, domains).value;
      && d.a.Some? && d.b == Some(B.values) && |d.a.value| == |A.values|
      && Get(d.a.value[i], A.encoding.x.field) == Minus(Get(A.values[i], A.encoding.x.field), Get(B.values[i], B.encoding.x.field))
      && Get(d.a.value[i], A.encoding.y.field) == Minus(Get(A.values[i], A.encoding.y.field), Get(B.values[i], B.encoding.y.field))
  {
  }

  /** An unaggregated scatterplot compared with itself moves every numeric point to the origin. */
  lemma ScatterSelfDifferenceIsZero(rows: seq<Row>, aX: string, aY: string, aC: string, i: int)
    requires aX != aY
    requires 0 <= i < |rows|
    requires ToNumber(Get(rows[i], aX)).Some? && ToNumber(Get(rows[i], aY)).Some?
    ensures ScatterIndexDifference(rows, rows, aX, aY, aC, aX, aY).Success?
    ensures var d := ScatterIndexDifference(rows, rows, aX, aY, aC, aX, aY).value;
      Get(d[i], aX) == Num(0.0) && Get(d[i], aY) == Num(0.0)
  {
  }
}
