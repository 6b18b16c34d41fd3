/**
 * The x, y and color domains of the two charts
 * (visualizations/data-handler/domain-manager.ts): `getDomainData` for one
 * specification (optionally united with a second one) and `getDomain`, which
 * starts from the resolved chart data, merges the consistent axes and then
 * applies the stacked-bar, shared-color scatterplot and nesting exceptions.
 */
module DomainManager {
  import opened Wrappers
  import opened Values
  import opened Specs
  import opened Aggregation
  import opened ChartDataManager

  /** `{x, y, color}` as `getDomainData` returns it; each may be undefined. */
  datatype Domains = Domains(x: Option<seq<Value>>, y: Option<seq<Value>>, color: Option<seq<Value>>)

  /**
   * `AxisDomainData`: the domains of one chart, or of one nested cell. The x
   * and y lists are always defined in `getDomain`; the color list can be left
   * undefined by the shared-color scatterplot exception.
   */
  datatype AxisDomain = AxisDomain(x: seq<Value>, y: seq<Value>, color: Option<seq<Value>>)

  /** `ChartDomainData.axis`: one axis record, a row of them, or a grid of them. */
  datatype ChartDomain =
    | Single(axis: AxisDomain)
    | Nested1(cells: seq<AxisDomain>)
    | Nested2(grid: seq<seq<AxisDomain>>)

  /** `{A, B}`: B's domains are undefined under an explicit encoding. */
  datatype DomainResult = DomainResult(a: AxisDomain, b: Option<ChartDomain>)

  /** `DEFAULT_AXIS_DOMAIN`. */
  const EmptyAxes: AxisDomain := AxisDomain([], [], Some([]))

  /** `ax[ch]`. */
  function ChannelValues(ax: AxisDomain, ch: Channel): Option<seq<Value>> {
    match ch
    case X => Some(ax.x)
    case Y => Some(ax.y)
    case Color => ax.color
  }

  /** `ax[ch] = vals`. */
  function SetChannel(ax: AxisDomain, ch: Channel, vals: seq<Value>): (r: AxisDomain)
    ensures ChannelValues(r, ch) == Some(vals)
    ensures forall other :: other != ch ==> ChannelValues(r, other) == ChannelValues(ax, other)
  {
    match ch
    case X => ax.(x := vals)
    case Y => ax.(y := vals)
    case Color => ax.(color := Some(vals))
  }

  // ---------------------------------------------------------------------------
  // getDomainData
  // ---------------------------------------------------------------------------

  /**
   * The values of `field` after aggregating `values` per group of
   * `groupField`: one value per group, in first-appearance order.
   */
  ghost predicate IsAggregateDomain(d: seq<Value>, values: seq<Row>, groupField: string, e: FieldDef) {
    && |d| == |Keys(values, groupField)|
    && forall i :: 0 <= i < |d| ==>
         d[i] == Reduce(RowsWithKey(values, groupField, Keys(values, groupField)[i]), e.field, e.aggregate)
  }

  /** `getAggValues(values, groupField, [e.field], e.aggregate).map(d => d[e.field])`. */
  function AggregateDomain(values: seq<Row>, groupField: string, e: FieldDef): (r: seq<Value>)
    ensures IsAggregateDomain(r, values, groupField, e)
  {
    var rows := AggRows(values, groupField, [e.field], e.aggregate);
    assert e.field in [e.field];
    Column(rows, e.field)
  }

  /**
   * The domain of the x (or y) channel `e`, where `alt` is the other position
   * channel: distinct values for a nominal field; for a quantitative field
   * without aggregate the per-row values when `alt` is quantitative too;
   * for an aggregated one the per-group values, grouped by color next to a
   * quantitative `alt` and by `alt` next to a nominal one. Every other
   * combination leaves the domain undefined.
   */
  function PositionDomain(values: seq<Row>, e: FieldDef, alt: FieldDef, color: Option<FieldDef>): (r: Result<Option<seq<Value>>, Fault>)
    ensures r.Failure? <==>
      e.ftype == Quantitative && IsAggregated(e.aggregate) && alt.ftype == Quantitative && color.None?
    ensures r.Failure? ==> r.error == MissingColor
    ensures r.Success? ==> (r.value.None? <==>
      e.ftype == Ordinal || (e.ftype == Quantitative && alt.ftype != Quantitative && (!IsAggregated(e.aggregate) || alt.ftype == Ordinal)))
    ensures e.ftype == Nominal && r.Success? ==>
      var d := r.value.value;
      NoDuplicates(d) && (forall v :: v in d <==> v in Column(values, e.field))
    ensures e.ftype == Quantitative && !IsAggregated(e.aggregate) && r.Success? && r.value.Some? ==>
      var d := r.value.value;
      |d| == |values| && forall i :: 0 <= i < |values| ==> d[i] == Get(values[i], e.field)
    ensures e.ftype == Quantitative && IsAggregated(e.aggregate) && alt.ftype == Quantitative && r.Success? ==>
      IsAggregateDomain(r.value.value, values, color.value.field, e)
    ensures e.ftype == Quantitative && IsAggregated(e.aggregate) && alt.ftype == Nominal ==>
      r.Success? && IsAggregateDomain(r.value.value, values, alt.field, e)
  {
    match e.ftype
    case Nominal => Success(Some(Keys(values, e.field)))
    case Ordinal => Success(None)
    case Quantitative =>
      if !IsAggregated(e.aggregate) then
        if alt.ftype == Quantitative then Success(Some(Column(values, e.field))) else Success(None)
      else
        match alt.ftype
        case Quantitative =>
          if color.None? then Failure(MissingColor)
          else Success(Some(AggregateDomain(values, color.value.field, e)))
        case Nominal => Success(Some(AggregateDomain(values, alt.field, e)))
        case Ordinal => Success(None)
  }

  /**
   * The color domain: empty without a color channel, distinct values for a
   * nominal color, the pivoted cell values of a quantitative color over two
   * nominal axes (empty over any other axes), undefined for an ordinal color.
   */
  function ColorDomain(values: seq<Row>, enc: Encoding, pivot: Pivot): (r: Option<seq<Value>>)
    ensures enc.color.None? ==> r == Some([])
    ensures r.None? <==> enc.color.Some? && enc.color.value.ftype == Ordinal
    ensures enc.color.Some? && enc.color.value.ftype == Nominal ==>
      NoDuplicates(r.value) && (forall v :: v in r.value <==> v in Column(values, enc.color.value.field))
    ensures enc.color.Some? && enc.color.value.ftype == Quantitative && !(enc.x.ftype == Nominal && enc.y.ftype == Nominal) ==>
      r == Some([])
    ensures enc.color.Some? && enc.color.value.ftype == Quantitative && enc.x.ftype == Nominal && enc.y.ftype == Nominal ==>
      var cells := pivot(values, [enc.x.field, enc.y.field], enc.color.value.field, enc.color.value.aggregate, None);
      |r.value| == |cells| && forall i :: 0 <= i < |cells| ==> r.value[i] == Get(cells[i], enc.color.value.field)
  {
    match enc.color
    case None => Some([])
    case Some(c) =>
      match c.ftype
      case Nominal => Some(Keys(values, c.field))
      case Quantitative =>
        if enc.x.ftype == Nominal && enc.y.ftype == Nominal then
          Some(Column(pivot(values, [enc.x.field, enc.y.field], c.field, c.aggregate, None), c.field))
        else Some([])
      case Ordinal => None
  }

  /** `getDomainData(spec)` without a union partner. */
  function SingleDomainData(spec: Spec, pivot: Pivot): (r: Result<Domains, Fault>)
    ensures r.Failure? <==>
      && spec.encoding.color.None?
      && ((spec.encoding.x.ftype == Quantitative && IsAggregated(spec.encoding.x.aggregate) && spec.encoding.y.ftype == Quantitative)
          || (spec.encoding.y.ftype == Quantitative && IsAggregated(spec.encoding.y.aggregate) && spec.encoding.x.ftype == Quantitative))
    ensures r.Success? ==> r.value.color == ColorDomain(spec.values, spec.encoding, pivot)
    ensures r.Success? ==>
      && r.value.x == PositionDomain(spec.values, spec.encoding.x, spec.encoding.y, spec.encoding.color).value
      && r.value.y == PositionDomain(spec.values, spec.encoding.y, spec.encoding.x, spec.encoding.color).value
  {
    var enc := spec.encoding;
    var x :- PositionDomain(spec.values, enc.x, enc.y, enc.color);
    var y :- PositionDomain(spec.values, enc.y, enc.x, enc.color);
    Success(Domains(x, y, ColorDomain(spec.values, enc, pivot)))
  }

  /**
   * `a.concat(b)` on possibly undefined domains: calling it on an undefined
   * `a` is a TypeError, and an undefined `b` is appended as one element.
   */
  function Concat(a: Option<seq<Value>>, b: Option<seq<Value>>): (r: Result<seq<Value>, Fault>)
    ensures r.Failure? <==> a.None?
    ensures r.Failure? ==> r.error == UndefinedDomain
    ensures r.Success? ==> |r.value| == |a.value| + (if b.Some? then |b.value| else 1)
    ensures r.Success? ==> r.value[..|a.value|] == a.value
    ensures r.Success? && b.Some? ==> r.value[|a.value|..] == b.value
    ensures r.Success? && b.None? ==> r.value[|a.value|] == Undef
  {
    if a.None? then Failure(UndefinedDomain)
    else if b.Some? then Success(a.value + b.value)
    else Success(a.value + [Undef])
  }

  /**
   * `getDomainData(spec, specForUnion?)`: the domains of `spec`, each followed
   * by the same domain of `union` when one is given.
   */
  function GetDomainData(spec: Spec, union: Option<Spec>, pivot: Pivot): (r: Result<Domains, Fault>)
    ensures union.None? ==> r == SingleDomainData(spec, pivot)
    ensures union.Some? ==> (r.Success? <==>
      && SingleDomainData(spec, pivot).Success?
      && SingleDomainData(union.value, pivot).Success?
      && SingleDomainData(spec, pivot).value.x.Some?
      && SingleDomainData(spec, pivot).value.y.Some?
      && SingleDomainData(spec, pivot).value.color.Some?)
    ensures union.Some? && r.Success? ==>
      var own := SingleDomainData(spec, pivot).value;
      var other := SingleDomainData(union.value, pivot).value;
      && r.value.x == Some(Concat(own.x, other.x).value)
      && r.value.y == Some(Concat(own.y, other.y).value)
      && r.value.color == Some(Concat(own.color, other.color).value)
  {
    var own :- SingleDomainData(spec, pivot);
    if union.None? then Success(own)
    else
      var other :- SingleDomainData(union.value, pivot);
      var x :- Concat(own.x, other.x);
      var y :- Concat(own.y, other.y);
      var c :- Concat(own.color, other.color);
      Success(Domains(Some(x), Some(y), Some(c)))
  }

  // ---------------------------------------------------------------------------
  // getDomain: common part and consistency
  // ---------------------------------------------------------------------------

  /** The domain of one channel over resolved rows. */
  function ChannelDomain(rows: seq<Row>, def: FieldDef): (r: seq<Value>)
    ensures def.ftype == Nominal ==> r == Distinct(Column(rows, def.field))
    ensures def.ftype == Nominal ==>
      NoDuplicates(r) && (forall v :: v in r <==> v in Column(rows, def.field))
    ensures def.ftype != Nominal ==>
      |r| == |rows| && forall i :: 0 <= i < |rows| ==> r[i] == Get(rows[i], def.field)
  {
    if def.ftype == Nominal then Keys(rows, def.field) else Column(rows, def.field)
  }

  /**
   * The common part of `getDomain` for one chart: without resolved data the
   * default empty domains, otherwise one domain per encoded channel, and an
   * empty color domain when the chart encodes no color.
   */
  function CommonAxes(spec: Spec, data: Option<seq<Row>>): (r: AxisDomain)
    ensures data.None? ==> r == EmptyAxes
    ensures r.color.Some?
    ensures spec.encoding.color.None? ==> r.color == Some([])
    ensures data.Some? ==>
      && r.x == ChannelDomain(data.value, spec.encoding.x)
      && r.y == ChannelDomain(data.value, spec.encoding.y)
      && (spec.encoding.color.Some? ==> r.color == Some(ChannelDomain(data.value, spec.encoding.color.value)))
  {
    match data
    case None => EmptyAxes
    case Some(rows) =>
      var enc := spec.encoding;
      AxisDomain(
        ChannelDomain(rows, enc.x),
        ChannelDomain(rows, enc.y),
        Some(if enc.color.None? then [] else ChannelDomain(rows, enc.color.value)))
  }

  /**
   * The consistency step: a consistent x (or y) axis gives both charts A's
   * list followed by B's, and a shared color does the same for the color
   * lists; inconsistent channels keep their own lists.
   */
  function MergeConsistency(cons: Consistency, axA: AxisDomain, axB: AxisDomain): (r: (AxisDomain, AxisDomain))
    requires axA.color.Some? && axB.color.Some?
    ensures r.0.color.Some? && r.1.color.Some?
    ensures cons.xAxis ==> r.0.x == r.1.x == axA.x + axB.x
    ensures !cons.xAxis ==> r.0.x == axA.x && r.1.x == axB.x
    ensures cons.yAxis ==> r.0.y == r.1.y == axA.y + axB.y
    ensures !cons.yAxis ==> r.0.y == axA.y && r.1.y == axB.y
    ensures cons.color == Shared ==> r.0.color == r.1.color == Some(axA.color.value + axB.color.value)
    ensures cons.color != Shared ==> r.0.color == axA.color && r.1.color == axB.color
  {
    var x := if cons.xAxis then (axA.x + axB.x, axA.x + axB.x) else (axA.x, axB.x);
    var y := if cons.yAxis then (axA.y + axB.y, axA.y + axB.y) else (axA.y, axB.y);
    var c := if cons.color == Shared then (axA.color.value + axB.color.value, axA.color.value + axB.color.value)
             else (axA.color.value, axB.color.value);
    (AxisDomain(x.0, y.0, Some(c.0)), AxisDomain(x.1, y.1, Some(c.1)))
  }

  // ---------------------------------------------------------------------------
  // Stacked bars
  // ---------------------------------------------------------------------------

  /** `encoding[ch]` for a position channel: x for `X`, y otherwise. */
  function PositionDef(e: Encoding, ch: Channel): FieldDef {
    if ch == X then e.x else e.y
  }

  /** The category channel of a stacked bar: x when A's x is nominal, y otherwise. */
  function StackCategory(A: Spec): Channel {
    if A.encoding.x.ftype == Nominal then X else Y
  }

  /** The value channel of a stacked bar: x when A's x is quantitative, y otherwise. */
  function StackValue(A: Spec): Channel {
    if A.encoding.x.ftype == Quantitative then X else Y
  }

  /** The key a row of the combined bars is summed under: A's category field when present, B's otherwise. */
  function StackKey(d: Row, nA: string, nB: string): Value {
    if nA in d then d[nA] else Get(d, nB)
  }

  /** The amount a row of the combined bars adds: A's value field when present, B's otherwise. */
  function StackAmount(d: Row, qA: string, qB: string): real {
    AmountOf(if qA in d then d[qA] else Get(d, qB))
  }

  function StackKeys(rows: seq<Row>, nA: string, nB: string): (r: seq<Value>)
    ensures |r| == |rows| && forall i :: 0 <= i < |rows| ==> r[i] == StackKey(rows[i], nA, nB)
  {
    seq(|rows|, i requires 0 <= i < |rows| => StackKey(rows[i], nA, nB))
  }

  /** The total amount of the rows stacked under key `k`. */
  function SumWhere(rows: seq<Row>, nA: string, nB: string, qA: string, qB: string, k: Value): real
    decreases |rows|
  {
    if |rows| == 0 then 0.0
    else
      var last := rows[|rows| - 1];
      SumWhere(rows[..|rows| - 1], nA, nB, qA, qB, k) + (if StackKey(last, nA, nB) == k then StackAmount(last, qA, qB) else 0.0)
  }

  /**
   * `getDomainSumByKeys(rows, nA, nB, qA, qB)`: one total per distinct key of
   * the combined rows, in first-appearance order.
   */
  function SumByKeys(rows: seq<Row>, nA: string, nB: string, qA: string, qB: string): (r: seq<Value>)
    ensures |r| == |Distinct(StackKeys(rows, nA, nB))|
    ensures forall i :: 0 <= i < |r| ==>
      r[i] == Num(SumWhere(rows, nA, nB, qA, qB, Distinct(StackKeys(rows, nA, nB))[i]))
  {
    var ks := Distinct(StackKeys(rows, nA, nB));
    seq(|ks|, i requires 0 <= i < |ks| => Num(SumWhere(rows, nA, nB, qA, qB, ks[i])))
  }

  /** A chart's aggregated bars: one row per category, holding the category and the aggregated value. */
  function Bars(values: seq<Row>, n: string, q: string, agg: Option<Aggregate>): seq<Row> {
    AggRows(values, n, [q], agg)
  }

  /**
   * The shared value-axis domain of a stacked bar chart: `getAggValues` of
   * both charts, concatenated, summed per category.
   */
  function StackedSums(A: Spec, B: Spec): seq<Value> {
    var n := StackCategory(A);
    var q := StackValue(A);
    var a := PositionDef(A.encoding, n);
    var b := PositionDef(B.encoding, n);
    var qa := PositionDef(A.encoding, q);
    var qb := PositionDef(B.encoding, q);
    SumByKeys(Bars(A.values, a.field, qa.field, qa.aggregate) + Bars(B.values, b.field, qb.field, qb.aggregate),
      a.field, b.field, qa.field, qb.field)
  }

  /** The height of the bar of category `k` in one chart, zero when the chart lacks `k`. */
  function BarTotal(values: seq<Row>, n: string, q: string, agg: Option<Aggregate>, k: Value): real {
    if k in Keys(values, n) then AmountOf(Reduce(RowsWithKey(values, n, k), q, agg)) else 0.0
  }

  /**
   * The fields of two bar charts can be stacked: each chart's category and
   * value fields differ, and neither of A's fields is taken for the other
   * role in B's bars.
   */
  predicate Stackable(nA: string, nB: string, qA: string, qB: string) {
    nA != qA && nB != qB && (nA == nB || nA != qB) && (qA == qB || qA != nB)
  }

  lemma {:induction false} SumWhereAppend(a: seq<Row>, b: seq<Row>, nA: string, nB: string, qA: string, qB: string, k: Value)
    ensures SumWhere(a + b, nA, nB, qA, qB, k) == SumWhere(a, nA, nB, qA, qB, k) + SumWhere(b, nA, nB, qA, qB, k)
    decreases |b|
  {
    if |b| == 0 {
      assert a + b == a;
    } else {
      var p := b[..|b| - 1];
      assert (a + b)[..|a + b| - 1] == a + p;
      SumWhereAppend(a, p, nA, nB, qA, qB, k);
    }
  }

  /**
   * Over rows whose keys are pairwise different, the total under `k` is the
   * amount of the one row keyed `k`, or zero when there is none.
   */
  lemma {:induction false} SumWhereDistinct(rows: seq<Row>, keys: seq<Value>, amounts: seq<real>,
                                            nA: string, nB: string, qA: string, qB: string, k: Value)
    requires |keys| == |rows| && |amounts| == |rows|
    requires NoDuplicates(keys)
    requires forall i :: 0 <= i < |rows| ==> StackKey(rows[i], nA, nB) == keys[i] && StackAmount(rows[i], qA, qB) == amounts[i]
    ensures k !in keys ==> SumWhere(rows, nA, nB, qA, qB, k) == 0.0
    ensures forall j :: 0 <= j < |keys| && keys[j] == k ==> SumWhere(rows, nA, nB, qA, qB, k) == amounts[j]
    decreases |rows|
  {
    if |rows| > 0 {
      var m := |rows| - 1;
      SumWhereDistinct(rows[..m], keys[..m], amounts[..m], nA, nB, qA, qB, k);
      if keys[m] == k {
        assert k !in keys[..m];
      }
    }
  }

  lemma StackKeysAppend(a: seq<Row>, b: seq<Row>, nA: string, nB: string)
    ensures StackKeys(a + b, nA, nB) == StackKeys(a, nA, nB) + StackKeys(b, nA, nB)
  {
  }

  /** Read through the stacking key, a chart's bars list its categories. */
  lemma StackKeysOfBars(values: seq<Row>, n: string, q: string, agg: Option<Aggregate>, nA: string, nB: string)
    requires n != q
    requires n == nA || (n == nB && nA != q)
    ensures StackKeys(Bars(values, n, q, agg), nA, nB) == Keys(values, n)
  {
    var rows := Bars(values, n, q, agg);
    var keys := Keys(values, n);
    assert q in [q];
    forall i | 0 <= i < |rows| ensures StackKey(rows[i], nA, nB) == keys[i] {
      assert Get(rows[i], n) == keys[i];
      assert nA in rows[i] <==> nA == n;
    }
  }

  /** Summed through the stacking key, a chart's bars give each category its own bar. */
  lemma SumWhereOfBars(values: seq<Row>, n: string, q: string, agg: Option<Aggregate>, nA: string, nB: string, qA: string, qB: string, k: Value)
    requires n != q
    requires n == nA || (n == nB && nA != q)
    requires q == qA || (q == qB && qA != n)
    ensures SumWhere(Bars(values, n, q, agg), nA, nB, qA, qB, k) == BarTotal(values, n, q, agg, k)
  {
    var rows := Bars(values, n, q, agg);
    var keys := Keys(values, n);
    var amounts := seq(|rows|, i requires 0 <= i < |rows| => AmountOf(Get(rows[i], q)));
    StackKeysOfBars(values, n, q, agg, nA, nB);
    forall i | 0 <= i < |rows| ensures StackAmount(rows[i], qA, qB) == amounts[i] {
      BarAt(values, n, q, agg, i, qA);
    }
    SumWhereDistinct(rows, keys, amounts, nA, nB, qA, qB, k);
    if k in keys {
      var j := FirstIndex(keys, k);
      BarAt(values, n, q, agg, j, q);
    }
  }

  /** The `i`-th bar: its category, its value, and no other field. */
  lemma BarAt(values: seq<Row>, n: string, q: string, agg: Option<Aggregate>, i: nat, f: string)
    requires n != q
    requires i < |Bars(values, n, q, agg)|
    ensures |Bars(values, n, q, agg)| == |Keys(values, n)|
    ensures f in Bars(values, n, q, agg)[i] <==> f == n || f == q
    ensures Get(Bars(values, n, q, agg)[i], n) == Keys(values, n)[i]
    ensures Get(Bars(values, n, q, agg)[i], q) == Reduce(RowsWithKey(values, n, Keys(values, n)[i]), q, agg)
  {
    assert q in [q];
  }

  /** The keys of two charts' stacked bars are the categories of either chart. */
  lemma StackedKeys(aVals: seq<Row>, bVals: seq<Row>, nA: string, nB: string, qA: string, qB: string,
                    aggA: Option<Aggregate>, aggB: Option<Aggregate>)
    requires Stackable(nA, nB, qA, qB)
    ensures StackKeys(Bars(aVals, nA, qA, aggA) + Bars(bVals, nB, qB, aggB), nA, nB) == Keys(aVals, nA) + Keys(bVals, nB)
  {
    StackKeysAppend(Bars(aVals, nA, qA, aggA), Bars(bVals, nB, qB, aggB), nA, nB);
    StackKeysOfBars(aVals, nA, qA, aggA, nA, nB);
    StackKeysOfBars(bVals, nB, qB, aggB, nA, nB);
  }

  /** The stacked total of a category is A's bar plus B's bar for it, a missing bar counting zero. */
  lemma StackedTotal(aVals: seq<Row>, bVals: seq<Row>, nA: string, nB: string, qA: string, qB: string,
                     aggA: Option<Aggregate>, aggB: Option<Aggregate>, k: Value)
    requires Stackable(nA, nB, qA, qB)
    ensures SumWhere(Bars(aVals, nA, qA, aggA) + Bars(bVals, nB, qB, aggB), nA, nB, qA, qB, k)
         == BarTotal(aVals, nA, qA, aggA, k) + BarTotal(bVals, nB, qB, aggB, k)
  {
    SumWhereAppend(Bars(aVals, nA, qA, aggA), Bars(bVals, nB, qB, aggB), nA, nB, qA, qB, k);
    SumWhereOfBars(aVals, nA, qA, aggA, nA, nB, qA, qB, k);
    SumWhereOfBars(bVals, nB, qB, aggB, nA, nB, qA, qB, k);
  }

  /**
   * `r` is the stacked value domain of two charts: one total per category of
   * either chart (A's categories first, then B's new ones, each once), each
   * A's bar plus B's bar for that category.
   */
  ghost predicate IsStackedTotals(r: seq<Value>, aVals: seq<Row>, bVals: seq<Row>, nA: string, nB: string, qA: string, qB: string,
                                  aggA: Option<Aggregate>, aggB: Option<Aggregate>) {
    var ks := Distinct(Keys(aVals, nA) + Keys(bVals, nB));
    && |r| == |ks|
    && forall i :: 0 <= i < |ks| ==> r[i] == Num(BarTotal(aVals, nA, qA, aggA, ks[i]) + BarTotal(bVals, nB, qB, aggB, ks[i]))
  }

  /**
   * Summing two charts' bars by category gives one total per category of
   * either chart (A's categories first, then B's new ones), each A's bar plus
   * B's bar for that category.
   */
  lemma SumByKeysOfBars(aVals: seq<Row>, bVals: seq<Row>, nA: string, nB: string, qA: string, qB: string,
                        aggA: Option<Aggregate>, aggB: Option<Aggregate>)
    requires Stackable(nA, nB, qA, qB)
    ensures IsStackedTotals(SumByKeys(Bars(aVals, nA, qA, aggA) + Bars(bVals, nB, qB, aggB), nA, nB, qA, qB),
                            aVals, bVals, nA, nB, qA, qB, aggA, aggB)
  {
    var bars := Bars(aVals, nA, qA, aggA) + Bars(bVals, nB, qB, aggB);
    StackedKeys(aVals, bVals, nA, nB, qA, qB, aggA, aggB);
    forall k ensures SumWhere(bars, nA, nB, qA, qB, k) == BarTotal(aVals, nA, qA, aggA, k) + BarTotal(bVals, nB, qB, aggB, k) {
      StackedTotal(aVals, bVals, nA, nB, qA, qB, aggA, aggB, k);
    }
    SumByKeysOfTotals(bars, aVals, bVals, nA, nB, qA, qB, aggA, aggB);
  }

  lemma SumByKeysOfTotals(bars: seq<Row>, aVals: seq<Row>, bVals: seq<Row>, nA: string, nB: string, qA: string, qB: string,
                          aggA: Option<Aggregate>, aggB: Option<Aggregate>)
    requires StackKeys(bars, nA, nB) == Keys(aVals, nA) + Keys(bVals, nB)
    requires forall k :: SumWhere(bars, nA, nB, qA, qB, k) == BarTotal(aVals, nA, qA, aggA, k) + BarTotal(bVals, nB, qB, aggB, k)
    ensures IsStackedTotals(SumByKeys(bars, nA, nB, qA, qB), aVals, bVals, nA, nB, qA, qB, aggA, aggB)
  {
  }

  /**
   * The stacked value domain: one total per category of either chart, each
   * A's bar plus B's bar for that category.
   */
  lemma StackedSumsPerCategory(A: Spec, B: Spec)
    requires Stackable(PositionDef(A.encoding, StackCategory(A)).field, PositionDef(B.encoding, StackCategory(A)).field,
                       PositionDef(A.encoding, StackValue(A)).field, PositionDef(B.encoding, StackValue(A)).field)
    ensures var a := PositionDef(A.encoding, StackCategory(A));
      var b := PositionDef(B.encoding, StackCategory(A));
      var qa := PositionDef(A.encoding, StackValue(A));
      var qb := PositionDef(B.encoding, StackValue(A));
      IsStackedTotals(StackedSums(A, B), A.values, B.values, a.field, b.field, qa.field, qb.field, qa.aggregate, qb.aggregate)
  {
    var a := PositionDef(A.encoding, StackCategory(A));
    var b := PositionDef(B.encoding, StackCategory(A));
    var qa := PositionDef(A.encoding, StackValue(A));
    var qb := PositionDef(B.encoding, StackValue(A));
    assert StackedSums(A, B) == SumByKeys(Bars(A.values, a.field, qa.field, qa.aggregate) + Bars(B.values, b.field, qb.field, qb.aggregate),
      a.field, b.field, qa.field, qb.field);
    SumByKeysOfBars(A.values, B.values, a.field, b.field, qa.field, qb.field, qa.aggregate, qb.aggregate);
  }

  // ---------------------------------------------------------------------------
  // Nesting
  // ---------------------------------------------------------------------------

  /** `{channel, ...encoding[channel]}` as `getFieldsByType` lists it. */
  datatype FieldRef = FieldRef(channel: Channel, def: FieldDef)

  /** The position of a channel in the order x, y, color. */
  function Rank(ch: Channel): nat {
    match ch
    case X => 0
    case Y => 1
    case Color => 2
  }

  /** The fields come in x, y, color order, each channel at most once. */
  predicate InChannelOrder(fs: seq<FieldRef>) {
    forall i, j :: 0 <= i < j < |fs| ==> Rank(fs[i].channel) < Rank(fs[j].channel)
  }

  /** `getFieldsByType(spec, t)`: the channels of type `t`, in x, y, color order. */
  function FieldsByType(s: Spec, t: FieldType): (r: seq<FieldRef>)
    ensures forall f :: f in r <==> ChannelDef(s.encoding, f.channel) == Some(f.def) && f.def.ftype == t
    ensures forall i, j :: 0 <= i < j < |r| ==> r[i].channel != r[j].channel
    ensures InChannelOrder(r)
    ensures |r| <= 3
  {
    var e := s.encoding;
    var fx := if e.x.ftype == t then [FieldRef(X, e.x)] else [];
    var fy := if e.y.ftype == t then [FieldRef(Y, e.y)] else [];
    var fc := if e.color.Some? && e.color.value.ftype == t then [FieldRef(Color, e.color.value)] else [];
    OneEachInOrder(fx, fy, fc);
    fx + fy + fc
  }

  /** At most one x field, then at most one y field, then at most one color field, are in channel order. */
  lemma OneEachInOrder(fx: seq<FieldRef>, fy: seq<FieldRef>, fc: seq<FieldRef>)
    requires |fx| <= 1 && |fy| <= 1 && |fc| <= 1
    requires forall i :: 0 <= i < |fx| ==> fx[i].channel == X
    requires forall i :: 0 <= i < |fy| ==> fy[i].channel == Y
    requires forall i :: 0 <= i < |fc| ==> fc[i].channel == Color
    ensures InChannelOrder(fx + fy + fc)
  {
    var r := fx + fy + fc;
    forall i | 0 <= i < |r|
      ensures Rank(r[i].channel) == if i < |fx| then 0 else if i < |fx| + |fy| then 1 else 2
    {
      if i < |fx| {
        assert r[i] == fx[i];
      } else if i < |fx| + |fy| {
        assert r[i] == fy[i - |fx|];
      } else {
        assert r[i] == fc[i - |fx| - |fy|];
      }
    }
  }

  /** `fs.filter(d => (d.channel === "color") == color)`. */
  function FilterColor(fs: seq<FieldRef>, color: bool): (r: seq<FieldRef>)
    ensures forall f :: f in r <==> f in fs && (f.channel == Color <==> color)
    ensures |r| <= |fs|
  {
    if |fs| == 0 then []
    else (if (fs[0].channel == Color) == color then [fs[0]] else []) + FilterColor(fs[1..], color)
  }

  /** The filter keeps the fields in the order it finds them. */
  lemma {:induction false} FilterColorKeepsOrder(fs: seq<FieldRef>, color: bool)
    requires InChannelOrder(fs)
    ensures InChannelOrder(FilterColor(fs, color))
  {
    if |fs| > 0 {
      var rest := FilterColor(fs[1..], color);
      assert InChannelOrder(fs[1..]);
      FilterColorKeepsOrder(fs[1..], color);
      forall f | f in rest
        ensures Rank(fs[0].channel) < Rank(f.channel)
      {
        var k :| 0 <= k < |fs[1..]| && fs[1..][k] == f;
        assert fs[k + 1] == f;
      }
    }
  }

  function FieldNames(fs: seq<FieldRef>): (r: seq<string>)
    ensures |r| == |fs| && forall i :: 0 <= i < |fs| ==> r[i] == fs[i].def.field
  {
    seq(|fs|, i requires 0 <= i < |fs| => fs[i].def.field)
  }

  /** The pivoted values of B's quantitative field `q` over A's rows. */
  function PivotColumn(values: seq<Row>, keyFields: seq<string>, q: FieldDef, pivot: Pivot): seq<Value> {
    Column(pivot(values, keyFields, q.field, q.aggregate, None), q.field)
  }

  /** The position of the last entry naming field `f`, or -1 when none does. */
  function LastWithField(quans: seq<FieldRef>, f: string): (k: int)
    ensures -1 <= k < |quans|
    ensures k >= 0 ==> quans[k].def.field == f && forall j :: k < j < |quans| ==> quans[j].def.field != f
    ensures k < 0 ==> forall j :: 0 <= j < |quans| ==> quans[j].def.field != f
    decreases |quans|
  {
    if |quans| == 0 then -1
    else if quans[|quans| - 1].def.field == f then |quans| - 1
    else LastWithField(quans[..|quans| - 1], f)
  }

  /**
   * `bQuanValues`: for each quantitative field of B, the pivoted values of
   * that field; a field listed twice keeps the later entry's values.
   */
  function QuanValues(values: seq<Row>, quans: seq<FieldRef>, keyFields: seq<string>, pivot: Pivot): (m: map<string, seq<Value>>)
    ensures forall i :: 0 <= i < |quans| ==>
      && quans[i].def.field in m
      && m[quans[i].def.field] == PivotColumn(values, keyFields, quans[LastWithField(quans, quans[i].def.field)].def, pivot)
    decreases |quans|
  {
    if |quans| == 0 then map[]
    else
      var q := quans[|quans| - 1];
      QuanValues(values, quans[..|quans| - 1], keyFields, pivot)[q.def.field := PivotColumn(values, keyFields, q.def, pivot)]
  }

  /** `quans.forEach(q => ax[q.channel] = m[q.field])`. */
  function ApplyQuans(ax: AxisDomain, quans: seq<FieldRef>, m: map<string, seq<Value>>): (r: AxisDomain)
    requires forall i :: 0 <= i < |quans| ==> quans[i].def.field in m
    ensures forall ch :: (forall i :: 0 <= i < |quans| ==> quans[i].channel != ch) ==> ChannelValues(r, ch) == ChannelValues(ax, ch)
    decreases |quans|
  {
    if |quans| == 0 then ax
    else ApplyQuans(SetChannel(ax, quans[0].channel, m[quans[0].def.field]), quans[1..], m)
  }

  /** A channel listed more than once ends up with the values of its last entry. */
  lemma {:induction false} ApplyQuansLastWins(ax: AxisDomain, quans: seq<FieldRef>, m: map<string, seq<Value>>, i: nat)
    requires forall k :: 0 <= k < |quans| ==> quans[k].def.field in m
    requires i < |quans| && forall j :: i < j < |quans| ==> quans[j].channel != quans[i].channel
    ensures ChannelValues(ApplyQuans(ax, quans, m), quans[i].channel) == Some(m[quans[i].def.field])
    decreases |quans|
  {
    var ax' := SetChannel(ax, quans[0].channel, m[quans[0].def.field]);
    var rest := quans[1..];
    assert ApplyQuans(ax, quans, m) == ApplyQuans(ax', rest, m);
    if i == 0 {
      assert forall k :: 0 <= k < |rest| ==> rest[k].channel != quans[0].channel;
    } else {
      assert rest[i - 1] == quans[i];
      ApplyQuansLastWins(ax', rest, m, i - 1);
    }
  }

  /** One cell repeated `n` times. */
  function Row1(n: nat, cell: AxisDomain): (r: seq<AxisDomain>)
    ensures |r| == n && forall i :: 0 <= i < n ==> r[i] == cell
  {
    seq(n, _ => cell)
  }

  /** One cell repeated in an `n` by `k` grid. */
  function Grid(n: nat, k: nat, cell: AxisDomain): (r: seq<seq<AxisDomain>>)
    ensures |r| == n && forall i :: 0 <= i < n ==> r[i] == Row1(k, cell)
  {
    seq(n, _ => Row1(k, cell))
  }

  /**
   * The nominal fields of A that partition B under nesting, in x, y, color
   * order: all of them, except that an aggregated B next to a bar chart A
   * drops A's color.
   */
  function PartitionFields(A: Spec, B: Spec): (r: seq<FieldRef>)
    ensures InChannelOrder(r)
    ensures IsChartDataAggregated(B) && A.kind == BarChart ==>
      forall f :: f in r <==> f in FieldsByType(A, Nominal) && f.channel != Color
    ensures !(IsChartDataAggregated(B) && A.kind == BarChart) ==> r == FieldsByType(A, Nominal)
  {
    FilterColorKeepsOrder(FieldsByType(A, Nominal), false);
    if !IsChartDataAggregated(B) then FieldsByType(A, Nominal)
    else if A.kind == BarChart then FilterColor(FieldsByType(A, Nominal), false)
    else FieldsByType(A, Nominal)
  }

  /**
   * The channel of A whose domain counts the cells of a one-field nesting:
   * the first partition field's channel, except that an aggregated B reads
   * color next to a scatterplot A and a position channel (x when nominal,
   * else y) next to any other chart.
   */
  function PartitionChannel(A: Spec, B: Spec): (r: Channel)
    requires |PartitionFields(A, B)| > 0
    ensures A.kind == Scatterplot && IsChartDataAggregated(B) ==> r == Color
    ensures (A.kind != Scatterplot || !IsChartDataAggregated(B)) && PartitionFields(A, B)[0].channel != Color ==>
      r == PartitionFields(A, B)[0].channel
    ensures !IsChartDataAggregated(B) ==> ChannelDef(A.encoding, r).Some? && ChannelDef(A.encoding, r).value.ftype == Nominal
  {
    var f := PartitionFields(A, B)[0];
    assert f in PartitionFields(A, B);

    if !IsChartDataAggregated(B) then PartitionFields(A, B)[0].channel
    else if A.kind == Scatterplot then Color
    else if A.encoding.x.ftype == Nominal then X
    else Y
  }

  /**
   * The axis record every nested cell of B receives: for an aggregated B, B's
   * quantitative channels set to their values pivoted over A's rows by the
   * nominal fields of both charts; otherwise B's global x and y values.
   */
  function NestedCell(A: Spec, B: Spec, axB: AxisDomain, pivot: Pivot): AxisDomain {
    if IsChartDataAggregated(B) then
      var bQuans := FieldsByType(B, Quantitative);
      var bNoms := if B.kind == BarChart then FilterColor(FieldsByType(B, Nominal), true) else FieldsByType(B, Nominal);
      var m := QuanValues(A.values, bQuans, FieldNames(PartitionFields(A, B) + bNoms), pivot);
      ApplyQuans(axB, bQuans, m)
    else
      axB.(x := Column(B.values, B.encoding.x.field), y := Column(B.values, B.encoding.y.field))
  }

  /** `ax[ch].length` on merged domains, whose lists are all defined. */
  function Extent(ax: AxisDomain, ch: Channel): nat
    requires ax.color.Some?
  {
    |ChannelValues(ax, ch).value|
  }

  /**
   * B's domains under nesting: one identical cell per value of A's domain on
   * the partition channel, or a grid over A's two partition channels; B keeps
   * its single axis record otherwise.
   */
  function NestedB(A: Spec, B: Spec, axA: AxisDomain, axB: AxisDomain, pivot: Pivot): (r: ChartDomain)
    requires axA.color.Some?
    ensures |PartitionFields(A, B)| == 1 ==>
      r.Nested1? && |r.cells| == Extent(axA, PartitionChannel(A, B))
    ensures |PartitionFields(A, B)| == 2 ==>
      && r.Nested2?
      && |r.grid| == Extent(axA, PartitionFields(A, B)[0].channel)
      && forall i :: 0 <= i < |r.grid| ==> |r.grid[i]| == Extent(axA, PartitionFields(A, B)[1].channel)
    ensures r.Nested1? ==> forall i :: 0 <= i < |r.cells| ==> r.cells[i] == NestedCell(A, B, axB, pivot)
    ensures r.Nested2? ==> forall i, j :: 0 <= i < |r.grid| && 0 <= j < |r.grid[i]| ==> r.grid[i][j] == NestedCell(A, B, axB, pivot)
    ensures |PartitionFields(A, B)| != 1 && |PartitionFields(A, B)| != 2 ==> r == Single(axB)
  {
    var noms := PartitionFields(A, B);
    var cell := NestedCell(A, B, axB, pivot);
    if |noms| == 1 then Nested1(Row1(Extent(axA, PartitionChannel(A, B)), cell))
    else if |noms| == 2 then Nested2(Grid(Extent(axA, noms[0].channel), Extent(axA, noms[1].channel), cell))
    else Single(axB)
  }

  // ---------------------------------------------------------------------------
  // getDomain
  // ---------------------------------------------------------------------------

  /**
   * The layout exceptions, applied to the merged domains in order of
   * precedence: a stacked bar gives both charts the stacked totals on A's
   * value channel and changes nothing else; otherwise chart-unit
   * scatterplots with a shared color replace both charts' color domain;
   * otherwise nesting replaces B's record by nested cells. Only the first
   * two touch A, and B stays a single record unless nesting applies.
   */
  function Exceptions(A: Spec, B: Spec, C: CompSpec, dA: Domains, dB: Domains, axA: AxisDomain, axB: AxisDomain, pivot: Pivot): (r: (AxisDomain, ChartDomain))
    requires axA.color.Some?
    ensures C.stackedBar ==>
      && r.1.Single?
      && ChannelValues(r.0, StackValue(A)) == ChannelValues(r.1.axis, StackValue(A)) == Some(StackedSums(A, B))
      && (forall ch :: ch != StackValue(A) ==>
            ChannelValues(r.0, ch) == ChannelValues(axA, ch) && ChannelValues(r.1.axis, ch) == ChannelValues(axB, ch))
    ensures !C.stackedBar && C.chartUnitScatterplots && C.consistency.color == Shared ==>
      && r.1.Single?
      && r.0 == axA.(color := r.0.color) && r.1.axis == axB.(color := r.0.color)
      && r.0.color == (if A.encoding.color.Some? then dA.color else if B.encoding.color.Some? then dB.color else Some([Str("")]))
    ensures !C.stackedBar && !(C.chartUnitScatterplots && C.consistency.color == Shared) ==>
      && r.0 == axA
      && r.1 == (if C.nesting then NestedB(A, B, axA, axB, pivot) else Single(axB))
  {
    if C.stackedBar then
      var sums := StackedSums(A, B);
      (SetChannel(axA, StackValue(A), sums), Single(SetChannel(axB, StackValue(A), sums)))
    else if C.chartUnitScatterplots && C.consistency.color == Shared then
      var c := if A.encoding.color.Some? then dA.color else if B.encoding.color.Some? then dB.color else Some([Str("")]);
      (axA.(color := c), Single(axB.(color := c)))
    else if C.nesting then
      (axA, NestedB(A, B, axA, axB, pivot))
    else (axA, Single(axB))
  }

  /**
   * `getDomain(A, B, C, chartdata)`: the domains of both charts. Both
   * specifications' own domain data are computed first, so a fault there
   * stops the whole computation.
   */
  function GetDomain(A: Spec, B: Spec, C: CompSpec, data: ChartData, pivot: Pivot): (r: Result<DomainResult, Fault>)
    ensures r.Success? <==> SingleDomainData(A, pivot).Success? && SingleDomainData(B, pivot).Success?
    ensures r.Success? ==> (r.value.b.None? <==> C.explicitEncoding)
  {
    var dA :- SingleDomainData(A, pivot);
    var dB :- SingleDomainData(B, pivot);
    var merged := Merged(A, B, C, data);
    var ex := Exceptions(A, B, C, dA, dB, merged.0, merged.1, pivot);
    Success(DomainResult(ex.0, if C.explicitEncoding then None else Some(ex.1)))
  }

  /** The domains after the common part and the consistency step, before the exceptions. */
  function Merged(A: Spec, B: Spec, C: CompSpec, data: ChartData): (r: (AxisDomain, AxisDomain))
    ensures r.0.color.Some? && r.1.color.Some?
  {
    MergeConsistency(C.consistency, CommonAxes(A, data.a), CommonAxes(B, data.b))
  }

  // ---------------------------------------------------------------------------
  // Properties of getDomain
  // ---------------------------------------------------------------------------

  /**
   * With x consistency (and no stacked bar re-deriving x), A's x domain is
   * A's list followed by B's, and B, when it keeps a single axis record,
   * gets the very same list.
   */
  lemma XConsistencyConcatenates(A: Spec, B: Spec, C: CompSpec, data: ChartData, pivot: Pivot)
    requires GetDomain(A, B, C, data, pivot).Success?
    requires C.consistency.xAxis && !(C.stackedBar && StackValue(A) == X)
    ensures var r := GetDomain(A, B, C, data, pivot).value;
      && r.a.x == CommonAxes(A, data.a).x + CommonAxes(B, data.b).x
      && (r.b.Some? && r.b.value.Single? ==> r.b.value.axis.x == r.a.x)
  {
  }

  /** The same for the y axis. */
  lemma YConsistencyConcatenates(A: Spec, B: Spec, C: CompSpec, data: ChartData, pivot: Pivot)
    requires GetDomain(A, B, C, data, pivot).Success?
    requires C.consistency.yAxis && !(C.stackedBar && StackValue(A) == Y)
    ensures var r := GetDomain(A, B, C, data, pivot).value;
      && r.a.y == CommonAxes(A, data.a).y + CommonAxes(B, data.b).y
      && (r.b.Some? && r.b.value.Single? ==> r.b.value.axis.y == r.a.y)
  {
  }

  /** Without x consistency each chart keeps the x domain of its own data. */
  lemma XInconsistentKeepsOwn(A: Spec, B: Spec, C: CompSpec, data: ChartData, pivot: Pivot)
    requires GetDomain(A, B, C, data, pivot).Success?
    requires !C.consistency.xAxis && !(C.stackedBar && StackValue(A) == X)
    ensures var r := GetDomain(A, B, C, data, pivot).value;
      && r.a.x == CommonAxes(A, data.a).x
      && (r.b.Some? && r.b.value.Single? ==> r.b.value.axis.x == CommonAxes(B, data.b).x)
  {
  }

  /**
   * A shared color (outside the chart-unit scatterplot exception) gives A
   * the color list of A followed by that of B, and B, when it keeps a single
   * axis record, the same list.
   */
  lemma SharedColorConcatenates(A: Spec, B: Spec, C: CompSpec, data: ChartData, pivot: Pivot)
    requires GetDomain(A, B, C, data, pivot).Success?
    requires C.consistency.color == Shared && (C.stackedBar || !C.chartUnitScatterplots)
    ensures var r := GetDomain(A, B, C, data, pivot).value;
      && r.a.color == Some(CommonAxes(A, data.a).color.value + CommonAxes(B, data.b).color.value)
      && (r.b.Some? && r.b.value.Single? ==> r.b.value.axis.color == r.a.color)
  {
  }

  /**
   * A stacked bar chart gives both charts the stacked totals on the value
   * axis, whatever the consistency settings, and B keeps a single axis record.
   */
  lemma StackedOverridesValueAxis(A: Spec, B: Spec, C: CompSpec, data: ChartData, pivot: Pivot)
    requires GetDomain(A, B, C, data, pivot).Success?
    requires C.stackedBar
    ensures var r := GetDomain(A, B, C, data, pivot).value;
      && ChannelValues(r.a, StackValue(A)) == Some(StackedSums(A, B))
      && (r.b.Some? ==> r.b.value.Single? && ChannelValues(r.b.value.axis, StackValue(A)) == Some(StackedSums(A, B)))
  {
  }

  /**
   * Chart-unit scatterplots with a shared color both take A's own color
   * domain when A encodes color, else B's, else the one-entry list `[""]`.
   */
  lemma ScatterSharedColor(A: Spec, B: Spec, C: CompSpec, data: ChartData, pivot: Pivot)
    requires GetDomain(A, B, C, data, pivot).Success?
    requires !C.stackedBar && C.chartUnitScatterplots && C.consistency.color == Shared
    ensures var r := GetDomain(A, B, C, data, pivot).value;
      var c := if A.encoding.color.Some? then SingleDomainData(A, pivot).value.color
               else if B.encoding.color.Some? then SingleDomainData(B, pivot).value.color
               else Some([Str("")]);
      && r.a.color == c
      && (r.b.Some? ==> r.b.value.Single? && r.b.value.axis.color == c)
  {
  }

  /**
   * Nesting leaves A's domains as merged and replaces B's by one identical
   * cell per value of A's partition domain (or a grid of them for two
   * partition fields).
   */
  lemma NestingCellCount(A: Spec, B: Spec, C: CompSpec, data: ChartData, pivot: Pivot)
    requires GetDomain(A, B, C, data, pivot).Success?
    requires !C.stackedBar && !(C.chartUnitScatterplots && C.consistency.color == Shared) && C.nesting && !C.explicitEncoding
    ensures var r := GetDomain(A, B, C, data, pivot).value;
      var cell := NestedCell(A, B, Merged(A, B, C, data).1, pivot);
      && r.a == Merged(A, B, C, data).0
      && (|PartitionFields(A, B)| == 1 ==>
            && r.b.value.Nested1?
            && |r.b.value.cells| == Extent(r.a, PartitionChannel(A, B))
            && forall i :: 0 <= i < |r.b.value.cells| ==> r.b.value.cells[i] == cell)
      && (|PartitionFields(A, B)| == 2 ==>
            && r.b.value.Nested2?
            && |r.b.value.grid| == Extent(r.a, PartitionFields(A, B)[0].channel)
            && forall i :: 0 <= i < |r.b.value.grid| ==>
                 |r.b.value.grid[i]| == Extent(r.a, PartitionFields(A, B)[1].channel)
                 && forall j :: 0 <= j < |r.b.value.grid[i]| ==> r.b.value.grid[i][j] == cell)
  {
  }

  /** Cells nested over an unaggregated B hold B's global x and y values. */
  lemma UnaggregatedCellsAreGlobal(A: Spec, B: Spec, axB: AxisDomain, pivot: Pivot)
    requires !IsChartDataAggregated(B)
    ensures var cell := NestedCell(A, B, axB, pivot);
      && |cell.x| == |B.values| && |cell.y| == |B.values|
      && (forall i :: 0 <= i < |B.values| ==> cell.x[i] == Get(B.values[i], B.encoding.x.field) && cell.y[i] == Get(B.values[i], B.encoding.y.field))
      && cell.color == axB.color
  {
  }

  /**
   * `cell` is `ax` with each listed quantitative channel set to the pivoted
   * values of its field (taken from the last entry naming that field), and
   * every other channel untouched.
   */
  ghost predicate HoldsPivotedQuans(cell: AxisDomain, ax: AxisDomain, quans: seq<FieldRef>, values: seq<Row>, keyFields: seq<string>, pivot: Pivot) {
    && (forall i :: 0 <= i < |quans| ==>
          ChannelValues(cell, quans[i].channel) == Some(PivotColumn(values, keyFields, quans[LastWithField(quans, quans[i].def.field)].def, pivot)))
    && (forall ch :: (forall i :: 0 <= i < |quans| ==> quans[i].channel != ch) ==> ChannelValues(cell, ch) == ChannelValues(ax, ch))
  }

  lemma ApplyQuansPivoted(ax: AxisDomain, quans: seq<FieldRef>, values: seq<Row>, keyFields: seq<string>, pivot: Pivot)
    requires forall i, j :: 0 <= i < j < |quans| ==> quans[i].channel != quans[j].channel
    ensures HoldsPivotedQuans(ApplyQuans(ax, quans, QuanValues(values, quans, keyFields, pivot)), ax, quans, values, keyFields, pivot)
  {
    var m := QuanValues(values, quans, keyFields, pivot);
    forall i | 0 <= i < |quans|
      ensures ChannelValues(ApplyQuans(ax, quans, m), quans[i].channel) == Some(m[quans[i].def.field])
    {
      ApplyQuansLastWins(ax, quans, m, i);
    }
  }

  /**
   * Cells nested over an aggregated B carry, on each quantitative channel of
   * B, the values of that field pivoted over A's rows by the partition
   * fields, and keep B's merged domains on every other channel.
   */
  lemma AggregatedCellsArePivoted(A: Spec, B: Spec, axB: AxisDomain, pivot: Pivot)
    requires IsChartDataAggregated(B)
    ensures HoldsPivotedQuans(NestedCell(A, B, axB, pivot), axB, FieldsByType(B, Quantitative), A.values,
              FieldNames(PartitionFields(A, B) + (if B.kind == BarChart then FilterColor(FieldsByType(B, Nominal), true) else FieldsByType(B, Nominal))),
              pivot)
  {
    var bNoms := if B.kind == BarChart then FilterColor(FieldsByType(B, Nominal), true) else FieldsByType(B, Nominal);
    ApplyQuansPivoted(axB, FieldsByType(B, Quantitative), A.values, FieldNames(PartitionFields(A, B) + bNoms), pivot);
  }

  /**
   * Without resolved data for A (and no exception in force), A's domains are
   * the default empty lists, followed by B's lists on every channel the
   * consistency step merges.
   */
  lemma MissingDataLeavesDomainsEmpty(A: Spec, B: Spec, C: CompSpec, data: ChartData, pivot: Pivot)
    requires GetDomain(A, B, C, data, pivot).Success?
    requires data.a.None?
    requires !C.stackedBar && !(C.chartUnitScatterplots && C.consistency.color == Shared)
    ensures var r := GetDomain(A, B, C, data, pivot).value;
      var own := CommonAxes(B, data.b);
      && r.a.x == (if C.consistency.xAxis then own.x else [])
      && r.a.y == (if C.consistency.yAxis then own.y else [])
      && r.a.color == (if C.consistency.color == Shared then own.color else Some([]))
    ensures !C.consistency.xAxis && !C.consistency.yAxis && C.consistency.color != Shared ==>
      GetDomain(A, B, C, data, pivot).value.a == EmptyAxes
  {
    var dA, dB := SingleDomainData(A, pivot).value, SingleDomainData(B, pivot).value;
    var m := Merged(A, B, C, data);
    assert GetDomain(A, B, C, data, pivot).value.a == Exceptions(A, B, C, dA, dB, m.0, m.1, pivot).0 == m.0;
    MergedWithoutOwnData(A, B, C, data);
  }

  /** The merged domains of a chart without resolved data: B's lists where consistency merges, else empty. */
  lemma MergedWithoutOwnData(A: Spec, B: Spec, C: CompSpec, data: ChartData)
    requires data.a.None?
    ensures var m := Merged(A, B, C, data).0;
      var own := CommonAxes(B, data.b);
      && m.x == (if C.consistency.xAxis then own.x else [])
      && m.y == (if C.consistency.yAxis then own.y else [])
      && m.color == (if C.consistency.color == Shared then own.color else Some([]))
  {
    var own := CommonAxes(B, data.b);
    assert CommonAxes(A, data.a) == EmptyAxes;
    assert [] + own.x == own.x && [] + own.y == own.y && [] + own.color.value == own.color.value;
  }

  /**
   * A specification the index.ts test calls a bar chart (ordinal x,
   * quantitative y) has no position domains: its own domain data leave x and
   * y undefined, so uniting it with any other chart's domains faults.
   */
  lemma IndexBarChartHasNoPositionDomains(spec: Spec, union: Spec, pivot: Pivot)
    requires IsBarChart(spec)
    ensures SingleDomainData(spec, pivot).Success?
    ensures SingleDomainData(spec, pivot).value.x.None? && SingleDomainData(spec, pivot).value.y.None?
    ensures GetDomainData(spec, Some(union), pivot).Failure?
    ensures SingleDomainData(union, pivot).Success? ==> GetDomainData(spec, Some(union), pivot).error == UndefinedDomain
  {
  }

  /**
   * Without consistency on the partition channel, a one-field nesting over
   * an unaggregated B gives B one cell per distinct value of A's partition
   * field in A's resolved rows.
   */
  lemma NestingCellsPerPartitionValue(A: Spec, B: Spec, C: CompSpec, data: ChartData, pivot: Pivot)
    requires GetDomain(A, B, C, data, pivot).Success?
    requires !C.stackedBar && !(C.chartUnitScatterplots && C.consistency.color == Shared) && C.nesting && !C.explicitEncoding
    requires !IsChartDataAggregated(B) && |PartitionFields(A, B)| == 1 && data.a.Some?
    requires !C.consistency.xAxis && !C.consistency.yAxis && C.consistency.color != Shared
    ensures |GetDomain(A, B, C, data, pivot).value.b.value.cells| == |Keys(data.a.value, PartitionFields(A, B)[0].def.field)|
  {
    var f := PartitionFields(A, B)[0];
    assert f in FieldsByType(A, Nominal);
    var own := CommonAxes(A, data.a);
    NestingCellCount(A, B, C, data, pivot);
    assert ChannelValues(own, f.channel) == Some(Keys(data.a.value, f.def.field));
  }
}
