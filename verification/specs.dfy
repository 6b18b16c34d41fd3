/**
 * The inputs of the resolution pipeline: a chart specification per chart and
 * one comparison specification. The chart-type predicates of the program
 * (`isHeatmap`, `isBarChart`, `isScatterplot` and the comparison-level tests
 * such as `isEEChart` or `isStackedBarChart`) are not part of this model; their
 * verdicts arrive here as a closed chart `kind` tag and as layout flags,
 * computed once before resolution starts.
 */
module Specs {
  import opened Wrappers
  import opened Values

  /** The semantic type of an encoded field. */
  datatype FieldType = Nominal | Ordinal | Quantitative

  /**
   * The aggregate named on a channel. `Unrecognised` stands for any other
   * non-empty name, which the aggregation code treats like `sum`.
   */
  datatype Aggregate = Sum | Mean | Median | Min | Max | Count | Unrecognised

  /** One channel of an encoding: `{field, type, aggregate?}`. */
  datatype FieldDef = FieldDef(field: string, ftype: FieldType, aggregate: Option<Aggregate>)

  /** `encoding`: x and y are required, color is optional. */
  datatype Encoding = Encoding(x: FieldDef, y: FieldDef, color: Option<FieldDef>)

  /** The chart kind the chart-type predicates assign to a specification. */
  datatype ChartKind = BarChart | Scatterplot | Heatmap | Unclassified

  /** A chart specification: its kind, its data rows and its encoding. */
  datatype Spec = Spec(kind: ChartKind, values: seq<Row>, encoding: Encoding)

  /** The three color consistency modes. */
  datatype ColorConsistency = Shared | Unconnected | Same

  datatype Consistency = Consistency(xAxis: bool, yAxis: bool, color: ColorConsistency)

  /**
   * The corrected comparison specification, reduced to what the resolution
   * stages read: the consistency toggles and the verdicts of the
   * comparison-level predicates (`isEEChart`, `isStackedBarChart`,
   * `isChartUnitScatterplots`, and `isNestingLayout || isNestingLayoutVariation`).
   */
  datatype CompSpec = CompSpec(
    consistency: Consistency,
    explicitEncoding: bool,
    stackedBar: bool,
    chartUnitScatterplots: bool,
    nesting: bool)

  /** The encoding channels the domain stage walks through. */
  datatype Channel = X | Y | Color

  /** `encoding[ch]`, undefined for a missing color channel. */
  function ChannelDef(e: Encoding, ch: Channel): Option<FieldDef> {
    match ch
    case X => Some(e.x)
    case Y => Some(e.y)
    case Color => e.color
  }

  /** JavaScript truthiness of an optional aggregate name. */
  predicate IsAggregated(agg: Option<Aggregate>) {
    agg.Some?
  }

  /**
   * Whether a chart's resolved data is aggregated: bar charts and heatmaps
   * always are, a scatterplot is when its x channel names an aggregate (the
   * test the data stage itself applies).
   */
  predicate IsChartDataAggregated(s: Spec) {
    match s.kind
    case BarChart => true
    case Heatmap => true
    case Scatterplot => IsAggregated(s.encoding.x.aggregate)
    case Unclassified => false
  }

  /**
   * The ways the resolution code can stop with a JavaScript TypeError:
   * reading `.field` of a missing color channel, reading a property of the
   * `undefined` a failed row lookup returns, calling a method on an undefined
   * domain, and calling a method on undefined chart data.
   */
  datatype Fault = MissingColor | NoMatch | UndefinedDomain | MissingData
}
