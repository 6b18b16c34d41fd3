/**
 * The palette helpers of `default-design-manager.ts`: the colour ranges
 * handed to d3 scales for nominal, darker and constant colours, and the
 * pairing of two charts' colour scales under a colour-consistency mode.
 */
module DefaultDesign {
  import opened Wrappers
  import opened Values
  import opened Specs
  import opened Palette

  /** `CHART_SIZE` and `CHART_MARGIN` of this file. */
  const ChartSize := Size(280, 240)
  const ChartMargin := Margin(80, 50, 80, 100)
  const ChartTotalSize := TotalSize(ChartSize, ChartMargin)

  lemma ChartTotalSizeValue()
    ensures ChartTotalSize == Size(430, 400)
  {
  }

  /** `getBarColorDarker(n)`: the 10/9 clamp, so eleven or more shades yield nine. */
  function BarColorDarker(n: int): (r: seq<Color>)
    ensures 0 <= n <= |Darker| ==> r == Darker[..n]
    ensures n > |Darker| ==> r == Darker[..9]
  {
    ClampedPrefix(Darker, n)
  }

  /** `getBarColorDarkest(n)`, with the same clamp. */
  function BarColorDarkest(n: int): (r: seq<Color>)
    ensures 0 <= n <= |Darkest| ==> r == Darkest[..n]
    ensures n > |Darkest| ==> r == Darkest[..9]
  {
    ClampedPrefix(Darkest, n)
  }

  /** Asking for more shades can yield fewer: ten give ten, eleven give nine. */
  lemma DarkerNotMonotone()
    ensures |BarColorDarker(10)| == 10 && |BarColorDarker(11)| == 9
    ensures |BarColorDarkest(10)| == 10 && |BarColorDarkest(11)| == 9
  {
  }

  /** `getQuantitativeColor(alt)`: the alternative ramp when `alt` is truthy. */
  function QuantitativeColor(alt: bool): (r: seq<Color>)
    ensures |r| == 2
    ensures alt ==> r == Numerical2
    ensures !alt ==> r == Numerical
  {
    if alt then Numerical2 else Numerical
  }

  /**
   * `getNominalColor(n, n2)`. Both counts are capped at ten; an absent or
   * zero `n2` asks for the first `n` colours of the 20-entry palette, any
   * other `n2` for `n2` colours starting at offset `n`.
   */
  function NominalColor(n: int, n2: Option<int>): (r: seq<Color>)
    ensures n >= 0 && (n2.None? || n2 == Some(0)) ==> r == Categorical[..Cap(n, |Categorical|)]
    ensures n >= 0 && n2.Some? && n2.value > 0 ==>
      r == Full[Cap(n, |Categorical|)..Cap(n, |Categorical|) + Cap(n2.value, |Categorical|)]
    ensures n >= 0 && n2.Some? && n2.value > 0 ==> |r| == Cap(n2.value, |Categorical|)
  {
    var n1 := if n > |Categorical| then |Categorical| else n;
    var m := if n2.Some? && n2.value != 0 && n2.value > |Categorical| then Some(|Categorical|) else n2;
    if m.None? || m.value == 0 then
      FullPrefix();
      JsSlice(Full, 0, if n1 > |Full| then |Full| - 1 else n1)
    else
      JsSlice(Full, n1, if n1 + m.value > |Full| then |Full| - 1 else n1 + m.value)
  }

  /** A chart's colour scale: ordinal over the values when they are strings, else linear. */
  function ScaleOf(vals: seq<Value>, nominal: seq<Color>, ramp: seq<Color>): Scale {
    if IsNominalList(vals) then OrdinalScale(vals, nominal) else LinearScale(vals, ramp)
  }

  /**
   * `getConsistentColor(a, b, consistency)`: A's scale never depends on B
   * or the mode; under `unconnected` and `same` B gets a scale built like
   * A's from its own values, and otherwise (shared) B's nominal colours
   * continue the palette after A's and its ramp is the alternative one.
   */
  function ConsistentColor(a: seq<Value>, b: seq<Value>, mode: ColorConsistency): (r: (Scale, Scale))
    ensures IsNominalList(a) ==> r.0 == OrdinalScale(a, Categorical[..Cap(|a|, |Categorical|)])
    ensures !IsNominalList(a) ==> r.0 == LinearScale(a, Numerical)
    ensures mode != Shared && IsNominalList(b) ==> r.1 == OrdinalScale(b, Categorical[..Cap(|b|, |Categorical|)])
    ensures mode != Shared && !IsNominalList(b) ==> r.1 == LinearScale(b, Numerical)
    ensures mode == Shared && IsNominalList(b) ==>
      r.1 == OrdinalScale(b, Full[Cap(|a|, |Categorical|)..Cap(|a|, |Categorical|) + Cap(|b|, |Categorical|)])
    ensures mode == Shared && !IsNominalList(b) ==> r.1 == LinearScale(b, Numerical2)
  {
    var colorA := ScaleOf(a, NominalColor(|a|, None), QuantitativeColor(false));
    var colorB :=
      match mode
      case Unconnected | Same => ScaleOf(b, NominalColor(|b|, None), QuantitativeColor(false))
      case Shared => ScaleOf(b, NominalColor(|a|, Some(|b|)), QuantitativeColor(true));
    (colorA, colorB)
  }

  /** In shared mode two nominal charts never share a colour. */
  lemma SharedColorsDisjoint(a: seq<Value>, b: seq<Value>)
    requires IsNominalList(a) && IsNominalList(b)
    ensures forall c :: c in ConsistentColor(a, b, Shared).0.range ==> c !in ConsistentColor(a, b, Shared).1.range
  {
    var k := Cap(|a|, |Categorical|);
    FullPrefix();
    FullDistinct();
    AdjacentSlicesDisjoint(Full, k, k + Cap(|b|, |Categorical|));
  }

  /** In `unconnected` and `same` modes B's scale is the one it would get if it were A. */
  lemma UnsharedBIsIndependent(a: seq<Value>, b: seq<Value>, mode: ColorConsistency)
    requires mode != Shared
    ensures ConsistentColor(a, b, mode).1 == ConsistentColor(b, a, mode).0
  {
  }

  /**
   * `getColor(d, styles)`: an ordinal scale over the distinct values of `d`,
   * with the darker shades when `styles.darker` is set and the palette
   * prefix otherwise.
   */
  function Color(d: seq<Value>, darker: Option<bool>): (r: Scale)
    ensures r.OrdinalScale?
    ensures NoDuplicates(r.domain) && forall v :: v in r.domain <==> v in d
    ensures darker != Some(true) ==> r.range == Categorical[..Cap(|r.domain|, |Categorical|)]
    ensures darker == Some(true) && |r.domain| <= |Darker| ==> r.range == Darker[..|r.domain|]
  {
    var domain := Distinct(d);
    OrdinalScale(domain, if darker.GetOr(false) then BarColorDarker(|domain|) else NominalColor(|domain|, None))
  }

  /** Up to ten distinct values each get their own colour. */
  lemma ColorOnePerValue(d: seq<Value>, darker: Option<bool>)
    requires |Distinct(d)| <= |Categorical|
    ensures |Color(d, darker).range| == |Color(d, darker).domain|
  {
  }

  /**
   * `getConstantColor(index)`: the range of a domain-less ordinal scale
   * holding one colour. Indices 1 to 10 pick that categorical colour,
   * 11 to 20 wrap round to the same ten, and past 20 the range is empty.
   */
  function ConstantColor(index: Option<int>): (r: seq<Color>)
    ensures index.None? || index.value <= 0 ==> r == [Categorical[0]]
    ensures index.Some? && 1 <= index.value <= |Categorical| ==> r == [Categorical[index.value - 1]]
    ensures index.Some? && |Categorical| < index.value <= |Full| ==> r == [Categorical[index.value - |Categorical| - 1]]
    ensures index.Some? && index.value > |Full| ==> r == []
  {
    var i := ConstantIndex(index);
    FullEntries();
    SliceOne(NominalColor(i, None), i);
    JsSlice(NominalColor(i, None), i - 1, i)
  }
}
