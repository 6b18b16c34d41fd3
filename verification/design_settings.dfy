/**
 * The palette helpers of `design-settings.ts`, the second design file. Its
 * `getBarColor` slices the 20-entry palette without capping the
 * counts at ten and treats a second count of zero as present, and its
 * `getConsistentColor` builds scales only when consistency is off.
 */
module DesignSettings {
  import opened Wrappers
  import opened Values
  import opened Palette
  import DefaultDesign

  /** `CHART_SIZE` and `CHART_MARGIN` of this file. */
  const ChartSize := Size(280, 200)
  const ChartMargin := Margin(80, 50, 80, 100)
  const ChartTotalSize := TotalSize(ChartSize, ChartMargin)

  lemma ChartTotalSizeValue()
    ensures ChartTotalSize == Size(430, 360)
  {
  }

  /**
   * `getBarColor(n, n2)`: with `n2` undefined the first `n` palette colours
   * (nineteen when more than twenty are asked for); otherwise `n2` colours
   * from offset `n`, cut at entry nineteen when they would run past the end.
   */
  function BarColor(n: int, n2: Option<int>): (r: seq<Color>)
    ensures n2.None? && 0 <= n <= |Full| ==> r == Full[..n]
    ensures n2.None? && n > |Full| ==> r == Full[..|Full| - 1]
    ensures n2 == Some(0) && n >= 0 ==> r == []
    ensures n2.Some? && n >= 0 && n2.value >= 0 && n + n2.value <= |Full| ==> r == Full[n..n + n2.value]
    ensures n2.Some? && 0 <= n < |Full| && n + n2.value > |Full| ==> r == Full[n..|Full| - 1]
  {
    match n2
    case None => JsSlice(Full, 0, if n > |Full| then |Full| - 1 else n)
    case Some(k) => JsSlice(Full, n, if n + k > |Full| then |Full| - 1 else n + k)
  }

  /** Unlike `getNominalColor`, a second count of zero is not read as absent. */
  lemma ZeroSecondCountIsEmpty(n: int)
    requires 1 <= n <= |Categorical|
    ensures BarColor(n, Some(0)) == []
    ensures BarColor(n, None) == DefaultDesign.NominalColor(n, Some(0)) != []
  {
    FullPrefix();
  }

  /** `getBarColorDarker(n)`, the same 10/9 clamp as in the other design file. */
  function BarColorDarker(n: int): (r: seq<Color>)
    ensures 0 <= n <= |Darker| ==> r == Darker[..n]
    ensures n > |Darker| ==> r == Darker[..|Darker| - 1]
  {
    ClampedPrefix(Darker, n)
  }

  /** `getBarColorDarkest(n)`, with the same clamp. */
  function BarColorDarkest(n: int): (r: seq<Color>)
    ensures 0 <= n <= |Darkest| ==> r == Darkest[..n]
    ensures n > |Darkest| ==> r == Darkest[..|Darkest| - 1]
  {
    ClampedPrefix(Darkest, n)
  }

  /** Both design files hand out the same darker and darkest shades for every count. */
  lemma DarkShadesAgree(n: int)
    ensures BarColorDarker(n) == DefaultDesign.BarColorDarker(n)
    ensures BarColorDarkest(n) == DefaultDesign.BarColorDarkest(n)
  {
  }

  /**
   * `getConsistentColor(a, b, consistency)`: with consistency on, no scales
   * at all; with it off, two ordinal scales that BOTH take `a` as their
   * domain, A's range the first `|a|` palette colours and B's the `|b|`
   * colours that follow.
   */
  function ConsistentColor(a: seq<Value>, b: seq<Value>, consistency: bool): (r: (Option<Scale>, Option<Scale>))
    ensures consistency <==> r.0.None?
    ensures consistency <==> r.1.None?
    ensures !consistency ==> r.0.value.OrdinalScale? && r.0.value.domain == a
    ensures !consistency ==> r.1.value.OrdinalScale? && r.1.value.domain == a
    ensures !consistency && |a| <= |Full| ==> r.0.value.range == Full[..|a|]
    ensures !consistency && |a| + |b| <= |Full| ==> r.1.value.range == Full[|a|..|a| + |b|]
  {
    if !consistency then
      (Some(OrdinalScale(a, BarColor(|a|, None))), Some(OrdinalScale(a, BarColor(|a|, Some(|b|)))))
    else
      (None, None)
  }

  /** While the palette lasts, the two charts' colours never coincide. */
  lemma InconsistentColorsDisjoint(a: seq<Value>, b: seq<Value>)
    requires |a| + |b| <= |Full|
    ensures forall c :: c in ConsistentColor(a, b, false).0.value.range ==> c !in ConsistentColor(a, b, false).1.value.range
  {
    FullDistinct();
    AdjacentSlicesDisjoint(Full, |a|, |a| + |b|);
  }

  /**
   * `getConstantColor(index)`: the same index normalisation as the other
   * design file, but the colour is read from the uncapped `getBarColor`,
   * so indices 21 to 30 reach the darker shades and only past 30 is the
   * range empty.
   */
  function ConstantColor(index: Option<int>): (r: seq<Color>)
    ensures index.None? || index.value <= 0 ==> r == [Categorical[0]]
    ensures index.Some? && 1 <= index.value <= |Categorical| ==> r == [Categorical[index.value - 1]]
    ensures index.Some? && |Categorical| < index.value <= |Full| ==> r == [Categorical[index.value - |Categorical| - 1]]
    ensures index.Some? && |Full| < index.value <= |Full| + |Categorical| ==> r == [Darker[index.value - |Full| - 1]]
    ensures index.Some? && index.value > |Full| + |Categorical| ==> r == []
  {
    var i := ConstantIndex(index);
    FullEntries();
    SliceOne(BarColor(i, None), i);
    JsSlice(BarColor(i, None), i - 1, i)
  }

  /** Index 21 is empty under one design file and a darker shade under the other. */
  lemma ConstantColorsDiverge()
    ensures DefaultDesign.ConstantColor(Some(21)) == []
    ensures ConstantColor(Some(21)) == [Darker[0]]
  {
  }
}
