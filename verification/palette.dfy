/**
 * What the two design files share: the fixed 10 + 10 + 10 colour lists,
 * JavaScript's `Array.prototype.slice`, the "prefix clamped to length - 1"
 * idiom both files use, the index normalisation of `getConstantColor`, the
 * chart-size arithmetic, and the domain/range pair handed to a d3 scale.
 */
module Palette {
  import opened Wrappers
  import opened Values

  type Color = string

  /** `CATEGORICAL_COLORS`. */
  const Categorical: seq<Color> := [
    "#4E79A7", "#F28E2B", "#E15759",
    "#76B7B2", "#59A14E", "#EDC949",
    "#B07AA1", "#FF9DA7", "#9C755F", "#BAB0AC"]

  /** `CATEGORICAL_COLORS_DARKER`. */
  const Darker: seq<Color> := [
    "#3E6085", "#c17122", "#b44547",
    "#5e928e", "#47803e", "#bda03a",
    "#8c6180", "#cc7d85", "#7c5d4c", "#948c89"]

  /** `CATEGORICAL_COLORS_DARKEST`. */
  const Darkest: seq<Color> := [
    "#121c27", "#39210a", "#361415",
    "#1c2b2a", "#152612", "#383011",
    "#2a1d26", "#3d2527", "#251b16", "#2c2a29"]

  /** The 20-entry palette `CATEGORICAL_COLORS.concat(CATEGORICAL_COLORS_DARKER)`. */
  const Full: seq<Color> := Categorical + Darker

  /** `NUMERICAL_COLORS` and `NUMERICAL_COLORS2` (the two-stop ramps of a linear scale). */
  const Numerical: seq<Color> := ["#C6E48B", "#239A3B"]
  const Numerical2: seq<Color> := ["#8bc6e4", "#3b239a"]

  /** `a`, but no more than `limit`. */
  function Cap(a: int, limit: int): int {
    if a <= limit then a else limit
  }

  /** How `slice` reads one bound: negative counts from the end, and both ends are clipped to the array. */
  function SliceBound(len: nat, i: int): (r: nat)
    ensures r <= len
    ensures 0 <= i <= len ==> r == i
  {
    if i < 0 then (if len + i < 0 then 0 else len + i)
    else if i > len then len
    else i
  }

  /** `s.slice(start, end)`. */
  function JsSlice<T>(s: seq<T>, start: int, end: int): (r: seq<T>)
    ensures |r| <= |s|
    ensures 0 <= start <= end <= |s| ==> r == s[start..end]
    ensures 0 <= end <= start ==> r == []
    ensures forall k :: 0 <= k < |r| ==> r[k] in s
  {
    var b, e := SliceBound(|s|, start), SliceBound(|s|, end);
    if b < e then s[b..e] else []
  }

  /**
   * `colors.slice(0, n > colors.length ? colors.length - 1 : n)`: the first
   * `n` colours, except that asking for more than there are yields one
   * fewer than there are.
   */
  function ClampedPrefix(colors: seq<Color>, n: int): (r: seq<Color>)
    requires |colors| > 0
    ensures 0 <= n <= |colors| ==> r == colors[..n]
    ensures n > |colors| ==> r == colors[..|colors| - 1]
  {
    JsSlice(colors, 0, if n > |colors| then |colors| - 1 else n)
  }

  /**
   * The index normalisation of `getConstantColor`: absent or non-positive
   * becomes 1, beyond the ten categorical colours wraps back by ten once.
   */
  function ConstantIndex(index: Option<int>): (i: int)
    ensures i >= 1
    ensures index.None? || index.value <= 0 ==> i == 1
    ensures index.Some? && 1 <= index.value <= |Categorical| ==> i == index.value
    ensures index.Some? && index.value > |Categorical| ==> i + |Categorical| == index.value
  {
    if index.None? || index.value <= 0 then 1
    else if index.value > |Categorical| then index.value - |Categorical|
    else index.value
  }

  /**
   * The domain and range lists handed to a d3 scale. A linear scale's
   * domain is `d3.extent` of `data`, which is not modelled.
   */
  datatype Scale =
    | OrdinalScale(domain: seq<Value>, range: seq<Color>)
    | LinearScale(data: seq<Value>, range: seq<Color>)

  /** `typeof a[0] === "string"`: an empty list is not one. */
  predicate IsNominalList(a: seq<Value>) {
    |a| > 0 && a[0].Str?
  }

  datatype Size = Size(width: int, height: int)
  datatype Margin = Margin(top: int, right: int, bottom: int, left: int)

  /** `CHART_TOTAL_SIZE`: the plotting area plus the margins around it. */
  function TotalSize(size: Size, margin: Margin): Size {
    Size(size.width + margin.left + margin.right, size.height + margin.top + margin.bottom)
  }

  /** No colour appears twice in the 20-entry palette. */
  lemma FullDistinct()
    ensures forall i, j :: 0 <= i < j < |Full| ==> Full[i] != Full[j]
  {
  }

  /** The first ten palette entries are the categorical colours. */
  lemma FullPrefix()
    ensures forall k :: 0 <= k <= |Categorical| ==> Full[..k] == Categorical[..k]
  {
    forall k | 0 <= k <= |Categorical|
      ensures Full[..k] == Categorical[..k]
    {
      assert Full[..k] == (Categorical + Darker)[..k];
    }
  }

  /** Entry `k` of the palette is categorical colour `k` below ten and darker shade `k - 10` above. */
  lemma FullEntries()
    ensures forall k :: 0 <= k < |Categorical| ==> Full[k] == Categorical[k]
    ensures forall k :: |Categorical| <= k < |Full| ==> Full[k] == Darker[k - |Categorical|]
  {
  }

  /** `s.slice(i - 1, i)` is the `i`-th element, or nothing past the end. */
  lemma SliceOne<T>(s: seq<T>, i: int)
    requires i >= 1
    ensures i <= |s| ==> JsSlice(s, i - 1, i) == [s[i - 1]]
    ensures i > |s| ==> JsSlice(s, i - 1, i) == []
  {
  }

  /** Two adjacent slices of a list without repeats share no element. */
  lemma {:induction false} AdjacentSlicesDisjoint<T>(s: seq<T>, k: nat, e: nat)
    requires forall i, j :: 0 <= i < j < |s| ==> s[i] != s[j]
    requires k <= e <= |s|
    ensures forall c :: c in s[..k] ==> c !in s[k..e]
  {
    forall c | c in s[..k]
      ensures c !in s[k..e]
    {
      var i :| 0 <= i < k && s[i] == c;
    }
  }
}
