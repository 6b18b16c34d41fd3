/**
 * Data cells and rows as the resolution pipeline reads them: a row maps field
 * names to values, a missing field reads as `undefined`, and the few JavaScript
 * operators the pipeline applies to cells (`-`, `===`, null tests) are written
 * out explicitly.
 */
module Values {
  import opened Wrappers

  /** A data cell. `NaN` is the number JavaScript produces from a failed subtraction. */
  datatype Value = Num(n: real) | Str(s: string) | Null | Undef | NaN

  /** A data row: a record addressed by field name. */
  type Row = map<string, Value>

  /** `row[field]`: a field the row does not hold reads as undefined. */
  function Get(row: Row, field: string): Value {
    if field in row then row[field] else Undef
  }

  /** `rows.map(d => d[field])`: one cell per row, in row order. */
  function Column(rows: seq<Row>, field: string): (r: seq<Value>)
    ensures |r| == |rows|
    ensures forall i :: 0 <= i < |rows| ==> r[i] == Get(rows[i], field)
  {
    seq(|rows|, i requires 0 <= i < |rows| => Get(rows[i], field))
  }

  /** A number's own value; anything else adds nothing to a sum. */
  function AmountOf(v: Value): real {
    if v.Num? then v.n else 0.0
  }

  lemma ColumnAppend(rows: seq<Row>, row: Row, field: string)
    ensures Column(rows + [row], field) == Column(rows, field) + [Get(row, field)]
  {
  }

  /** `isNullOrUndefined(v)` */
  predicate IsNullish(v: Value) {
    v.Null? || v.Undef?
  }

  /** JavaScript's `a === b` on cells: NaN equals nothing, not even itself. */
  predicate StrictEq(a: Value, b: Value) {
    a == b && !a.NaN?
  }

  /**
   * The number a cell stands for under JavaScript's arithmetic: null counts as
   * 0, undefined and NaN stand for no number. Strings are taken as no number
   * too (numeric strings are not parsed in this model).
   */
  function ToNumber(v: Value): Option<real> {
    match v
    case Num(n) => Some(n)
    case Null => Some(0.0)
    case _ => None
  }

  /** JavaScript's binary `a - b` on cells. */
  function Minus(a: Value, b: Value): (r: Value)
    ensures r.Num? <==> ToNumber(a).Some? && ToNumber(b).Some?
    ensures r.Num? ==> r.n + ToNumber(b).value == ToNumber(a).value
    ensures !r.Num? ==> r.NaN?
  {
    match (ToNumber(a), ToNumber(b))
    case (Some(x), Some(y)) => Num(x - y)
    case _ => NaN
  }

  /** Subtraction of two numbers is anti-symmetric. */
  lemma MinusAntiSymmetric(a: Value, b: Value)
    requires a.Num? && b.Num?
    ensures Minus(a, b).Num? && Minus(b, a).Num?
    ensures Minus(a, b).n == -Minus(b, a).n
  {
  }

  predicate NoDuplicates<T(==)>(s: seq<T>) {
    forall i, j :: 0 <= i < j < |s| ==> s[i] != s[j]
  }

  /** The position of the first occurrence of `v` in `s`. */
  function FirstIndex<T(==)>(s: seq<T>, v: T): (k: nat)
    requires v in s
    ensures k < |s| && s[k] == v
    ensures forall i :: 0 <= i < k ==> s[i] != v
  {
    if s[0] == v then 0 else 1 + FirstIndex(s[1..], v)
  }

  /**
   * `uniqueValues`: the distinct values of `s`, each once, in the order of
   * their first appearance.
   */
  function Distinct(s: seq<Value>): (r: seq<Value>)
    ensures NoDuplicates(r)
    ensures forall v :: v in r <==> v in s
    ensures |r| <= |s|
    decreases |s|
  {
    if |s| == 0 then []
    else
      var prefix := Distinct(s[..|s| - 1]);
      if s[|s| - 1] in prefix then prefix else prefix + [s[|s| - 1]]
  }

  lemma DistinctAppend(s: seq<Value>, v: Value)
    ensures Distinct(s + [v]) == if v in Distinct(s) then Distinct(s) else Distinct(s) + [v]
  {
    assert (s + [v])[..|s|] == s;
  }

  /** The distinct values come in the order of their first appearance in `s`. */
  lemma {:induction false} DistinctFirstAppearance(s: seq<Value>)
    ensures forall i, j :: 0 <= i < j < |Distinct(s)| ==>
      FirstIndex(s, Distinct(s)[i]) < FirstIndex(s, Distinct(s)[j])
  {
    if |s| > 0 {
      var p := s[..|s| - 1];
      var v := s[|s| - 1];
      assert s == p + [v];
      DistinctFirstAppearance(p);
      DistinctAppend(p, v);
      var d := Distinct(s);
      forall i, j | 0 <= i < j < |d|
        ensures FirstIndex(s, d[i]) < FirstIndex(s, d[j])
      {
        FirstIndexPrefix(p, v, d[i]);
        if j < |Distinct(p)| {
          FirstIndexPrefix(p, v, d[j]);
        } else {
          assert d[j] == v && v !in p;
          assert FirstIndex(s, d[j]) == |p|;
        }
      }
    }
  }

  lemma FirstIndexPrefix<T>(p: seq<T>, v: T, w: T)
    requires w in p
    ensures FirstIndex(p + [v], w) == FirstIndex(p, w)
  {
    var k := FirstIndex(p, w);
    var k' := FirstIndex(p + [v], w);
    assert (p + [v])[k] == w;
    assert k' <= k;
    assert p[k'] == w;
  }

  /** `s.find(p)` as a position: the first element satisfying `p`, if any. */
  function FindFirst<T>(s: seq<T>, p: T -> bool): (r: Option<nat>)
    ensures r.Some? ==> r.value < |s| && p(s[r.value])
    ensures r.Some? ==> forall k :: 0 <= k < r.value ==> !p(s[k])
    ensures r.None? ==> forall k :: 0 <= k < |s| ==> !p(s[k])
  {
    if |s| == 0 then None
    else if p(s[0]) then Some(0)
    else match FindFirst(s[1..], p)
      case None => None
      case Some(k) => Some(k + 1)
  }

  /** `rows.find(d => d[field] === v)` as a position. */
  function MatchKey(rows: seq<Row>, field: string, v: Value): (r: Option<nat>)
    ensures r.Some? ==> r.value < |rows| && StrictEq(Get(rows[r.value], field), v)
    ensures r.Some? ==> forall k :: 0 <= k < r.value ==> !StrictEq(Get(rows[k], field), v)
    ensures r.None? ==> forall k :: 0 <= k < |rows| ==> !StrictEq(Get(rows[k], field), v)
  {
    FindFirst(rows, (d: Row) => StrictEq(Get(d, field), v))
  }

  /** `rows.find(d => d[fx] === vx && d[fy] === vy)` as a position. */
  function MatchCell(rows: seq<Row>, fx: string, vx: Value, fy: string, vy: Value): (r: Option<nat>)
    ensures r.Some? ==> r.value < |rows|
    ensures r.Some? ==> StrictEq(Get(rows[r.value], fx), vx) && StrictEq(Get(rows[r.value], fy), vy)
    ensures r.Some? ==> forall k :: 0 <= k < r.value ==>
      !(StrictEq(Get(rows[k], fx), vx) && StrictEq(Get(rows[k], fy), vy))
    ensures r.None? ==> forall k :: 0 <= k < |rows| ==>
      !(StrictEq(Get(rows[k], fx), vx) && StrictEq(Get(rows[k], fy), vy))
  {
    FindFirst(rows, (d: Row) => StrictEq(Get(d, fx), vx) && StrictEq(Get(d, fy), vy))
  }
}
