/** The JavaScript values a channel's trim, fade and delay fields can hold,
    and the coercions channel.js applies to them. Numbers are whole
    milliseconds: fractional values are outside the model. */
module JsValue {

  import opened Optional

  datatype Value = Undefined | Bool(b: bool) | Num(n: int) | NaN

  /** `Number(v)`: `None` stands for NaN. */
  function ToNumber(v: Value): Option<int>
  {
    match v
    case Undefined => None
    case Bool(b) => Some(if b then 1 else 0)
    case Num(n) => Some(n)
    case NaN => None
  }

  /** The global `isNaN`, which coerces its argument first. */
  predicate IsNaN(v: Value)
  {
    ToNumber(v).None?
  }

  /** `v > k`: false whenever `v` coerces to NaN. */
  predicate Gt(v: Value, k: int)
  {
    ToNumber(v).Some? && ToNumber(v).value > k
  }

  /** `v <= k`: false whenever `v` coerces to NaN. */
  predicate Le(v: Value, k: int)
  {
    ToNumber(v).Some? && ToNumber(v).value <= k
  }

  /** `v == 0` (loose equality): `undefined == 0` is false, `false == 0` is true. */
  predicate LooselyZero(v: Value)
  {
    v == Num(0) || v == Bool(false)
  }

  /** Whether `v` counts as true in a condition or before `||`. */
  predicate Truthy(v: Value)
  {
    match v
    case Undefined => false
    case Bool(b) => b
    case Num(n) => n != 0
    case NaN => false
  }

  /** `v || fallback` */
  function Or(v: Value, fallback: Value): (r: Value)
    ensures Truthy(v) ==> r == v
    ensures !Truthy(v) ==> r == fallback
  {
    if Truthy(v) then v else fallback
  }

  /** `a - b` on numbers. */
  function Sub(a: Value, b: Value): (r: Value)
    ensures r.Num? || r == NaN
    ensures r.Num? <==> !IsNaN(a) && !IsNaN(b)
    ensures r.Num? ==> r.n == ToNumber(a).value - ToNumber(b).value
  {
    match (ToNumber(a), ToNumber(b))
    case (Some(x), Some(y)) => Num(x - y)
    case _ => NaN
  }

  /** `Math.min(v, k)`: NaN as soon as `v` is not a number. */
  function MinWith(v: Value, k: int): (r: Value)
    ensures r.Num? || r == NaN
    ensures r.Num? <==> !IsNaN(v)
    ensures r.Num? ==> r.n <= k && (r.n == k || r.n == ToNumber(v).value)
    ensures r.Num? ==> r.n <= ToNumber(v).value
  {
    match ToNumber(v)
    case Some(x) => Num(if x < k then x else k)
    case None => NaN
  }

  /** `v !== false ? v : fallback`, the way a fade length falls back to `min`. */
  function Effective(v: Value, fallback: int): (r: Value)
    ensures v != Bool(false) ==> r == v
    ensures v == Bool(false) ==> r == Num(fallback)
  {
    if v != Bool(false) then v else Num(fallback)
  }
}
