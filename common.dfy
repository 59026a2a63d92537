/** Values shared by every part of the model: optional values, results,
    JavaScript numbers and the rounding functions of `Math`. */
module Common {

  datatype Option<+T> = None | Some(value: T)

  /** The value, or `d` when there is none: `o ?? d`. */
  function OrElse<T>(o: Option<T>, d: T): T
  {
    if o.Some? then o.value else d
  }

  /** `table[key] || fallback` for a table whose values are all truthy. */
  function LookupOr<K, V>(table: map<K, V>, key: K, fallback: V): V
  {
    if key in table then table[key] else fallback
  }

  datatype Result<+T, +E> = Ok(value: T) | Err(error: E)

  /** A JavaScript number where the model needs to tell NaN apart:
      `parseFloat` and `Number` of a malformed capture give NaN. */
  datatype JsNumber = Finite(v: real) | NaN

  /** `a > b` on JavaScript numbers: false whenever either side is NaN. */
  predicate Greater(a: JsNumber, b: JsNumber)
  {
    a.Finite? && b.Finite? && a.v > b.v
  }

  /** `x === 0` on JavaScript numbers. */
  predicate IsZero(x: JsNumber)
  {
    x == Finite(0.0)
  }

  /** `Math.PI`. The proofs use only that it is positive. */
  const Pi: real := 3.141592653589793

  /** `Math.floor` */
  function Floor(x: real): (r: int)
    ensures r as real <= x < r as real + 1.0
  {
    x.Floor
  }

  /** `Math.round`: halves round towards positive infinity. */
  function Round(x: real): (r: int)
    ensures x - 0.5 < r as real <= x + 0.5
  {
    Floor(x + 0.5)
  }

  /** Truncation towards zero, as JavaScript's `%` uses it. */
  function Trunc(x: real): (r: int)
    ensures 0.0 <= x ==> r == Floor(x)
    ensures x < 0.0 ==> r == -Floor(-x)
  {
    if x >= 0.0 then Floor(x) else -Floor(-x)
  }

  /** JavaScript's `x % m` for a positive divisor: the remainder takes the
      sign of the dividend. */
  function JsRem(x: real, m: real): (r: real)
    requires m > 0.0
    ensures 0.0 <= x ==> 0.0 <= r < m
  {
    var q := Trunc(x / m);
    ScaleBounds(x, m, q);
    x - q as real * m
  }

  /** From the bounds on the quotient x / m follow the bounds on x. */
  lemma ScaleBounds(x: real, m: real, q: int)
    requires m > 0.0 && q == Trunc(x / m)
    ensures 0.0 <= x ==> q as real * m <= x < q as real * m + m
  {
    if 0.0 <= x {
      assert 0.0 <= x / m;
      Bracket(x, m, q as real);
    }
  }

  lemma Bracket(x: real, m: real, lo: real)
    requires m > 0.0 && lo <= x / m < lo + 1.0
    ensures lo * m <= x < lo * m + m
  {
    var y, hi := x / m, lo + 1.0;
    assert y * m == x;
    MulLe(lo, y, m);
    assert lo * m <= x;
    MulLt(y, hi, m);
    assert y * m < hi * m;
    assert hi * m == lo * m + m;
    assert x < hi * m;
  }

  lemma MulLt(a: real, b: real, m: real)
    requires a < b && m > 0.0
    ensures a * m < b * m
  {
  }

  lemma MulLe(a: real, b: real, m: real)
    requires a <= b && m >= 0.0
    ensures a * m <= b * m
  {
  }

  /** `Math.round(x * 100) / 100`, the rounding to two decimals. */
  function RoundTo2(x: JsNumber): (r: JsNumber)
    ensures x.NaN? <==> r.NaN?
    ensures x.Finite? ==> x.v - 0.005 < r.v <= x.v + 0.005
  {
    match x
    case NaN => NaN
    case Finite(v) => Finite(Round(v * 100.0) as real / 100.0)
  }
}
