/** Small value types and arithmetic shared by the models. */
module Common {

  datatype Option<+T> = None | Some(value: T)

  datatype Result<+T, +E> = Success(value: T) | Failure(error: E)

  function MinReal(a: real, b: real): (m: real)
    ensures m <= a && m <= b && (m == a || m == b)
  {
    if a <= b then a else b
  }

  function MinInt(a: int, b: int): (m: int)
    ensures m <= a && m <= b && (m == a || m == b)
  {
    if a <= b then a else b
  }

  /** `np.clip(x, lo, hi)`, which is `minimum(maximum(x, lo), hi)`; when
      `lo > hi` every value becomes `hi`. */
  function ClipInt(x: int, lo: int, hi: int): (c: int)
    ensures lo <= hi ==> lo <= c <= hi
    ensures lo <= x <= hi ==> c == x
    ensures hi < lo ==> c == hi
  {
    var atLeast := if x < lo then lo else x;
    if hi < atLeast then hi else atLeast
  }

  function ClipReal(x: real, lo: real, hi: real): (c: real)
    ensures lo <= hi ==> lo <= c <= hi
    ensures lo <= x <= hi ==> c == x
    ensures hi < lo ==> c == hi
  {
    var atLeast := if x < lo then lo else x;
    if hi < atLeast then hi else atLeast
  }

  /** Python's `a // b` for a positive divisor: the floor of the quotient.
      (Dafny's Euclidean `/` agrees with floor division when `b > 0`.) */
  function FloorDiv(a: int, b: int): (q: int)
    requires b > 0
    ensures b * q <= a < b * q + b
  {
    a / b
  }

  /** Python's `int(x)` on a float: truncation toward zero. */
  function TruncToInt(x: real): (n: int)
    ensures 0.0 <= x ==> 0 <= n && n as real <= x < n as real + 1.0
    ensures x < 0.0 ==> n <= 0 && n as real - 1.0 < x <= n as real
  {
    if 0.0 <= x then x.Floor else -((-x).Floor)
  }

  /** Python's `random.uniform(a, b)`, `a + (b - a) * random()`, with the
      draw `u` of `random()` passed in. */
  function Uniform(a: real, b: real, u: real): (x: real)
    requires 0.0 <= u <= 1.0
    ensures a <= b ==> a <= x <= b
    ensures b < a ==> b <= x <= a
  {
    var d := b - a;
    ScaleWithin(d, u);
    var step := d * u;
    assert a <= b ==> 0.0 <= step <= d;
    assert b < a ==> d <= step <= 0.0;
    a + step
  }

  /** `x` is a value `random.uniform(a, b)` can return: it lies between
      the two bounds, in whichever order they are given. */
  predicate DrawnFrom(x: real, a: real, b: real) {
    if a <= b then a <= x <= b else b <= x <= a
  }

  lemma ScaleWithin(d: real, u: real)
    requires 0.0 <= u <= 1.0
    ensures 0.0 <= d ==> 0.0 <= d * u <= d
    ensures d < 0.0 ==> d <= d * u <= 0.0
  {
  }

  /** Monotonicity of a product of non-negative reals. */
  lemma MulMono(a: real, b: real, c: real, d: real)
    requires 0.0 <= a <= b && 0.0 <= c <= d
    ensures a * c <= b * d
  {
    assert a * c <= b * c;
    assert b * c <= b * d;
  }
}
