/** JavaScript number semantics that the engine relies on: NaN, the
    truncating remainder used to wrap Euler angles, the Uint16 conversion of
    typed-array writes, and the host's Math functions. */
module Numbers {

  /** A JavaScript number as the modelled code sees it: a real value or NaN.
      Infinities and float rounding are not modelled. */
  datatype Number = Real(val: real) | NaN

  datatype Option<T> = None | Some(value: T)

  /** The host functions of `Math` the engine calls, supplied from outside
      because their values are not computed by the engine. */
  datatype HostMath = HostMath(
    sqrt: real -> real,
    sin: real -> real,
    cos: real -> real,
    tan: real -> real)

  /** `Math.sqrt` behaves as the square root on non-negative reals. */
  ghost predicate SqrtSound(math: HostMath) {
    forall s: real {:trigger math.sqrt(s)} :: s >= 0.0 ==> math.sqrt(s) >= 0.0 && math.sqrt(s) * math.sqrt(s) == s
  }

  /** `Math.sin(0) == 0` and `Math.cos(0) == 1`. */
  predicate TrigAtZero(math: HostMath) {
    math.sin(0.0) == 0.0 && math.cos(0.0) == 1.0
  }

  /** The value of `Math.PI`. */
  const Pi: real := 3.141592653589793

  /** `toRadians(degrees)` of the math module. */
  function ToRadians(degrees: real): real {
    degrees * (Pi / 180.0)
  }

  function Plus(a: Number, b: Number): Number {
    if a.NaN? || b.NaN? then NaN else Real(a.val + b.val)
  }

  function Minus(a: Number, b: Number): Number {
    if a.NaN? || b.NaN? then NaN else Real(a.val - b.val)
  }

  function Times(a: Number, b: Number): Number {
    if a.NaN? || b.NaN? then NaN else Real(a.val * b.val)
  }

  function Negate(a: Number): Number {
    if a.NaN? then NaN else Real(-a.val)
  }

  /** JavaScript `===` on numbers: NaN is not equal to anything. */
  predicate StrictEquals(a: Number, b: Number) {
    a.Real? && b.Real? && a.val == b.val
  }

  /** Rounding toward zero, as the integer part of a number. */
  function Trunc(q: real): (k: int)
    ensures q >= 0.0 ==> 0 <= k && k as real <= q < k as real + 1.0
    ensures q < 0.0 ==> k <= 0 && k as real - 1.0 < q <= k as real
  {
    if q >= 0.0 then q.Floor else -((-q).Floor)
  }

  /** `a % 360` in JavaScript: the remainder of a truncating division, so the
      result carries the sign of `a`. */
  function WrapDegrees(a: real): real {
    a - 360.0 * (Trunc(a / 360.0) as real)
  }

  /** `x % 360` on a JavaScript number. */
  function WrapNumber(x: Number): Number {
    if x.NaN? then NaN else Real(WrapDegrees(x.val))
  }

  /** A wrapped angle lies strictly between -360 and 360, keeps the sign of
      the input and differs from it by a whole number of turns. */
  lemma WrapDegreesRange(a: real)
    ensures -360.0 < WrapDegrees(a) < 360.0
    ensures a >= 0.0 ==> WrapDegrees(a) >= 0.0
    ensures a <= 0.0 ==> WrapDegrees(a) <= 0.0
    ensures ((a - WrapDegrees(a)) / 360.0).Floor as real == (a - WrapDegrees(a)) / 360.0
  {
    var k := Trunc(a / 360.0);
    assert (a - WrapDegrees(a)) / 360.0 == k as real;
  }

  /** An angle already strictly inside (-360, 360) is left as it is, so
      wrapping twice is the same as wrapping once. */
  lemma WrapDegreesIdempotent(a: real)
    ensures -360.0 < a < 360.0 ==> WrapDegrees(a) == a
    ensures WrapDegrees(WrapDegrees(a)) == WrapDegrees(a)
  {
    if -360.0 < a < 360.0 {
      assert Trunc(a / 360.0) == 0;
    }
    var w := WrapDegrees(a);
    WrapDegreesRange(a);
    assert Trunc(w / 360.0) == 0;
  }

  /** Conversion of a number to an element of a `Uint16Array`: NaN becomes
      0, otherwise the value is truncated and reduced modulo 2^16. */
  function ToUint16(x: Number): (r: int)
    ensures 0 <= r < 65536
  {
    if x.NaN? then 0 else Trunc(x.val) % 65536
  }

  /** A whole number already in range is stored unchanged. */
  lemma ToUint16Exact(n: int)
    requires 0 <= n < 65536
    ensures ToUint16(Real(n as real)) == n
  {
    assert Trunc(n as real) == n;
  }
}
