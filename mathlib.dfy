/** Numeric utilities shared by the whole renderer.

    The renderer computes in `float`/`double`; the model computes in `real`.
    The C math library is not defined here: its functions are the fields of a
    `Libm` value that every caller passes in, and the few laws a proof needs are
    predicates over that value. */
module MathLib {

  /** A value that may be absent: a null pointer, a failed decode, a miss. */
  datatype Option<T> = None | Some(value: T)

  /** The C math functions the renderer calls. */
  datatype Libm = Libm(
    sqrt: real -> real,
    sin: real -> real,
    cos: real -> real,
    tan: real -> real,
    acos: real -> real,
    asin: real -> real,
    atan2: (real, real) -> real,
    pow: (real, real) -> real)

  /** `sqrt(x)` is the non-negative root of `x`. */
  predicate SqrtAt(m: Libm, x: real) {
    m.sqrt(x) >= 0.0 && m.sqrt(x) * m.sqrt(x) == x
  }

  /** `sqrt` returns the non-negative root of a non-negative argument. A
      proof uses the law at a particular argument by naming `SqrtAt`. */
  ghost predicate SqrtLaw(m: Libm) {
    forall x :: x >= 0.0 ==> SqrtAt(m, x)
  }

  /** `sin 0 = 0` and `cos 0 = 1`. */
  predicate TrigAtZero(m: Libm) {
    m.sin(0.0) == 0.0 && m.cos(0.0) == 1.0
  }

  /** `atan2` lands in `[-pi, pi]` and `asin` in `[-pi/2, pi/2]`. */
  ghost predicate InverseTrigRanges(m: Libm) {
    && (forall y, x :: -Pi <= m.atan2(y, x) <= Pi)
    && (forall s :: -HalfPi <= m.asin(s) <= HalfPi)
  }

  /** `M_PI` and `M_PI_2` of <cmath>. */
  const Pi: real := 3.14159265358979323846
  const HalfPi: real := Pi / 2.0

  /** `std::numeric_limits<float>::max()`, the "no hit yet" distance. */
  const FloatMax: real := 340282346638528859811704183484516925440.0

  /** Quotient `a / b`. IEEE arithmetic gives an infinity or NaN when `b == 0`;
      the model gives 0 there, which every caller below treats as IEEE does
      (a zero vector normalised stays zero, a root of 0 is not positive). */
  function Quot(a: real, b: real): (q: real)
    ensures b != 0.0 ==> q * b == a
    ensures b == 0.0 ==> q == 0.0
  {
    if b == 0.0 then 0.0 else a / b
  }

  /** `std::max` and `std::min` on two values. */
  function Max(a: real, b: real): (r: real)
    ensures r >= a && r >= b && (r == a || r == b)
  {
    if a < b then b else a
  }

  function Min(a: real, b: real): (r: real)
    ensures r <= a && r <= b && (r == a || r == b)
  {
    if b < a then b else a
  }

  /** `static_cast<int>` / `int(...)` on a floating value: truncation toward zero. */
  function Trunc(x: real): (n: int)
    ensures x >= 0.0 ==> n as real <= x < n as real + 1.0
    ensures x < 0.0 ==> n as real - 1.0 < x <= n as real
  {
    if x >= 0.0 then x.Floor else -((-x).Floor)
  }

  /** A product as a function, so that sign facts about squares can be stated
      about `Times(x, x)` and combined linearly by callers. */
  function Times(a: real, b: real): real {
    a * b
  }

  lemma TimesSign(a: real, b: real)
    ensures a > 0.0 && b > 0.0 ==> Times(a, b) > 0.0
    ensures a < 0.0 && b < 0.0 ==> Times(a, b) > 0.0
    ensures a == 0.0 || b == 0.0 ==> Times(a, b) == 0.0
  {
  }

  /** A product of two non-zero factors is non-zero. */
  lemma TimesNonZero(a: real, b: real)
    ensures a != 0.0 && b != 0.0 ==> Times(a, b) != 0.0
  {
  }

  /** A square is never negative, and is zero only at zero. */
  lemma SquareSign(a: real)
    ensures Times(a, a) >= 0.0
    ensures a != 0.0 ==> Times(a, a) > 0.0
  {
    TimesSign(a, a);
  }

  /** Two non-negative reals with equal squares are equal. */
  lemma SquareRootUnique(a: real, b: real)
    requires a >= 0.0 && b >= 0.0 && a * a == b * b
    ensures a == b
  {
    if a < b {
      TimesSign(b - a, b + a);
    } else if b < a {
      TimesSign(a - b, a + b);
    }
  }

  /** Multiplying by a non-negative integer preserves order. */
  lemma {:induction false} MulMonotone(a: int, b: int, w: int)
    requires 0 <= a <= b && 0 <= w
    ensures 0 <= a * w <= b * w
    decreases b - a
  {
    if a < b {
      MulMonotone(a + 1, b, w);
      assert (a + 1) * w == a * w + w;
    }
  }

  /** `(a + 1) * w` is `a * w + w`. */
  lemma MulStep(a: int, w: int)
    ensures a * w + w == (a + 1) * w
  {
  }

  lemma MulCommutes(a: int, b: int)
    ensures a * b == b * a
  {
  }
}
