/** `Color`: three channels with componentwise operators and an in-place
    clamp into `[0, 1]`. */
module Colors {
  import opened MathLib

  datatype Color = Color(r: real, g: real, b: real)

  /** `Color()` is black: every channel defaults to 0. */
  const Black := Color(0.0, 0.0, 0.0)

  function Add(a: Color, c: Color): Color {
    Color(a.r + c.r, a.g + c.g, a.b + c.b)
  }

  /** `a - c`: adding `c` back gives `a`. */
  function Sub(a: Color, c: Color): (d: Color)
    ensures Add(d, c) == a
  {
    Color(a.r - c.r, a.g - c.g, a.b - c.b)
  }

  function Scale(a: Color, f: real): Color {
    Color(a.r * f, a.g * f, a.b * f)
  }

  function Mul(a: Color, c: Color): Color {
    Color(a.r * c.r, a.g * c.g, a.b * c.b)
  }

  /** `std::min(1, std::max(0, x))`: lands in `[0, 1]`, and leaves a value
      already there untouched. */
  function ClampChannel(x: real): (y: real)
    ensures 0.0 <= y <= 1.0
    ensures 0.0 <= x <= 1.0 ==> y == x
    ensures x < 0.0 ==> y == 0.0
    ensures x > 1.0 ==> y == 1.0
  {
    Min(1.0, Max(0.0, x))
  }

  predicate InUnitRange(c: Color) {
    0.0 <= c.r <= 1.0 && 0.0 <= c.g <= 1.0 && 0.0 <= c.b <= 1.0
  }

  /** The colour `clamp()` leaves behind. */
  function Clamped(c: Color): (d: Color)
    ensures InUnitRange(d)
    ensures InUnitRange(c) ==> d == c
  {
    Color(ClampChannel(c.r), ClampChannel(c.g), ClampChannel(c.b))
  }

  /** Clamping twice is clamping once. */
  lemma ClampIdempotent(c: Color)
    ensures Clamped(Clamped(c)) == Clamped(c)
  {
  }

  /** A `Color` object: the compound operators reassign `*this` and `clamp()`
      overwrites `r`, `g` and `b` in place. */
  class MutableColor {
    var r: real
    var g: real
    var b: real

    function Value(): Color
      reads this
    {
      Color(r, g, b)
    }

    /** `Color()`, with every argument defaulted: black. */
    constructor ()
      ensures Value() == Black
    {
      r, g, b := 0.0, 0.0, 0.0;
    }

    constructor Of(r: real, g: real, b: real)
      ensures Value() == Color(r, g, b)
    {
      this.r, this.g, this.b := r, g, b;
    }

    /** `+=` leaves the object holding what `+` returns. */
    method AddAssign(c: Color)
      modifies this
      ensures Value() == Add(old(Value()), c)
    {
      r, g, b := r + c.r, g + c.g, b + c.b;
    }

    method SubAssign(c: Color)
      modifies this
      ensures Value() == Sub(old(Value()), c)
    {
      r, g, b := r - c.r, g - c.g, b - c.b;
    }

    method ScaleAssign(f: real)
      modifies this
      ensures Value() == Scale(old(Value()), f)
    {
      r, g, b := r * f, g * f, b * f;
    }

    method MulAssign(c: Color)
      modifies this
      ensures Value() == Mul(old(Value()), c)
    {
      r, g, b := r * c.r, g * c.g, b * c.b;
    }

    /** `clamp()`: every channel ends in `[0, 1]`; a colour already in range
        is left as it was. */
    method Clamp()
      modifies this
      ensures Value() == Clamped(old(Value()))
      ensures InUnitRange(Value())
      ensures InUnitRange(old(Value())) ==> Value() == old(Value())
    {
      r := Min(1.0, Max(0.0, r));
      g := Min(1.0, Max(0.0, g));
      b := Min(1.0, Max(0.0, b));
    }
  }
}
