/** An optional value: a key that may be absent from a record. */
module Wrappers {
  datatype Option<+T> = None | Some(value: T) {
    /** The value, or `default` when absent (Python's `dict.get(key, default)`). */
    function GetOr(default: T): T {
      match this
      case Some(v) => v
      case None => default
    }
  }
}

/** Numbers as the source computes them, modelled over the reals.

    The math library the source calls (`Math.sin`, `np.exp`, ...) is not
    interpreted: every function that needs it takes a `MathLib` value and
    assumes of it only what `Valid` lists. */
module Numerics {

  /** `Math.PI` in JavaScript and `np.pi` in NumPy: the same double. */
  const PI: real := 3.141592653589793

  /** Degrees to radians, as `np.radians` and `d * (Math.PI / 180)` compute it. */
  function Radians(degrees: real): real {
    degrees * (PI / 180.0)
  }

  /** The library functions the source calls, as parameters of the model. */
  datatype MathLib = MathLib(
    sin: real -> real,
    cos: real -> real,
    sqrt: real -> real,
    exp: real -> real,
    atan2: (real, real) -> real,
    pow: (real, real) -> real,
    log10: real -> real)

  /** All that the model assumes of the library: sin 0 = 0, cos 0 = 1, sine and cosine
      within [-1, 1], exp positive, and sqrt positive on positive numbers. */
  ghost predicate Valid(m: MathLib) {
    && m.sin(0.0) == 0.0
    && m.cos(0.0) == 1.0
    && (forall x :: -1.0 <= m.sin(x) <= 1.0)
    && (forall x :: -1.0 <= m.cos(x) <= 1.0)
    && (forall x :: m.exp(x) > 0.0)
    && (forall x :: x > 0.0 ==> m.sqrt(x) > 0.0)
  }

  function Abs(x: real): (r: real)
    ensures r >= 0.0 && (r == x || r == -x)
  {
    if x < 0.0 then -x else x
  }

  function Min(x: real, y: real): (r: real)
    ensures r <= x && r <= y && (r == x || r == y)
  {
    if x <= y then x else y
  }

  function MinInt(x: int, y: int): (r: int)
    ensures r <= x && r <= y && (r == x || r == y)
  {
    if x <= y then x else y
  }

  function Max(x: real, y: real): (r: real)
    ensures r >= x && r >= y && (r == x || r == y)
  {
    if x >= y then x else y
  }

  function Cube(x: real): real {
    x * x * x
  }

  /** Python's `int(x)` and JavaScript's `Math.trunc(x)`: rounds toward zero. */
  function Trunc(x: real): int {
    if x >= 0.0 then x.Floor else -((-x).Floor)
  }

  /** Truncation drops the magnitude by less than one and keeps the sign: a non-negative
      number is floored, a negative one is raised to the integer above it. */
  lemma TruncBounds(x: real)
    ensures Abs(Trunc(x) as real) <= Abs(x) < Abs(Trunc(x) as real) + 1.0
    ensures x >= 0.0 ==> Trunc(x) >= 0 && Trunc(x) == x.Floor
    ensures x < 0.0 ==> Trunc(x) <= 0 && x <= Trunc(x) as real < x + 1.0
  {
  }

  /** JavaScript's `x % d` on numbers: the remainder takes the sign of `x`. */
  function JsRem(x: real, d: real): real
    requires d != 0.0
  {
    x - d * (Trunc(x / d) as real)
  }

  /** A non-negative dividend leaves a remainder in `[0, d)`. */
  lemma JsRemRange(x: real, d: real)
    requires x >= 0.0 && d > 0.0
    ensures 0.0 <= JsRem(x, d) < d
  {
    var q := x / d;
    var f := q.Floor as real;
    assert Trunc(q) as real == f;
    assert q * d == x;
    assert q < f + 1.0;
    MulMonotone(f, q, d);
    BelowNextMultiple(x, d, q, f);
    assert f * d <= x < f * d + d;
    assert JsRem(x, d) == x - d * f;
  }

  /** Adding one divisor to a non-negative dividend leaves the remainder unchanged. */
  lemma JsRemPeriodic(x: real, d: real)
    requires x >= 0.0 && d > 0.0
    ensures JsRem(x + d, d) == JsRem(x, d)
  {
    var q := x / d;
    var r := (x + d) / d;
    assert q * d == x;
    assert r * d == x + d;
    assert (r - q - 1.0) * d == 0.0;
    ZeroFactor(r - q - 1.0, d);
    assert (q + 1.0).Floor == q.Floor + 1;
  }

  lemma BelowNextMultiple(x: real, d: real, q: real, f: real)
    requires d > 0.0 && q * d == x && q < f + 1.0
    ensures x < f * d + d
  {
    MulStrict(q, f + 1.0, d);
    assert (f + 1.0) * d == f * d + d;
  }

  lemma MulMonotone(a: real, b: real, c: real)
    requires a <= b && c >= 0.0
    ensures a * c <= b * c
  {
  }

  lemma ZeroFactor(a: real, d: real)
    requires a * d == 0.0 && d != 0.0
    ensures a == 0.0
  {
    if a > 0.0 && d > 0.0 {
      MulStrict(0.0, a, d);
    } else if a > 0.0 {
      MulStrict(d, 0.0, a);
    } else if a < 0.0 && d > 0.0 {
      MulStrict(a, 0.0, d);
    } else if a < 0.0 {
      MulStrict(0.0, -d, -a);
    }
  }

  lemma MulStrict(a: real, b: real, c: real)
    requires a < b && c > 0.0
    ensures a * c < b * c
  {
  }

  lemma DivPositive(x: real, y: real)
    requires x > 0.0 && y > 0.0
    ensures x / y > 0.0
  {
  }

  /** A factor in `[-1, 1]` shrinks a non-negative number's magnitude. */
  lemma ScaledUnit(e: real, c: real)
    requires 0.0 <= e && -1.0 <= c <= 1.0
    ensures -e <= e * c <= e
  {
    if c >= 0.0 {
      MulMonotone(c, 1.0, e);
    } else {
      MulMonotone(-1.0, c, e);
    }
  }
}
