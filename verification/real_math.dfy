/** The parts of JavaScript's `Math` object that the simulation relies on,
    stated over the mathematical reals (IEEE-754 rounding is not modelled). */
module RealMath {

  /** `Math.max(a, b)`: an upper bound of both arguments that is one of them. */
  function Max(a: real, b: real): (r: real)
    ensures r >= a && r >= b
    ensures r == a || r == b
  {
    if a >= b then a else b
  }

  /** `Math.min(a, b)`: a lower bound of both arguments that is one of them. */
  function Min(a: real, b: real): (r: real)
    ensures r <= a && r <= b
    ensures r == a || r == b
  {
    if a <= b then a else b
  }

  /** `v * v`. Products of a value with itself are always written through
      this function, so that the facts below are the ones the solver uses. */
  function Square(v: real): real
  {
    v * v
  }

  lemma PositiveProduct(a: real, b: real)
    requires 0.0 < a && 0.0 < b
    ensures 0.0 < a * b
  {
  }

  /** A non-zero value has a positive square. */
  lemma SquarePositive(v: real)
    requires v != 0.0
    ensures 0.0 < Square(v)
  {
    var w := if v < 0.0 then -v else v;
    var h := w / 2.0;
    PositiveProduct(h, w);
    assert Square(v) == 2.0 * (h * w);
  }

  /** Squares are non-negative, and zero only at zero. */
  lemma SquareSign(v: real)
    ensures 0.0 <= Square(v)
    ensures Square(v) == 0.0 <==> v == 0.0
  {
    if v != 0.0 {
      SquarePositive(v);
    }
  }

  /** Squaring is strictly increasing on the non-negative reals. */
  lemma SquareStrictlyIncreasing(a: real, b: real)
    requires 0.0 <= b < a
    ensures Square(b) < Square(a)
  {
    var low, mid, high := b * b, a * b, a * a;
    assert low <= mid;
    assert mid < high;
  }

  /** Squaring a quotient: `(u/d)^2 * d^2 == u^2`. */
  lemma SquareOfQuotient(u: real, d: real)
    requires d != 0.0
    ensures Square(u / d) * Square(d) == Square(u)
  {
    var q := u / d;
    assert q * d == u;
    calc {
      Square(q) * Square(d);
      (q * q) * (d * d);
      (q * d) * (q * d);
      u * u;
    }
  }

  /** Cancelling a non-zero square: if `x * d*d` and `d*d` are the same
      number, `x` is one. */
  lemma CancelSquare(x: real, d: real, v: real)
    requires d != 0.0
    requires x * Square(d) == v && Square(d) == v
    ensures x == 1.0
  {
    SquarePositive(d);
  }

  /** Multiplying by a non-negative factor preserves `<=`. */
  lemma MultiplyMonotone(k: real, a: real, b: real)
    requires 0.0 <= k && a <= b
    ensures k * a <= k * b
  {
    var d := b - a;
    var kd := k * d;
    assert 0.0 <= kd;
    assert k * b == k * a + kd;
  }

  /** Multiplying by a positive factor preserves `<`. */
  lemma MultiplyStrict(k: real, a: real, b: real)
    requires 0.0 < k && a < b
    ensures k * a < k * b
  {
    var d := b - a;
    PositiveProduct(k, d);
    var kd := k * d;
    assert k * b == k * a + kd;
  }

  /** `Math.sqrt` (and through it `Math.hypot`) is not definable over the reals
      in Dafny, so every operation that needs it takes a square-root function as
      a parameter and requires that it is one: on non-negative inputs it returns
      the non-negative root, and the root of zero is zero. */
  ghost predicate IsSqrt(sqrt: real -> real)
  {
    && sqrt(0.0) == 0.0
    && forall x :: 0.0 <= x ==> 0.0 <= sqrt(x) && Square(sqrt(x)) == x
  }

  /** A square root is determined by its square: the root of `m*m` is `m`. */
  lemma SqrtOfSquare(sqrt: real -> real, m: real)
    requires IsSqrt(sqrt)
    requires 0.0 <= m
    ensures sqrt(Square(m)) == m
  {
    SquareSign(m);
    var r := sqrt(Square(m));
    assert 0.0 <= r && Square(r) == Square(m);
    if r < m {
      SquareStrictlyIncreasing(m, r);
    } else if m < r {
      SquareStrictlyIncreasing(r, m);
    }
  }

  /** Square root is monotone on the non-negative reals. */
  lemma SqrtMonotone(sqrt: real -> real, x: real, y: real)
    requires IsSqrt(sqrt)
    requires 0.0 <= x <= y
    ensures sqrt(x) <= sqrt(y)
  {
    var a, b := sqrt(x), sqrt(y);
    assert 0.0 <= a && Square(a) == x;
    assert 0.0 <= b && Square(b) == y;
    if b < a {
      SquareStrictlyIncreasing(a, b);
    }
  }

  /** The root of zero is zero and the root of a positive number is positive. */
  lemma SqrtSign(sqrt: real -> real, x: real)
    requires IsSqrt(sqrt)
    requires 0.0 <= x
    ensures 0.0 < x <==> 0.0 < sqrt(x)
  {
    SquareSign(sqrt(x));
  }

  /** The root of a number in [0, 1] is itself in [0, 1]. */
  lemma SqrtAtMostOne(sqrt: real -> real, x: real)
    requires IsSqrt(sqrt)
    requires 0.0 <= x <= 1.0
    ensures 0.0 <= sqrt(x) <= 1.0
  {
    SqrtMonotone(sqrt, x, 1.0);
    SqrtOfSquare(sqrt, 1.0);
  }
}

/** The `??` operator and optional keys of TypeScript records. */
module Optional {

  datatype Option<T> = None | Some(value: T) {

    /** `this ?? fallback`: the present value, or the fallback when absent. */
    function GetOr(fallback: T): (r: T)
      ensures Some? ==> r == value
      ensures None? ==> r == fallback
    {
      match this
      case Some(v) => v
      case None => fallback
    }
  }
}

/** Simulation constants of `lib/constants.ts`, in simulation units. */
module Constants {
  /** Gravitational constant. */
  const G_SIM: real := 1.0
  /** Speed of light. */
  const C_SIM: real := 10.0
  /** Default fixed timestep, in seconds of simulation time. */
  const DEFAULT_DT: real := 0.016
  /** Capacity of the shader uniform arrays. */
  const MAX_MASSES: nat := 16
  /** Softening length that keeps forces finite at zero separation. */
  const EPSILON: real := 0.1
}
