/** `kerrRadii` of `components/BlackHole.tsx`: the two radii a black hole is
    drawn with, from its mass and the magnitude of its spin vector, in
    geometric units scaled down for the scene. */
module BlackHole {
  import opened RealMath

  /** Visual scale from geometric units to scene units. */
  const SCALE: real := 0.05
  /** Masses are clamped below to this, so that the radii never vanish. */
  const MIN_MASS: real := 0.0001
  /** Spins are clamped below extremal, as a fraction of the mass. */
  const MAX_SPIN: real := 0.99

  /** The event-horizon sphere and the equatorial static-limit sphere. */
  datatype Radii = Radii(horizon: real, staticEquator: real)

  /** `m = Math.max(0.0001, mass)`. */
  function ClampedMass(mass: real): (m: real)
    ensures MIN_MASS <= m
    ensures MIN_MASS <= mass ==> m == mass
  {
    Max(MIN_MASS, mass)
  }

  /** `a = Math.min(0.99, Math.max(0, spinMag)) * m`: the spin parameter,
      never negative and at most 99% of the mass. */
  function SpinParameter(m: real, spinMag: real): (a: real)
    requires 0.0 <= m
    ensures 0.0 <= a <= MAX_SPIN * m
    ensures 0.0 < spinMag && 0.0 < m ==> 0.0 < a
  {
    var s := Min(MAX_SPIN, Max(0.0, spinMag));
    FractionOfMass(m, s);
    s * m
  }

  /** A fraction `s` in `[0, 0.99]` of a non-negative mass. */
  lemma FractionOfMass(m: real, s: real)
    requires 0.0 <= m && 0.0 <= s <= MAX_SPIN
    ensures 0.0 <= s * m <= MAX_SPIN * m
    ensures 0.0 < s && 0.0 < m ==> 0.0 < s * m
  {
    MultiplyMonotone(m, 0.0, s);
    MultiplyMonotone(m, s, MAX_SPIN);
    if 0.0 < s && 0.0 < m {
      PositiveProduct(s, m);
    }
  }

  /** `m + Math.sqrt(Math.max(0, m * m - a * a))`: the outer root of the
      horizon equation, between `m` and `2m`. */
  function OuterRoot(m: real, a: real, sqrt: real -> real): (r: real)
    requires IsSqrt(sqrt) && 0.0 <= m
    ensures m <= r <= 2.0 * m
    ensures 0.0 < a && 0.0 < m ==> r < 2.0 * m
    ensures a == 0.0 ==> r == 2.0 * m
  {
    var radicand := Max(0.0, Square(m) - Square(a));
    RootOfRadicand(sqrt, m, a, radicand);
    m + sqrt(radicand)
  }

  /** The clamped radicand `max(0, m^2 - a^2)` lies in `[0, m^2]`, so its
      root lies in `[0, m]`, below `m` when the spin is positive and equal
      to `m` without spin. */
  lemma RootOfRadicand(sqrt: real -> real, m: real, a: real, radicand: real)
    requires IsSqrt(sqrt) && 0.0 <= m
    requires radicand == Max(0.0, Square(m) - Square(a))
    ensures 0.0 <= sqrt(radicand) <= m
    ensures 0.0 < a && 0.0 < m ==> sqrt(radicand) < m
    ensures a == 0.0 ==> sqrt(radicand) == m
  {
    SquareSign(a);
    SquareSign(m);
    SqrtMonotone(sqrt, radicand, Square(m));
    SqrtOfSquare(sqrt, m);
    if 0.0 < a && 0.0 < m {
      SquarePositive(a);
      StrictlyBelowRoot(sqrt, radicand, m);
    }
  }

  /** A number below `m*m` has a root below `m`. */
  lemma StrictlyBelowRoot(sqrt: real -> real, x: real, m: real)
    requires IsSqrt(sqrt) && 0.0 <= x < Square(m) && 0.0 <= m
    ensures sqrt(x) < m
  {
    var r := sqrt(x);
    if m < r {
      SquareStrictlyIncreasing(r, m);
    }
  }

  /** `kerrRadii(mass, spinMag)`: the horizon `m + sqrt(m^2 - a^2)` and the
      equatorial static limit `m + sqrt(m^2) = 2m`, both scaled. */
  function KerrRadii(mass: real, spinMag: real, sqrt: real -> real): (r: Radii)
    requires IsSqrt(sqrt)
    ensures r.staticEquator == 2.0 * ClampedMass(mass) * SCALE
    ensures ClampedMass(mass) * SCALE <= r.horizon <= r.staticEquator
    ensures 0.0 < spinMag ==> r.horizon < r.staticEquator
    ensures spinMag <= 0.0 ==> r.horizon == r.staticEquator
  {
    var m := ClampedMass(mass);
    var a := SpinParameter(m, spinMag);
    var rPlus := OuterRoot(m, a, sqrt);
    var rStaticEquator := OuterRoot(m, 0.0, sqrt);
    assert spinMag <= 0.0 ==> a == 0.0;
    Radii(rPlus * SCALE, rStaticEquator * SCALE)
  }

  /** The spin only moves the horizon: the static limit depends on the mass
      alone. */
  lemma StaticLimitIgnoresSpin(mass: real, spin1: real, spin2: real, sqrt: real -> real)
    requires IsSqrt(sqrt)
    ensures KerrRadii(mass, spin1, sqrt).staticEquator == KerrRadii(mass, spin2, sqrt).staticEquator
  {
  }
}
