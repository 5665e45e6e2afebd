/** Field computations and per-entity integration steps (`lib/physics.ts`). */
module Physics {
  import opened RealMath
  import opened Constants
  import opened Store

  // ---------------------------------------------------------------------------
  // Vector arithmetic

  /** The separation from `b` to `a`: adding it to `b` gives `a` back. */
  function Subtract(a: Vec3, b: Vec3): (r: Vec3)
    ensures Add(b, r) == a
  {
    Vec3(a.x - b.x, a.y - b.y, a.z - b.z)
  }

  /** Componentwise sum, with the origin as the neutral element. */
  function Add(a: Vec3, b: Vec3): (r: Vec3)
    ensures b == Origin ==> r == a
    ensures a == Origin ==> r == b
  {
    Vec3(a.x + b.x, a.y + b.y, a.z + b.z)
  }

  /** Componentwise product: scaling by one is the identity, and a zero
      factor or a zero vector gives the origin. */
  function Scale(a: Vec3, s: real): (r: Vec3)
    ensures s == 1.0 ==> r == a
    ensures s == 0.0 || a == Origin ==> r == Origin
  {
    Vec3(a.x * s, a.y * s, a.z * s)
  }

  /** The squared Euclidean norm, `x*x + y*y + z*z`: zero exactly at the origin. */
  function SquaredLength(a: Vec3): (r: real)
    ensures 0.0 <= r
    ensures r == 0.0 <==> a == Origin
  {
    SquareSign(a.x);
    SquareSign(a.y);
    SquareSign(a.z);
    Square(a.x) + Square(a.y) + Square(a.z)
  }

  /** Scaling a vector scales its squared length by the square of the factor. */
  lemma ScaledSquaredLength(a: Vec3, s: real)
    ensures SquaredLength(Scale(a, s)) == Square(s) * SquaredLength(a)
  {
    assert Square(a.x * s) == Square(s) * Square(a.x);
    assert Square(a.y * s) == Square(s) * Square(a.y);
    assert Square(a.z * s) == Square(s) * Square(a.z);
  }

  /** Adding a vector componentwise. */
  lemma AddStep(sum: Vec3, a: Vec3, b: Vec3)
    requires sum.x == a.x + b.x && sum.y == a.y + b.y && sum.z == a.z + b.z
    ensures sum == Add(a, b)
  {
  }

  lemma AddAssociative(a: Vec3, b: Vec3, c: Vec3)
    ensures Add(Add(a, b), c) == Add(a, Add(b, c))
  {
  }

  /** Only a zero factor or a zero vector scales to the origin. */
  lemma ScaleToOrigin(a: Vec3, s: real)
    ensures Scale(a, s) == Origin ==> s == 0.0 || a == Origin
  {
    if s != 0.0 && Scale(a, s) == Origin {
      assert a.x == a.x * s / s && a.y == a.y * s / s && a.z == a.z * s / s;
    }
  }

  /** `Math.hypot(x, y, z)`: the non-negative root of the squared length. */
  function Length(a: Vec3, sqrt: real -> real): (r: real)
    requires IsSqrt(sqrt)
    ensures 0.0 <= r && Square(r) == SquaredLength(a)
    ensures r == 0.0 <==> a == Origin
  {
    SqrtSign(sqrt, SquaredLength(a));
    sqrt(SquaredLength(a))
  }

  /** `normalize`: a length of 0 is replaced by 1 (`length(a) || 1`), so the
      origin maps to itself; any other vector maps to the unit vector along it. */
  function Normalize(a: Vec3, sqrt: real -> real): (r: Vec3)
    requires IsSqrt(sqrt)
    ensures a == Origin ==> r == Origin
    ensures a != Origin ==> SquaredLength(r) == 1.0 && Scale(r, Length(a, sqrt)) == a
  {
    var len := if Length(a, sqrt) == 0.0 then 1.0 else Length(a, sqrt);
    var r := Vec3(a.x / len, a.y / len, a.z / len);
    UnitAlong(a, len, r);
    assert a != Origin ==> SquaredLength(r) == 1.0 by {
      if a != Origin {
        CancelSquare(SquaredLength(r), len, SquaredLength(a));
      }
    }
    r
  }

  /** Dividing a vector by a positive length: scaling back recovers it, and
      the squared length shrinks by the square of the divisor. */
  lemma UnitAlong(a: Vec3, len: real, r: Vec3)
    requires 0.0 < len
    requires r == Vec3(a.x / len, a.y / len, a.z / len)
    ensures Scale(r, len) == a
    ensures SquaredLength(r) * Square(len) == SquaredLength(a)
  {
    SquareOfQuotient(a.x, len);
    SquareOfQuotient(a.y, len);
    SquareOfQuotient(a.z, len);
  }

  // ---------------------------------------------------------------------------
  // Softened Newtonian field of a list of masses

  /** `dx*dx + dy*dy + dz*dz + EPSILON*EPSILON` for the separation from `point`
      to the mass: never below `EPSILON*EPSILON`, so never zero. */
  function SoftenedSquaredDistance(point: Vec3, m: MassBody): (r2: real)
    ensures EPSILON * EPSILON <= r2
  {
    SquaredLength(Subtract(m.position, point)) + EPSILON * EPSILON
  }

  /** `1 / (r2 * sqrt(r2))`, the inverse cube of the softened distance: positive. */
  function InverseCube(r2: real, sqrt: real -> real): (k: real)
    requires IsSqrt(sqrt)
    requires 0.0 < r2
    ensures 0.0 < k
  {
    SqrtSign(sqrt, r2);
    PositiveProduct(r2, sqrt(r2));
    1.0 / (r2 * sqrt(r2))
  }

  /** `G_SIM * m.mass / (r2 * sqrt(r2))`: the factor the separation to the
      mass is scaled by. It has the sign of the mass: a positive mass
      attracts, a negative one repels and a massless body contributes
      nothing. */
  function InverseCubeFactor(point: Vec3, m: MassBody, sqrt: real -> real): (f: real)
    requires IsSqrt(sqrt)
    ensures 0.0 < f <==> 0.0 < m.mass
    ensures f < 0.0 <==> m.mass < 0.0
  {
    var k := InverseCube(SoftenedSquaredDistance(point, m), sqrt);
    ProductSign(G_SIM * m.mass, k);
    G_SIM * m.mass * k
  }

  /** Multiplying by a positive number keeps the sign. */
  lemma ProductSign(m: real, p: real)
    requires 0.0 < p
    ensures 0.0 < m * p <==> 0.0 < m
    ensures m * p == 0.0 <==> m == 0.0
  {
    if 0.0 < m {
      PositiveProduct(m, p);
    } else if m < 0.0 {
      PositiveProduct(-m, p);
      assert (-m) * p == -(m * p);
    }
  }

  /** The acceleration one mass contributes: along the separation towards it. */
  function AccelerationFrom(point: Vec3, m: MassBody, sqrt: real -> real): (r: Vec3)
    requires IsSqrt(sqrt)
    ensures r == Origin <==> m.mass == 0.0 || m.position == point
  {
    ScaleToOrigin(Subtract(m.position, point), InverseCubeFactor(point, m, sqrt));
    Scale(Subtract(m.position, point), InverseCubeFactor(point, m, sqrt))
  }

  /** The sum the loop of `gravitationalAcceleration` accumulates, in list order. */
  function AccelerationSum(point: Vec3, masses: seq<MassBody>, sqrt: real -> real): (r: Vec3)
    requires IsSqrt(sqrt)
    ensures (forall i :: 0 <= i < |masses| ==> masses[i].mass == 0.0) ==> r == Origin
    decreases |masses|, 1
  {
    if |masses| == 0 then Origin else AccelerationThroughLast(point, masses, sqrt)
  }

  /** The sum over a non-empty list: the prefix's sum plus the last mass's
      contribution. */
  function AccelerationThroughLast(point: Vec3, masses: seq<MassBody>, sqrt: real -> real): (r: Vec3)
    requires IsSqrt(sqrt) && 0 < |masses|
    ensures (forall i :: 0 <= i < |masses| ==> masses[i].mass == 0.0) ==> r == Origin
    decreases |masses|, 0
  {
    Add(AccelerationSum(point, masses[..|masses| - 1], sqrt), AccelerationFrom(point, masses[|masses| - 1], sqrt))
  }

  /** The field of a concatenated list is the sum of the parts' fields. */
  lemma {:induction false} AccelerationConcat(point: Vec3, a: seq<MassBody>, b: seq<MassBody>, sqrt: real -> real)
    requires IsSqrt(sqrt)
    ensures AccelerationSum(point, a + b, sqrt) == Add(AccelerationSum(point, a, sqrt), AccelerationSum(point, b, sqrt))
  {
    if |b| == 0 {
      assert a + b == a;
    } else {
      var b', last := b[..|b| - 1], AccelerationFrom(point, b[|b| - 1], sqrt);
      assert (a + b)[..|a + b| - 1] == a + b';
      assert (a + b)[|a + b| - 1] == b[|b| - 1];
      AccelerationConcat(point, a, b', sqrt);
      AddAssociative(AccelerationSum(point, a, sqrt), AccelerationSum(point, b', sqrt), last);
    }
  }

  /** One more mass of the list adds its contribution to the prefix's sum. */
  lemma AccelerationPrefix(point: Vec3, masses: seq<MassBody>, i: nat, sqrt: real -> real)
    requires IsSqrt(sqrt)
    requires i < |masses|
    ensures AccelerationSum(point, masses[..i + 1], sqrt)
            == Add(AccelerationSum(point, masses[..i], sqrt), AccelerationFrom(point, masses[i], sqrt))
  {
    assert masses[..i + 1][..i] == masses[..i];
  }

  /** The loop's `r2`, written out componentwise, is the softened squared
      distance. */
  lemma SoftenedTerm(point: Vec3, m: MassBody, r2: real)
    requires r2 == (m.position.x - point.x) * (m.position.x - point.x) + (m.position.y - point.y) * (m.position.y - point.y)
                   + (m.position.z - point.z) * (m.position.z - point.z) + EPSILON * EPSILON
    ensures r2 == SoftenedSquaredDistance(point, m)
  {
  }

  /** The loop's `factor`, from the softened `r2`, is the inverse-cube
      factor of the mass. */
  lemma FactorTerm(point: Vec3, m: MassBody, sqrt: real -> real, r2: real, factor: real)
    requires IsSqrt(sqrt)
    requires r2 == SoftenedSquaredDistance(point, m)
    requires factor == G_SIM * m.mass * (1.0 / (r2 * sqrt(r2)))
    ensures factor == InverseCubeFactor(point, m, sqrt)
  {
  }

  /** Scaling a vector written out componentwise. */
  lemma ScaleTerm(v: Vec3, dx: real, dy: real, dz: real, k: real)
    requires v == Vec3(dx, dy, dz)
    ensures Vec3(dx * k, dy * k, dz * k) == Scale(v, k)
  {
  }

  /** `gravitationalAcceleration(point, masses)`: the loop over the masses,
      accumulating each one's contribution into `ax`, `ay`, `az`. */
  method GravitationalAcceleration(point: Vec3, masses: seq<MassBody>, sqrt: real -> real) returns (acc: Vec3)
    requires IsSqrt(sqrt)
    ensures acc == AccelerationSum(point, masses, sqrt)
    ensures |masses| == 0 ==> acc == Origin
  {
    var ax, ay, az := 0.0, 0.0, 0.0;
    for i := 0 to |masses|
      invariant Vec3(ax, ay, az) == AccelerationSum(point, masses[..i], sqrt)
    {
      var cx, cy, cz := Contribution(point, masses[i], sqrt);
      ghost var before := Vec3(ax, ay, az);
      ax := ax + cx;
      ay := ay + cy;
      az := az + cz;
      AccelerationPrefix(point, masses, i, sqrt);
      AddStep(Vec3(ax, ay, az), before, Vec3(cx, cy, cz));
    }
    assert masses[..|masses|] == masses;
    acc := Vec3(ax, ay, az);
  }

  /** One pass of the loop body: the separation `dx, dy, dz`, the softened
      `r2`, `invR3 = 1 / (r2 * r)` and `factor = G_SIM * m.mass * invR3`, and
      the three terms `dx * factor`, `dy * factor`, `dz * factor`. */
  method Contribution(point: Vec3, m: MassBody, sqrt: real -> real) returns (cx: real, cy: real, cz: real)
    requires IsSqrt(sqrt)
    ensures Vec3(cx, cy, cz) == AccelerationFrom(point, m, sqrt)
  {
    var dx := m.position.x - point.x;
    var dy := m.position.y - point.y;
    var dz := m.position.z - point.z;
    var r2 := dx * dx + dy * dy + dz * dz + EPSILON * EPSILON;
    SoftenedTerm(point, m, r2);
    var r := sqrt(r2);
    SqrtSign(sqrt, r2);
    PositiveProduct(r2, r);
    var invR3 := 1.0 / (r2 * r);
    var factor := G_SIM * m.mass * invR3;
    FactorTerm(point, m, sqrt, r2, factor);
    ScaleTerm(Subtract(m.position, point), dx, dy, dz, factor);
    cx, cy, cz := dx * factor, dy * factor, dz * factor;
  }

  /** `-G_SIM * m.mass / sqrt(r2)`: the potential one mass contributes; at
      most zero for a non-negative mass. */
  function PotentialFrom(point: Vec3, m: MassBody, sqrt: real -> real): (phi: real)
    requires IsSqrt(sqrt)
    ensures 0.0 <= m.mass ==> phi <= 0.0
  {
    var r2 := SoftenedSquaredDistance(point, m);
    SqrtSign(sqrt, r2);
    var r := sqrt(r2);
    -G_SIM * m.mass / r
  }

  /** The sum the loop of `gravitationalPotential` accumulates, in list order. */
  function PotentialSum(point: Vec3, masses: seq<MassBody>, sqrt: real -> real): (phi: real)
    requires IsSqrt(sqrt)
    ensures (forall i :: 0 <= i < |masses| ==> masses[i].mass == 0.0) ==> phi == 0.0
  {
    if |masses| == 0 then 0.0
    else PotentialSum(point, masses[..|masses| - 1], sqrt) + PotentialFrom(point, masses[|masses| - 1], sqrt)
  }

  /** The potential of a concatenated list is the sum of the parts' potentials. */
  lemma {:induction false} PotentialConcat(point: Vec3, a: seq<MassBody>, b: seq<MassBody>, sqrt: real -> real)
    requires IsSqrt(sqrt)
    ensures PotentialSum(point, a + b, sqrt) == PotentialSum(point, a, sqrt) + PotentialSum(point, b, sqrt)
  {
    if |b| == 0 {
      assert a + b == a;
    } else {
      var b' := b[..|b| - 1];
      assert (a + b)[..|a + b| - 1] == a + b';
      PotentialConcat(point, a, b', sqrt);
    }
  }

  ghost predicate NonNegativeMasses(masses: seq<MassBody>)
  {
    forall i :: 0 <= i < |masses| ==> 0.0 <= masses[i].mass
  }

  /** With no negative mass the potential is nowhere positive. */
  lemma {:induction false} PotentialNonPositive(point: Vec3, masses: seq<MassBody>, sqrt: real -> real)
    requires IsSqrt(sqrt)
    requires NonNegativeMasses(masses)
    ensures PotentialSum(point, masses, sqrt) <= 0.0
  {
    if |masses| > 0 {
      PotentialNonPositive(point, masses[..|masses| - 1], sqrt);
    }
  }

  /** `gravitationalPotential(point, masses)`. */
  method GravitationalPotential(point: Vec3, masses: seq<MassBody>, sqrt: real -> real) returns (phi: real)
    requires IsSqrt(sqrt)
    ensures phi == PotentialSum(point, masses, sqrt)
    ensures |masses| == 0 ==> phi == 0.0
  {
    phi := 0.0;
    for i := 0 to |masses|
      invariant phi == PotentialSum(point, masses[..i], sqrt)
    {
      var m := masses[i];
      var dx := m.position.x - point.x;
      var dy := m.position.y - point.y;
      var dz := m.position.z - point.z;
      var r2 := dx * dx + dy * dy + dz * dz + EPSILON * EPSILON;
      assert r2 == SoftenedSquaredDistance(point, m);
      SqrtSign(sqrt, r2);
      var r := sqrt(r2);
      assert -G_SIM * m.mass / r == PotentialFrom(point, m, sqrt);
      phi := phi + -G_SIM * m.mass / r;
      assert masses[..i + 1][..i] == masses[..i];
    }
    assert masses[..|masses|] == masses;
  }

  // ---------------------------------------------------------------------------
  // Time dilation and integration steps

  /** `sqrt(max(0, 1 + 2*phi/c^2))`: never negative thanks to the clamp, one
      in empty space, at most one wherever the potential is not positive. */
  function TimeDilationFactor(point: Vec3, masses: seq<MassBody>, sqrt: real -> real): (f: real)
    requires IsSqrt(sqrt)
    ensures 0.0 <= f
    ensures Square(f) == Max(0.0, 1.0 + 2.0 * PotentialSum(point, masses, sqrt) / (C_SIM * C_SIM))
    ensures |masses| == 0 ==> f == 1.0
    ensures PotentialSum(point, masses, sqrt) <= 0.0 ==> f <= 1.0
  {
    var phi := PotentialSum(point, masses, sqrt);
    var radicand := Max(0.0, 1.0 + (2.0 * phi) / (C_SIM * C_SIM));
    assert |masses| == 0 ==> sqrt(radicand) == 1.0 by {
      if |masses| == 0 {
        SqrtOfSquare(sqrt, 1.0);
        assert Square(1.0) == 1.0;
      }
    }
    assert phi <= 0.0 ==> sqrt(radicand) <= 1.0 by {
      if phi <= 0.0 {
        SqrtAtMostOne(sqrt, radicand);
      }
    }
    sqrt(radicand)
  }

  /** With no negative mass a clock never runs fast: the factor is in [0, 1]. */
  lemma TimeDilationAtMostOne(point: Vec3, masses: seq<MassBody>, sqrt: real -> real)
    requires IsSqrt(sqrt)
    requires NonNegativeMasses(masses)
    ensures 0.0 <= TimeDilationFactor(point, masses, sqrt) <= 1.0
  {
    PotentialNonPositive(point, masses, sqrt);
  }

  /** `stepPhoton`: semi-implicit Euler with the speed reset to `C_SIM`. The
      velocity is `C_SIM` times the direction of `v + a*dt`, so the speed is
      exactly `C_SIM` unless `v + a*dt` vanishes, in which case the photon
      stops; the position then moves with the new velocity. Id and colour are
      kept. */
  function StepPhoton(photon: Photon, masses: seq<MassBody>, dt: real, sqrt: real -> real): (r: Photon)
    requires IsSqrt(sqrt)
    ensures r.id == photon.id && r.color == photon.color
    ensures r.position == Add(photon.position, Scale(r.velocity, dt))
    ensures var w := Add(photon.velocity, Scale(AccelerationSum(photon.position, masses, sqrt), dt));
            && (w == Origin ==> r.velocity == Origin)
            && (w != Origin ==> SquaredLength(r.velocity) == Square(C_SIM)
                                && Scale(r.velocity, Length(w, sqrt)) == Scale(w, C_SIM))
  {
    var a := AccelerationSum(photon.position, masses, sqrt);
    var newVel := Add(photon.velocity, Scale(a, dt));
    var dir := Normalize(newVel, sqrt);
    var vel := Scale(dir, C_SIM);
    ScaledSquaredLength(dir, C_SIM);
    var pos := Add(photon.position, Scale(vel, dt));
    photon.(velocity := vel, position := pos)
  }

  /** `stepClock`: only the proper time changes, by `dt` times the dilation
      factor at the clock's position; for `dt >= 0` it never decreases, it
      advances by exactly `dt` in empty space, and by at most `dt` around
      non-negative masses. */
  function StepClock(clock: GravClock, masses: seq<MassBody>, dt: real, sqrt: real -> real): (r: GravClock)
    requires IsSqrt(sqrt)
    ensures r.id == clock.id && r.position == clock.position && r.color == clock.color
    ensures r.properTime == clock.properTime + dt * TimeDilationFactor(clock.position, masses, sqrt)
    ensures 0.0 <= dt ==> clock.properTime <= r.properTime
    ensures |masses| == 0 ==> r.properTime == clock.properTime + dt
    ensures 0.0 <= dt && NonNegativeMasses(masses) ==> r.properTime <= clock.properTime + dt
  {
    var factor := TimeDilationFactor(clock.position, masses, sqrt);
    assert 0.0 <= dt ==> dt * 0.0 <= dt * factor by {
      if 0.0 <= dt {
        MultiplyMonotone(dt, 0.0, factor);
      }
    }
    assert 0.0 <= dt && NonNegativeMasses(masses) ==> dt * factor <= dt * 1.0 by {
      if 0.0 <= dt && NonNegativeMasses(masses) {
        TimeDilationAtMostOne(clock.position, masses, sqrt);
        MultiplyMonotone(dt, factor, 1.0);
      }
    }
    clock.(properTime := clock.properTime + dt * factor)
  }
}
