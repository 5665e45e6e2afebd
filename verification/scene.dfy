/** The fixed-timestep scheduler `SimulationStepper` of
    `scene/RelativityScene.tsx`: each frame's delta is banked in an
    accumulator, which is drained in whole steps of `config.dt`; every step
    advances the photons, then the clocks, then the test bodies, through the
    store's `update*` actions. */
module Scene {
  import opened RealMath
  import opened Records
  import opened Store
  import opened Physics

  /** What the stepper's store selector captured at its last render; the
      frame callback reads these values, not the store's current ones. */
  datatype Snapshot = Snapshot(config: SimConfig, masses: seq<MassBody>, photons: seq<Photon>,
                               clocks: seq<GravClock>, testBodies: seq<TestBody>)

  /** The three collections a step writes; the masses are only read. */
  datatype Moving = Moving(photons: seq<Photon>, clocks: seq<GravClock>, testBodies: seq<TestBody>)

  type PhotonStep = (Photon, seq<MassBody>, real) -> Photon
  type ClockStep = (GravClock, seq<MassBody>, real) -> GravClock
  type TestBodyStep = (TestBody, seq<MassBody>, real) -> TestBody

  /** The three step functions a pass calls, each given the entity, the
      masses and the step length. */
  datatype Dynamics = Dynamics(photon: PhotonStep, clock: ClockStep, testBody: TestBodyStep)

  /** The step functions the scene imports: `stepPhoton` and `stepClock` from
      the physics module, and `stepTestBody`, which that module does not
      define and which is therefore taken as given. */
  function Physical(sqrt: real -> real, stepTestBody: TestBodyStep): (d: Dynamics)
    requires IsSqrt(sqrt)
    ensures forall p, ms, dt :: d.photon(p, ms, dt) == StepPhoton(p, ms, dt, sqrt)
    ensures forall c, ms, dt :: d.clock(c, ms, dt) == StepClock(c, ms, dt, sqrt)
    ensures d.testBody == stepTestBody
  {
    Dynamics((p, ms, dt) => StepPhoton(p, ms, dt, sqrt), (c, ms, dt) => StepClock(c, ms, dt, sqrt), stepTestBody)
  }

  // ---------------------------------------------------------------------------
  // One step as a batch of `update*` calls

  /** `for (const p of photons) updatePhoton(p.id, stepPhoton(p, masses, step))`
      as the list of (id, patch) pairs it issues. */
  function PhotonUpdates(stale: seq<Photon>, masses: seq<MassBody>, step: real, d: Dynamics): (r: seq<(string, PhotonPatch)>)
    ensures |r| == |stale|
    ensures forall i :: 0 <= i < |stale| ==> r[i].0 == stale[i].id
  {
    seq(|stale|, i requires 0 <= i < |stale| => (stale[i].id, PhotonFields(d.photon(stale[i], masses, step))))
  }

  /** The clock loop's (id, patch) pairs. */
  function ClockUpdates(stale: seq<GravClock>, masses: seq<MassBody>, step: real, d: Dynamics): (r: seq<(string, ClockPatch)>)
    ensures |r| == |stale|
    ensures forall i :: 0 <= i < |stale| ==> r[i].0 == stale[i].id
  {
    seq(|stale|, i requires 0 <= i < |stale| => (stale[i].id, ClockFields(d.clock(stale[i], masses, step))))
  }

  /** The test-body loop's (id, patch) pairs. */
  function TestBodyUpdates(stale: seq<TestBody>, masses: seq<MassBody>, step: real, d: Dynamics): (r: seq<(string, TestBodyPatch)>)
    ensures |r| == |stale|
    ensures forall i :: 0 <= i < |stale| ==> r[i].0 == stale[i].id
  {
    seq(|stale|, i requires 0 <= i < |stale| => (stale[i].id, TestBodyFields(d.testBody(stale[i], masses, step))))
  }

  /** One pass of the `while` body: the three loops, in order, applied to the
      store's collections `e`, with every step computed from `snap`. */
  function Substep(e: Moving, snap: Snapshot, d: Dynamics): (r: Moving)
    ensures |r.photons| == |e.photons| && |r.clocks| == |e.clocks| && |r.testBodies| == |e.testBodies|
  {
    var step := snap.config.dt;
    Moving(ApplyAll(e.photons, PhotonUpdates(snap.photons, snap.masses, step, d), PhotonId, MergePhoton),
           ApplyAll(e.clocks, ClockUpdates(snap.clocks, snap.masses, step, d), ClockId, MergeClock),
           ApplyAll(e.testBodies, TestBodyUpdates(snap.testBodies, snap.masses, step, d), TestBodyId, MergeTestBody))
  }

  /** `n` passes of the `while` body against one snapshot; like one pass,
      they keep the size of every collection. */
  function Repeat(e: Moving, snap: Snapshot, n: nat, d: Dynamics): (r: Moving)
    ensures |r.photons| == |e.photons| && |r.clocks| == |e.clocks| && |r.testBodies| == |e.testBodies|
  {
    if n == 0 then e else Substep(Repeat(e, snap, n - 1, d), snap, d)
  }

  /** The same pass when it reads the collections it writes, so that each
      step starts from the previous step's result. */
  function FreshSubstep(e: Moving, config: SimConfig, masses: seq<MassBody>, d: Dynamics): Moving
  {
    Substep(e, Snapshot(config, masses, e.photons, e.clocks, e.testBodies), d)
  }

  /** `n` fresh passes, which keep the size of every collection. */
  function RepeatFresh(e: Moving, config: SimConfig, masses: seq<MassBody>, n: nat, d: Dynamics): (r: Moving)
    ensures |r.photons| == |e.photons| && |r.clocks| == |e.clocks| && |r.testBodies| == |e.testBodies|
    decreases n, 1
  {
    if n == 0 then e else FreshAfter(e, config, masses, n, d)
  }

  /** The `n`-th fresh pass, run on what the first `n - 1` left. */
  function FreshAfter(e: Moving, config: SimConfig, masses: seq<MassBody>, n: nat, d: Dynamics): (r: Moving)
    requires 0 < n
    ensures |r.photons| == |e.photons| && |r.clocks| == |e.clocks| && |r.testBodies| == |e.testBodies|
    decreases n, 0
  {
    FreshSubstep(RepeatFresh(e, config, masses, n - 1, d), config, masses, d)
  }

  // ---------------------------------------------------------------------------
  // What repeated passes compute

  /** Every step function returns a record with its argument's id. */
  ghost predicate KeepsIds(d: Dynamics)
  {
    && (forall p, ms, dt :: d.photon(p, ms, dt).id == p.id)
    && (forall c, ms, dt :: d.clock(c, ms, dt).id == c.id)
    && (forall b, ms, dt :: d.testBody(b, ms, dt).id == b.id)
  }

  /** `stepPhoton` and `stepClock` keep ids, so the scene's dynamics do
      whenever `stepTestBody` does. */
  lemma PhysicalKeepsIds(sqrt: real -> real, stepTestBody: TestBodyStep)
    requires IsSqrt(sqrt)
    requires forall b, ms, dt :: stepTestBody(b, ms, dt).id == b.id
    ensures KeepsIds(Physical(sqrt, stepTestBody))
  {
    var d := Physical(sqrt, stepTestBody);
    forall p, ms, dt
      ensures d.photon(p, ms, dt).id == p.id
    {
      assert d.photon(p, ms, dt) == StepPhoton(p, ms, dt, sqrt);
    }
    forall c, ms, dt
      ensures d.clock(c, ms, dt).id == c.id
    {
      assert d.clock(c, ms, dt) == StepClock(c, ms, dt, sqrt);
    }
  }

  /** Each update of a pass carries a whole record with the id it is sent
      to, so applying it does not depend on the record it replaces. */
  lemma PassUpdatesWhole(snap: Snapshot, d: Dynamics)
    requires KeepsIds(d)
    ensures WholeRecordUpdates(PhotonUpdates(snap.photons, snap.masses, snap.config.dt, d), PhotonId, MergePhoton)
    ensures WholeRecordUpdates(ClockUpdates(snap.clocks, snap.masses, snap.config.dt, d), ClockId, MergeClock)
    ensures WholeRecordUpdates(TestBodyUpdates(snap.testBodies, snap.masses, snap.config.dt, d), TestBodyId, MergeTestBody)
  {
    WholeRecordMerges();
  }

  /** A pass computed from a snapshot, applied a second time, changes
      nothing. */
  lemma SubstepTwice(e: Moving, snap: Snapshot, d: Dynamics)
    requires KeepsIds(d)
    ensures Substep(Substep(e, snap, d), snap, d) == Substep(e, snap, d)
  {
    var step := snap.config.dt;
    PassUpdatesWhole(snap, d);
    ApplyAllTwice(e.photons, PhotonUpdates(snap.photons, snap.masses, step, d), PhotonId, MergePhoton);
    ApplyAllTwice(e.clocks, ClockUpdates(snap.clocks, snap.masses, step, d), ClockId, MergeClock);
    ApplyAllTwice(e.testBodies, TestBodyUpdates(snap.testBodies, snap.masses, step, d), TestBodyId, MergeTestBody);
  }

  /** Against one snapshot, any positive number of passes leaves the store
      as the first pass did: the later passes recompute and rewrite the same
      records. */
  lemma {:induction false} RepeatCollapses(e: Moving, snap: Snapshot, n: nat, d: Dynamics)
    requires KeepsIds(d)
    requires 1 <= n
    ensures Repeat(e, snap, n, d) == Substep(e, snap, d)
  {
    if n > 1 {
      RepeatCollapses(e, snap, n - 1, d);
      SubstepTwice(e, snap, d);
    }
  }

  /** The clock loop over a lone clock, computed from a list holding the
      same clock, replaces it by its step. */
  lemma LoneClockUpdate(s: seq<GravClock>, stale: seq<GravClock>, masses: seq<MassBody>, dt: real, d: Dynamics,
                        c: GravClock)
    requires |s| == 1 && s[0] == c
    requires |stale| == 1 && stale[0] == c
    ensures var r := ApplyAll(s, ClockUpdates(stale, masses, dt, d), ClockId, MergeClock);
            |r| == 1 && r[0] == d.clock(c, masses, dt)
  {
    var updates := ClockUpdates(stale, masses, dt, d);
    var next := d.clock(c, masses, dt);
    assert |updates| == 1 && updates[0] == (c.id, ClockFields(next));
    ApplyAllAt(s, updates, ClockId, MergeClock, 0);
    assert ApplyOne(c, updates, ClockId, MergeClock) == MergeClock(c, ClockFields(next)) by {
      assert updates[..0] == [];
    }
  }

  /** A pass over a lone clock, computed from a snapshot holding the same
      clock, replaces it by its step. */
  lemma LoneClockPass(e: Moving, snap: Snapshot, d: Dynamics, c: GravClock)
    requires |snap.clocks| == 1 && snap.clocks[0] == c
    requires |e.clocks| == 1 && e.clocks[0] == c
    ensures var r := Substep(e, snap, d).clocks;
            |r| == 1 && r[0] == d.clock(c, snap.masses, snap.config.dt)
  {
    LoneClockUpdate(e.clocks, snap.clocks, snap.masses, snap.config.dt, d, c);
  }

  /** A lone clock, banked for `n` passes in one frame against the
      captured snapshot, gains one step's worth of proper time however large
      `n` is. */
  lemma StaleClockAdvancesOnce(e: Moving, snap: Snapshot, n: nat, d: Dynamics, gain: (Vec3, seq<MassBody>, real) -> real,
                               c: GravClock)
    requires KeepsIds(d) && ClockGain(d, gain)
    requires |snap.clocks| == 1 && snap.clocks[0] == c
    requires |e.clocks| == 1 && e.clocks[0] == c
    requires 1 <= n
    ensures var r := Repeat(e, snap, n, d).clocks;
            |r| == 1 && r[0] == c.(properTime := c.properTime + gain(c.position, snap.masses, snap.config.dt))
  {
    RepeatCollapses(e, snap, n, d);
    LoneClockPass(e, snap, d, c);
    ClockGainAt(d, gain, c, snap.masses, snap.config.dt);
  }

  /** A fresh pass over clocks with distinct ids replaces each clock by its
      own step. */
  lemma FreshPassClocks(e: Moving, config: SimConfig, masses: seq<MassBody>, d: Dynamics)
    requires KeepsIds(d)
    requires DistinctIds(e.clocks, ClockId)
    ensures var r := FreshSubstep(e, config, masses, d).clocks;
            && |r| == |e.clocks|
            && forall i :: 0 <= i < |r| ==> r[i] == d.clock(e.clocks[i], masses, config.dt)
  {
    var updates := ClockUpdates(e.clocks, masses, config.dt, d);
    PassUpdatesWhole(Snapshot(config, masses, e.photons, e.clocks, e.testBodies), d);
    ApplyAllOwnUpdates(e.clocks, updates, ClockId, MergeClock);
    WholeRecordMerges();
  }

  /** The clock step adds to the proper time a gain fixed by the clock's
      position, the masses and the step length, and changes nothing else. */
  ghost predicate ClockGain(d: Dynamics, gain: (Vec3, seq<MassBody>, real) -> real)
  {
    forall c, ms, dt {:trigger d.clock(c, ms, dt)} :: d.clock(c, ms, dt) == c.(properTime := c.properTime + gain(c.position, ms, dt))
  }
  /** The gain of `stepClock`: the step length times the time-dilation
      factor at the clock's position. */
  function DilatedGain(sqrt: real -> real): (gain: (Vec3, seq<MassBody>, real) -> real)
    requires IsSqrt(sqrt)
    ensures forall p, ms, dt :: gain(p, ms, dt) == dt * TimeDilationFactor(p, ms, sqrt)
  {
    (p, ms, dt) requires IsSqrt(sqrt) => dt * TimeDilationFactor(p, ms, sqrt)
  }

  /** One clock step under a gain. */
  lemma ClockGainAt(d: Dynamics, gain: (Vec3, seq<MassBody>, real) -> real, c: GravClock, masses: seq<MassBody>, dt: real)
    requires ClockGain(d, gain)
    ensures d.clock(c, masses, dt) == GravClock(c.id, c.position, c.properTime + gain(c.position, masses, dt), c.color)
  {
  }

  /** `stepClock` advances proper time by the dilated gain. */
  lemma PhysicalClockGain(sqrt: real -> real, stepTestBody: TestBodyStep)
    requires IsSqrt(sqrt)
    ensures ClockGain(Physical(sqrt, stepTestBody), DilatedGain(sqrt))
  {
    forall c, ms, dt {
      PhysicalClockStep(sqrt, stepTestBody, c, ms, dt);
    }
  }

  /** One `stepClock` call under the physical dynamics. */
  lemma PhysicalClockStep(sqrt: real -> real, stepTestBody: TestBodyStep, c: GravClock, ms: seq<MassBody>, dt: real)
    requires IsSqrt(sqrt)
    ensures Physical(sqrt, stepTestBody).clock(c, ms, dt)
            == c.(properTime := c.properTime + DilatedGain(sqrt)(c.position, ms, dt))
  {
    var r := StepClock(c, ms, dt, sqrt);
    assert Physical(sqrt, stepTestBody).clock(c, ms, dt) == r;
    assert DilatedGain(sqrt)(c.position, ms, dt) == dt * TimeDilationFactor(c.position, ms, sqrt);
  }

  /** Far from every mass there is no dilation: a clock gains exactly the
      step length. */
  lemma NoMassesNoDilation(sqrt: real -> real, p: Vec3, dt: real)
    requires IsSqrt(sqrt)
    ensures DilatedGain(sqrt)(p, [], dt) == dt
  {
    assert TimeDilationFactor(p, [], sqrt) == 1.0;
  }

  /** Fresh passes keep the number of clocks and each clock's id. */
  lemma {:induction false} FreshKeepsClockIds(e: Moving, config: SimConfig, masses: seq<MassBody>, n: nat, d: Dynamics)
    requires KeepsIds(d)
    ensures var r := RepeatFresh(e, config, masses, n, d).clocks;
            && |r| == |e.clocks|
            && forall i :: 0 <= i < |r| ==> r[i].id == e.clocks[i].id
  {
    if n > 0 {
      FreshKeepsClockIds(e, config, masses, n - 1, d);
      var before := RepeatFresh(e, config, masses, n - 1, d);
      var s := before.clocks;
      var updates := ClockUpdates(s, masses, config.dt, d);
      PassUpdatesWhole(Snapshot(config, masses, before.photons, s, before.testBodies), d);
      forall i | 0 <= i < |s|
        ensures ApplyAll(s, updates, ClockId, MergeClock)[i].id == s[i].id
      {
        ApplyAllAt(s, updates, ClockId, MergeClock, i);
        ApplyOneKeepsId(s[i], updates, ClockId, MergeClock);
      }
    }
  }

  /** Fresh passes keep the clocks' ids distinct. */
  lemma FreshKeepsDistinct(e: Moving, config: SimConfig, masses: seq<MassBody>, n: nat, d: Dynamics)
    requires KeepsIds(d)
    requires DistinctIds(e.clocks, ClockId)
    ensures DistinctIds(RepeatFresh(e, config, masses, n, d).clocks, ClockId)
  {
    var s := RepeatFresh(e, config, masses, n, d).clocks;
    FreshKeepsClockIds(e, config, masses, n, d);
    forall j, k | 0 <= j < k < |s|
      ensures s[j].id != s[k].id
    {
      assert s[j].id == e.clocks[j].id && s[k].id == e.clocks[k].id;
    }
  }

  /** `n` clock steps in a row, each from the previous one's result. */
  function ClockSteps(c: GravClock, masses: seq<MassBody>, dt: real, n: nat, d: Dynamics): GravClock
  {
    if n == 0 then c else d.clock(ClockSteps(c, masses, dt, n - 1, d), masses, dt)
  }

  /** A lone clock, stepped by `n` fresh passes, has been stepped `n` times
      in a row. */
  lemma {:induction false} FreshLoneClock(e: Moving, config: SimConfig, masses: seq<MassBody>, n: nat, d: Dynamics,
                                          c: GravClock)
    requires |e.clocks| == 1 && e.clocks[0] == c
    ensures var r := RepeatFresh(e, config, masses, n, d).clocks;
            |r| == 1 && r[0] == ClockSteps(c, masses, config.dt, n, d)
  {
    if n > 0 {
      FreshLoneClock(e, config, masses, n - 1, d, c);
      var s := RepeatFresh(e, config, masses, n - 1, d).clocks;
      LoneClockUpdate(s, s, masses, config.dt, d, ClockSteps(c, masses, config.dt, n - 1, d));
    }
  }

  /** Under a gain, `n` clock steps add `n` gains and change nothing else:
      the position, which fixes the gain, stays where it was. */
  lemma {:induction false} ClockStepsGain(c: GravClock, masses: seq<MassBody>, dt: real, n: nat, d: Dynamics,
                                          gain: (Vec3, seq<MassBody>, real) -> real)
    requires ClockGain(d, gain)
    ensures ClockSteps(c, masses, dt, n, d) == c.(properTime := c.properTime + Drain(n, gain(c.position, masses, dt)))
  {
    var f := gain(c.position, masses, dt);
    if n > 0 {
      ClockStepsGain(c, masses, dt, n - 1, d, gain);
      var before := GravClock(c.id, c.position, c.properTime + Drain(n - 1, f), c.color);
      ClockGainAt(d, gain, before, masses, dt);
      DrainStep(c, n, f);
    } else {
      assert c.(properTime := c.properTime + Drain(0, f)) == c;
    }
  }

  /** A lone clock, stepped by `n` fresh passes, gains `n` steps' worth of
      proper time, one at a time, and keeps its id, position and colour. */
  lemma FreshClockAdvances(e: Moving, config: SimConfig, masses: seq<MassBody>, n: nat,
                           d: Dynamics, gain: (Vec3, seq<MassBody>, real) -> real, c: GravClock)
    requires ClockGain(d, gain)
    requires |e.clocks| == 1 && e.clocks[0] == c
    ensures var r := RepeatFresh(e, config, masses, n, d).clocks;
            |r| == 1 && r[0] == c.(properTime := c.properTime + Drain(n, gain(c.position, masses, config.dt)))
  {
    FreshLoneClock(e, config, masses, n, d, c);
    ClockStepsGain(c, masses, config.dt, n, d, gain);
  }

  /** Adding one more step to a clock that has drained `k - 1` steps. */
  lemma DrainStep(c: GravClock, k: nat, f: real)
    requires 0 < k
    ensures GravClock(c.id, c.position, c.properTime + Drain(k - 1, f) + f, c.color)
            == c.(properTime := c.properTime + Drain(k, f))
  {
  }

  // ---------------------------------------------------------------------------
  // How many passes a frame makes

  /** The time `k` passes take out of the accumulator, one `step` at a time. */
  function Drain(k: nat, step: real): real
  {
    if k == 0 then 0.0 else Drain(k - 1, step) + step
  }

  /** `k` passes drain `k * step`. */
  lemma {:induction false} DrainIsProduct(k: nat, step: real)
    ensures Drain(k, step) == k as real * step
  {
    if k > 0 {
      DrainIsProduct(k - 1, step);
      assert k as real * step == (k - 1) as real * step + step;
    }
  }

  /** More passes drain more. */
  lemma {:induction false} DrainMonotone(i: nat, j: nat, step: real)
    requires 0.0 <= step && i <= j
    ensures Drain(i, step) <= Drain(j, step)
  {
    if i < j {
      DrainMonotone(i, j - 1, step);
    }
  }

  /** The number of times `while (acc >= step) acc -= step` runs from `total`:
      as many steps as fit in `total`, so that one more would not fit; none
      when `total < step`. */
  function SubstepCount(total: real, step: real): (n: nat)
    requires 0.0 < step
    ensures total < step ==> n == 0
    ensures step <= total ==> Drain(n, step) <= total < Drain(n + 1, step)
  {
    if total < step then 0
    else
      var q := total / step;
      assert 1.0 <= q by {
        MultiplyMonotone(1.0 / step, step, total);
      }
      var n: nat := q.Floor;
      FloorBrackets(total, step);
      DrainIsProduct(n, step);
      DrainIsProduct(n + 1, step);
      n
  }

  /** What `while (acc >= step) acc -= step` leaves of `total`: less than
      one step, and never negative when the total is not. */
  function Residue(total: real, step: real): (r: real)
    requires 0.0 < step
    ensures r < step
    ensures 0.0 <= total ==> 0.0 <= r
  {
    total - Drain(SubstepCount(total, step), step)
  }

  /** `floor(total/step)` multiples of `step` fit in `total`, one more does not. */
  lemma FloorBrackets(total: real, step: real)
    requires 0.0 < step
    ensures (total / step).Floor as real * step <= total < ((total / step).Floor + 1) as real * step
  {
    var q := total / step;
    var f := q.Floor as real;
    assert step * q == total;
    MultiplyMonotone(step, f, q);
    var g := ((total / step).Floor + 1) as real;
    assert g == f + 1.0;
    MultiplyStrict(step, q, g);
    assert total < g * step;
  }

  /** The count is `floor(total / step)`: any count that leaves a residue in
      `[0, step)` is the loop's count. */
  lemma SubstepCountUnique(total: real, step: real, k: nat)
    requires 0.0 < step
    requires k as real * step <= total < (k + 1) as real * step
    ensures SubstepCount(total, step) == k
  {
    DrainIsProduct(k, step);
    DrainIsProduct(k + 1, step);
    if total < step {
      if 0 < k {
        DrainMonotone(1, k, step);
        assert false;
      }
    } else {
      OneCountPerWindow(total, step, SubstepCount(total, step), k);
    }
  }

  /** At most one whole number of steps leaves a residue in `[0, step)`. */
  lemma OneCountPerWindow(total: real, step: real, n: nat, k: nat)
    requires 0.0 < step
    requires Drain(n, step) <= total < Drain(n + 1, step)
    requires Drain(k, step) <= total < Drain(k + 1, step)
    ensures n == k
  {
    if n < k {
      DrainMonotone(n + 1, k, step);
      assert false;
    } else if k < n {
      DrainMonotone(k + 1, n, step);
      assert false;
    }
  }

  /** While at least one more step is banked, one more pass is due. */
  lemma Drained(total: real, step: real, k: nat)
    requires 0.0 < step
    requires k <= SubstepCount(total, step)
    requires step <= total - Drain(k, step)
    ensures k + 1 <= SubstepCount(total, step)
  {
    DrainMonotone(0, k, step);
  }

  /** When less than a step is left, the loop ran exactly `SubstepCount`
      times and the residue is `Residue`. */
  lemma Settled(total: real, step: real, k: nat, residue: real)
    requires 0.0 < step
    requires k <= SubstepCount(total, step)
    requires residue == total - Drain(k, step) && residue < step
    ensures SubstepCount(total, step) == k
    ensures residue == Residue(total, step)
  {
    var n := SubstepCount(total, step);
    if k < n {
      DrainMonotone(k + 1, n, step);
      assert false;
    }
  }

  // ---------------------------------------------------------------------------
  // The stepper

  class SimulationStepper {
    /** `accumulator.current`: simulated time banked but not yet stepped. */
    var accumulator: real
    /** The store the stepper's `update*` calls write to. */
    const store: SimStore

    /** `useRef(0)`. */
    constructor(store: SimStore)
      ensures this.store == store && accumulator == 0.0
    {
      this.store := store;
      accumulator := 0.0;
    }

    /** The collections a step writes, as they are now. */
    ghost function Current(): Moving
      reads store
    {
      Moving(store.photons, store.clocks, store.testBodies)
    }

    /** The frame callback as written: a paused snapshot returns at once, so
        the frame's delta is dropped; otherwise the delta is banked and
        `SubstepCount` passes drain it, each computed from the snapshot
        captured at the last render. The masses are never written. */
    method Tick(delta: real, snap: Snapshot, d: Dynamics)
      requires !snap.config.paused ==> 0.0 < snap.config.dt
      modifies this`accumulator, store`photons, store`clocks, store`testBodies
      ensures store.masses == old(store.masses)
      ensures snap.config.paused ==> accumulator == old(accumulator) && Current() == old(Current())
      ensures !snap.config.paused ==>
                var total := old(accumulator) + delta;
                var n := SubstepCount(total, snap.config.dt);
                && accumulator == Residue(total, snap.config.dt)
                && accumulator < snap.config.dt
                && (0.0 <= total ==> 0.0 <= accumulator)
                && Current() == Repeat(old(Current()), snap, n, d)
    {
      if snap.config.paused {
        return;
      }
      accumulator := accumulator + delta;
      Passes(snap, d);
    }

    /** The `while` loop of the callback: passes against `snap` while at least
        one step is banked, each taking one step out of the accumulator. */
    method Passes(snap: Snapshot, d: Dynamics)
      requires 0.0 < snap.config.dt
      modifies this`accumulator, store`photons, store`clocks, store`testBodies
      ensures accumulator == Residue(old(accumulator), snap.config.dt)
      ensures Current() == Repeat(old(Current()), snap, SubstepCount(old(accumulator), snap.config.dt), d)
    {
      var step := snap.config.dt;
      ghost var total := accumulator;
      ghost var start := Current();
      ghost var count := SubstepCount(total, step);
      ghost var k: nat := 0;
      while accumulator >= step
        invariant accumulator == total - Drain(k, step)
        invariant k <= count
        invariant Current() == Repeat(start, snap, k, d)
        decreases count - k
      {
        Drained(total, step, k);
        Pass(snap, d);
        accumulator := accumulator - step;
        k := k + 1;
      }
      Settled(total, step, k, accumulator);
    }

    /** The corrected callback: the same accumulator loop, but every pass
        steps the collections as the previous pass left them in the store;
        only the configuration and the masses, which no pass writes, come
        from the snapshot. */
    method TickFresh(delta: real, snap: Snapshot, d: Dynamics)
      requires !snap.config.paused ==> 0.0 < snap.config.dt
      modifies this`accumulator, store`photons, store`clocks, store`testBodies
      ensures store.masses == old(store.masses)
      ensures snap.config.paused ==> accumulator == old(accumulator) && Current() == old(Current())
      ensures !snap.config.paused ==>
                var total := old(accumulator) + delta;
                var n := SubstepCount(total, snap.config.dt);
                && accumulator == Residue(total, snap.config.dt)
                && accumulator < snap.config.dt
                && (0.0 <= total ==> 0.0 <= accumulator)
                && Current() == RepeatFresh(old(Current()), snap.config, snap.masses, n, d)
    {
      if snap.config.paused {
        return;
      }
      accumulator := accumulator + delta;
      PassesFresh(snap.config, snap.masses, d);
    }

    /** The corrected `while` loop: each pass reads the collections the
        previous one wrote. */
    method PassesFresh(config: SimConfig, masses: seq<MassBody>, d: Dynamics)
      requires 0.0 < config.dt
      modifies this`accumulator, store`photons, store`clocks, store`testBodies
      ensures accumulator == Residue(old(accumulator), config.dt)
      ensures Current() == RepeatFresh(old(Current()), config, masses, SubstepCount(old(accumulator), config.dt), d)
    {
      var step := config.dt;
      ghost var total := accumulator;
      ghost var start := Current();
      ghost var count := SubstepCount(total, step);
      ghost var k: nat := 0;
      while accumulator >= step
        invariant accumulator == total - Drain(k, step)
        invariant k <= count
        invariant Current() == RepeatFresh(start, config, masses, k, d)
        decreases count - k
      {
        Drained(total, step, k);
        PassFresh(config, masses, d);
        accumulator := accumulator - step;
        k := k + 1;
      }
      Settled(total, step, k, accumulator);
    }

    /** One pass of the `while` body: every photon, then every clock, then
        every test body of the snapshot is stepped and written back through
        the store's `update*` action for its id. */
    method Pass(snap: Snapshot, d: Dynamics)
      modifies store`photons, store`clocks, store`testBodies
      ensures Current() == Substep(old(Current()), snap, d)
    {
      StepPhotons(snap, d);
      StepClocks(snap, d);
      StepTestBodies(snap, d);
    }

    /** A pass whose snapshot of the collections is taken from the store
        just before it. */
    method PassFresh(config: SimConfig, masses: seq<MassBody>, d: Dynamics)
      modifies store`photons, store`clocks, store`testBodies
      ensures Current() == FreshSubstep(old(Current()), config, masses, d)
    {
      var now := Snapshot(config, masses, store.photons, store.clocks, store.testBodies);
      Pass(now, d);
    }

    /** `for (const p of photons) updatePhoton(p.id, stepPhoton(p, masses, step))`. */
    method StepPhotons(snap: Snapshot, d: Dynamics)
      modifies store`photons
      ensures store.photons == ApplyAll(old(store.photons), PhotonUpdates(snap.photons, snap.masses, snap.config.dt, d), PhotonId, MergePhoton)
    {
      var updates := PhotonUpdates(snap.photons, snap.masses, snap.config.dt, d);
      for j := 0 to |snap.photons|
        invariant store.photons == ApplyAll(old(store.photons), updates[..j], PhotonId, MergePhoton)
      {
        var p := snap.photons[j];
        var next := d.photon(p, snap.masses, snap.config.dt);
        store.UpdatePhoton(p.id, PhotonFields(next));
        assert updates[..j + 1][..j] == updates[..j];
      }
      assert updates[..|updates|] == updates;
    }

    /** `for (const c of clocks) updateClock(c.id, stepClock(c, masses, step))`. */
    method StepClocks(snap: Snapshot, d: Dynamics)
      modifies store`clocks
      ensures store.clocks == ApplyAll(old(store.clocks), ClockUpdates(snap.clocks, snap.masses, snap.config.dt, d), ClockId, MergeClock)
    {
      var updates := ClockUpdates(snap.clocks, snap.masses, snap.config.dt, d);
      for j := 0 to |snap.clocks|
        invariant store.clocks == ApplyAll(old(store.clocks), updates[..j], ClockId, MergeClock)
      {
        var c := snap.clocks[j];
        var next := d.clock(c, snap.masses, snap.config.dt);
        store.UpdateClock(c.id, ClockFields(next));
        assert updates[..j + 1][..j] == updates[..j];
      }
      assert updates[..|updates|] == updates;
    }

    /** `for (const b of testBodies) updateTestBody(b.id, stepTestBody(b, masses, step))`. */
    method StepTestBodies(snap: Snapshot, d: Dynamics)
      modifies store`testBodies
      ensures store.testBodies == ApplyAll(old(store.testBodies), TestBodyUpdates(snap.testBodies, snap.masses, snap.config.dt, d), TestBodyId, MergeTestBody)
    {
      var updates := TestBodyUpdates(snap.testBodies, snap.masses, snap.config.dt, d);
      for j := 0 to |snap.testBodies|
        invariant store.testBodies == ApplyAll(old(store.testBodies), updates[..j], TestBodyId, MergeTestBody)
      {
        var b := snap.testBodies[j];
        var next := d.testBody(b, snap.masses, snap.config.dt);
        store.UpdateTestBody(b.id, TestBodyFields(next));
        assert updates[..j + 1][..j] == updates[..j];
      }
      assert updates[..|updates|] == updates;
    }
  }
}
