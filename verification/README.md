# Relativity visualizer: simulation core in Dafny

This project models the simulation core of the relativity visualizer, a
browser scene of massive bodies, light-like photons, gravitational clocks and
test bodies. The model covers:

- **The entity store** (`state/store.ts`). It holds four id-keyed record
  lists, the configuration `{ dt, paused }`, the UI selection and a shared id
  counter. Its actions append, patch (`{ ...r, ...patch }` on the matching id)
  and filter the lists. `Store.SimStore` is a class whose fields the actions
  reassign. The list transforms are generic functions in `Records`.
- **The physics** (`lib/physics.ts`). It has vector arithmetic, the softened
  Newtonian acceleration and potential (two accumulation loops, modelled as
  methods proved against recursive sums), the weak-field time-dilation factor,
  and the photon and clock steps. `Math.sqrt` and `Math.hypot` cannot be
  defined over the reals in Dafny. Every operation that needs them therefore
  takes a square-root function `sqrt` and requires `IsSqrt(sqrt)`: on
  non-negative inputs it returns the non-negative root, and the root of zero
  is zero.
- **The fixed-timestep scheduler** `SimulationStepper` (`scene/RelativityScene.tsx`).
  Each frame's delta is banked in an accumulator. The accumulator is drained
  in whole steps of `config.dt`. Every step sends one `update*` call per photon,
  clock and test body. `Scene.SimulationStepper` is a class with the
  accumulator field and a reference to the store. The passes are proved
  against `Substep`/`Repeat`, and the count of passes against `SubstepCount`.
- **The trail ring buffer** (`components/Trails.tsx`). This is a flat array of
  `length * 3` numbers and a head index advanced modulo `length`. A ghost
  history of the samples states which sample each slot holds.
- **The grid's mass uniforms** (`components/SpacetimeGrid.tsx`). Each frame
  copies the first `MAX_MASSES` masses into two fixed-size arrays and parks the
  rest of the slots.
- **`kerrRadii`** (`components/BlackHole.tsx`). It computes the clamped mass and
  spin, the horizon radius and the equatorial static limit.

Modules: `RealMath`, `Optional` and `Constants` (`real_math.dfy`), `Records`
(`records.dfy`), `Store` (`store.dfy`), `Physics` (`physics.dfy`), `Scene`
(`scene.dfy`), `Trails` (`trails.dfy`), `SpacetimeGrid` (`spacetime_grid.dfy`)
and `BlackHole` (`black_hole.dfy`).

Facts about the code that shape the model:

- **Snapshot.** Every substep of a frame steps the photons, clocks and test
  bodies captured at the stepper's last render, not the results of the
  previous substep (`RelativityScene.tsx:15-25`, `34-45`; see "## Findings").
- **Paused frames.** `if (paused) return` runs before
  `accumulator.current += delta`, so a paused frame's delta is dropped, not
  banked; the accumulator itself is kept (`RelativityScene.tsx:30-31`,
  `Tick`'s paused case).
- **Masses.** The stepper never writes masses, and no file of the core has
  collision logic.

## Model

| member | source | states |
|---|---|---|
| RealMath.Max | relativity-visualizer/src/components/BlackHole.tsx:7 | `Math.max` is an upper bound of both arguments and equals one of them |
| RealMath.Min | relativity-visualizer/src/components/BlackHole.tsx:8 | `Math.min` is a lower bound of both arguments and equals one of them |
| Optional.Option.GetOr | relativity-visualizer/src/state/store.ts:94-98 | `x ?? fallback` is the present value, or the fallback when absent |
| Records.UpdateById | relativity-visualizer/src/state/store.ts:104-107 | the id-matching `map` keeps the list's length |
| Records.RemoveById | relativity-visualizer/src/state/store.ts:109 | the `filter` leaves no record with the removed id and never grows the list |
| Records.UpdateByIdAt | relativity-visualizer/src/state/store.ts:106 | position `i` after an update is the merged record exactly when its id matches, and the old record otherwise |
| Records.UpdateUnknownId | relativity-visualizer/src/state/store.ts:104-107 | updating an id no record carries changes nothing |
| Records.UpdateTwice | relativity-visualizer/src/state/store.ts:104-107 | applying the same patch twice equals applying it once, when merging is idempotent |
| Records.RemoveByIdMembers | relativity-visualizer/src/state/store.ts:109 | a record survives removal if and only if it was present and its id differs |
| Records.RemoveByIdConcat | relativity-visualizer/src/state/store.ts:109 | removal distributes over concatenation, so survivors keep their order |
| Records.RemoveUnknownId | relativity-visualizer/src/state/store.ts:109 | removing an id no record carries changes nothing |
| Records.RemoveTwice | relativity-visualizer/src/state/store.ts:109 | removal is idempotent |
| Records.ApplyAll | relativity-visualizer/src/scene/RelativityScene.tsx:34-45 | a loop of `update*` calls keeps the list's length |
| Records.ApplyAllAt | relativity-visualizer/src/scene/RelativityScene.tsx:34-45 | a loop of updates acts on each position on its own |
| Records.ApplyOneKeepsId | relativity-visualizer/src/scene/RelativityScene.tsx:34-45 | whole-record updates sent to their own id never change a record's id |
| Records.ApplyOneUnmentioned | relativity-visualizer/src/scene/RelativityScene.tsx:34-45 | a record no update is sent to comes through unchanged |
| Records.ApplyOneLastMatch | relativity-visualizer/src/scene/RelativityScene.tsx:34-45 | the last update sent to a record's id decides its value, whatever it held before |
| Records.ApplyOneMentioned | relativity-visualizer/src/scene/RelativityScene.tsx:34-45 | two records with the same mentioned id come out equal |
| Records.LastMention | relativity-visualizer/src/scene/RelativityScene.tsx:34-45 | finds the last update sent to an id: it matches, and no later one does |
| Records.ApplyAllTwice | relativity-visualizer/src/scene/RelativityScene.tsx:34-45 | running the same whole-record updates again changes nothing |
| Records.ApplyAllOwnUpdates | relativity-visualizer/src/scene/RelativityScene.tsx:34-45 | with distinct ids, each record receives exactly its own update |
| Store.MergeMass | relativity-visualizer/src/state/store.ts:106 | spreading an empty patch keeps the mass; a patch without an `id` keeps its id |
| Store.MergePhoton | relativity-visualizer/src/state/store.ts:126 | spreading an empty patch keeps the photon; a patch without an `id` keeps its id |
| Store.MergeClock | relativity-visualizer/src/state/store.ts:145 | spreading an empty patch keeps the clock; a patch without an `id` keeps its id |
| Store.MergeTestBody | relativity-visualizer/src/state/store.ts:163 | spreading an empty patch keeps the test body; a patch without an `id` keeps its id |
| Store.MergesIdempotent | relativity-visualizer/src/state/store.ts:104-163 | spreading a patch a second time changes nothing, for every record kind |
| Store.WholeRecordMerges | relativity-visualizer/src/state/store.ts:143-146 | spreading a whole record replaces what was there |
| Store.DecimalString | relativity-visualizer/src/state/store.ts:78 | the template-literal id has at least one character and only digits |
| Store.DecimalRoundTrip | relativity-visualizer/src/state/store.ts:78 | reading back a rendered id gives its counter value |
| Store.DecimalInjective | relativity-visualizer/src/state/store.ts:77-78 | different counter values render as different ids |
| Store.NewMass | relativity-visualizer/src/state/store.ts:92-99 | the new mass is the record of defaults (named after its id) with the caller's fields, all but `id`, spread over it |
| Store.NewPhoton | relativity-visualizer/src/state/store.ts:113-119 | the new photon is the record of defaults with the caller's fields, all but `id`, spread over it |
| Store.NewClock | relativity-visualizer/src/state/store.ts:133-138 | the new clock is the record of defaults with the caller's fields, all but `id`, spread over it |
| Store.NewTestBody | relativity-visualizer/src/state/store.ts:152-158 | the new test body is the record of defaults with the caller's fields, all but `id`, spread over it |
| Store.CreationDefaults | relativity-visualizer/src/state/store.ts:90-160 | the defaults of each `add*` action when given no fields |
| Store.CreationKeepsGivenFields | relativity-visualizer/src/state/store.ts:111-121 | the issued id always wins over a supplied one; a supplied photon velocity is kept as given, without rescaling |
| Store.SimStore.constructor | relativity-visualizer/src/state/store.ts:80-88 | the initial state: default `dt`, running, empty lists, select mode, nothing selected |
| Store.SimStore.NextId | relativity-visualizer/src/state/store.ts:77-78 | pre-increments the counter and returns an id different from every earlier one |
| Store.SimStore.AddMass | relativity-visualizer/src/state/store.ts:90-102 | appends the new mass with a fresh id and returns that id |
| Store.SimStore.UpdateMass | relativity-visualizer/src/state/store.ts:104-107 | patches the masses carrying the id |
| Store.SimStore.RemoveMass | relativity-visualizer/src/state/store.ts:109 | drops the masses carrying the id |
| Store.SimStore.AddPhoton | relativity-visualizer/src/state/store.ts:111-122 | appends the new photon with a fresh id and returns that id |
| Store.SimStore.UpdatePhoton | relativity-visualizer/src/state/store.ts:124-127 | patches the photons carrying the id |
| Store.SimStore.RemovePhoton | relativity-visualizer/src/state/store.ts:129 | drops the photons carrying the id |
| Store.SimStore.AddClock | relativity-visualizer/src/state/store.ts:131-141 | appends the new clock with a fresh id and returns that id |
| Store.SimStore.UpdateClock | relativity-visualizer/src/state/store.ts:143-146 | patches the clocks carrying the id |
| Store.SimStore.RemoveClock | relativity-visualizer/src/state/store.ts:148 | drops the clocks carrying the id |
| Store.SimStore.AddTestBody | relativity-visualizer/src/state/store.ts:150-161 | appends the new test body with a fresh id and returns that id |
| Store.SimStore.UpdateTestBody | relativity-visualizer/src/state/store.ts:162-163 | patches the test bodies carrying the id |
| Store.SimStore.RemoveTestBody | relativity-visualizer/src/state/store.ts:164 | drops the test bodies carrying the id |
| Store.SimStore.SetPaused | relativity-visualizer/src/state/store.ts:166 | replaces only the paused flag of the configuration |
| Store.SimStore.SetDt | relativity-visualizer/src/state/store.ts:167 | replaces only the step length of the configuration |
| Store.SimStore.Reset | relativity-visualizer/src/state/store.ts:168 | empties the four lists and both selections; configuration, mode and id counter untouched |
| Store.SimStore.SetUiMode | relativity-visualizer/src/state/store.ts:170 | sets the UI mode |
| Store.SimStore.SetSelectedMassId | relativity-visualizer/src/state/store.ts:171 | sets the selected mass |
| Store.SimStore.SetSelectedTestBodyId | relativity-visualizer/src/state/store.ts:172 | sets the selected test body |
| Physics.Subtract | relativity-visualizer/src/lib/physics.ts:4-6 | adding the difference `a - b` to `b` gives `a` back |
| Physics.Add | relativity-visualizer/src/lib/physics.ts:7-9 | the origin is neutral for `add` on either side |
| Physics.Scale | relativity-visualizer/src/lib/physics.ts:10-12 | scaling by one is the identity; a zero factor or the origin gives the origin |
| Physics.ScaleToOrigin | relativity-visualizer/src/lib/physics.ts:10-12 | only a zero factor or the origin scales to the origin |
| Physics.SquaredLength | relativity-visualizer/src/lib/physics.ts:13-15 | the squared norm is non-negative and zero exactly at the origin |
| Physics.ScaledSquaredLength | relativity-visualizer/src/lib/physics.ts:10-15 | scaling by `s` multiplies the squared length by `s*s` |
| Physics.AddAssociative | relativity-visualizer/src/lib/physics.ts:7-9 | `add` is associative |
| Physics.Length | relativity-visualizer/src/lib/physics.ts:13-15 | `hypot` is the non-negative root of the squared length, zero exactly at the origin |
| Physics.Normalize | relativity-visualizer/src/lib/physics.ts:16-19 | the origin maps to itself (a zero length is replaced by 1); any other vector maps to a unit vector that scales back to it |
| Physics.UnitAlong | relativity-visualizer/src/lib/physics.ts:16-19 | dividing by a positive length can be undone by scaling, and shrinks the squared length by its square |
| Physics.SoftenedSquaredDistance | relativity-visualizer/src/lib/physics.ts:25-28 | the softened squared distance is at least `EPSILON*EPSILON`, so never zero |
| Physics.InverseCube | relativity-visualizer/src/lib/physics.ts:29-30 | `1 / (r2 * sqrt(r2))` is positive |
| Physics.InverseCubeFactor | relativity-visualizer/src/lib/physics.ts:28-31 | the factor has the sign of the mass: positive exactly for a positive mass, negative exactly for a negative one, zero for a massless body |
| Physics.AccelerationFrom | relativity-visualizer/src/lib/physics.ts:25-34 | one mass's contribution vanishes exactly when the mass is zero or sits at the point itself |
| Physics.AccelerationSum | relativity-visualizer/src/lib/physics.ts:22-37 | the sum the loop accumulates is the origin when every mass is zero |
| Physics.AccelerationConcat | relativity-visualizer/src/lib/physics.ts:22-37 | the field of two lists together is the sum of their fields |
| Physics.AccelerationPrefix | relativity-visualizer/src/lib/physics.ts:24-35 | one more mass adds its contribution to the prefix's field |
| Physics.Contribution | relativity-visualizer/src/lib/physics.ts:25-34 | one loop body computes the mass's softened inverse-square contribution |
| Physics.GravitationalAcceleration | relativity-visualizer/src/lib/physics.ts:22-37 | the loop returns the sum of the contributions in list order, and the origin for no masses |
| Physics.PotentialFrom | relativity-visualizer/src/lib/physics.ts:43-47 | a non-negative mass contributes a non-positive potential |
| Physics.PotentialSum | relativity-visualizer/src/lib/physics.ts:40-50 | the sum the loop accumulates is zero when every mass is zero |
| Physics.PotentialConcat | relativity-visualizer/src/lib/physics.ts:40-50 | the potential of two lists together is the sum of their potentials |
| Physics.PotentialNonPositive | relativity-visualizer/src/lib/physics.ts:40-50 | with no negative mass the potential is nowhere positive |
| Physics.GravitationalPotential | relativity-visualizer/src/lib/physics.ts:40-50 | the loop returns the sum of the potentials in list order, and zero for no masses |
| Physics.TimeDilationFactor | relativity-visualizer/src/lib/physics.ts:64-68 | the factor is the root of the clamped radicand; it is non-negative, one with no masses, and at most one where the potential is not positive |
| Physics.TimeDilationAtMostOne | relativity-visualizer/src/lib/physics.ts:64-68 | with no negative mass the factor lies in [0, 1] |
| Physics.StepPhoton | relativity-visualizer/src/lib/physics.ts:53-61 | keeps id and colour; the new speed is exactly `C_SIM` along `v + a*dt`, or zero when that vanishes; the position moves with the new velocity |
| Physics.StepClock | relativity-visualizer/src/lib/physics.ts:70-73 | only the proper time changes, by `dt` times the factor; it never decreases for `dt >= 0`, gains exactly `dt` with no masses, and at most `dt` around non-negative masses |
| Scene.Physical | relativity-visualizer/src/scene/RelativityScene.tsx:35-43 | the scene's step functions are `stepPhoton`, `stepClock` and the given `stepTestBody` |
| Scene.PhysicalKeepsIds | relativity-visualizer/src/scene/RelativityScene.tsx:35-44 | the scene's steps return records with their argument's id |
| Scene.PassUpdatesWhole | relativity-visualizer/src/scene/RelativityScene.tsx:34-45 | every update of a pass is a whole record sent to its own id |
| Scene.PhotonUpdates | relativity-visualizer/src/scene/RelativityScene.tsx:34-37 | one update per snapshot photon, in order, each sent to that photon's id |
| Scene.ClockUpdates | relativity-visualizer/src/scene/RelativityScene.tsx:38-41 | one update per snapshot clock, in order, each sent to that clock's id |
| Scene.TestBodyUpdates | relativity-visualizer/src/scene/RelativityScene.tsx:42-45 | one update per snapshot test body, in order, each sent to that body's id |
| Scene.Substep | relativity-visualizer/src/scene/RelativityScene.tsx:34-45 | a pass keeps the size of every collection |
| Scene.Repeat | relativity-visualizer/src/scene/RelativityScene.tsx:33-47 | any number of passes from one snapshot keeps the size of every collection |
| Scene.RepeatFresh | relativity-visualizer/src/scene/RelativityScene.tsx:33-47 | any number of fresh passes keeps the size of every collection |
| Scene.SubstepTwice | relativity-visualizer/src/scene/RelativityScene.tsx:33-47 | a pass from a fixed snapshot, applied again, changes nothing |
| Scene.RepeatCollapses | relativity-visualizer/src/scene/RelativityScene.tsx:33-47 | any positive number of passes from one snapshot equals one pass |
| Scene.LoneClockUpdate | relativity-visualizer/src/scene/RelativityScene.tsx:38-41 | the clock loop over a lone clock replaces it by its step |
| Scene.LoneClockPass | relativity-visualizer/src/scene/RelativityScene.tsx:38-41 | a pass over a lone clock replaces it by its step |
| Scene.StaleClockAdvancesOnce | relativity-visualizer/src/scene/RelativityScene.tsx:33-47 | as written, a lone clock gains one step's proper time however many passes run |
| Scene.FreshPassClocks | relativity-visualizer/src/scene/RelativityScene.tsx:38-41 | a fresh pass over clocks with distinct ids steps every clock once |
| Scene.DilatedGain | relativity-visualizer/src/lib/physics.ts:70-73 | the gain is `dt` times the time-dilation factor at the clock; that it is exactly what `stepClock` adds is proved by `Scene.PhysicalClockGain` |
| Scene.ClockGainAt | relativity-visualizer/src/lib/physics.ts:70-73 | a clock step adds the gain and keeps id, position and colour |
| Scene.PhysicalClockGain | relativity-visualizer/src/lib/physics.ts:70-73 | `stepClock` adds exactly the dilated gain and changes nothing else |
| Scene.PhysicalClockStep | relativity-visualizer/src/lib/physics.ts:70-73 | one `stepClock` call adds the dilated gain to the proper time and keeps id, position and colour |
| Scene.NoMassesNoDilation | relativity-visualizer/src/lib/physics.ts:63-73 | with no masses a clock gains exactly the step length |
| Scene.FreshKeepsClockIds | relativity-visualizer/src/scene/RelativityScene.tsx:38-41 | fresh passes keep the number of clocks and each clock's id |
| Scene.FreshKeepsDistinct | relativity-visualizer/src/scene/RelativityScene.tsx:38-41 | fresh passes keep clock ids distinct |
| Scene.FreshLoneClock | relativity-visualizer/src/scene/RelativityScene.tsx:33-47 | after `n` fresh passes a lone clock has been stepped `n` times in a row |
| Scene.ClockStepsGain | relativity-visualizer/src/lib/physics.ts:70-73 | `n` clock steps add `n` gains and keep id, position and colour |
| Scene.FreshClockAdvances | relativity-visualizer/src/scene/RelativityScene.tsx:33-47 | with fresh passes, a lone clock gains `n` steps' proper time |
| Scene.SubstepCount | relativity-visualizer/src/scene/RelativityScene.tsx:33-47 | the pass count fits `n` whole steps in the total with less than one step left, and is zero below one step |
| Scene.Residue | relativity-visualizer/src/scene/RelativityScene.tsx:33-47 | what the loop leaves is below one step, and non-negative for a non-negative total |
| Scene.SubstepCountUnique | relativity-visualizer/src/scene/RelativityScene.tsx:33-47 | any count leaving a residue in `[0, step)` is `SubstepCount` |
| Scene.OneCountPerWindow | relativity-visualizer/src/scene/RelativityScene.tsx:33-47 | at most one number of passes leaves a residue in `[0, step)` |
| Scene.DrainIsProduct | relativity-visualizer/src/scene/RelativityScene.tsx:46 | `k` subtractions of `step` take `k * step` |
| Scene.DrainMonotone | relativity-visualizer/src/scene/RelativityScene.tsx:46 | the more passes run, the more time they take out of the accumulator |
| Scene.Drained | relativity-visualizer/src/scene/RelativityScene.tsx:33-46 | while a step is still banked, another pass is due |
| Scene.Settled | relativity-visualizer/src/scene/RelativityScene.tsx:33-47 | once less than a step is left, the loop has run exactly `SubstepCount` times and left `Residue` |
| Scene.SimulationStepper.constructor | relativity-visualizer/src/scene/RelativityScene.tsx:27 | the accumulator starts at zero |
| Scene.SimulationStepper.Tick | relativity-visualizer/src/scene/RelativityScene.tsx:29-47 | paused: nothing changes. Otherwise the delta is banked, `SubstepCount` passes from the snapshot run, the accumulator ends at `Residue` in `[0, step)`, and the masses are untouched |
| Scene.SimulationStepper.TickFresh | relativity-visualizer/src/scene/RelativityScene.tsx:29-47 | the corrected frame: the same count and residue, with each pass starting from the previous pass's result |
| Scene.SimulationStepper.Passes | relativity-visualizer/src/scene/RelativityScene.tsx:33-47 | the `while` loop runs `SubstepCount` passes from the snapshot and leaves `Residue` banked |
| Scene.SimulationStepper.PassesFresh | relativity-visualizer/src/scene/RelativityScene.tsx:33-47 | the corrected loop runs `SubstepCount` passes, each from the previous one's result, and leaves `Residue` banked |
| Scene.SimulationStepper.Pass | relativity-visualizer/src/scene/RelativityScene.tsx:34-45 | one pass updates photons, then clocks, then test bodies, from the snapshot |
| Scene.SimulationStepper.PassFresh | relativity-visualizer/src/scene/RelativityScene.tsx:34-45 | one pass computed from the store's current collections |
| Scene.SimulationStepper.StepPhotons | relativity-visualizer/src/scene/RelativityScene.tsx:34-37 | the photon loop issues one `updatePhoton` per snapshot photon, in order |
| Scene.SimulationStepper.StepClocks | relativity-visualizer/src/scene/RelativityScene.tsx:38-41 | the clock loop issues one `updateClock` per snapshot clock, in order |
| Scene.SimulationStepper.StepTestBodies | relativity-visualizer/src/scene/RelativityScene.tsx:42-45 | the test-body loop issues one `updateTestBody` per snapshot body, in order |
| Trails.Age | relativity-visualizer/src/components/Trails.tsx:19-22 | a slot's age is below `length`, and the head's slot is the oldest |
| Trails.NextSlot | relativity-visualizer/src/components/Trails.tsx:22 | `(head + 1) % length` moves to the next slot and wraps from the last to the first |
| Trails.HeadAfterWraps | relativity-visualizer/src/components/Trails.tsx:22 | up to `length` frames move the head that many slots, wrapping once |
| Trails.HeadReturns | relativity-visualizer/src/components/Trails.tsx:17-22 | after `length` frames the head is back at its start |
| Trails.Written | relativity-visualizer/src/components/Trails.tsx:19-21 | writing a sample fills its three slots and leaves every other number as it was |
| Trails.RecordSample | relativity-visualizer/src/components/Trails.tsx:17-22 | writing at the head and advancing it keeps every slot holding the sample of its age |
| Trails.Trail.constructor | relativity-visualizer/src/components/Trails.tsx:9-10 | a zeroed buffer of `length * 3` numbers with the head at 0 |
| Trails.Trail.Frame | relativity-visualizer/src/components/Trails.tsx:17-22 | the sample goes to the head's three slots, the head advances modulo `length`, and the ring invariant holds |
| Trails.OldestIsNext | relativity-visualizer/src/components/Trails.tsx:18-22 | once full, the head's slot holds the oldest sample kept, the next one overwritten |
| Trails.RecentKept | relativity-visualizer/src/components/Trails.tsx:17-22 | each of the last `length` samples is still in the buffer |
| SpacetimeGrid.UsedSlots | relativity-visualizer/src/components/SpacetimeGrid.tsx:60 | `min(masses.length, MAX_MASSES)` |
| SpacetimeGrid.Packed | relativity-visualizer/src/components/SpacetimeGrid.tsx:59-71 | the count is `UsedSlots`, and both arrays always have `MAX_MASSES` slots |
| SpacetimeGrid.Sources | relativity-visualizer/src/components/SpacetimeGrid.tsx:21-26 | the shader reads one (position, mass) pair per counted slot |
| SpacetimeGrid.ShaderSeesFirstMasses | relativity-visualizer/src/components/SpacetimeGrid.tsx:59-66 | the shader sees exactly the first `MAX_MASSES` masses, in list order |
| SpacetimeGrid.ExtraMassesIgnored | relativity-visualizer/src/components/SpacetimeGrid.tsx:60-66 | masses past the first `MAX_MASSES` change nothing in the uniforms |
| SpacetimeGrid.UnusedSlotsParked | relativity-visualizer/src/components/SpacetimeGrid.tsx:67-70 | every slot past the count sits at `(0, -9999, 0)` with mass 0 |
| SpacetimeGrid.GridUniforms.constructor | relativity-visualizer/src/components/SpacetimeGrid.tsx:42-44 | `MAX_MASSES` origin points and zero masses, count zero |
| SpacetimeGrid.GridUniforms.Frame | relativity-visualizer/src/components/SpacetimeGrid.tsx:59-71 | the two loops leave the uniforms equal to `Packed(masses)` |
| BlackHole.ClampedMass | relativity-visualizer/src/components/BlackHole.tsx:7 | the mass is clamped below at 0.0001 and otherwise kept |
| BlackHole.SpinParameter | relativity-visualizer/src/components/BlackHole.tsx:8 | `0 <= a <= 0.99*m`, and `a > 0` for a positive spin |
| BlackHole.FractionOfMass | relativity-visualizer/src/components/BlackHole.tsx:8 | a fraction in `[0, 0.99]` of a non-negative mass lies in `[0, 0.99*m]` |
| BlackHole.RootOfRadicand | relativity-visualizer/src/components/BlackHole.tsx:9-10 | the root of `max(0, m*m - a*a)` lies in `[0, m]`; it is below `m` when spinning and equal to `m` without spin |
| BlackHole.OuterRoot | relativity-visualizer/src/components/BlackHole.tsx:9-10 | `rPlus` lies in `[m, 2m]`; it is below `2m` when spinning and equal to `2m` without spin |
| BlackHole.KerrRadii | relativity-visualizer/src/components/BlackHole.tsx:5-13 | the static limit is `2m * 0.05`; the horizon lies between `m * 0.05` and the static limit, strictly inside it for a positive spin and equal to it otherwise |
| BlackHole.StaticLimitIgnoresSpin | relativity-visualizer/src/components/BlackHole.tsx:10 | the static limit does not depend on the spin |

## Left out

- Numbers are mathematical reals. IEEE-754 doubles, `Float32Array` rounding
  and NaN or infinite values are not modelled.
- `Math.sqrt` and `Math.hypot` are a parameter `sqrt` with `IsSqrt(sqrt)`, not
  a definition.
- A patch key present with the value `undefined` is not modelled. A patch
  field is either absent (`None`) or holds a value.
- The zustand plumbing (`create`, `set`, subscriptions, re-rendering) is not
  modelled. The values the stepper's selector captured at its last render are
  a `Snapshot` parameter.
- `stepTestBody` is imported by the scene, but `lib/physics.ts` does not
  define it. It is a parameter of `Scene.Dynamics`, and only its id-keeping is
  assumed where a lemma needs it.
- The `?? DEFAULT_DT` fallback at `RelativityScene.tsx:32` is not modelled,
  because `config.dt` is typed `number` and is never nullish.
- Scene.SimulationStepper.Tick: requires `dt > 0` when not paused, because with
  `dt <= 0` the source's `while` loop never ends once the accumulator is at
  least `dt`.
- Scene.StaleClockAdvancesOnce: stated for a store holding one clock.
  `RepeatCollapses` gives the general statement for every collection.
- Scene.FreshClockAdvances: stated for a store holding one clock. For several
  clocks, `FreshPassClocks` with `FreshKeepsDistinct` states each fresh pass.
- Trails.Trail.constructor: requires `length > 0`. With `length == 0` the
  source's head becomes `NaN`, and the typed-array writes are silently
  dropped.
- The `length = 256` default of the `Trail` component's props is not
  modelled separately. The constructor takes the length its caller chose.
- The trail's geometry attribute, the `needsUpdate` flag and the `source()`
  callback are not modelled. The sampled point is the `Frame` parameter.
- The trail's frame-count view of `head` is kept separately (`HeadAfter`). The
  ring invariant relates `head` to the samples through `Age`, not through
  `|samples| % length`.
- The grid's uniform slots are `THREE.Vector3` objects updated in place with
  `.set`. They are modelled as values in an array; each slot is its own
  object in the source, so no aliasing is lost.
- The vertex shader itself is not modelled, apart from the slots it reads
  (`Sources`). Nor are the grid geometry, `uHeightScale`, `uEpsilon` and `uG`.
- The black-hole spin vector's length (`spinVec.length()`) is the parameter
  `spinMag`. The axis and quaternion, and the rendering, are not modelled.
- `Effects.tsx`, `HUD.tsx`, `GravitationalWaves.tsx`, `FirstPersonRig.tsx`,
  `App.tsx` and the entity components are not part of this model. They are
  display, camera and audio logic.

## Findings

| source | as written | input that shows it | evidently intended | confidence | as-written member | corrected member |
|---|---|---|---|---|---|---|
| relativity-visualizer/src/scene/RelativityScene.tsx:34-44 | every substep of a frame steps the photons, clocks and test bodies captured at the last render, so `n >= 1` substeps rewrite the same records: the frame advances one step while draining `n` steps of banked time | a lone clock, `dt = 0.016`, a frame with `delta = 0.05`: three substeps run, and the clock gains one step of proper time | each substep starts from the previous substep's result, so the clock gains three steps | medium; not executed | Scene.StaleClockAdvancesOnce | Scene.FreshClockAdvances |
