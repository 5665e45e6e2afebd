/** The simulation's entity store (`state/store.ts`): four id-keyed record
    lists, the simulation configuration, UI selection state and the shared
    id counter, together with the actions that replace them. */
module Store {
  import opened Optional
  import opened Constants
  import opened Records

  /** `Vector3Tuple`. */
  datatype Vec3 = Vec3(x: real, y: real, z: real)

  const Origin: Vec3 := Vec3(0.0, 0.0, 0.0)

  datatype MassBody = MassBody(id: string, name: string, mass: real, position: Vec3, velocity: Vec3, color: string)
  datatype Photon = Photon(id: string, position: Vec3, velocity: Vec3, color: string)
  datatype TestBody = TestBody(id: string, position: Vec3, velocity: Vec3, mass: real, color: string)
  datatype GravClock = GravClock(id: string, position: Vec3, properTime: real, color: string)

  datatype SimConfig = SimConfig(dt: real, paused: bool)

  /** `'select' | 'addMass' | 'addClock' | 'addPhoton'`. */
  datatype UiMode = Select | AddMass | AddClock | AddPhoton

  // ---------------------------------------------------------------------------
  // Partial records. A field that is `Some` is present in the patch and
  // overwrites the record's field when spread over it, `id` included.

  datatype MassPatch = MassPatch(id: Option<string>, name: Option<string>, mass: Option<real>,
                                 position: Option<Vec3>, velocity: Option<Vec3>, color: Option<string>)
  datatype PhotonPatch = PhotonPatch(id: Option<string>, position: Option<Vec3>, velocity: Option<Vec3>,
                                     color: Option<string>)
  datatype TestBodyPatch = TestBodyPatch(id: Option<string>, position: Option<Vec3>, velocity: Option<Vec3>,
                                         mass: Option<real>, color: Option<string>)
  datatype ClockPatch = ClockPatch(id: Option<string>, position: Option<Vec3>, properTime: Option<real>,
                                   color: Option<string>)

  const NoMassFields: MassPatch := MassPatch(None, None, None, None, None, None)
  const NoPhotonFields: PhotonPatch := PhotonPatch(None, None, None, None)
  const NoTestBodyFields: TestBodyPatch := TestBodyPatch(None, None, None, None, None)
  const NoClockFields: ClockPatch := ClockPatch(None, None, None, None)

  function MassId(m: MassBody): string { m.id }
  function PhotonId(p: Photon): string { p.id }
  function TestBodyId(b: TestBody): string { b.id }
  function ClockId(c: GravClock): string { c.id }

  /** `{ ...m, ...patch }`. */
  function MergeMass(m: MassBody, patch: MassPatch): (r: MassBody)
    ensures patch == NoMassFields ==> r == m
    ensures patch.id.None? ==> r.id == m.id
  {
    MassBody(patch.id.GetOr(m.id), patch.name.GetOr(m.name), patch.mass.GetOr(m.mass),
             patch.position.GetOr(m.position), patch.velocity.GetOr(m.velocity), patch.color.GetOr(m.color))
  }

  /** `{ ...p, ...patch }`. */
  function MergePhoton(p: Photon, patch: PhotonPatch): (r: Photon)
    ensures patch == NoPhotonFields ==> r == p
    ensures patch.id.None? ==> r.id == p.id
  {
    Photon(patch.id.GetOr(p.id), patch.position.GetOr(p.position), patch.velocity.GetOr(p.velocity),
           patch.color.GetOr(p.color))
  }

  /** `{ ...b, ...patch }`. */
  function MergeTestBody(b: TestBody, patch: TestBodyPatch): (r: TestBody)
    ensures patch == NoTestBodyFields ==> r == b
    ensures patch.id.None? ==> r.id == b.id
  {
    TestBody(patch.id.GetOr(b.id), patch.position.GetOr(b.position), patch.velocity.GetOr(b.velocity),
             patch.mass.GetOr(b.mass), patch.color.GetOr(b.color))
  }

  /** `{ ...c, ...patch }`. */
  function MergeClock(c: GravClock, patch: ClockPatch): (r: GravClock)
    ensures patch == NoClockFields ==> r == c
    ensures patch.id.None? ==> r.id == c.id
  {
    GravClock(patch.id.GetOr(c.id), patch.position.GetOr(c.position), patch.properTime.GetOr(c.properTime),
              patch.color.GetOr(c.color))
  }

  /** A whole record used as a patch: every field present. */
  function PhotonFields(p: Photon): PhotonPatch
  {
    PhotonPatch(Some(p.id), Some(p.position), Some(p.velocity), Some(p.color))
  }

  function TestBodyFields(b: TestBody): TestBodyPatch
  {
    TestBodyPatch(Some(b.id), Some(b.position), Some(b.velocity), Some(b.mass), Some(b.color))
  }

  function ClockFields(c: GravClock): ClockPatch
  {
    ClockPatch(Some(c.id), Some(c.position), Some(c.properTime), Some(c.color))
  }

  /** Spreading a patch a second time changes nothing, for every record kind;
      with `Records.UpdateTwice` this makes every `update*` action idempotent. */
  lemma MergesIdempotent()
    ensures forall m, patch :: MergeMass(MergeMass(m, patch), patch) == MergeMass(m, patch)
    ensures forall p, patch :: MergePhoton(MergePhoton(p, patch), patch) == MergePhoton(p, patch)
    ensures forall b, patch :: MergeTestBody(MergeTestBody(b, patch), patch) == MergeTestBody(b, patch)
    ensures forall c, patch :: MergeClock(MergeClock(c, patch), patch) == MergeClock(c, patch)
  {
  }

  /** Spreading a whole record replaces whatever was there. */
  lemma WholeRecordMerges()
    ensures forall p, q :: MergePhoton(p, PhotonFields(q)) == q
    ensures forall b, q :: MergeTestBody(b, TestBodyFields(q)) == q
    ensures forall c, q :: MergeClock(c, ClockFields(q)) == q
  {
  }

  // ---------------------------------------------------------------------------
  // Ids: `${++idCounter}`, the decimal rendering of the counter.

  function DigitChar(d: nat): (c: char)
    requires d < 10
    ensures '0' <= c <= '9'
  {
    ('0' as int + d) as char
  }

  function DigitValue(c: char): (d: nat)
    requires '0' <= c <= '9'
    ensures d < 10
  {
    c as int - '0' as int
  }

  ghost predicate IsDigits(s: string)
  {
    forall i :: 0 <= i < |s| ==> '0' <= s[i] <= '9'
  }

  /** Template-literal conversion of a natural number: the shortest decimal
      numeral, one digit at least. */
  function DecimalString(n: nat): (s: string)
    ensures 1 <= |s|
    ensures IsDigits(s)
  {
    if n < 10 then [DigitChar(n)] else DecimalString(n / 10) + [DigitChar(n % 10)]
  }

  /** The number a decimal numeral denotes. */
  function DecimalValue(s: string): nat
    requires IsDigits(s)
  {
    if |s| == 0 then 0 else DecimalValue(s[..|s| - 1]) * 10 + DigitValue(s[|s| - 1])
  }

  /** Reading back a rendered id gives the counter value it came from. */
  lemma {:induction false} DecimalRoundTrip(n: nat)
    ensures DecimalValue(DecimalString(n)) == n
  {
    if n >= 10 {
      var s := DecimalString(n);
      assert s[..|s| - 1] == DecimalString(n / 10);
      DecimalRoundTrip(n / 10);
    }
  }

  /** Different counter values render as different ids. */
  lemma DecimalInjective(a: nat, b: nat)
    requires a != b
    ensures DecimalString(a) != DecimalString(b)
  {
    DecimalRoundTrip(a);
    DecimalRoundTrip(b);
  }

  // ---------------------------------------------------------------------------
  // Records created by the `add*` actions: the given fields, the defaults for
  // the missing ones, and always the freshly issued id. Each is the record of
  // defaults with the caller's fields, all but the id, spread over it.

  function NewMass(id: string, partial: MassPatch): (r: MassBody)
    ensures r == MergeMass(MassBody(id, "Mass " + id, 5.0, Origin, Origin, "#ffaa00"), partial.(id := None))
  {
    MassBody(id, partial.name.GetOr("Mass " + id), partial.mass.GetOr(5.0),
             partial.position.GetOr(Origin), partial.velocity.GetOr(Origin), partial.color.GetOr("#ffaa00"))
  }

  function NewPhoton(id: string, partial: PhotonPatch): (r: Photon)
    ensures r == MergePhoton(Photon(id, Vec3(-10.0, 0.0, 0.0), Vec3(C_SIM, 0.0, 0.0), "#66ccff"), partial.(id := None))
  {
    Photon(id, partial.position.GetOr(Vec3(-10.0, 0.0, 0.0)), partial.velocity.GetOr(Vec3(C_SIM, 0.0, 0.0)),
           partial.color.GetOr("#66ccff"))
  }

  function NewClock(id: string, partial: ClockPatch): (r: GravClock)
    ensures r == MergeClock(GravClock(id, Origin, 0.0, "#ffffff"), partial.(id := None))
  {
    GravClock(id, partial.position.GetOr(Origin), partial.properTime.GetOr(0.0), partial.color.GetOr("#ffffff"))
  }

  function NewTestBody(id: string, partial: TestBodyPatch): (r: TestBody)
    ensures r == MergeTestBody(TestBody(id, Vec3(-10.0, 0.0, 0.0), Vec3(5.0, 0.0, 0.0), 1.0, "#aaff66"), partial.(id := None))
  {
    TestBody(id, partial.position.GetOr(Vec3(-10.0, 0.0, 0.0)), partial.velocity.GetOr(Vec3(5.0, 0.0, 0.0)),
             partial.mass.GetOr(1.0), partial.color.GetOr("#aaff66"))
  }

  /** The defaults of a record created from no fields at all. */
  lemma CreationDefaults(id: string)
    ensures NewMass(id, NoMassFields) == MassBody(id, "Mass " + id, 5.0, Origin, Origin, "#ffaa00")
    ensures NewPhoton(id, NoPhotonFields) == Photon(id, Vec3(-10.0, 0.0, 0.0), Vec3(10.0, 0.0, 0.0), "#66ccff")
    ensures NewClock(id, NoClockFields) == GravClock(id, Origin, 0.0, "#ffffff")
    ensures NewTestBody(id, NoTestBodyFields) == TestBody(id, Vec3(-10.0, 0.0, 0.0), Vec3(5.0, 0.0, 0.0), 1.0, "#aaff66")
  {
  }

  /** A supplied id never overrides the issued one, and a supplied photon
      velocity is stored as given, not rescaled to the speed of light. */
  lemma CreationKeepsGivenFields(id: string, mp: MassPatch, pp: PhotonPatch, cp: ClockPatch, tp: TestBodyPatch)
    ensures NewMass(id, mp).id == id && NewPhoton(id, pp).id == id
    ensures NewClock(id, cp).id == id && NewTestBody(id, tp).id == id
    ensures pp.velocity.Some? ==> NewPhoton(id, pp).velocity == pp.velocity.value
    ensures mp.mass.Some? ==> NewMass(id, mp).mass == mp.mass.value
  {
  }

  // ---------------------------------------------------------------------------

  /** The zustand store. `idCounter` is a module-level variable in the source,
      shared by all four `add*` actions; it lives here, and no action but the
      `add*` ones touches it. */
  class SimStore {
    var config: SimConfig
    var masses: seq<MassBody>
    var photons: seq<Photon>
    var clocks: seq<GravClock>
    var testBodies: seq<TestBody>
    var uiMode: UiMode
    var selectedMassId: Option<string>
    var selectedTestBodyId: Option<string>
    var idCounter: nat

    constructor ()
      ensures config == SimConfig(DEFAULT_DT, false)
      ensures masses == [] && photons == [] && clocks == [] && testBodies == []
      ensures uiMode == Select && selectedMassId == None && selectedTestBodyId == None
      ensures idCounter == 0
    {
      config := SimConfig(DEFAULT_DT, false);
      masses, photons, clocks, testBodies := [], [], [], [];
      uiMode := Select;
      selectedMassId, selectedTestBodyId := None, None;
      idCounter := 0;
    }

    /** `nextId`: pre-increments the counter and renders it, so the id is
        different from every id issued before. */
    method NextId() returns (id: string)
      modifies this`idCounter
      ensures idCounter == old(idCounter) + 1
      ensures id == DecimalString(idCounter)
      ensures forall k: nat :: k <= old(idCounter) ==> id != DecimalString(k)
    {
      idCounter := idCounter + 1;
      id := DecimalString(idCounter);
      forall k: nat | k <= old(idCounter)
        ensures id != DecimalString(k)
      {
        DecimalInjective(idCounter, k);
      }
    }

    method AddMass(partial: MassPatch) returns (id: string)
      modifies this`idCounter, this`masses
      ensures idCounter == old(idCounter) + 1 && id == DecimalString(idCounter)
      ensures forall k: nat :: k <= old(idCounter) ==> id != DecimalString(k)
      ensures masses == old(masses) + [NewMass(id, partial)]
    {
      id := NextId();
      masses := masses + [NewMass(id, partial)];
    }

    method UpdateMass(id: string, patch: MassPatch)
      modifies this`masses
      ensures masses == UpdateById(old(masses), id, patch, MassId, MergeMass)
    {
      masses := UpdateById(masses, id, patch, MassId, MergeMass);
    }

    method RemoveMass(id: string)
      modifies this`masses
      ensures masses == RemoveById(old(masses), id, MassId)
    {
      masses := RemoveById(masses, id, MassId);
    }

    method AddPhoton(partial: PhotonPatch) returns (id: string)
      modifies this`idCounter, this`photons
      ensures idCounter == old(idCounter) + 1 && id == DecimalString(idCounter)
      ensures forall k: nat :: k <= old(idCounter) ==> id != DecimalString(k)
      ensures photons == old(photons) + [NewPhoton(id, partial)]
    {
      id := NextId();
      photons := photons + [NewPhoton(id, partial)];
    }

    method UpdatePhoton(id: string, patch: PhotonPatch)
      modifies this`photons
      ensures photons == UpdateById(old(photons), id, patch, PhotonId, MergePhoton)
    {
      photons := UpdateById(photons, id, patch, PhotonId, MergePhoton);
    }

    method RemovePhoton(id: string)
      modifies this`photons
      ensures photons == RemoveById(old(photons), id, PhotonId)
    {
      photons := RemoveById(photons, id, PhotonId);
    }

    method AddClock(partial: ClockPatch) returns (id: string)
      modifies this`idCounter, this`clocks
      ensures idCounter == old(idCounter) + 1 && id == DecimalString(idCounter)
      ensures forall k: nat :: k <= old(idCounter) ==> id != DecimalString(k)
      ensures clocks == old(clocks) + [NewClock(id, partial)]
    {
      id := NextId();
      clocks := clocks + [NewClock(id, partial)];
    }

    method UpdateClock(id: string, patch: ClockPatch)
      modifies this`clocks
      ensures clocks == UpdateById(old(clocks), id, patch, ClockId, MergeClock)
    {
      clocks := UpdateById(clocks, id, patch, ClockId, MergeClock);
    }

    method RemoveClock(id: string)
      modifies this`clocks
      ensures clocks == RemoveById(old(clocks), id, ClockId)
    {
      clocks := RemoveById(clocks, id, ClockId);
    }

    method AddTestBody(partial: TestBodyPatch) returns (id: string)
      modifies this`idCounter, this`testBodies
      ensures idCounter == old(idCounter) + 1 && id == DecimalString(idCounter)
      ensures forall k: nat :: k <= old(idCounter) ==> id != DecimalString(k)
      ensures testBodies == old(testBodies) + [NewTestBody(id, partial)]
    {
      id := NextId();
      testBodies := testBodies + [NewTestBody(id, partial)];
    }

    method UpdateTestBody(id: string, patch: TestBodyPatch)
      modifies this`testBodies
      ensures testBodies == UpdateById(old(testBodies), id, patch, TestBodyId, MergeTestBody)
    {
      testBodies := UpdateById(testBodies, id, patch, TestBodyId, MergeTestBody);
    }

    method RemoveTestBody(id: string)
      modifies this`testBodies
      ensures testBodies == RemoveById(old(testBodies), id, TestBodyId)
    {
      testBodies := RemoveById(testBodies, id, TestBodyId);
    }

    method SetPaused(paused: bool)
      modifies this`config
      ensures config == old(config).(paused := paused)
    {
      config := config.(paused := paused);
    }

    method SetDt(dt: real)
      modifies this`config
      ensures config == old(config).(dt := dt)
    {
      config := config.(dt := dt);
    }

    /** Empties the four collections and both selections; the configuration,
        the UI mode and the id counter are left as they are. */
    method Reset()
      modifies this`masses, this`photons, this`clocks, this`testBodies,
               this`selectedMassId, this`selectedTestBodyId
      ensures masses == [] && photons == [] && clocks == [] && testBodies == []
      ensures selectedMassId == None && selectedTestBodyId == None
    {
      masses, photons, clocks, testBodies := [], [], [], [];
      selectedMassId, selectedTestBodyId := None, None;
    }

    method SetUiMode(mode: UiMode)
      modifies this`uiMode
      ensures uiMode == mode
    {
      uiMode := mode;
    }

    method SetSelectedMassId(id: Option<string>)
      modifies this`selectedMassId
      ensures selectedMassId == id
    {
      selectedMassId := id;
    }

    method SetSelectedTestBodyId(id: Option<string>)
      modifies this`selectedTestBodyId
      ensures selectedTestBodyId == id
    {
      selectedTestBodyId := id;
    }
  }
}
