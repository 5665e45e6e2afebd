/** The mass uniforms of the curved grid in `components/SpacetimeGrid.tsx`:
    every frame the first `MAX_MASSES` masses are copied into fixed-size
    uniform arrays for the vertex shader, and the slots left over are parked
    far below the grid with no mass. */
module SpacetimeGrid {
  import opened Constants
  import opened Store

  /** Where an unused slot is parked. */
  const Parked: Vec3 := Vec3(0.0, -9999.0, 0.0)

  /** `Math.min(masses.length, MAX_MASSES)`: how many masses reach the shader. */
  function UsedSlots(masses: seq<MassBody>): (count: nat)
    ensures count <= MAX_MASSES && count <= |masses|
    ensures count == MAX_MASSES || count == |masses|
  {
    if |masses| <= MAX_MASSES then |masses| else MAX_MASSES
  }

  /** The values of the three uniforms after a frame. */
  datatype Uniforms = Uniforms(count: nat, positions: seq<Vec3>, values: seq<real>)

  /** What a frame leaves in the uniforms for `masses`: slot `i` mirrors
      `masses[i]` below the count and is parked from there on. */
  function Packed(masses: seq<MassBody>): (u: Uniforms)
    ensures u.count == UsedSlots(masses)
    ensures |u.positions| == MAX_MASSES && |u.values| == MAX_MASSES
  {
    var count := UsedSlots(masses);
    Uniforms(count,
             seq(MAX_MASSES, i requires 0 <= i < MAX_MASSES => if i < count then masses[i].position else Parked),
             seq(MAX_MASSES, i requires 0 <= i < MAX_MASSES => if i < count then masses[i].mass else 0.0))
  }

  /** What the shader reads: the (position, mass) pairs below the count. */
  function Sources(u: Uniforms): (r: seq<(Vec3, real)>)
    requires u.count <= |u.positions| && u.count <= |u.values|
    ensures |r| == u.count
  {
    seq(u.count, i requires 0 <= i < u.count => (u.positions[i], u.values[i]))
  }

  /** The (position, mass) pairs of a list of masses. */
  function PositionsAndMasses(masses: seq<MassBody>): (r: seq<(Vec3, real)>)
    ensures |r| == |masses|
  {
    seq(|masses|, i requires 0 <= i < |masses| => (masses[i].position, masses[i].mass))
  }

  /** The shader sees exactly the first `MAX_MASSES` masses, in list order. */
  lemma ShaderSeesFirstMasses(masses: seq<MassBody>)
    ensures Sources(Packed(masses)) == PositionsAndMasses(masses[..UsedSlots(masses)])
  {
    var u := Packed(masses);
    var n := UsedSlots(masses);
    var l, r := Sources(u), PositionsAndMasses(masses[..n]);
    assert |l| == |r|;
    forall i | 0 <= i < n
      ensures l[i] == r[i]
    {
      assert u.positions[i] == masses[i].position;
    }
  }

  /** Masses past the first `MAX_MASSES` change nothing the shader is given. */
  lemma ExtraMassesIgnored(masses: seq<MassBody>, extra: seq<MassBody>)
    requires MAX_MASSES <= |masses|
    ensures Packed(masses + extra) == Packed(masses)
  {
    var a, b := Packed(masses + extra), Packed(masses);
    assert a.positions == b.positions;
    assert a.values == b.values;
  }

  /** Every slot past the count is parked and carries no mass. */
  lemma UnusedSlotsParked(masses: seq<MassBody>, i: nat)
    requires UsedSlots(masses) <= i < MAX_MASSES
    ensures Packed(masses).positions[i] == Parked && Packed(masses).values[i] == 0.0
  {
  }

  /** The `uniforms` object of the grid material. */
  class GridUniforms {
    /** `uMassCount.value`. */
    var count: nat
    /** `uMassPos.value`: one point per slot. */
    const positions: array<Vec3>
    /** `uMassVal.value`: one mass per slot. */
    const values: array<real>

    /** Both arrays have one slot per mass the shader can take. */
    ghost predicate Valid()
      reads this
    {
      positions.Length == MAX_MASSES && values.Length == MAX_MASSES
    }

    /** `MAX_MASSES` origin points and zero masses, with a count of zero. */
    constructor()
      ensures Valid() && count == 0
      ensures fresh(positions) && fresh(values)
      ensures positions[..] == seq(MAX_MASSES, _ => Origin)
      ensures values[..] == seq(MAX_MASSES, _ => 0.0)
    {
      count := 0;
      positions := new Vec3[MAX_MASSES](_ => Origin);
      values := new real[MAX_MASSES](_ => 0.0);
    }

    /** The frame callback: the count, then the used slots, then the rest. */
    method Frame(masses: seq<MassBody>)
      requires Valid()
      modifies this`count, positions, values
      ensures Valid()
      ensures Uniforms(count, positions[..], values[..]) == Packed(masses)
    {
      var used := if |masses| <= MAX_MASSES then |masses| else MAX_MASSES;
      count := used;
      for i := 0 to used
        invariant count == used
        invariant forall k :: 0 <= k < i ==> positions[k] == masses[k].position && values[k] == masses[k].mass
      {
        var m := masses[i];
        positions[i] := m.position;
        values[i] := m.mass;
      }
      for i := used to MAX_MASSES
        invariant count == used
        invariant forall k :: 0 <= k < used ==> positions[k] == masses[k].position && values[k] == masses[k].mass
        invariant forall k :: used <= k < i ==> positions[k] == Parked && values[k] == 0.0
      {
        positions[i] := Parked;
        values[i] := 0.0;
      }
      assert positions[..] == Packed(masses).positions;
      assert values[..] == Packed(masses).values;
    }
  }
}
