/** The fading trail of `components/Trails.tsx`: a ring buffer of the last
    `length` sampled points, stored flat as `x, y, z` triples in one
    number array, with a `head` index naming the slot the next sample goes
    to. */
module Trails {
  import opened Store

  /** The point stored in slot `j` of a flat `x, y, z` buffer. */
  function SlotAt(buf: seq<real>, j: nat): Vec3
    requires 3 * j + 2 < |buf|
  {
    Vec3(buf[3 * j], buf[3 * j + 1], buf[3 * j + 2])
  }

  /** How many frames ago slot `j` was last written, counted back from the
      slot just before `head`: that slot is 0 frames old and `head` itself,
      the next to be overwritten, is the oldest. */
  function Age(head: nat, j: nat, length: nat): (age: nat)
    requires head < length && j < length
    ensures age < length
    ensures j == head ==> age == length - 1
  {
    if j < head then head - 1 - j else head - 1 - j + length
  }

  /** The head after `k` frames, each advancing it by `(head + 1) % length`. */
  function HeadAfter(head: nat, k: nat, length: nat): nat
    requires 0 < length
  {
    if k == 0 then head else (HeadAfter(head, k - 1, length) + 1) % length
  }

  /** Advancing the head by `(head + 1) % length` steps to the next slot,
      and from the last slot back to the first. */
  lemma NextSlot(head: nat, length: nat)
    requires head < length
    ensures (head + 1) % length == if head + 1 < length then head + 1 else 0
  {
    var x := head + 1;
    var q, r := x / length, x % length;
    assert x == q * length + r && 0 <= r < length;
    if length <= x {
      assert x == 1 * length;
    }
  }

  /** Up to `length` frames move the head forward that many slots, wrapping
      once past the last. */
  lemma {:induction false} HeadAfterWraps(head: nat, k: nat, length: nat)
    requires head < length && k <= length
    ensures HeadAfter(head, k, length) == if head + k < length then head + k else head + k - length
  {
    if k > 0 {
      HeadAfterWraps(head, k - 1, length);
      NextSlot(HeadAfter(head, k - 1, length), length);
    }
  }

  /** After `length` frames the head is back where it started. */
  lemma HeadReturns(head: nat, length: nat)
    requires head < length
    ensures HeadAfter(head, length, length) == head
  {
    HeadAfterWraps(head, length, length);
  }

  /** A flat buffer with `point` written to slot `j`. */
  function Written(buf: seq<real>, j: nat, point: Vec3): (r: seq<real>)
    requires 3 * j + 2 < |buf|
    ensures |r| == |buf|
    ensures SlotAt(r, j) == point
    ensures forall i :: 0 <= i < |buf| && !(3 * j <= i < 3 * j + 3) ==> r[i] == buf[i]
  {
    buf[3 * j := point.x][3 * j + 1 := point.y][3 * j + 2 := point.z]
  }

  /** A ring of `length` slots whose head is `head` holds `samples`: each
      slot holds the sample written `Age` frames ago, or the origin while the
      ring has not yet come round to it. */
  ghost predicate Holds(buf: seq<real>, head: nat, length: nat, samples: seq<Vec3>)
  {
    && head < length
    && |buf| == 3 * length
    && forall j: nat :: j < length ==>
         SlotAt(buf, j)
         == (var age := Age(head, j, length);
             if age < |samples| then samples[|samples| - 1 - age] else Origin)
  }

  /** Writing the next sample at the head and advancing the head keeps the
      ring holding every sample, the new one included. */
  lemma RecordSample(buf: seq<real>, head: nat, length: nat, samples: seq<Vec3>, point: Vec3)
    requires Holds(buf, head, length, samples)
    ensures Holds(Written(buf, head, point), (head + 1) % length, length, samples + [point])
  {
    var after := Written(buf, head, point);
    var next := (head + 1) % length;
    NextSlot(head, length);
    var more := samples + [point];
    forall j: nat | j < length
      ensures SlotAt(after, j)
              == (var age := Age(next, j, length);
                  if age < |more| then more[|more| - 1 - age] else Origin)
    {
      if j == head {
        assert Age(next, j, length) == 0;
      } else {
        assert SlotAt(after, j) == SlotAt(buf, j);
        assert Age(next, j, length) == Age(head, j, length) + 1;
      }
    }
  }

  class Trail {
    /** Number of points the trail keeps. */
    const length: nat
    /** `positions.current`: `length * 3` numbers, zero until written. */
    const positions: array<real>
    /** `head.current`: the slot the next sample is written to. */
    var head: nat
    /** Every point sampled since the trail was created, oldest first. */
    ghost var samples: seq<Vec3>

    /** The buffer is a ring of `length` slots holding the samples. */
    ghost predicate Valid()
      reads this, positions
    {
      0 < length && Holds(positions[..], head, length, samples)
    }

    /** `new Float32Array(length * 3)` and `useRef(0)`. */
    constructor(length: nat)
      requires 0 < length
      ensures Valid()
      ensures this.length == length && head == 0 && samples == []
      ensures fresh(positions)
      ensures forall i :: 0 <= i < positions.Length ==> positions[i] == 0.0
    {
      this.length := length;
      positions := new real[3 * length](i => 0.0);
      head := 0;
      samples := [];
    }

    /** The frame callback: the sampled point goes to slot `head`, which is
        then advanced round the ring. */
    method Frame(p: Vec3)
      requires Valid()
      modifies this`head, this`samples, positions
      ensures Valid()
      ensures samples == old(samples) + [p]
      ensures head == (old(head) + 1) % length
      ensures positions[..] == Written(old(positions[..]), old(head), p)
    {
      RecordSample(positions[..], head, length, samples, p);
      ghost var written := Written(positions[..], head, p);
      positions[head * 3 + 0] := p.x;
      positions[head * 3 + 1] := p.y;
      positions[head * 3 + 2] := p.z;
      assert positions[..] == written;
      head := (head + 1) % length;
      samples := samples + [p];
    }
  }

  /** Once the ring is full, the slot at the head holds the oldest sample
      still kept, so it is the one the next frame overwrites. */
  lemma OldestIsNext(buf: seq<real>, head: nat, length: nat, samples: seq<Vec3>)
    requires Holds(buf, head, length, samples)
    requires length <= |samples|
    ensures SlotAt(buf, head) == samples[|samples| - length]
  {
    assert Age(head, head, length) == length - 1;
  }

  /** Each of the last `length` samples is still in the ring. */
  lemma RecentKept(buf: seq<real>, head: nat, length: nat, samples: seq<Vec3>, k: nat)
    requires Holds(buf, head, length, samples)
    requires k < |samples| && |samples| - k <= length
    ensures exists j: nat :: j < length && SlotAt(buf, j) == samples[k]
  {
    var age := |samples| - 1 - k;
    var j: nat := if age < head then head - 1 - age else head - 1 - age + length;
    assert Age(head, j, length) == age;
  }
}
