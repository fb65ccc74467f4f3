/// Rotation and the two placement algorithms, `scatter` (rejection sampling)
/// and `scatter_circle` (even radial placement). Random draws and the
/// trigonometry are parameters: `draws(k)` is the k-th point sampled in the
/// disk, `rotations(j)` the angle drawn for the j-th placed copy,
/// `fromDegrees(d)` the unit vector `Vec2::from_angle(d.to_radians())`, and
/// `sampleCircle(p)` the point at angle 2π·p on the unit circle.
module Scatter {
  import opened Common
  import opened Vectors
  import opened Lines
  import opened LineGroups

  /// `Vec2::rotate`: complex multiplication by the unit vector `dir`.
  function Rotate(dir: Vec2, p: Vec2): Vec2
  {
    Vec2(dir.x * p.x - dir.y * p.y, dir.y * p.x + dir.x * p.y)
  }

  function RotatedBy(g: LineGroup, dir: Vec2): LineGroup
  {
    LineGroup(seq(|g.lines|, i requires 0 <= i < |g.lines| =>
      Line(Rotate(dir, g.lines[i].a), Rotate(dir, g.lines[i].b))))
  }

  /// `rotated`: every endpoint rotated about the origin.
  method Rotated(g: LineGroup, rotationDegrees: real, fromDegrees: real -> Vec2) returns (res: LineGroup)
    ensures |res.lines| == |g.lines|
    ensures res == RotatedBy(g, fromDegrees(rotationDegrees))
  {
    var vec := fromDegrees(rotationDegrees);
    res := EMPTY;
    for i := 0 to |g.lines|
      invariant |res.lines| == i
      invariant forall k :: 0 <= k < i ==> res.lines[k] == Line(Rotate(vec, g.lines[k].a), Rotate(vec, g.lines[k].b))
    {
      var line := g.lines[i];
      res := res.AddLine(New(Rotate(vec, line.a), Rotate(vec, line.b)));
    }
  }

  /// Rotating by the angle whose unit vector is (1, 0) changes nothing, and a
  /// rotation by a unit vector keeps every endpoint at its distance from the
  /// origin.
  lemma RotationProperties(g: LineGroup, dir: Vec2, i: nat)
    requires i < |g.lines|
    ensures RotatedBy(g, Vec2(1.0, 0.0)) == g
    ensures dir.x * dir.x + dir.y * dir.y == 1.0 ==>
      DistSq(RotatedBy(g, dir).lines[i].a, ZERO2) == DistSq(g.lines[i].a, ZERO2)
  {
    forall k | 0 <= k < |g.lines|
      ensures RotatedBy(g, Vec2(1.0, 0.0)).lines[k] == g.lines[k]
    {
      assert Rotate(Vec2(1.0, 0.0), g.lines[k].a) == g.lines[k].a;
      assert Rotate(Vec2(1.0, 0.0), g.lines[k].b) == g.lines[k].b;
    }
    var p := g.lines[i].a;
    var q := Rotate(dir, p);
    calc {
      DistSq(q, ZERO2);
      (dir.x * p.x - dir.y * p.y) * (dir.x * p.x - dir.y * p.y) + (dir.y * p.x + dir.x * p.y) * (dir.y * p.x + dir.x * p.y);
      (dir.x * dir.x + dir.y * dir.y) * (p.x * p.x + p.y * p.y);
    }
  }

  // ---------------------------------------------------------------------------
  // Placed copies of a template

  /// Copy `j` of the template: rotated by the j-th drawn angle when rotation is
  /// randomised, then moved to `offset`.
  function Instance(template: LineGroup, offset: Vec2, j: nat, randomizeRotation: bool,
                    rotations: nat -> real, fromDegrees: real -> Vec2): LineGroup
  {
    var shape := if randomizeRotation then RotatedBy(template, fromDegrees(rotations(j))) else template;
    OffsetBy(shape, offset)
  }

  /// The copies of the template at `offsets`, concatenated in placement order.
  function Stamped(template: LineGroup, offsets: seq<Vec2>, randomizeRotation: bool,
                   rotations: nat -> real, fromDegrees: real -> Vec2): LineGroup
  {
    if offsets == [] then EMPTY
    else
      var n := |offsets| - 1;
      Concat(Stamped(template, offsets[..n], randomizeRotation, rotations, fromDegrees),
             Instance(template, offsets[n], n, randomizeRotation, rotations, fromDegrees))
  }

  /// Every copy has as many segments as the template.
  lemma {:induction false} StampedSize(template: LineGroup, offsets: seq<Vec2>, randomizeRotation: bool,
                                       rotations: nat -> real, fromDegrees: real -> Vec2)
    ensures |Stamped(template, offsets, randomizeRotation, rotations, fromDegrees).lines| ==
      |offsets| * |template.lines|
  {
    if offsets != [] {
      var n := |offsets| - 1;
      StampedSize(template, offsets[..n], randomizeRotation, rotations, fromDegrees);
      assert |offsets| * |template.lines| == n * |template.lines| + |template.lines|;
    }
  }

  /// Placing one more copy appends it to the copies already placed.
  lemma StampedSnoc(template: LineGroup, offsets: seq<Vec2>, p: Vec2, randomizeRotation: bool,
                    rotations: nat -> real, fromDegrees: real -> Vec2)
    ensures Stamped(template, offsets + [p], randomizeRotation, rotations, fromDegrees) ==
      Concat(Stamped(template, offsets, randomizeRotation, rotations, fromDegrees),
             Instance(template, p, |offsets|, randomizeRotation, rotations, fromDegrees))
  {
    assert (offsets + [p])[..|offsets|] == offsets;
  }

  /// One copy, as both placement loops build it: a clone of the template,
  /// rotated by the `j`-th drawn angle when rotation is randomised, then
  /// moved to `offset`.
  method PlaceInstance(template: LineGroup, offset: Vec2, j: nat, randomizeRotation: bool,
                       rotations: nat -> real, fromDegrees: real -> Vec2) returns (moved: LineGroup)
    ensures |moved.lines| == |template.lines|
    ensures moved == Instance(template, offset, j, randomizeRotation, rotations, fromDegrees)
  {
    var rotation := rotations(j);
    var instance := template;
    if randomizeRotation {
      instance := Rotated(instance, rotation, fromDegrees);
    }
    moved := Offset(instance, offset);
  }

  // ---------------------------------------------------------------------------
  // scatter

  /// `offset.distance(previous) < min_dist`, with both sides squared; the two
  /// agree when `min_dist` is not negative, as a bounding size never is.
  predicate TooClose(p: Vec2, q: Vec2, minDist: real)
  {
    DistSq(p, q) < minDist * minDist
  }

  predicate FarFromAll(p: Vec2, previous: seq<Vec2>, minDist: real)
  {
    forall k :: 0 <= k < |previous| ==> !TooClose(p, previous[k], minDist)
  }

  /// No two offsets are closer than `minDist`.
  ghost predicate Separated(offsets: seq<Vec2>, minDist: real)
  {
    forall i, j :: 0 <= i < j < |offsets| ==> !TooClose(offsets[j], offsets[i], minDist)
  }

  predicate InDisk(p: Vec2, range: real)
  {
    DistSq(p, ZERO2) <= range * range
  }

  /// The search of `generate_new_offset` over the draws `from` to `end - 1`:
  /// the first that is far from every previous offset, with the first draw
  /// not consumed; `None` once every draw was too close.
  function NewOffset(previous: seq<Vec2>, minDist: real, draws: nat -> Vec2, from: nat, end: nat)
    : (Option<Vec2>, nat)
    decreases end - from
  {
    if from >= end then (None, end)
    else if FarFromAll(draws(from), previous, minDist) then (Some(draws(from)), from + 1)
    else NewOffset(previous, minDist, draws, from + 1, end)
  }

  /// The offsets `scatter` has accepted after `slots` more slots, starting
  /// from `previous` with draw `cursor`: each slot runs the search and keeps
  /// what it finds; a slot whose search fails adds nothing.
  function Placed(previous: seq<Vec2>, minDist: real, draws: nat -> Vec2, cursor: nat, slots: nat): seq<Vec2>
    decreases slots
  {
    if slots == 0 then previous
    else
      var (found, next) := NewOffset(previous, minDist, draws, cursor, cursor + 64);
      Placed(if found.Some? then previous + [found.value] else previous, minDist, draws, next, slots - 1)
  }

  /// One slot of `Placed`, unfolded.
  lemma PlacedStep(previous: seq<Vec2>, minDist: real, draws: nat -> Vec2, cursor: nat, slots: nat,
                   found: Option<Vec2>, next: nat, kept: seq<Vec2>)
    requires slots > 0 && (found, next) == NewOffset(previous, minDist, draws, cursor, cursor + 64)
    requires kept == if found.Some? then previous + [found.value] else previous
    ensures Placed(previous, minDist, draws, cursor, slots) == Placed(kept, minDist, draws, next, slots - 1)
  {
  }

  /// `generate_new_offset`: up to 64 candidates, starting with draw `cursor`;
  /// the first one that is not too close to any previous offset is returned.
  /// `next` is the first draw not consumed.
  method GenerateNewOffset(previous: seq<Vec2>, minDist: real, draws: nat -> Vec2, cursor: nat)
    returns (r: Option<Vec2>, next: nat)
    requires minDist >= 0.0
    ensures cursor < next <= cursor + 64
    ensures forall k :: cursor <= k < next - 1 ==> !FarFromAll(draws(k), previous, minDist)
    ensures r.Some? ==> r.value == draws(next - 1) && FarFromAll(r.value, previous, minDist)
    ensures r.None? ==> next == cursor + 64 && !FarFromAll(draws(next - 1), previous, minDist)
    ensures (r, next) == NewOffset(previous, minDist, draws, cursor, cursor + 64)
  {
    label main:
    for attempt := 0 to 64
      invariant forall k :: cursor <= k < cursor + attempt ==> !FarFromAll(draws(k), previous, minDist)
      invariant NewOffset(previous, minDist, draws, cursor, cursor + 64) == NewOffset(previous, minDist, draws, cursor + attempt, cursor + 64)
    {
      var offset := draws(cursor + attempt);
      for m := 0 to |previous|
        invariant forall k :: 0 <= k < m ==> !TooClose(offset, previous[k], minDist)
      {
        if TooClose(offset, previous[m], minDist) {
          continue main;
        }
      }
      return Some(offset), cursor + attempt + 1;
    }
    return None, cursor + 64;
  }

  /// Accepting an offset far from all earlier ones, drawn in the disk, keeps
  /// the accepted offsets separated and inside the disk.
  lemma AcceptKeepsSeparated(offsets: seq<Vec2>, p: Vec2, range: real, minDist: real)
    requires forall i :: 0 <= i < |offsets| ==> InDisk(offsets[i], range)
    requires Separated(offsets, minDist)
    requires InDisk(p, range) && FarFromAll(p, offsets, minDist)
    ensures forall i :: 0 <= i < |offsets| + 1 ==> InDisk((offsets + [p])[i], range)
    ensures Separated(offsets + [p], minDist)
  {
  }

  /// `scatter`: for each of `number` slots, places a copy of the template at a
  /// fresh offset at least the template's bounding size away from every
  /// earlier one; a slot whose 64 candidates all fail is skipped. The
  /// bounding size panics on an empty template. `offsets` are the accepted
  /// offsets, in order.
  method Scatter(template: LineGroup, range: real, number: nat, randomizeRotation: bool,
                 draws: nat -> Vec2, rotations: nat -> real, fromDegrees: real -> Vec2)
    returns (r: Outcome<LineGroup>, ghost offsets: seq<Vec2>)
    requires forall k :: InDisk(draws(k), range)
    ensures r.Panic? <==> template.lines == []
    ensures r.Ok? ==>
      && |offsets| <= number
      && (forall i :: 0 <= i < |offsets| ==> InDisk(offsets[i], range))
      && offsets == Placed([], CalculateBoundingSize(template).value, draws, 0, number)
      && Separated(offsets, CalculateBoundingSize(template).value)
      && r.value == Stamped(template, offsets, randomizeRotation, rotations, fromDegrees)
      && |r.value.lines| == |offsets| * |template.lines|
  {
    var res := EMPTY;
    var size := CalculateBoundingSize(template);
    if size.Panic? {
      return Panic(size.reason), [];
    }
    var boundingSize := size.value;
    assert boundingSize >= 0.0;
    var previousOffsets := [];
    var cursor := 0;
    for n := 0 to number
      invariant |previousOffsets| <= n
      invariant forall i :: 0 <= i < |previousOffsets| ==> InDisk(previousOffsets[i], range)
      invariant Separated(previousOffsets, boundingSize)
      invariant res == Stamped(template, previousOffsets, randomizeRotation, rotations, fromDegrees)
      invariant Placed(previousOffsets, boundingSize, draws, cursor, number - n) == Placed([], boundingSize, draws, 0, number)
    {
      var offset, next := GenerateNewOffset(previousOffsets, boundingSize, draws, cursor);
      ghost var kept := if offset.Some? then previousOffsets + [offset.value] else previousOffsets;
      PlacedStep(previousOffsets, boundingSize, draws, cursor, number - n, offset, next, kept);
      cursor := next;
      if offset.Some? {
        var moved := PlaceInstance(template, offset.value, |previousOffsets|, randomizeRotation, rotations, fromDegrees);
        StampedSnoc(template, previousOffsets, offset.value, randomizeRotation, rotations, fromDegrees);
        res := res.Extend(moved);
        AcceptKeepsSeparated(previousOffsets, offset.value, range, boundingSize);
        previousOffsets := previousOffsets + [offset.value];
      }
    }
    StampedSize(template, previousOffsets, randomizeRotation, rotations, fromDegrees);
    return Ok(res), previousOffsets;
  }

  // ---------------------------------------------------------------------------
  // scatter_circle

  /// The offset of copy `n`: evenly spaced on the circle, then jittered.
  function CircleOffset(n: nat, number: nat, radius: real, sampleCircle: real -> Vec2, jitter: nat -> Vec2): Vec2
    requires n < number
  {
    sampleCircle(n as real / number as real).Scale(radius).Add(jitter(n))
  }

  /// `scatter_circle`: exactly `number` copies, copy `n` at the point of the
  /// circle at fraction n/number of a turn moved by its jitter draw. The
  /// jitter is drawn from `-offsetRange..offsetRange`, which panics in the
  /// first slot when that range is empty (`offsetRange <= 0`).
  method ScatterCircle(template: LineGroup, radius: real, number: nat, offsetRange: real,
                       randomizeRotation: bool, sampleCircle: real -> Vec2, jitter: nat -> Vec2,
                       rotations: nat -> real, fromDegrees: real -> Vec2)
    returns (r: Outcome<LineGroup>, ghost offsets: seq<Vec2>)
    ensures r.Panic? <==> number > 0 && offsetRange <= 0.0
    ensures r.Panic? ==> r.reason == EmptyRange
    ensures r.Ok? ==>
      && |offsets| == number
      && (forall n :: 0 <= n < number ==> offsets[n] == CircleOffset(n, number, radius, sampleCircle, jitter))
      && r.value == Stamped(template, offsets, randomizeRotation, rotations, fromDegrees)
      && |r.value.lines| == number * |template.lines|
  {
    var res := EMPTY;
    var previousOffsets := [];
    for n := 0 to number
      invariant n > 0 ==> offsetRange > 0.0
      invariant |previousOffsets| == n
      invariant forall k :: 0 <= k < n ==> previousOffsets[k] == CircleOffset(k, number, radius, sampleCircle, jitter)
      invariant res == Stamped(template, previousOffsets, randomizeRotation, rotations, fromDegrees)
    {
      var circlePos := sampleCircle(n as real / number as real).Scale(radius);
      if offsetRange <= 0.0 {
        return Panic(EmptyRange), [];
      }
      var offset := circlePos.Add(jitter(n));
      var moved := PlaceInstance(template, offset, n, randomizeRotation, rotations, fromDegrees);
      StampedSnoc(template, previousOffsets, offset, randomizeRotation, rotations, fromDegrees);
      res := res.Extend(moved);
      previousOffsets := previousOffsets + [offset];
    }
    StampedSize(template, previousOffsets, randomizeRotation, rotations, fromDegrees);
    return Ok(res), previousOffsets;
  }
}
