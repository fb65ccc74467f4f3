/// Circle approximations: `generate_circle_points`, `generate_circle` and
/// `generate_random_circle`. The trigonometry of `sample_circle` (the point
/// at angle 2π·p on the unit circle) is a parameter, and so are the random
/// draws of `generate_random_circle`.
module Circles {
  import opened Common
  import opened Vectors
  import opened LineGroups

  /// The angular fraction of vertex `i`. The source divides by the literal 8,
  /// not by the requested resolution, and this model keeps that.
  function AngularFraction(i: nat): real
  {
    i as real / 8.0
  }

  /// The vertices `generate_circle_points` produces.
  function CirclePoints(radius: real, resolution: nat, sampleCircle: real -> Vec2): seq<Vec2>
  {
    seq(resolution, i requires 0 <= i < resolution => sampleCircle(AngularFraction(i)).Scale(radius))
  }

  /// `generate_circle_points`: pushes `sample_circle(i / 8) * radius` for each
  /// `i` below the resolution.
  method GenerateCirclePoints(radius: real, resolution: nat, sampleCircle: real -> Vec2)
    returns (points: seq<Vec2>)
    ensures points == CirclePoints(radius, resolution, sampleCircle)
  {
    points := [];
    for i := 0 to resolution
      invariant |points| == i
      invariant forall k :: 0 <= k < i ==> points[k] == sampleCircle(AngularFraction(k)).Scale(radius)
    {
      points := points + [sampleCircle(i as real / 8.0).Scale(radius)];
    }
  }

  /// Vertex `i` does not depend on the resolution: a finer circle only appends
  /// vertices to a coarser one.
  lemma CirclePointsPrefix(radius: real, n: nat, m: nat, sampleCircle: real -> Vec2)
    requires n <= m
    ensures CirclePoints(radius, n, sampleCircle) == CirclePoints(radius, m, sampleCircle)[..n]
  {
  }

  /// Since the step is 1/8 of a turn whatever the resolution, a circle of more
  /// than 8 vertices goes around again: vertex `i + 8` repeats vertex `i` for
  /// any `sample_circle` of period 1, as cosine and sine of 2π·p are.
  lemma CircleRepeatsAfterEightVertices(radius: real, resolution: nat, sampleCircle: real -> Vec2, i: nat)
    requires forall t :: sampleCircle(t + 1.0) == sampleCircle(t)
    requires i + 8 < resolution
    ensures CirclePoints(radius, resolution, sampleCircle)[i + 8] == CirclePoints(radius, resolution, sampleCircle)[i]
  {
    assert AngularFraction(i + 8) == AngularFraction(i) + 1.0;
  }

  /// `generate_circle`: the closed path through the circle points.
  method GenerateCircle(radius: real, resolution: nat, sampleCircle: real -> Vec2)
    returns (g: LineGroup)
    ensures g == GenerateContinuousClosed(CirclePoints(radius, resolution, sampleCircle))
    ensures |g.lines| == if resolution < 2 then 0 else resolution
    ensures forall i :: 0 <= i < |g.lines| ==>
      g.lines[i].a == sampleCircle(AngularFraction(i)).Scale(radius)
    ensures resolution >= 2 ==> g.lines[resolution - 1].b == sampleCircle(0.0).Scale(radius)
  {
    var points := GenerateCirclePoints(radius, resolution, sampleCircle);
    g := GenerateContinuousClosed(points);
  }

  /// Each point moved by its own draw.
  function Jittered(ps: seq<Vec2>, noise: nat -> Vec2): (qs: seq<Vec2>)
    ensures |qs| == |ps| && forall i :: 0 <= i < |ps| ==> qs[i] == ps[i].Add(noise(i))
  {
    seq(|ps|, i requires 0 <= i < |ps| => ps[i].Add(noise(i)))
  }

  /// `generate_random_circle`: each circle point moved by its own random draw
  /// `noise(i)`, drawn from `-range..range` on each axis. That range is empty
  /// when `range <= 0`, and drawing from it panics, which happens as soon as
  /// there is a point to move.
  method GenerateRandomCircle(radius: real, resolution: nat, range: real, sampleCircle: real -> Vec2,
                              noise: nat -> Vec2)
    returns (r: Outcome<LineGroup>)
    ensures r.Panic? <==> resolution > 0 && range <= 0.0
    ensures r.Panic? ==> r.reason == EmptyRange
    ensures r.Ok? ==> r.value == GenerateContinuousClosed(Jittered(CirclePoints(radius, resolution, sampleCircle), noise))
    ensures r.Ok? ==> |r.value.lines| == if resolution < 2 then 0 else resolution
    ensures r.Ok? ==> forall i :: 0 <= i < |r.value.lines| ==>
      r.value.lines[i].a == sampleCircle(AngularFraction(i)).Scale(radius).Add(noise(i))
    ensures r.Ok? && resolution >= 2 ==> r.value.lines[resolution - 1].b == sampleCircle(0.0).Scale(radius).Add(noise(0))
  {
    var points := GenerateCirclePoints(radius, resolution, sampleCircle);
    if |points| > 0 && range <= 0.0 {
      return Panic(EmptyRange);
    }
    var offsetPoints := Jittered(points, noise);
    return Ok(GenerateContinuousClosed(offsetPoints));
  }
}
