/// `LineGroup`: an ordered sequence of segments, with point extraction,
/// concatenation, path builders, per-endpoint transforms and the bounding box.
module LineGroups {
  import opened Common
  import opened Vectors
  import opened Lines

  /// A `LineGroup` is an owned value; the `&mut self` updates of the source
  /// (`add_line`, `extend`) return the updated value.
  datatype LineGroup = LineGroup(lines: seq<Line>)
  {
    /// `add_line`: push one segment at the end.
    function AddLine(l: Line): (g: LineGroup)
      ensures |g.lines| == |lines| + 1 && g.lines[|lines|] == l
      ensures g.lines[..|lines|] == lines
    {
      LineGroup(lines + [l])
    }

    /// `extend`: append every segment of `other`, in order.
    function Extend(other: LineGroup): (g: LineGroup)
      ensures |g.lines| == |lines| + |other.lines|
      ensures g.lines[..|lines|] == lines && g.lines[|lines|..] == other.lines
    {
      LineGroup(lines + other.lines)
    }
  }

  /// `LineGroup::default()`
  const EMPTY: LineGroup := LineGroup([])

  /// `LineGroup::from_line`
  function FromLine(l: Line): (g: LineGroup)
    ensures g.lines == [l]
  {
    LineGroup([l])
  }

  /// `concat`: a copy of `g` extended by `other`; `g` itself is a value and
  /// stays as it was.
  function Concat(g: LineGroup, other: LineGroup): (r: LineGroup)
    ensures r.lines == g.lines + other.lines
  {
    LineGroup(g.lines + other.lines)
  }

  lemma {:induction false} ConcatAssociative(g: LineGroup, h: LineGroup, k: LineGroup)
    ensures Concat(Concat(g, h), k) == Concat(g, Concat(h, k))
    ensures Concat(EMPTY, g) == g && Concat(g, EMPTY) == g
  {
    assert Concat(Concat(g, h), k).lines == Concat(g, Concat(h, k)).lines;
    assert Concat(g, EMPTY).lines == g.lines;
  }

  // ---------------------------------------------------------------------------
  // Point extraction

  /// Every endpoint in traversal order: a_0, b_0, a_1, b_1, ...
  function Endpoints(lines: seq<Line>): (ps: seq<Vec2>)
    ensures |ps| == 2 * |lines|
    ensures forall i :: 0 <= i < |lines| ==> ps[2 * i] == lines[i].a && ps[2 * i + 1] == lines[i].b
  {
    if lines == [] then []
    else Endpoints(lines[..|lines| - 1]) + [lines[|lines| - 1].a, lines[|lines| - 1].b]
  }

  /// Each endpoint comes from one line: the even positions are its `a`, the odd
  /// ones its `b`.
  lemma EndpointAt(lines: seq<Line>, j: nat)
    requires j < 2 * |lines|
    ensures Endpoints(lines)[j] == if j % 2 == 0 then lines[j / 2].a else lines[j / 2].b
  {
    var i := j / 2;
    assert j == 2 * i || j == 2 * i + 1;
  }

  /// Endpoints of a concatenation are the endpoints of each part, in order.
  lemma EndpointsConcat(g: LineGroup, h: LineGroup)
    ensures Endpoints(Concat(g, h).lines) == Endpoints(g.lines) + Endpoints(h.lines)
  {
    EndpointsAppend(g.lines, h.lines);
  }

  lemma {:induction false} EndpointsAppend(xs: seq<Line>, ys: seq<Line>)
    ensures Endpoints(xs + ys) == Endpoints(xs) + Endpoints(ys)
    decreases |ys|
  {
    if ys == [] {
      assert xs + ys == xs;
    } else {
      var n := |ys| - 1;
      assert (xs + ys)[..|xs + ys| - 1] == xs + ys[..n];
      EndpointsAppend(xs, ys[..n]);
    }
  }

  /// `to_points`: pushes `a` then `b` of every line.
  method ToPoints(g: LineGroup) returns (points: seq<Vec2>)
    ensures points == Endpoints(g.lines)
  {
    points := [];
    for i := 0 to |g.lines|
      invariant points == Endpoints(g.lines[..i])
    {
      assert g.lines[..i + 1][..i] == g.lines[..i];
      points := points + [g.lines[i].a];
      points := points + [g.lines[i].b];
    }
    assert g.lines[..|g.lines|] == g.lines;
  }

  /// The points of `ps` kept at their first occurrence only, in order.
  function FirstOccurrences(ps: seq<Vec2>): seq<Vec2>
  {
    if ps == [] then []
    else
      var rest := FirstOccurrences(ps[..|ps| - 1]);
      var p := ps[|ps| - 1];
      if p in ps[..|ps| - 1] then rest else rest + [p]
  }

  /// The unique points are exactly the points of the cloud.
  lemma {:induction false} FirstOccurrencesSameSet(ps: seq<Vec2>)
    ensures forall p :: p in FirstOccurrences(ps) <==> p in ps
  {
    if ps != [] {
      var s := ps[..|ps| - 1];
      FirstOccurrencesSameSet(s);
      assert ps == s + [ps[|ps| - 1]];
    }
  }

  lemma FirstOccurrencesHas(ps: seq<Vec2>, p: Vec2)
    ensures p in FirstOccurrences(ps) <==> p in ps
  {
    FirstOccurrencesSameSet(ps);
  }

  /// No point is kept twice.
  lemma {:induction false} FirstOccurrencesNoDuplicates(ps: seq<Vec2>)
    ensures NoDuplicates(FirstOccurrences(ps))
  {
    if ps != [] {
      var s := ps[..|ps| - 1];
      FirstOccurrencesNoDuplicates(s);
      FirstOccurrencesSameSet(s);
    }
  }

  /// Later points never disturb the points already kept: the unique points of a
  /// prefix are a prefix of the unique points of the whole.
  lemma {:induction false} FirstOccurrencesPrefix(s: seq<Vec2>, t: seq<Vec2>)
    ensures |FirstOccurrences(s)| <= |FirstOccurrences(s + t)|
    ensures FirstOccurrences(s + t)[..|FirstOccurrences(s)|] == FirstOccurrences(s)
    decreases |t|
  {
    if t == [] {
      assert s + t == s;
    } else {
      var u := t[..|t| - 1];
      FirstOccurrencesPrefix(s, u);
      assert (s + t)[..|s + t| - 1] == s + u;
    }
  }

  /// A point is kept exactly when it does not occur earlier, and it is kept at
  /// the position given by the number of distinct points before it.
  lemma {:induction false} FirstOccurrencesKeep(ps: seq<Vec2>, i: nat)
    requires i < |ps|
    ensures ps[i] !in ps[..i] ==>
      |FirstOccurrences(ps[..i])| < |FirstOccurrences(ps)| &&
      FirstOccurrences(ps)[|FirstOccurrences(ps[..i])|] == ps[i]
  {
    if ps[i] !in ps[..i] {
      assert ps[..i + 1][..i] == ps[..i];
      assert FirstOccurrences(ps[..i + 1]) == FirstOccurrences(ps[..i]) + [ps[i]];
      FirstOccurrencesPrefix(ps[..i + 1], ps[i + 1..]);
      assert ps[..i + 1] + ps[i + 1..] == ps;
    }
  }

  /// Pushing one more point onto the cloud adds it to the unique points exactly
  /// when it is new.
  lemma FirstOccurrencesSnoc(s: seq<Vec2>, p: Vec2)
    ensures FirstOccurrences(s + [p]) == if p in s then FirstOccurrences(s) else FirstOccurrences(s) + [p]
  {
    assert (s + [p])[..|s|] == s;
  }

  /// The check-then-push step on the unique points of `before` and the first
  /// `j` points of `pair`.
  lemma UniquePush(before: seq<Vec2>, pair: seq<Vec2>, j: nat, points: seq<Vec2>)
    requires j < |pair| && points == FirstOccurrences(before + pair[..j])
    ensures FirstOccurrences(before + pair[..j + 1]) ==
      if pair[j] in points then points else points + [pair[j]]
  {
    assert before + pair[..j + 1] == (before + pair[..j]) + [pair[j]];
    FirstOccurrencesSnoc(before + pair[..j], pair[j]);
    FirstOccurrencesHas(before + pair[..j], pair[j]);
  }

  lemma EndpointsSnoc(lines: seq<Line>, i: nat)
    requires i < |lines|
    ensures Endpoints(lines[..i + 1]) == Endpoints(lines[..i]) + [lines[i].a, lines[i].b]
  {
    assert lines[..i + 1][..i] == lines[..i];
  }

  /// `to_unique_points`: walks every endpoint and pushes it unless already present.
  method ToUniquePoints(g: LineGroup) returns (points: seq<Vec2>)
    ensures points == FirstOccurrences(Endpoints(g.lines))
  {
    points := [];
    for i := 0 to |g.lines|
      invariant points == FirstOccurrences(Endpoints(g.lines[..i]))
    {
      var pair := [g.lines[i].a, g.lines[i].b];
      ghost var before := Endpoints(g.lines[..i]);
      assert before + pair[..0] == before;
      for j := 0 to 2
        invariant points == FirstOccurrences(before + pair[..j])
      {
        var point := pair[j];
        UniquePush(before, pair, j, points);
        if point !in points {
          points := points + [point];
        }
      }
      EndpointsSnoc(g.lines, i);
      assert pair[..2] == pair;
    }
    assert g.lines[..|g.lines|] == g.lines;
  }

  /// `to_unique_points_looped`: the unique points with the first one pushed
  /// again at the end; the `unwrap` panics on an empty group.
  method ToUniquePointsLooped(g: LineGroup) returns (r: Outcome<seq<Vec2>>)
    ensures r.Panic? <==> g.lines == []
    ensures r.Ok? ==>
      var u := FirstOccurrences(Endpoints(g.lines));
      && |r.value| == |u| + 1
      && r.value[..|u|] == u
      && r.value[0] == r.value[|u|] == g.lines[0].a
  {
    var points := ToUniquePoints(g);
    FirstOccurrencesSameSet(Endpoints(g.lines));
    if g.lines != [] {
      assert Endpoints(g.lines)[0] in points;
    }
    if |points| == 0 {
      return Panic(NoFirstPoint);
    }
    ghost var all := Endpoints(g.lines);
    FirstOccurrencesPrefix(all[..1], all[1..]);
    assert all[..1] + all[1..] == all;
    assert FirstOccurrences(all[..1]) == [g.lines[0].a];
    r := Ok(points + [points[0]]);
  }

  // ---------------------------------------------------------------------------
  // Path builders

  /// `generate_continuous`: one segment per window of two consecutive points.
  function GenerateContinuous(ps: seq<Vec2>): (g: LineGroup)
    ensures |g.lines| == if |ps| < 2 then 0 else |ps| - 1
    ensures forall i {:trigger g.lines[i]} :: 0 <= i < |g.lines| ==> g.lines[i] == Line(ps[i], ps[i + 1])
  {
    if |ps| < 2 then EMPTY
    else LineGroup(seq(|ps| - 1, i requires 0 <= i < |ps| - 1 => New(ps[i], ps[i + 1])))
  }

  /// `generate_continuous_closed`: the open path plus, when it has at least one
  /// segment, a closing segment from its last end back to its first start.
  function GenerateContinuousClosed(ps: seq<Vec2>): (g: LineGroup)
    ensures |g.lines| == if |ps| < 2 then 0 else |ps|
    ensures forall i {:trigger g.lines[i]} :: 0 <= i < |ps| - 1 ==> g.lines[i] == Line(ps[i], ps[i + 1])
    ensures |ps| >= 2 ==> g.lines[|ps| - 1] == Line(ps[|ps| - 1], ps[0])
  {
    var open := GenerateContinuous(ps);
    if |open.lines| > 0 then
      var first, last := open.lines[0], open.lines[|open.lines| - 1];
      open.AddLine(New(last.b, first.a))
    else open
  }

  /// A closed path is a cycle: every segment ends where the next one starts,
  /// and the last one ends where the first one starts.
  lemma ClosedPathIsCycle(ps: seq<Vec2>)
    requires |ps| >= 2
    ensures var g := GenerateContinuousClosed(ps);
      && (forall i, j :: 0 <= i < |ps| - 1 && j == i + 1 ==> g.lines[i].b == g.lines[j].a)
      && g.lines[|ps| - 1].b == g.lines[0].a
  {
  }

  /// Every endpoint of a path through `ps` is one of the points `ps`.
  lemma PathEndpointsFromPoints(ps: seq<Vec2>, closed: bool)
    ensures var g := if closed then GenerateContinuousClosed(ps) else GenerateContinuous(ps);
      forall p :: p in Endpoints(g.lines) ==> p in ps
  {
    var g := if closed then GenerateContinuousClosed(ps) else GenerateContinuous(ps);
    var es := Endpoints(g.lines);
    forall p | p in es ensures p in ps {
      var j :| 0 <= j < |es| && es[j] == p;
      EndpointAt(g.lines, j);
      var i := j / 2;
      if i < |ps| - 1 {
        assert g.lines[i] == Line(ps[i], ps[i + 1]);
      } else {
        assert g.lines[i] == Line(ps[|ps| - 1], ps[0]);
      }
    }
  }

  // ---------------------------------------------------------------------------
  // Per-endpoint transforms

  function ScaledBy(g: LineGroup, k: real): LineGroup
  {
    LineGroup(seq(|g.lines|, i requires 0 <= i < |g.lines| => g.lines[i].Scaled(k)))
  }

  function OffsetBy(g: LineGroup, v: Vec2): LineGroup
  {
    LineGroup(seq(|g.lines|, i requires 0 <= i < |g.lines| => g.lines[i].Offset(v)))
  }

  /// `scaled`: a new group whose every endpoint is multiplied by `factor`.
  method Scaled(g: LineGroup, factor: real) returns (res: LineGroup)
    ensures |res.lines| == |g.lines|
    ensures forall i :: 0 <= i < |g.lines| ==>
      res.lines[i].a == g.lines[i].a.Scale(factor) && res.lines[i].b == g.lines[i].b.Scale(factor)
    ensures res == ScaledBy(g, factor)
  {
    res := EMPTY;
    for i := 0 to |g.lines|
      invariant |res.lines| == i
      invariant forall k :: 0 <= k < i ==> res.lines[k] == g.lines[k].Scaled(factor)
    {
      var line := g.lines[i];
      res := res.AddLine(New(line.a.Scale(factor), line.b.Scale(factor)));
    }
  }

  /// `offset`: a new group whose every endpoint is translated by `offset`.
  method Offset(g: LineGroup, offset: Vec2) returns (res: LineGroup)
    ensures |res.lines| == |g.lines|
    ensures forall i :: 0 <= i < |g.lines| ==>
      res.lines[i].a == g.lines[i].a.Add(offset) && res.lines[i].b == g.lines[i].b.Add(offset)
    ensures res == OffsetBy(g, offset)
  {
    res := EMPTY;
    for i := 0 to |g.lines|
      invariant |res.lines| == i
      invariant forall k :: 0 <= k < i ==> res.lines[k] == g.lines[k].Offset(offset)
    {
      var line := g.lines[i];
      res := res.AddLine(New(line.a.Add(offset), line.b.Add(offset)));
    }
  }

  /// `flipped_vertically`: every endpoint has its `y` negated.
  function FlippedVertically(g: LineGroup): (r: LineGroup)
    ensures |r.lines| == |g.lines|
    ensures forall i :: 0 <= i < |g.lines| ==>
      && r.lines[i].a.x == g.lines[i].a.x && r.lines[i].a.y == -g.lines[i].a.y
      && r.lines[i].b.x == g.lines[i].b.x && r.lines[i].b.y == -g.lines[i].b.y
  {
    LineGroup(seq(|g.lines|, i requires 0 <= i < |g.lines| => g.lines[i].FlippedVertically()))
  }

  lemma ScaledByOne(g: LineGroup)
    ensures ScaledBy(g, 1.0) == g
  {
    assert ScaledBy(g, 1.0).lines == g.lines;
  }

  lemma ScaleTwice(p: Vec2, a: real, b: real)
    ensures p.Scale(a).Scale(b) == p.Scale(a * b)
  {
    assert (p.x * a) * b == p.x * (a * b);
    assert (p.y * a) * b == p.y * (a * b);
  }

  lemma ScaledByCompose(g: LineGroup, a: real, b: real)
    ensures ScaledBy(ScaledBy(g, a), b) == ScaledBy(g, a * b)
  {
    var l, r := ScaledBy(ScaledBy(g, a), b).lines, ScaledBy(g, a * b).lines;
    forall i | 0 <= i < |l| ensures l[i] == r[i] {
      var p, q := g.lines[i].a, g.lines[i].b;
      assert l[i] == Line(p.Scale(a).Scale(b), q.Scale(a).Scale(b));
      ScaleTwice(p, a, b);
      ScaleTwice(q, a, b);
    }
  }

  lemma OffsetByCompose(g: LineGroup, v1: Vec2, v2: Vec2)
    ensures OffsetBy(OffsetBy(g, v1), v2) == OffsetBy(g, v1.Add(v2))
    ensures OffsetBy(g, ZERO2) == g
  {
    assert OffsetBy(OffsetBy(g, v1), v2).lines == OffsetBy(g, v1.Add(v2)).lines;
    assert OffsetBy(g, ZERO2).lines == g.lines;
  }

  lemma OffsetByConcat(g: LineGroup, h: LineGroup, v: Vec2)
    ensures OffsetBy(Concat(g, h), v) == Concat(OffsetBy(g, v), OffsetBy(h, v))
  {
    assert OffsetBy(Concat(g, h), v).lines == Concat(OffsetBy(g, v), OffsetBy(h, v)).lines;
  }

  lemma FlipInvolution(g: LineGroup)
    ensures FlippedVertically(FlippedVertically(g)) == g
  {
    assert FlippedVertically(FlippedVertically(g)).lines == g.lines;
  }

  // ---------------------------------------------------------------------------
  // Bounding box and bounding size

  /// `Aabb2d`, with its centre as Bevy computes it.
  datatype Aabb2d = Aabb2d(min: Vec2, max: Vec2)
  {
    function Center(): Vec2 { min.Add(max).Scale(0.5) }
  }

  /// Componentwise minimum of a non-empty point cloud.
  function MinCorner(ps: seq<Vec2>): (m: Vec2)
    requires ps != []
    ensures forall i :: 0 <= i < |ps| ==> m.x <= ps[i].x && m.y <= ps[i].y
  {
    if |ps| == 1 then ps[0]
    else
      var m := MinCorner(ps[1..]);
      Vec2(Min(ps[0].x, m.x), Min(ps[0].y, m.y))
  }

  /// Componentwise maximum of a non-empty point cloud.
  function MaxCorner(ps: seq<Vec2>): (m: Vec2)
    requires ps != []
    ensures forall i :: 0 <= i < |ps| ==> ps[i].x <= m.x && ps[i].y <= m.y
  {
    if |ps| == 1 then ps[0]
    else
      var m := MaxCorner(ps[1..]);
      Vec2(Max(ps[0].x, m.x), Max(ps[0].y, m.y))
  }

  /// Each coordinate of the corners is the coordinate of some point of the cloud.
  lemma {:induction false} CornersAttained(ps: seq<Vec2>) returns (ix: nat, iy: nat, jx: nat, jy: nat)
    requires ps != []
    ensures ix < |ps| && iy < |ps| && jx < |ps| && jy < |ps|
    ensures MinCorner(ps).x == ps[ix].x && MinCorner(ps).y == ps[iy].y
    ensures MaxCorner(ps).x == ps[jx].x && MaxCorner(ps).y == ps[jy].y
  {
    if |ps| == 1 {
      return 0, 0, 0, 0;
    }
    var ix', iy', jx', jy' := CornersAttained(ps[1..]);
    var lo, hi := MinCorner(ps[1..]), MaxCorner(ps[1..]);
    ix := if ps[0].x < lo.x then 0 else ix' + 1;
    iy := if ps[0].y < lo.y then 0 else iy' + 1;
    jx := if ps[0].x < hi.x then jx' + 1 else 0;
    jy := if ps[0].y < hi.y then jy' + 1 else 0;
  }

  /// `calculate_bounding_box`: `Aabb2d::from_point_cloud` over `to_points`,
  /// which panics on an empty cloud.
  function CalculateBoundingBox(g: LineGroup): (r: Outcome<Aabb2d>)
    ensures r.Panic? <==> g.lines == []
  {
    if g.lines == [] then Panic(EmptyPointCloud)
    else
      var ps := Endpoints(g.lines);
      Ok(Aabb2d(MinCorner(ps), MaxCorner(ps)))
  }

  /// The largest absolute coordinate of the two corners of a box.
  function CornerSize(box: Aabb2d): real
  {
    Max(Max(Abs(box.min.x), Abs(box.min.y)), Max(Abs(box.max.x), Abs(box.max.y)))
  }

  /// `calculate_bounding_size`
  function CalculateBoundingSize(g: LineGroup): (r: Outcome<real>)
    ensures r.Panic? <==> g.lines == []
    ensures r.Ok? ==> r.value >= 0.0
  {
    match CalculateBoundingBox(g)
    case Ok(box) => Ok(CornerSize(box))
    case Panic(reason) => Panic(reason)
  }

  /// The bounding size is the largest absolute coordinate over all endpoints:
  /// it bounds every `|x|` and `|y|`, and some endpoint attains it.
  lemma BoundingSizeIsMaxAbsCoordinate(g: LineGroup)
    requires g.lines != []
    ensures var bs := CalculateBoundingSize(g).value;
      && (forall p :: p in Endpoints(g.lines) ==> Abs(p.x) <= bs && Abs(p.y) <= bs)
      && (exists p :: p in Endpoints(g.lines) && (Abs(p.x) == bs || Abs(p.y) == bs))
  {
    var ps := Endpoints(g.lines);
    var lo, hi := MinCorner(ps), MaxCorner(ps);
    var bs := CalculateBoundingSize(g).value;
    assert bs == CornerSize(Aabb2d(lo, hi));
    forall p | p in ps ensures Abs(p.x) <= bs && Abs(p.y) <= bs {
      var i :| 0 <= i < |ps| && ps[i] == p;
    }
    var ix, iy, jx, jy := CornersAttained(ps);
    if bs == Abs(lo.x) {
      assert ps[ix] in ps;
    } else if bs == Abs(lo.y) {
      assert ps[iy] in ps;
    } else if bs == Abs(hi.x) {
      assert ps[jx] in ps;
    } else {
      assert ps[jy] in ps;
    }
  }

  /// Translating a cloud translates its corners.
  lemma {:induction false} CornersShift(ps: seq<Vec2>, qs: seq<Vec2>, v: Vec2)
    requires ps != [] && |qs| == |ps|
    requires forall i :: 0 <= i < |ps| ==> qs[i] == ps[i].Add(v)
    ensures MinCorner(qs) == MinCorner(ps).Add(v)
    ensures MaxCorner(qs) == MaxCorner(ps).Add(v)
  {
    if |ps| > 1 {
      CornersShift(ps[1..], qs[1..], v);
    }
  }

  /// The endpoints of a translated group are the translated endpoints.
  lemma EndpointsOffset(g: LineGroup, v: Vec2)
    ensures |Endpoints(OffsetBy(g, v).lines)| == |Endpoints(g.lines)|
    ensures forall j :: 0 <= j < |Endpoints(g.lines)| ==>
      Endpoints(OffsetBy(g, v).lines)[j] == Endpoints(g.lines)[j].Add(v)
  {
    var ps, qs := Endpoints(g.lines), Endpoints(OffsetBy(g, v).lines);
    forall j | 0 <= j < |ps| ensures qs[j] == ps[j].Add(v) {
      EndpointAt(g.lines, j);
      EndpointAt(OffsetBy(g, v).lines, j);
    }
  }

  /// `centered`: the group translated by minus the centre of its bounding box.
  method Centered(g: LineGroup) returns (r: Outcome<LineGroup>)
    ensures r.Panic? <==> g.lines == []
    ensures r.Ok? ==> r.value == OffsetBy(g, CalculateBoundingBox(g).value.Center().Neg())
  {
    var box := CalculateBoundingBox(g);
    if box.Panic? {
      return Panic(box.reason);
    }
    var moved := Offset(g, box.value.Center().Neg());
    r := Ok(moved);
  }

  /// After centring, the bounding box of the group is centred on the origin.
  lemma CenteredBoxAtOrigin(g: LineGroup)
    requires g.lines != []
    ensures var c := OffsetBy(g, CalculateBoundingBox(g).value.Center().Neg());
      CalculateBoundingBox(c).value.Center() == ZERO2
  {
    var v := CalculateBoundingBox(g).value.Center().Neg();
    var c := OffsetBy(g, v);
    var ps, qs := Endpoints(g.lines), Endpoints(c.lines);
    EndpointsOffset(g, v);
    assert |qs| == |ps| && ps != [];
    CornersShift(ps, qs, v);
  }
}
