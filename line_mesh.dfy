/// `lines_to_mesh`: fits a group into the unit quad the shader draws on.
/// The group is scaled so that its bounding size becomes 1/1.2, flipped
/// vertically and packed; the quad's half-size is the bounding size times
/// the 1.2 padding, and the line width is rescaled against a reference size
/// of 100.
module LineMesh {
  import opened Common
  import opened Vectors
  import opened Lines
  import opened LineGroups
  import opened Packing

  /// The `Rectangle` half-size (a splat vector) and the material settings.
  datatype MeshBundle = MeshBundle(halfSize: Vec2, settings: LineRendererSettings)

  /// `b` is the mesh of `lines` drawn with `lineWidth`, for bounding size `bs`.
  ghost predicate IsMeshOf(b: MeshBundle, lines: LineGroup, lineWidth: real, bs: real)
    requires bs > 0.0
  {
    && b.halfSize == Vec2(bs * 1.2, bs * 1.2)
    && IsPackingOf(b.settings, FlippedVertically(ScaledBy(lines, (1.0 / bs) * (1.0 / 1.2))),
                   lineWidth / (bs / 100.0))
  }

  /// The bounding size is a divisor here; a group whose every endpoint is the
  /// origin has none, and the arithmetic is then not modelled.
  predicate HasDivisibleSize(lines: LineGroup)
  {
    CalculateBoundingSize(lines).Ok? ==> CalculateBoundingSize(lines).value > 0.0
  }

  /// The free function `lines_to_mesh` of the mesh plugin. It panics on an
  /// empty group (bounding box of no points) and on more than 256 segments
  /// (packing).
  method LinesToMesh(lines: LineGroup, lineWidth: real) returns (r: Outcome<MeshBundle>)
    requires HasDivisibleSize(lines)
    ensures r.Panic? <==> lines.lines == [] || |lines.lines| > LINE_NUMBER
    ensures r.Panic? && lines.lines == [] ==> r.reason == EmptyPointCloud
    ensures r.Ok? ==> IsMeshOfGroup(r.value, lines, lineWidth)
  {
    var padding := 1.2;
    var size := CalculateBoundingSize(lines);
    if size.Panic? {
      return Panic(size.reason);
    }
    var boundingSize := size.value;
    var actualSize := boundingSize * padding;
    var scalingFactor := boundingSize / 100.0;
    var adjustedWidth := lineWidth / scalingFactor;
    var adjustedLines := Scaled(lines, (1.0 / boundingSize) * (1.0 / padding));
    var flippedLines := FlippedVertically(adjustedLines);
    var settings := Packing.New(flippedLines, adjustedWidth);
    if settings.Panic? {
      return Panic(settings.reason);
    }
    return Ok(MeshBundle(Vec2(actualSize, actualSize), settings.value));
  }

  /// `b` is the mesh `lines_to_mesh` builds for `lines` with `lineWidth`.
  ghost predicate IsMeshOfGroup(b: MeshBundle, lines: LineGroup, lineWidth: real)
  {
    lines.lines != [] && HasDivisibleSize(lines)
    && IsMeshOf(b, lines, lineWidth, CalculateBoundingSize(lines).value)
  }

  /// For a given group, width and bounding size there is one mesh.
  lemma MeshIsUnique(b: MeshBundle, c: MeshBundle, lines: LineGroup, lineWidth: real, bs: real)
    requires bs > 0.0
    requires IsMeshOf(b, lines, lineWidth, bs) && IsMeshOf(c, lines, lineWidth, bs)
    ensures b == c
  {
    var group := FlippedVertically(ScaledBy(lines, (1.0 / bs) * (1.0 / 1.2)));
    PackingIsUnique(b.settings, c.settings, group, lineWidth / (bs / 100.0));
  }

  /// The segments the shader receives, without the padding.
  function Drawn(b: MeshBundle, n: nat): LineGroup
    requires n <= |b.settings.lines|
  {
    LineGroup(b.settings.GetLines().lines[..n])
  }

  /// What the shader receives draws the original group at its original size:
  /// flipping the drawn segments back and scaling them by the quad's
  /// half-size gives the submitted group; and the width times the bounding
  /// size is 100 times the requested width.
  lemma MeshRestoresGeometry(b: MeshBundle, lines: LineGroup, lineWidth: real, bs: real)
    requires bs > 0.0 && IsMeshOf(b, lines, lineWidth, bs)
    ensures ScaledBy(FlippedVertically(Drawn(b, |lines.lines|)), b.halfSize.x) == lines
    ensures b.halfSize.x == b.halfSize.y
    ensures b.settings.width * bs == 100.0 * lineWidth
  {
    var k := (1.0 / bs) * (1.0 / 1.2);
    var normalised := ScaledBy(lines, k);
    UnpackPacked(b.settings, FlippedVertically(normalised), b.settings.width);
    assert Drawn(b, |lines.lines|) == FlippedVertically(normalised);
    FlipInvolution(normalised);
    ScaleFactorInverse(bs, k, b.halfSize.x);
    RestoredByHalfSize(lines, k, b.halfSize.x);
    RescaledWidth(lineWidth, bs);
  }

  /// Scaling by `k` and then by its inverse `h` gives the group back.
  lemma RestoredByHalfSize(g: LineGroup, k: real, h: real)
    requires k * h == 1.0
    ensures ScaledBy(ScaledBy(g, k), h) == g
  {
    ScaledByCompose(g, k, h);
    ScaledByOne(g);
  }

  /// `c` lies within `r` of zero.
  predicate Within(c: real, r: real)
  {
    -r <= c <= r
  }

  /// Every coordinate of the segment lies within `r` of the origin.
  predicate SegmentWithin(l: Line, r: real)
  {
    Within(l.a.x, r) && Within(l.a.y, r) && Within(l.b.x, r) && Within(l.b.y, r)
  }

  /// Every drawn coordinate lies within 1/1.2 of the quad's centre, so the
  /// group fits the quad with a margin.
  lemma MeshFitsQuad(b: MeshBundle, lines: LineGroup, lineWidth: real)
    requires lines.lines != [] && HasDivisibleSize(lines)
    requires IsMeshOf(b, lines, lineWidth, CalculateBoundingSize(lines).value)
    ensures forall i :: 0 <= i < |lines.lines| ==> SegmentWithin(Drawn(b, |lines.lines|).lines[i], 1.0 / 1.2)
  {
    var bs := CalculateBoundingSize(lines).value;
    forall i | 0 <= i < |lines.lines| ensures SegmentWithin(lines.lines[i], bs) {
      SegmentWithinBoundingSize(lines, i);
    }
    MeshWithinQuad(b, lines, lineWidth, bs);
  }

  lemma MeshWithinQuad(b: MeshBundle, lines: LineGroup, lineWidth: real, bs: real)
    requires bs > 0.0 && IsMeshOf(b, lines, lineWidth, bs)
    requires forall i :: 0 <= i < |lines.lines| ==> SegmentWithin(lines.lines[i], bs)
    ensures forall i :: 0 <= i < |lines.lines| ==> SegmentWithin(Drawn(b, |lines.lines|).lines[i], 1.0 / 1.2)
  {
    var k := (1.0 / bs) * (1.0 / 1.2);
    var drawn := FlippedVertically(ScaledBy(lines, k));
    UnpackPacked(b.settings, drawn, b.settings.width);
    assert Drawn(b, |lines.lines|) == drawn;
    ScaleFactorInverse(bs, k, bs * 1.2);
    NormalisedGroupWithin(lines, bs, k);
  }

  /// Every segment of a group lies within its bounding size.
  lemma SegmentWithinBoundingSize(g: LineGroup, i: nat)
    requires i < |g.lines|
    ensures SegmentWithin(g.lines[i], CalculateBoundingSize(g).value)
  {
    var ps := Endpoints(g.lines);
    BoundingSizeIsMaxAbsCoordinate(g);
    EndpointAt(g.lines, 2 * i);
    EndpointAt(g.lines, 2 * i + 1);
    assert ps[2 * i] in ps && ps[2 * i + 1] in ps;
  }

  /// A group within `bs`, scaled by `k` = 1/(bs·1.2) and flipped, lies within
  /// 1/1.2.
  lemma NormalisedGroupWithin(g: LineGroup, bs: real, k: real)
    requires bs > 0.0 && k * (bs * 1.2) == 1.0
    requires forall i :: 0 <= i < |g.lines| ==> SegmentWithin(g.lines[i], bs)
    ensures forall i :: 0 <= i < |g.lines| ==> SegmentWithin(FlippedVertically(ScaledBy(g, k)).lines[i], 1.0 / 1.2)
  {
    forall i | 0 <= i < |g.lines| ensures SegmentWithin(FlippedVertically(ScaledBy(g, k)).lines[i], 1.0 / 1.2) {
      NormalisedLineWithin(g.lines[i], bs, k);
    }
  }

  lemma NormalisedLineWithin(l: Line, bs: real, k: real)
    requires bs > 0.0 && k * (bs * 1.2) == 1.0 && SegmentWithin(l, bs)
    ensures SegmentWithin(l.Scaled(k).FlippedVertically(), 1.0 / 1.2)
  {
    NormalisedLine(l, k);
    FactorTimesSize(bs, k);
    NormalisedCoordinates(l, bs, k);
  }

  lemma FactorTimesSize(bs: real, k: real)
    requires bs > 0.0 && k * (bs * 1.2) == 1.0
    ensures k > 0.0 && bs * k == 1.0 / 1.2
  {
  }

  lemma NormalisedLine(l: Line, k: real)
    ensures l.Scaled(k).FlippedVertically() == Line(Vec2(l.a.x * k, -(l.a.y * k)), Vec2(l.b.x * k, -(l.b.y * k)))
  {
  }

  lemma NormalisedCoordinates(l: Line, bs: real, k: real)
    requires k > 0.0 && bs * k == 1.0 / 1.2 && SegmentWithin(l, bs)
    ensures SegmentWithin(Line(Vec2(l.a.x * k, -(l.a.y * k)), Vec2(l.b.x * k, -(l.b.y * k))), 1.0 / 1.2)
  {
    NormalisedCoordinate(l.a.x, k, bs);
    NormalisedCoordinate(l.a.y, k, bs);
    NormalisedCoordinate(l.b.x, k, bs);
    NormalisedCoordinate(l.b.y, k, bs);
  }

  /// One coordinate within `bs`, scaled by `k` = 1/(bs·1.2), lies within 1/1.2.
  lemma NormalisedCoordinate(c: real, k: real, bs: real)
    requires k > 0.0 && bs * k == 1.0 / 1.2 && Within(c, bs)
    ensures Within(c * k, 1.0 / 1.2) && Within(-(c * k), 1.0 / 1.2)
  {
    var below, above := bs - c, bs + c;
    NonNegativeProduct(below, k);
    NonNegativeProduct(above, k);
    assert bs * k - c * k == below * k;
    assert bs * k + c * k == above * k;
  }

  lemma NonNegativeProduct(a: real, k: real)
    requires a >= 0.0 && k > 0.0
    ensures a * k >= 0.0
  {
  }

  /// The scale factor 1/(bs·1.2) undoes the half-size bs·1.2.
  lemma ScaleFactorInverse(bs: real, k: real, h: real)
    requires bs > 0.0 && k == (1.0 / bs) * (1.0 / 1.2) && h == bs * 1.2
    ensures k * h == 1.0
  {
    var u := 1.0 / bs;
    assert u * bs == 1.0;
    calc {
      (u * (1.0 / 1.2)) * (bs * 1.2);
      (u * bs) * ((1.0 / 1.2) * 1.2);
      1.0;
    }
  }

  lemma RescaledWidth(lineWidth: real, bs: real)
    requires bs > 0.0
    ensures (lineWidth / (bs / 100.0)) * bs == 100.0 * lineWidth
  {
    var f := bs / 100.0;
    assert f * 100.0 == bs;
    assert (lineWidth / f) * f == lineWidth;
    calc {
      (lineWidth / f) * bs;
      (lineWidth / f) * (f * 100.0);
      ((lineWidth / f) * f) * 100.0;
    }
  }
}
