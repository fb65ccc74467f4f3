/// A single 2-D segment and its packed 4-float form.
module Lines {
  import opened Vectors

  datatype Line = Line(a: Vec2, b: Vec2)
  {
    /// `Line::as_vec4`: the segment as (a.x, a.y, b.x, b.y).
    function AsVec4(): (v: Vec4)
      ensures v.Xy() == a && v.Zw() == b
    {
      Vec4(a.x, a.y, b.x, b.y)
    }

    function Scaled(k: real): Line { Line(a.Scale(k), b.Scale(k)) }
    function Offset(v: Vec2): Line { Line(a.Add(v), b.Add(v)) }
    function FlippedVertically(): Line { Line(Vec2(a.x, -a.y), Vec2(b.x, -b.y)) }
  }

  /// `Line::new(a, b)`.
  function New(a: Vec2, b: Vec2): (l: Line)
    ensures l.a == a && l.b == b
  {
    Line(a, b)
  }

  /// The segment rebuilt from a packed record, as `get_lines` does with
  /// `Line::new(l.xy(), l.zw())`.
  function FromVec4(v: Vec4): (l: Line)
    ensures l.AsVec4() == v
  {
    New(v.Xy(), v.Zw())
  }

  /// The zero-length segment at the origin used to pad the packed buffer.
  const ORIGIN_LINE: Line := Line(ZERO2, ZERO2)

  /// Packing and unpacking a segment gives back the same segment.
  lemma UnpackPack(l: Line)
    ensures FromVec4(l.AsVec4()) == l
  {
  }

  /// The padding segment packs to the zero vector, and the zero vector is the
  /// only record that unpacks to it.
  lemma OriginPacksToZero(v: Vec4)
    ensures ORIGIN_LINE.AsVec4() == ZERO4
    ensures FromVec4(v) == ORIGIN_LINE <==> v == ZERO4
  {
  }
}
