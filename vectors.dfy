/// Bevy's `Vec2` and `Vec4`, with exact real coordinates instead of `f32`.
module Vectors {

  datatype Vec2 = Vec2(x: real, y: real)
  {
    function Add(v: Vec2): Vec2 { Vec2(x + v.x, y + v.y) }
    function Sub(v: Vec2): Vec2 { Vec2(x - v.x, y - v.y) }
    function Scale(k: real): Vec2 { Vec2(x * k, y * k) }
    function Neg(): Vec2 { Vec2(-x, -y) }
  }

  const ZERO2: Vec2 := Vec2(0.0, 0.0)

  datatype Vec4 = Vec4(x: real, y: real, z: real, w: real)
  {
    /// `Vec4::xy`
    function Xy(): Vec2 { Vec2(x, y) }
    /// `Vec4::zw`
    function Zw(): Vec2 { Vec2(z, w) }
  }

  const ZERO4: Vec4 := Vec4(0.0, 0.0, 0.0, 0.0)

  function Abs(r: real): real { if r < 0.0 then -r else r }

  function Max(a: real, b: real): real { if a < b then b else a }

  function Min(a: real, b: real): real { if a < b then a else b }

  /// Squared Euclidean distance; `distance(p, q) < d` is `DistSq(p, q) < d * d`
  /// whenever `d >= 0`.
  function DistSq(p: Vec2, q: Vec2): real
  {
    (p.x - q.x) * (p.x - q.x) + (p.y - q.y) * (p.y - q.y)
  }
}
