/// `get_ship_and_thrusters_shape`: the ship's hull, notched according to the
/// remaining hit points, and its two thruster chevrons.
module ShipShape {
  import opened Vectors
  import opened Lines
  import opened LineGroups

  const WIDTH: real := 15.0
  const LENGTH: real := 30.0
  const REACTOR_WIDTH: real := 10.0

  const BOTTOM_LEFT: Vec2 := Vec2(-WIDTH, -LENGTH)
  const BOTTOM_RIGHT: Vec2 := Vec2(WIDTH, -LENGTH)
  const FRONT: Vec2 := Vec2(0.0, LENGTH)

  /// The undamaged hull outline, starting at the bottom-left corner.
  const BASE_POINTS: seq<Vec2> := [
    BOTTOM_LEFT,
    FRONT,
    BOTTOM_RIGHT,
    Vec2(WIDTH - REACTOR_WIDTH, -LENGTH),
    Vec2(WIDTH - 12.0, -LENGTH + 10.0),
    Vec2(-WIDTH + 12.0, -LENGTH + 10.0),
    Vec2(-WIDTH + REACTOR_WIDTH, -LENGTH)
  ]

  /// Where base point `i` ends up in the hull for `remainingHp`: behind the
  /// left notch from 2 HP down, and behind the right notch too from 1 HP down.
  function BaseIndex(remainingHp: nat, i: nat): nat
  {
    if i == 0 then 0
    else if remainingHp > 2 then i
    else if remainingHp == 2 || i == 1 then i + 3
    else i + 6
  }

  /// The number of hull points for `remainingHp`.
  function HullSize(remainingHp: nat): nat
  {
    if remainingHp > 2 then 7 else if remainingHp == 2 then 10 else 13
  }

  /// The hull outline and thrusters, with the points spliced into the
  /// outline as the hit points drop.
  method GetShipAndThrustersShape(remainingHp: nat) returns (hull: LineGroup, thrusters: LineGroup, ghost points: seq<Vec2>)
    ensures |points| == HullSize(remainingHp)
    ensures forall i :: 0 <= i < 7 ==> points[BaseIndex(remainingHp, i)] == BASE_POINTS[i]
    ensures remainingHp <= 2 ==> points[1..4] == [Vec2(-6.0, 6.0), Vec2(-0.25, 9.0), Vec2(-4.5, 12.0)]
    ensures remainingHp <= 1 ==> points[5..8] == [Vec2(7.5, 0.0), Vec2(2.0, -6.0), Vec2(10.5, -12.0)]
    ensures hull == GenerateContinuousClosed(points)
    ensures |hull.lines| == HullSize(remainingHp)
    ensures hull.lines[0].a == BOTTOM_LEFT && hull.lines[|hull.lines| - 1].b == BOTTOM_LEFT
    ensures thrusters == Concat(GenerateContinuous([BOTTOM_LEFT, Vec2(-10.0, -50.0), Vec2(-5.0, -30.0)]),
                                GenerateContinuous([BOTTOM_RIGHT, Vec2(10.0, -50.0), Vec2(5.0, -30.0)]))
    ensures |thrusters.lines| == 4
    ensures thrusters.lines[0].b == thrusters.lines[1].a == Vec2(-10.0, -50.0)
    ensures thrusters.lines[2].b == thrusters.lines[3].a == Vec2(10.0, -50.0)
    ensures thrusters.lines[0].a == BOTTOM_LEFT && thrusters.lines[1].b == Vec2(-WIDTH + REACTOR_WIDTH, -LENGTH)
    ensures thrusters.lines[2].a == BOTTOM_RIGHT && thrusters.lines[3].b == Vec2(WIDTH - REACTOR_WIDTH, -LENGTH)
  {
    var width := WIDTH;
    var length := LENGTH;
    var reactorWidth := REACTOR_WIDTH;
    var bottomLeftCorner := Vec2(-width, -length);
    var bottomRightCorner := Vec2(width, -length);
    var frontCorner := Vec2(0.0, length);
    var leftSlopeDir := frontCorner.Sub(bottomLeftCorner);
    var rightSlopeDir := frontCorner.Sub(bottomRightCorner);

    var pts := [
      bottomLeftCorner,
      frontCorner,
      bottomRightCorner,
      Vec2(width - reactorWidth, -length),
      Vec2(width - 12.0, -length + 10.0),
      Vec2(-width + 12.0, -length + 10.0),
      Vec2(-width + reactorWidth, -length)
    ];
    if remainingHp <= 2 {
      pts := pts[..1] + [
        bottomLeftCorner.Add(leftSlopeDir.Scale(0.6)),
        bottomLeftCorner.Add(leftSlopeDir.Scale(0.65)).Add(Vec2(5.0, 0.0)),
        bottomLeftCorner.Add(leftSlopeDir.Scale(0.7))
      ] + pts[1..];
    }
    if remainingHp <= 1 {
      pts := pts[..5] + [
        bottomRightCorner.Add(rightSlopeDir.Scale(0.5)),
        bottomRightCorner.Add(rightSlopeDir.Scale(0.4)).Add(Vec2(-7.0, 0.0)),
        bottomRightCorner.Add(rightSlopeDir.Scale(0.3))
      ] + pts[5..];
    }

    thrusters := Concat(
      GenerateContinuous([
        Vec2(-width, -length),
        Vec2(-width + reactorWidth / 2.0, -length - 20.0),
        Vec2(-width + reactorWidth, -length)
      ]),
      GenerateContinuous([
        Vec2(width, -length),
        Vec2(width - reactorWidth / 2.0, -length - 20.0),
        Vec2(width - reactorWidth, -length)
      ]));
    hull := GenerateContinuousClosed(pts);
    points := pts;
  }

  /// The splices only insert: base point `i` still comes before base point
  /// `j` whenever `i < j`, and all of them stay inside the hull.
  lemma BaseOrderKept(remainingHp: nat, i: nat, j: nat)
    requires i < j < 7
    ensures BaseIndex(remainingHp, i) < BaseIndex(remainingHp, j) < HullSize(remainingHp)
  {
  }
}
