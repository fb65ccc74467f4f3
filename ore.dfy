/// Ore: the crystal shape, the pieces a destroyed ore asteroid leaves, and
/// the pickup of pieces by the ship.
module Ores {
  import opened Common
  import opened Vectors
  import opened Lines
  import opened LineGroups
  import opened LineRendering
  import opened Inventories
  import opened Healths

  datatype OreType = Crystal

  /// The `AsteroidOre` component: what an asteroid drops when destroyed.
  datatype AsteroidOre = AsteroidOre(oreType: OreType, amount: nat)

  /// The crystal's outline: a diamond, left, top, right, bottom.
  const CRYSTAL_POINTS: seq<Vec2> := [Vec2(-6.0, 0.0), Vec2(0.0, 10.0), Vec2(6.0, 0.0), Vec2(0.0, -10.0)]

  /// `get_lines_for_ore`
  function GetLinesForOre(ore: OreType): (g: LineGroup)
  {
    match ore
    case Crystal => GenerateContinuousClosed(CRYSTAL_POINTS)
  }

  /// The crystal is the closed diamond of four segments; its unique points
  /// are the four corners in outline order, so its looped collider outline
  /// has five points from (-6, 0) back to (-6, 0); and its bounding size is 10.
  lemma CrystalShape()
    ensures var p := CRYSTAL_POINTS;
      GetLinesForOre(Crystal).lines == [Line(p[0], p[1]), Line(p[1], p[2]), Line(p[2], p[3]), Line(p[3], p[0])]
    ensures FirstOccurrences(Endpoints(GetLinesForOre(Crystal).lines)) == CRYSTAL_POINTS
    ensures CalculateBoundingSize(GetLinesForOre(Crystal)) == Ok(10.0)
  {
    var p := CRYSTAL_POINTS;
    var g := GetLinesForOre(Crystal);
    assert g.lines == [Line(p[0], p[1]), Line(p[1], p[2]), Line(p[2], p[3]), Line(p[3], p[0])];
    var e := Endpoints(g.lines);
    assert e == [p[0], p[1], p[1], p[2], p[2], p[3], p[3], p[0]] by {
      EndpointsOfFour(g.lines);
    }
    FirstOccurrencesOfDiamond(e);
    CornersOfDiamond(e);
  }

  lemma EndpointsOfFour(lines: seq<Line>)
    requires |lines| == 4
    ensures Endpoints(lines) == [lines[0].a, lines[0].b, lines[1].a, lines[1].b,
                                 lines[2].a, lines[2].b, lines[3].a, lines[3].b]
  {
    var e := Endpoints(lines);
    forall j | 0 <= j < 8 ensures e[j] == [lines[0].a, lines[0].b, lines[1].a, lines[1].b,
                                           lines[2].a, lines[2].b, lines[3].a, lines[3].b][j] {
      EndpointAt(lines, j);
    }
  }

  lemma FirstOccurrencesOfDiamond(e: seq<Vec2>)
    requires var p := CRYSTAL_POINTS; e == [p[0], p[1], p[1], p[2], p[2], p[3], p[3], p[0]]
    ensures FirstOccurrences(e) == CRYSTAL_POINTS
  {
    var p := CRYSTAL_POINTS;
    assert e[..1] == [p[0]];
    assert FirstOccurrences(e[..1]) == [p[0]];
    assert e[..2][..1] == e[..1];
    assert FirstOccurrences(e[..2]) == [p[0], p[1]];
    assert e[..3][..2] == e[..2];
    assert FirstOccurrences(e[..3]) == [p[0], p[1]];
    assert e[..4][..3] == e[..3];
    assert FirstOccurrences(e[..4]) == [p[0], p[1], p[2]];
    assert e[..5][..4] == e[..4];
    assert FirstOccurrences(e[..5]) == [p[0], p[1], p[2]];
    assert e[..6][..5] == e[..5];
    assert FirstOccurrences(e[..6]) == CRYSTAL_POINTS;
    assert e[..7][..6] == e[..6];
    assert FirstOccurrences(e[..7]) == CRYSTAL_POINTS;
    assert e[..8][..7] == e[..7] && e[..8] == e;
  }

  lemma CornersOfDiamond(e: seq<Vec2>)
    requires var p := CRYSTAL_POINTS; e == [p[0], p[1], p[1], p[2], p[2], p[3], p[3], p[0]]
    ensures MinCorner(e) == Vec2(-6.0, -10.0) && MaxCorner(e) == Vec2(6.0, 10.0)
  {
    var ix, iy, jx, jy := CornersAttained(e);
    assert forall i :: 0 <= i < 8 ==> -6.0 <= e[i].x <= 6.0 && -10.0 <= e[i].y <= 10.0;
    assert e[0].x == -6.0 && e[3].x == 6.0 && e[1].y == 10.0 && e[5].y == -10.0;
  }

  // ---------------------------------------------------------------------------
  // handle_asteroid_destroyed

  /// One crystal piece: spawned through the renderer with the ore's lines as
  /// its history and their looped outline as its collider, followed by the
  /// sensor zone entity that is made its child.
  method SpawnOrePiece(renderer: LineRenderer, oreType: OreType) returns (piece: Entity, zone: Entity)
    requires renderer.Valid()
    modifies renderer
    ensures renderer.Valid()
    ensures piece == old(renderer.nextEntity) && zone == piece + 1 && renderer.nextEntity == zone + 1
    ensures renderer.GetLines(piece) == Ok(GetLinesForOre(oreType))
    ensures renderer.GetLines(zone).Panic?
    ensures forall e: Entity :: e != piece ==> renderer.GetLines(e) == old(renderer.GetLines(e))
  {
    CrystalShape();
    var lines := GetLinesForOre(oreType);
    var collider := ToUniquePointsLooped(lines);
    var spawned := renderer.Spawn(lines);
    piece := spawned.value;
    zone := renderer.SpawnEntity();
  }

  /// The loop body for one destroyed ore asteroid: `amount` crystal pieces,
  /// each followed by its zone; no earlier entity's lines change.
  method SpawnOrePieces(renderer: LineRenderer, ore: AsteroidOre) returns (pieces: seq<Entity>)
    requires renderer.Valid()
    modifies renderer
    ensures renderer.Valid()
    ensures |pieces| == ore.amount
    ensures forall k :: 0 <= k < |pieces| ==> pieces[k] == old(renderer.nextEntity) + 2 * k
    ensures forall j, k :: 0 <= j < k < |pieces| ==> pieces[j] < pieces[k]
    ensures forall k :: 0 <= k < |pieces| ==> renderer.GetLines(pieces[k]) == Ok(GetLinesForOre(ore.oreType))
    ensures renderer.nextEntity == old(renderer.nextEntity) + 2 * ore.amount
    ensures forall e: Entity :: e < old(renderer.nextEntity) ==> renderer.GetLines(e) == old(renderer.GetLines(e))
  {
    pieces := [];
    for n := 0 to ore.amount
      invariant renderer.Valid()
      invariant |pieces| == n
      invariant renderer.nextEntity == old(renderer.nextEntity) + 2 * n
      invariant forall k :: 0 <= k < n ==> pieces[k] == old(renderer.nextEntity) + 2 * k
      invariant forall k :: 0 <= k < n ==> renderer.GetLines(pieces[k]) == Ok(GetLinesForOre(ore.oreType))
      invariant forall e: Entity :: e < old(renderer.nextEntity) ==> renderer.GetLines(e) == old(renderer.GetLines(e))
    {
      var piece, zone := SpawnOrePiece(renderer, ore.oreType);
      pieces := pieces + [piece];
    }
  }

  /// The number of pieces dropped for a queue of deaths: the ore amount of
  /// every dead entity that is an ore asteroid.
  function OrePieceCount(deaths: seq<Death>, asteroids: map<Entity, AsteroidOre>): nat
  {
    if deaths == [] then 0
    else
      var e := deaths[|deaths| - 1].entity;
      OrePieceCount(deaths[..|deaths| - 1], asteroids) + (if e in asteroids then asteroids[e].amount else 0)
  }

  /// `handle_asteroid_destroyed`: every reported death of an ore asteroid
  /// drops that asteroid's amount of crystal pieces; other deaths drop none.
  method HandleAsteroidDestroyed(renderer: LineRenderer, deaths: seq<Death>, asteroids: map<Entity, AsteroidOre>)
    returns (pieces: seq<Entity>)
    requires renderer.Valid()
    modifies renderer
    ensures renderer.Valid()
    ensures |pieces| == OrePieceCount(deaths, asteroids)
    ensures forall k :: 0 <= k < |pieces| ==> renderer.GetLines(pieces[k]) == Ok(GetLinesForOre(Crystal))
    ensures forall k :: 0 <= k < |pieces| ==> old(renderer.nextEntity) <= pieces[k] < renderer.nextEntity
    ensures forall j, k :: 0 <= j < k < |pieces| ==> pieces[j] < pieces[k]
    ensures forall e: Entity :: e < old(renderer.nextEntity) ==> renderer.GetLines(e) == old(renderer.GetLines(e))
  {
    pieces := [];
    for d := 0 to |deaths|
      invariant renderer.Valid()
      invariant old(renderer.nextEntity) <= renderer.nextEntity
      invariant |pieces| == OrePieceCount(deaths[..d], asteroids)
      invariant forall k :: 0 <= k < |pieces| ==> renderer.GetLines(pieces[k]) == Ok(GetLinesForOre(Crystal))
      invariant forall k :: 0 <= k < |pieces| ==> old(renderer.nextEntity) <= pieces[k] < renderer.nextEntity
      invariant forall j, k :: 0 <= j < k < |pieces| ==> pieces[j] < pieces[k]
      invariant forall e: Entity :: e < old(renderer.nextEntity) ==> renderer.GetLines(e) == old(renderer.GetLines(e))
    {
      assert deaths[..d + 1][..d] == deaths[..d];
      var event := deaths[d];
      if event.entity in asteroids {
        var ore := asteroids[event.entity];
        var dropped := SpawnOrePieces(renderer, ore);
        pieces := pieces + dropped;
      }
    }
    assert deaths[..|deaths|] == deaths;
  }

  // ---------------------------------------------------------------------------
  // handle_ore_pickup

  /// One collision of the frame, reduced to what the pickup reads: the ore
  /// piece whose pickup zone touched the ship (`None` when the pair is not the
  /// ship and the zone of an ore piece), and the positions of ship and piece.
  datatype Contact = Contact(ore: Option<Entity>, shipPos: Vec2, orePos: Vec2)

  /// The piece is within pickup distance: distance below 20, compared squared.
  predicate Close(c: Contact)
  {
    DistSq(c.orePos, c.shipPos) < 400.0
  }

  /// The state the pickup loop carries: the ship's ore amount, the pieces
  /// collected so far (the `already` list) and the pieces pulled toward the ship.
  datatype Pickup = Pickup(amount: nat, collected: seq<Entity>, attracted: seq<Entity>)

  /// One collision: with no room for one more ore nothing happens; otherwise
  /// the piece is pulled, and if it is close and not collected yet, it is
  /// collected and the amount grows by one.
  function PickupStep(s: Pickup, c: Contact, maxAmount: nat): Pickup
  {
    if c.ore.None? || s.amount + 1 > maxAmount then s
    else
      var pulled := s.(attracted := s.attracted + [c.ore.value]);
      if !Close(c) || c.ore.value in s.collected then pulled
      else pulled.(amount := s.amount + 1, collected := s.collected + [c.ore.value])
  }

  /// The collisions of a frame, in the order they are read.
  function PickupAll(contacts: seq<Contact>, amount: nat, maxAmount: nat): Pickup
  {
    if contacts == [] then Pickup(amount, [], [])
    else PickupStep(PickupAll(contacts[..|contacts| - 1], amount, maxAmount), contacts[|contacts| - 1], maxAmount)
  }

  /// What one frame of pickups guarantees: the amount grows by exactly the
  /// number of pieces collected and never beyond the maximum, no piece is
  /// collected twice, every collected piece was close to the ship in some
  /// collision, and every collected piece was also pulled.
  lemma {:induction false} PickupKeepsCapacity(contacts: seq<Contact>, amount: nat, maxAmount: nat)
    requires amount <= maxAmount
    ensures var r := PickupAll(contacts, amount, maxAmount);
      && r.amount == amount + |r.collected|
      && r.amount <= maxAmount
      && (forall i, j :: 0 <= i < j < |r.collected| ==> r.collected[i] != r.collected[j])
      && (forall k :: 0 <= k < |r.collected| ==>
            exists i :: 0 <= i < |contacts| && contacts[i].ore == Some(r.collected[k]) && Close(contacts[i]))
      && (forall k :: 0 <= k < |r.collected| ==> r.collected[k] in r.attracted)
  {
    if contacts != [] {
      var n := |contacts| - 1;
      var prefix := contacts[..n];
      PickupKeepsCapacity(prefix, amount, maxAmount);
      var s := PickupAll(prefix, amount, maxAmount);
      var r := PickupAll(contacts, amount, maxAmount);
      forall k | 0 <= k < |r.collected|
        ensures exists i :: 0 <= i < |contacts| && contacts[i].ore == Some(r.collected[k]) && Close(contacts[i])
      {
        if k < |s.collected| {
          var i :| 0 <= i < |prefix| && prefix[i].ore == Some(s.collected[k]) && Close(prefix[i]);
          assert contacts[i] == prefix[i];
        } else {
          assert contacts[n].ore == Some(r.collected[k]) && Close(contacts[n]);
        }
      }
      assert r.collected == s.collected || r.collected == s.collected + [contacts[n].ore.value];
      assert forall k :: 0 <= k < |s.collected| ==> r.collected[k] == s.collected[k];
    }
  }

  /// Every ore piece that came within pickup distance during the frame is
  /// collected, unless the inventory ends the frame full.
  lemma {:induction false} CloseOreCollectedOrFull(contacts: seq<Contact>, amount: nat, maxAmount: nat, i: nat)
    requires amount <= maxAmount
    requires i < |contacts| && contacts[i].ore.Some? && Close(contacts[i])
    ensures var r := PickupAll(contacts, amount, maxAmount);
      contacts[i].ore.value in r.collected || r.amount == maxAmount
  {
    var n := |contacts| - 1;
    var prefix := contacts[..n];
    PickupKeepsCapacity(prefix, amount, maxAmount);
    if i < n {
      assert prefix[i] == contacts[i];
      CloseOreCollectedOrFull(prefix, amount, maxAmount, i);
    }
  }

  /// `handle_ore_pickup` for the one ship: each collision with an ore
  /// piece's zone pulls the piece toward the ship while the inventory has
  /// room, and collects it (adding one ore) once it is closer than 20 and
  /// not collected yet. Returns the collected pieces, to be despawned, and
  /// the pulled ones.
  method HandleOrePickup(inventory: Inventory, contacts: seq<Contact>) returns (collected: seq<Entity>, attracted: seq<Entity>)
    requires inventory.Valid()
    modifies inventory
    ensures inventory.Valid()
    ensures var r := PickupAll(contacts, old(inventory.amount), inventory.maxAmount);
      inventory.amount == r.amount && collected == r.collected && attracted == r.attracted
  {
    collected := [];
    attracted := [];
    for n := 0 to |contacts|
      invariant inventory.Valid()
      invariant var r := PickupAll(contacts[..n], old(inventory.amount), inventory.maxAmount);
        inventory.amount == r.amount && collected == r.collected && attracted == r.attracted
    {
      assert contacts[..n + 1][..n] == contacts[..n];
      var c := contacts[n];
      if c.ore.None? {
        continue;
      }
      var ore := c.ore.value;
      if !inventory.CanAdd(1) {
        continue;
      }
      attracted := attracted + [ore];
      if Close(c) {
        if ore in collected {
          continue;
        }
        var added := inventory.TryAdd(1);
        if added {
          collected := collected + [ore];
        }
      }
    }
    assert contacts[..|contacts|] == contacts;
  }
}
