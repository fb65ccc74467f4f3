# Space-miner line renderer and game rules, in Dafny

This project models the core of a small Bevy space-mining game written in Rust.
Every shape in the game is a list of 2-D line segments (`LineGroup`), drawn by
a shader that reads a fixed buffer of 256 packed segments. The model covers:

- **Segments and groups.** `Line` and `LineGroup` (files `line.dfy`,
  `line_group.dfy`) cover point extraction (all endpoints, first occurrences
  only, looped), concatenation, open and closed paths, scaling, translation,
  vertical flip, centring and the bounding box and bounding size.
- **Circles and placement.** Circles (`circle.dfy`), rotation and the two
  placement algorithms `scatter` and `scatter_circle` (`scatter.dfy`).
- **The vector font.** `letter` and `text` (`glyphs.dfy`), with its fixed
  advance of 10 units per character.
- **The shader buffer.** `LineRendererSettings` (`packer.dfy`) packs at most
  256 segments into the buffer, pads it with origin segments and unpacks it.
- **Mesh normalisation.** `lines_to_mesh` (`line_mesh.dfy`) scales a group
  into the unit quad, flips it vertically and rescales the line width.
- **The renderer.** The `LineRenderer` system parameter (`system_param.dfy`)
  spawns and updates drawn entities. It remembers, per entity, the group last
  submitted for it.
- **Game rules.**
  - The ship's `Inventory` (`inventory.dfy`).
  - `Health`, hit invincibility, `HealthManager::damage` and the despawn on
    death (`health.dfy`).
  - The ship's hull and thrusters, notched as hit points drop (`ship.dfy`).
  - The crystal ore: its shape, the pieces a destroyed ore asteroid drops,
    and the pickup loop of the ship (`ore.dfy`).

Conventions used throughout:

- Coordinates, health amounts and times are exact reals, not `f32`.
- Counts are unbounded naturals.
- Entities are natural numbers handed out by a counter.
- A Rust `panic!` or failing `unwrap` is an explicit `Panic(reason)` outcome
  (`Common.Outcome`). It is not a precondition.
- Random draws and trigonometry are function parameters:
  - `sampleCircle(p)` is the point at angle 2π·p on the unit circle;
  - `fromDegrees(d)` is the unit vector at `d` degrees;
  - `draws`, `rotations`, `noise` and `jitter` are the sequences of random
    values.
- Bevy commands take effect immediately.

## Model

| member | source | states |
|---|---|---|
| Lines.New | src/line_renderer/line.rs:10-15 | the segment keeps `a` and `b` unchanged and in order |
| Lines.Line.AsVec4 | src/line_renderer/line.rs:17-19 | the packed vector's `xy` half is `a` and its `zw` half is `b` |
| Lines.FromVec4 | src/line_renderer/mod.rs:72-74 | rebuilding a segment from a packed vector packs back to that same vector |
| Lines.UnpackPack | src/line_renderer/line.rs:17-19 | packing then unpacking a segment gives the same segment |
| Lines.OriginPacksToZero | src/line_renderer/mod.rs:57 | the origin padding segment packs to the zero vector, and the zero vector is the only record that unpacks to it |
| LineGroups.LineGroup.AddLine | src/line_renderer/line_group.rs:30-32 | one more segment, at the end, with the earlier segments unchanged |
| LineGroups.LineGroup.Extend | src/line_renderer/line_group.rs:67-69 | the group's segments followed by all of `other`'s, both in order |
| LineGroups.FromLine | src/line_renderer/line_group.rs:26-28 | a group of exactly that one segment |
| LineGroups.Concat | src/line_renderer/line_group.rs:61-65 | the segments of `g` followed by those of `other`; `g` is a value and is not changed |
| LineGroups.ConcatAssociative | src/line_renderer/line_group.rs:61-65 | concatenation is associative and the empty group is its unit on both sides |
| LineGroups.Endpoints | src/line_renderer/line_group.rs:34-41 | 2·n points, the `a` of segment i at 2i and its `b` at 2i+1 |
| LineGroups.EndpointAt | src/line_renderer/line_group.rs:34-41 | every endpoint position maps back to one segment, even to `a` and odd to `b` |
| LineGroups.EndpointsConcat | src/line_renderer/line_group.rs:34-41 | the endpoints of a concatenation are those of each part, in order |
| LineGroups.EndpointsAppend | src/line_renderer/line_group.rs:34-41 | endpoints distribute over appending segment lists |
| LineGroups.ToPoints | src/line_renderer/line_group.rs:34-41 | the push loop yields exactly the endpoints in traversal order |
| LineGroups.FirstOccurrencesSameSet | src/line_renderer/line_group.rs:43-53 | the unique points contain exactly the points of the cloud |
| LineGroups.FirstOccurrencesHas | src/line_renderer/line_group.rs:43-53 | a point is unique-kept exactly when it occurs in the cloud |
| LineGroups.FirstOccurrencesNoDuplicates | src/line_renderer/line_group.rs:43-53 | no point is kept twice |
| LineGroups.FirstOccurrencesPrefix | src/line_renderer/line_group.rs:43-53 | later points never disturb the points already kept: the unique points of a prefix are a prefix of the unique points of the whole |
| LineGroups.FirstOccurrencesKeep | src/line_renderer/line_group.rs:43-53 | a point absent from everything before it is kept, at the position equal to the number of distinct earlier points |
| LineGroups.FirstOccurrencesSnoc | src/line_renderer/line_group.rs:46-50 | pushing one point adds it to the unique points exactly when it is new |
| LineGroups.ToUniquePoints | src/line_renderer/line_group.rs:43-53 | the check-then-push loop yields the first occurrences of the endpoints, in traversal order |
| LineGroups.ToUniquePointsLooped | src/line_renderer/line_group.rs:55-59 | panics exactly on an empty group; otherwise the unique points followed by the first one again, so it has one more element and starts and ends at the first segment's `a` |
| LineGroups.GenerateContinuous | src/line_renderer/line_group.rs:71-79 | max(k−1, 0) segments for k points, segment i from point i to point i+1 |
| LineGroups.GenerateContinuousClosed | src/line_renderer/line_group.rs:81-89 | the open path plus a closing segment from the last point back to the first, present only when the path has a segment: k segments for k ≥ 2, none otherwise |
| LineGroups.ClosedPathIsCycle | src/line_renderer/line_group.rs:81-89 | a closed path is a cycle: each segment ends where the next one starts, and the last ends where the first starts |
| LineGroups.PathEndpointsFromPoints | src/line_renderer/line_group.rs:71-89 | every endpoint of an open or closed path is one of the given points |
| LineGroups.Scaled | src/line_renderer/line_group.rs:116-122 | same number of segments, in order, each endpoint multiplied by the factor |
| LineGroups.Offset | src/line_renderer/line_group.rs:134-140 | same number of segments, in order, each endpoint translated by the offset |
| LineGroups.FlippedVertically | src/line_renderer/line_group.rs:142-149 | same number of segments, each endpoint with `y` negated |
| LineGroups.ScaledByOne | src/line_renderer/line_group.rs:116-122 | scaling by 1 is the identity |
| LineGroups.ScaledByCompose | src/line_renderer/line_group.rs:116-122 | scaling by a then by b is scaling by a·b |
| LineGroups.OffsetByCompose | src/line_renderer/line_group.rs:134-140 | offsetting by v1 then by v2 is offsetting by v1+v2, and offsetting by zero is the identity |
| LineGroups.OffsetByConcat | src/line_renderer/line_group.rs:134-140 | offsetting a concatenation offsets both parts |
| LineGroups.FlipInvolution | src/line_renderer/line_group.rs:142-149 | flipping twice gives the group back |
| LineGroups.MinCorner | src/line_renderer/line_group.rs:112-114 | the box's min corner is at or below every point on both axes |
| LineGroups.MaxCorner | src/line_renderer/line_group.rs:112-114 | the box's max corner is at or above every point on both axes |
| LineGroups.CornersAttained | src/line_renderer/line_group.rs:112-114 | each corner coordinate is the coordinate of some point of the cloud |
| LineGroups.CalculateBoundingBox | src/line_renderer/line_group.rs:112-114 | panics exactly on an empty group, since there is no point cloud |
| LineGroups.CalculateBoundingSize | src/line_renderer/line_group.rs:105-110 | panics exactly on an empty group; otherwise never negative |
| LineGroups.BoundingSizeIsMaxAbsCoordinate | src/line_renderer/line_group.rs:105-114 | the bounding size is at least \|x\| and \|y\| of every endpoint, and some endpoint attains it |
| LineGroups.CornersShift | src/line_renderer/line_group.rs:112-114 | translating a cloud translates both corners of its box |
| LineGroups.EndpointsOffset | src/line_renderer/line_group.rs:134-140 | the endpoints of a translated group are the translated endpoints |
| LineGroups.Centered | src/line_renderer/line_group.rs:151-153 | panics exactly on an empty group; otherwise the group moved by minus its box centre |
| LineGroups.CenteredBoxAtOrigin | src/line_renderer/line_group.rs:151-153 | after centring, the bounding box is centred on the origin |
| Circles.GenerateCirclePoints | src/line_renderer/line_group.rs:353-359 | one point per index below the resolution: `sample_circle(i / 8)` times the radius |
| Circles.CirclePointsPrefix | src/line_renderer/line_group.rs:353-359 | a coarser circle's points are a prefix of a finer one's, because the step ignores the resolution |
| Circles.CircleRepeatsAfterEightVertices | src/line_renderer/line_group.rs:356 | with a period-1 `sample_circle`, vertex i+8 repeats vertex i: the literal `/ 8.` makes circles finer than 8 vertices go round again |
| Circles.GenerateCircle | src/line_renderer/line_group.rs:91-94 | exactly `generate_continuous_closed` of the circle points, so a cycle (`ClosedPathIsCycle`): `resolution` segments when at least 2, segment i starting at vertex i, the last one ending at the first vertex |
| Circles.GenerateRandomCircle | src/line_renderer/line_group.rs:96-103 | panics exactly when there is a point to move and the range `-range..range` is empty (`range` ≤ 0); otherwise exactly `generate_continuous_closed` of the circle points each moved by its own noise draw |
| Scatter.Rotated | src/line_renderer/line_group.rs:124-132 | same number of segments, each endpoint rotated by the unit vector of the angle |
| Scatter.RotationProperties | src/line_renderer/line_group.rs:124-132 | rotating by the unit vector (1, 0) is the identity, and a rotation by any unit vector keeps each segment's start point at its distance from the origin |
| Scatter.StampedSize | src/line_renderer/line_group.rs:155-215 | the copies placed at n offsets have n times the template's segments |
| Scatter.GenerateNewOffset | src/line_renderer/line_group.rs:156-172 | at most 64 draws are consumed; every rejected draw was too close to some earlier offset; a returned offset is the last draw and is far from all earlier ones; `None` exactly after 64 rejections; the result is the search `NewOffset` over the 64 draws from the cursor; the minimum distance is a bounding size, so never negative |
| Scatter.Scatter | src/line_renderer/line_group.rs:155-192 | panics exactly on an empty template; otherwise at most `number` copies, at offsets inside the disk and pairwise at least the bounding size apart, each copy rotated (when asked) and moved to its offset, in placement order; the offsets are exactly `Placed`: slot by slot, the first of the slot's up to 64 draws far from every earlier offset, a slot being skipped only when all 64 were too close |
| Scatter.ScatterCircle | src/line_renderer/line_group.rs:194-215 | panics exactly when `number` > 0 and the jitter range `-offset_range..offset_range` is empty; otherwise exactly `number` copies, copy n at the circle point for fraction n/number plus its jitter draw |
| Glyphs.LetterSupported | src/line_renderer/line_group.rs:217-335 | a character draws segments exactly when it is one of the 16 supported letters; all others give the empty group |
| Glyphs.PathFitsGlyphBox | src/line_renderer/line_group.rs:217-335 | a path through points of the glyph box stays in the box |
| Glyphs.ConcatFitsGlyphBox | src/line_renderer/line_group.rs:217-335 | two groups in the glyph box concatenate to a group in the box |
| Glyphs.SegmentsFitGlyphBox | src/line_renderer/line_group.rs:217-335 | segments whose ends are in the glyph box form a group in the box |
| Glyphs.LetterFitsGlyphBox | src/line_renderer/line_group.rs:217-335 | every glyph lies in the box [-4, 4] × [-4, 4] |
| Glyphs.ShiftIsOffset | src/line_renderer/line_group.rs:134-140 | building the translated group one segment at a time gives the same group as `offset` |
| Glyphs.ShiftCompose | src/line_renderer/line_group.rs:134-140 | two translations compose into one, and the zero translation is the identity |
| Glyphs.ShiftConcat | src/line_renderer/line_group.rs:134-140 | translating a concatenation translates both parts |
| Glyphs.Text | src/line_renderer/line_group.rs:337-345 | the loop's result is the glyph of each character i moved right by 10·i, concatenated left to right |
| Glyphs.TypesetSplit | src/line_renderer/line_group.rs:337-345 | typesetting a range is typesetting its two halves, one after the other |
| Glyphs.TypesetAppend | src/line_renderer/line_group.rs:337-345 | the text of s+t is the text of s followed by the text of t moved right by 10·\|s\| |
| Glyphs.TypesetAfter | src/line_renderer/line_group.rs:337-345 | characters typeset after a prefix of length m come out as their own text moved right by 10·m |
| Glyphs.TypesetPrefix | src/line_renderer/line_group.rs:337-345 | the text depends only on the characters typeset |
| Glyphs.BlankAtEnd | src/line_renderer/line_group.rs:337-345 | a trailing character without a glyph adds no segment |
| Glyphs.BlankAdvances | src/line_renderer/line_group.rs:337-345 | for any glyph table, a blank character adds nothing but moves everything after it one more advance to the right |
| Glyphs.UnsupportedCharacterAdvances | src/line_renderer/line_group.rs:337-345 | for the real font, a character without a glyph (a space, say) adds no segment but still advances the pen by 10 |
| Glyphs.TextOfAI | src/line_renderer/line_group.rs:337-345 | `text("AI")` is the glyph of A followed by the glyph of I moved right by 10 |
| Packing.LineRendererSettings.GetLines | src/line_renderer/mod.rs:72-74 | one segment per slot, each packing back to its slot |
| Packing.New | src/line_renderer/mod.rs:51-70 | panics exactly when the group has more than 256 segments (so 256 succeeds); otherwise slot i holds segment i packed, every later slot the zero vector, and the width is kept |
| Packing.Padding | src/line_renderer/mod.rs:57 | n origin segments |
| Packing.UnpackPacked | src/line_renderer/mod.rs:51-74 | unpacking gives exactly 256 segments, the group's then origin padding, so it gives back the group only when the group filled all 256 slots |
| Packing.PackingIsUnique | src/line_renderer/mod.rs:51-70 | a group and width have exactly one packing |
| LineRendering.RecordKeepsConsistent | src/line_renderer/system_param.rs:31-43 | recording a group with its mesh for an allocated entity keeps every history matched by the mesh of its group |
| LineRendering.LineRenderer.constructor | src/line_renderer/system_param.rs:16-28 | no histories, no meshes, width 0.01 |
| LineRendering.LineRenderer.GetLines | src/line_renderer/system_param.rs:45-47 | panics exactly for an entity without a history; otherwise the recorded group |
| LineRendering.LineRenderer.LinesToMesh | src/line_renderer/system_param.rs:49-68 | panics exactly on an empty group or more than 256 segments; otherwise the mesh of the group, the same as the free `lines_to_mesh` computes (`LineMesh.MeshIsUnique`) |
| LineRendering.LineRenderer.Spawn | src/line_renderer/system_param.rs:31-36 | a fresh entity carrying the mesh of the group and, as history, the caller's un-normalised group, which `get_lines` then returns; nothing else changes |
| LineRendering.LineRenderer.SpawnEntity | src/game/asteroid/ore.rs:76-79 | a fresh entity with no lines; the histories and meshes are unchanged |
| LineRendering.LineRenderer.Update | src/line_renderer/system_param.rs:38-43 | panics on an empty or oversized group or a never-spawned entity; otherwise overwrites that entity's mesh and history, so `get_lines` returns the new group and every other entity's lines stay as they were |
| LineRendering.LatestSubmissionWins | src/line_renderer/system_param.rs:31-47 | spawning with one group and updating with another makes `get_lines` return the second |
| LineMesh.LinesToMesh | src/line_renderer/line_mesh.rs:32-56 | panics exactly on an empty group or more than 256 segments; otherwise half-size is bounding size × 1.2, the packed lines are the group scaled by 1/(bounding·1.2) then flipped, and the width is width / (bounding / 100) |
| LineMesh.MeshIsUnique | src/line_renderer/line_mesh.rs:32-56 | one group, width and bounding size give one mesh, so both copies of `lines_to_mesh` agree |
| LineMesh.MeshRestoresGeometry | src/line_renderer/line_mesh.rs:38-53 | flipping the drawn segments back and scaling by the quad's half-size gives the submitted group; the quad is square; width × bounding size = 100 × requested width |
| LineMesh.RestoredByHalfSize | src/line_renderer/line_mesh.rs:40-43 | scaling by a factor and then by its inverse gives the group back |
| LineMesh.ScaleFactorInverse | src/line_renderer/line_mesh.rs:40-43 | the scale 1/(bs·1.2) is the inverse of the half-size bs·1.2 |
| LineMesh.RescaledWidth | src/line_renderer/line_mesh.rs:41-42 | the rescaled width times the bounding size is 100 times the width |
| LineMesh.MeshFitsQuad | src/line_renderer/line_mesh.rs:38-53 | every drawn coordinate lies within 1/1.2 of the quad centre, leaving the padding margin |
| LineMesh.MeshWithinQuad | src/line_renderer/line_mesh.rs:38-53 | a group within its bounding size is drawn within 1/1.2 |
| LineMesh.SegmentWithinBoundingSize | src/line_renderer/line_group.rs:105-110 | every segment lies within the bounding size on both axes |
| LineMesh.NormalisedGroupWithin | src/line_renderer/line_mesh.rs:43-44 | a group within bs, scaled by 1/(bs·1.2) and flipped, lies within 1/1.2 |
| LineMesh.NormalisedLineWithin | src/line_renderer/line_mesh.rs:43-44 | the same for one segment |
| LineMesh.NormalisedCoordinate | src/line_renderer/line_mesh.rs:43-44 | one coordinate within bs, scaled and possibly negated, lies within 1/1.2 |
| Inventories.Inventory.constructor | src/game/ship/inventory.rs:10-15 | amount 0 and the given maximum |
| Inventories.Inventory.CanAdd | src/game/ship/inventory.rs:17-22 | true exactly when amount + n ≤ maximum |
| Inventories.Inventory.TryAdd | src/game/ship/inventory.rs:24-30 | adds n and returns true exactly when `can_add(n)` held; otherwise returns false and leaves the amount; keeps amount ≤ maximum; the maximum never changes |
| Inventories.CanAddIsFreeCapacity | src/game/ship/inventory.rs:17-22 | n fits exactly when n is at most the free capacity, so any smaller count fits too |
| Inventories.UpdateFor | src/game/ship/inventory.rs:44-54 | the `InventoryUpdate` event carries the current amount and maximum |
| Healths.NewHealth | src/health/mod.rs:11-17 | full health, not destroyed on death; dead from the start exactly when the maximum is ≤ 0 |
| Healths.NewDestroyOnDeath | src/health/mod.rs:19-25 | full health, destroyed on death |
| Healths.NewInvincibility | src/health/mod.rs:39-44 | the given window and no hit yet |
| Healths.HitEffect | src/health/mod.rs:95-120 | a hit on a dead entity, or within the window after the last hit, returns `None` and changes nothing; otherwise the full amount is subtracted, the hit time is recorded when there is a window, `Some(amount)` is returned, and exactly one event is sent: `Death` exactly when the new amount is ≤ 0, else `DamageTaken` with the new amount |
| Healths.DeadStaysDead | src/health/mod.rs:100-102 | any number of hits on a dead entity changes nothing and sends nothing |
| Healths.DeathSentAtMostOnce | src/health/mod.rs:95-120 | whatever the hits, `Death` is sent at most once, and only if the entity ends dead |
| Healths.InvincibilityWindow | src/health/mod.rs:103-111 | after a landed hit at t, a hit at or before t + window is ignored, and a later one lands on a living entity |
| Healths.DamageAccumulates | src/health/mod.rs:112 | two landed hits take off the sum of their amounts |
| Healths.HealthManager.constructor | src/health/mod.rs:76-92 | the given components and clock, no events yet |
| Healths.HealthManager.Damage | src/health/mod.rs:95-120 | panics exactly for an entity without `Health`, changing nothing; otherwise applies the hit to that entity's components alone and appends its event |
| Healths.DespawnedExactly | src/health/mod.rs:133-146 | an entity is despawned exactly when a death was reported for it and its health is marked destroy-on-death |
| Healths.HandleDeathEvents | src/health/mod.rs:133-146 | the loop despawns exactly the destroy-on-death entities among the deaths, in event order, skipping entities without health |
| ShipShape.GetShipAndThrustersShape | src/game/ship/mod.rs:220-272 | 7, 10 or 13 hull points for HP ≥ 3, = 2, ≤ 1; the notch points are inserted after the bottom-left corner at 2 HP and also at index 5 at 1 HP; the hull is the closed path through them, from and back to (−15, −30); the thrusters are exactly the two open paths (−15,−30)→(−10,−50)→(−5,−30) and (15,−30)→(10,−50)→(5,−30), so two joined 2-segment chevrons |
| ShipShape.BaseOrderKept | src/game/ship/mod.rs:239-258 | the splices only insert: the 7 base points keep their order and all stay in the hull |
| Ores.CrystalShape | src/game/asteroid/ore.rs:135-144 | the crystal is the closed diamond of 4 segments through (−6,0), (0,10), (6,0), (0,−10); its unique points are those four corners in outline order, so the looped collider outline runs from (−6,0) round back to (−6,0); its bounding size is 10 |
| Ores.FirstOccurrencesOfDiamond | src/line_renderer/line_group.rs:43-53 | the diamond's 8 endpoints reduce to its 4 corners in order |
| Ores.CornersOfDiamond | src/line_renderer/line_group.rs:112-114 | the diamond's box runs from (−6, −10) to (6, 10) |
| Ores.SpawnOrePiece | src/game/asteroid/ore.rs:55-80 | a fresh piece whose history is the crystal, followed by its sensor-zone entity; no other entity's lines change |
| Ores.SpawnOrePieces | src/game/asteroid/ore.rs:54-81 | exactly `amount` crystal pieces, fresh and in increasing order; earlier entities' lines are unchanged |
| Ores.HandleAsteroidDestroyed | src/game/asteroid/ore.rs:47-84 | the number of pieces is the sum of the ore amounts of the dead ore asteroids; other deaths drop nothing; every piece draws the crystal; the pieces are fresh entities, distinct and in increasing order; the lines of every entity that existed before are unchanged |
| Ores.PickupKeepsCapacity | src/game/asteroid/ore.rs:86-133 | per frame, the amount grows by exactly the number of pieces collected and never beyond the maximum; no piece is collected twice; each collected piece was within 20 of the ship in some collision and was also pulled |
| Ores.CloseOreCollectedOrFull | src/game/asteroid/ore.rs:109-128 | every piece that came within 20 of the ship is collected unless the inventory ends the frame full |
| Ores.HandleOrePickup | src/game/asteroid/ore.rs:86-133 | the loop follows the source's checks in order (no ore, no room, pull, distance, already collected, `try_add`) and ends with the inventory amount, collected pieces and pulled pieces of the frame's pickup function |

## Left out

- The trigonometry of `sample_circle`, `Vec2::from_angle` and `to_radians` is
  a function parameter. Only counts and structure are proved about it. The
  literal step `/ 8.` of `generate_circle_points` is kept as written.
- Random draws are parameters:
  - `thread_rng`, `random_range` and `random_vec2_range`;
  - the disk sampling of `scatter`;
  - the force, position and rotation of dropped ore pieces.

  The model says nothing about their distributions. The one consequence of
  a draw's range that is modelled is the panic of `gen_range` on an empty
  range, in Circles.GenerateRandomCircle and Scatter.ScatterCircle.
- Circles.GenerateRandomCircle: the noise draws are not constrained to lie
  in `-range..range`; they are free parameters.
- Scatter.ScatterCircle: the same holds for its jitter draws.
- Scatter.GenerateNewOffset: the console message `println!("invalid")` it
  prints for each rejected candidate is not modelled.
- `f32` rounding is not modelled; all arithmetic is exact real arithmetic.
- Inventories.Inventory.CanAdd: does not model `u32` overflow of
  `amount + n`, because counts are unbounded naturals here.
- LineMesh.LinesToMesh: requires a positive bounding size when the group is
  non-empty. A group whose endpoints are all the origin makes the source
  divide by zero (giving infinities in `f32`), and that case is not modelled.
  The same requirement is on LineRendering.LineRenderer.LinesToMesh,
  LineRendering.LineRenderer.Spawn and LineRendering.LineRenderer.Update.
- Bevy's `Aabb2d::from_point_cloud` is modelled as the componentwise min and
  max over `to_points`. `Rectangle`, `Mesh2d`, the asset stores, the
  material and the WGSL shader are not modelled. The mesh is kept as its
  half-size and settings.
- ECS scheduling is not modelled: `Commands` deferral, queries, event
  readers and writers, and plugins. Commands act immediately and entities
  come from a counter. `spawn`'s extra component bundle is dropped; only its
  entity is allocated.
- The mesh plugin's `on_change` system is not modelled.
- `LineGroup::new` and `LineGroup::get_lines` are the datatype's constructor
  and field, and need no operation of their own.
- Ores.SpawnOrePiece: allocates the sensor-zone entity but does not record
  the parent/child link made by `add_child`.
- Ores.HandleOrePickup: each collision is reduced to `Contact`:
  - the ore piece that `query_double_mut` and the parent lookup found
    (`None` when the pair is not the ship and an ore zone);
  - the two positions.

  One ship is assumed. The pull force is recorded only as the list of
  pulled pieces. Collected pieces are returned rather than despawned, and
  the pickup sound is not played. The distance test `< 20` is compared
  squared (`< 400`).
- Physics (colliders, forces, sensors), input, audio, the camera, UI,
  animation timers and level management are not modelled.
