/// `LineRenderer`: spawns entities drawn from a line group and remembers, per
/// entity, the group last submitted for it (`LineHistory`). Entity commands
/// take effect immediately here, and the entity allocator is a counter.
module LineRendering {
  import opened Common
  import opened LineGroups
  import opened Packing
  import opened LineMesh

  /// The width inserted as the `LineRendererWidth` resource by the plugin.
  const DEFAULT_LINE_WIDTH: real := 0.01

  /// The component recording the caller's own, un-normalised group.
  datatype LineHistory = LineHistory(lines: LineGroup)

  /// Every entity with a history was allocated (is below `next`), and
  /// carries the mesh of exactly the group its history records.
  ghost predicate Consistent(histories: map<Entity, LineHistory>, meshes: map<Entity, MeshBundle>,
                             next: Entity, lineWidth: real)
  {
    && histories.Keys == meshes.Keys
    && (forall e :: e in histories ==> e < next)
    && (forall e {:trigger IsMeshOfGroup(meshes[e], histories[e].lines, lineWidth)} ::
          e in histories ==> IsMeshOfGroup(meshes[e], histories[e].lines, lineWidth))
  }

  /// Recording a group together with its mesh for an allocated entity keeps
  /// the store consistent.
  lemma RecordKeepsConsistent(histories: map<Entity, LineHistory>, meshes: map<Entity, MeshBundle>,
                              next: Entity, lineWidth: real, e: Entity, g: LineGroup, b: MeshBundle, next': Entity)
    requires Consistent(histories, meshes, next, lineWidth)
    requires next <= next' && e < next' && IsMeshOfGroup(b, g, lineWidth)
    ensures Consistent(histories[e := LineHistory(g)], meshes[e := b], next', lineWidth)
  {
    var h', m' := histories[e := LineHistory(g)], meshes[e := b];
    forall d | d in h' ensures IsMeshOfGroup(m'[d], h'[d].lines, lineWidth) {
      if d != e {
        assert IsMeshOfGroup(meshes[d], histories[d].lines, lineWidth);
      }
    }
  }

  class LineRenderer {
    var histories: map<Entity, LineHistory>
    var meshes: map<Entity, MeshBundle>
    var nextEntity: Entity
    const lineWidth: real

    ghost predicate Valid()
      reads this
    {
      Consistent(histories, meshes, nextEntity, lineWidth)
    }

    constructor()
      ensures Valid()
      ensures histories == map[] && meshes == map[] && nextEntity == 0
      ensures lineWidth == DEFAULT_LINE_WIDTH
    {
      histories := map[];
      meshes := map[];
      nextEntity := 0;
      lineWidth := DEFAULT_LINE_WIDTH;
    }

    /// `get_lines`: the recorded group; panics for an entity without one.
    function GetLines(entity: Entity): (r: Outcome<LineGroup>)
      reads this
      ensures r.Panic? <==> entity !in histories
      ensures r.Panic? ==> r.reason == NoLineHistory
    {
      if entity in histories then Ok(histories[entity].lines) else Panic(NoLineHistory)
    }

    /// The renderer's own copy of `lines_to_mesh`, with the renderer's width.
    method LinesToMesh(lines: LineGroup) returns (r: Outcome<MeshBundle>)
      requires HasDivisibleSize(lines)
      ensures r.Panic? <==> lines.lines == [] || |lines.lines| > LINE_NUMBER
      ensures r.Panic? && lines.lines == [] ==> r.reason == EmptyPointCloud
      ensures r.Ok? ==> IsMeshOfGroup(r.value, lines, lineWidth)
    {
      var padding := 1.2;
      var size := CalculateBoundingSize(lines);
      if size.Panic? {
        return Panic(size.reason);
      }
      var boundingSize := size.value;
      var actualSize := boundingSize * padding;
      var scalingFactor := boundingSize / 100.0;
      var adjustedWidth := lineWidth / scalingFactor;
      var adjustedLines := Scaled(lines, (1.0 / boundingSize) * (1.0 / padding));
      var flippedLines := FlippedVertically(adjustedLines);
      var settings := Packing.New(flippedLines, adjustedWidth);
      if settings.Panic? {
        return Panic(settings.reason);
      }
      return Ok(MeshBundle(Vectors.Vec2(actualSize, actualSize), settings.value));
    }

    /// `spawn`: a new entity carrying the mesh of `lines` and, as its
    /// history, `lines` itself as submitted.
    method Spawn(lines: LineGroup) returns (r: Outcome<Entity>)
      requires Valid() && HasDivisibleSize(lines)
      modifies this
      ensures Valid()
      ensures r.Panic? <==> lines.lines == [] || |lines.lines| > LINE_NUMBER
      ensures r.Panic? ==> unchanged(this)
      ensures r.Ok? ==>
        && r.value == old(nextEntity) && r.value !in old(histories)
        && nextEntity == old(nextEntity) + 1
        && histories == old(histories)[r.value := LineHistory(lines)]
        && r.value in meshes && meshes == old(meshes)[r.value := meshes[r.value]]
        && IsMeshOfGroup(meshes[r.value], lines, lineWidth)
        && GetLines(r.value) == Ok(lines)
    {
      var bundle := LinesToMesh(lines);
      if bundle.Panic? {
        return Panic(bundle.reason);
      }
      var entity := nextEntity;
      RecordKeepsConsistent(histories, meshes, nextEntity, lineWidth, entity, lines, bundle.value, nextEntity + 1);
      nextEntity := nextEntity + 1;
      meshes := meshes[entity := bundle.value];
      histories := histories[entity := LineHistory(lines)];
      return Ok(entity);
    }

    /// `commands.spawn(..)` on the renderer's own command queue, as done for
    /// an entity drawn without lines: a fresh entity with no history or mesh.
    method SpawnEntity() returns (e: Entity)
      requires Valid()
      modifies this
      ensures Valid()
      ensures e == old(nextEntity) && nextEntity == e + 1
      ensures histories == old(histories) && meshes == old(meshes)
    {
      e := nextEntity;
      nextEntity := nextEntity + 1;
    }

    /// `update`: replaces the entity's mesh and history; the mesh is built
    /// first, then the entity looked up.
    method Update(entity: Entity, lines: LineGroup) returns (r: Outcome<()>)
      requires Valid() && HasDivisibleSize(lines)
      modifies this
      ensures Valid()
      ensures r.Panic? <==> lines.lines == [] || |lines.lines| > LINE_NUMBER || entity >= nextEntity
      ensures r.Panic? ==> unchanged(this)
      ensures nextEntity == old(nextEntity)
      ensures r.Ok? ==>
        && histories == old(histories)[entity := LineHistory(lines)]
        && entity in meshes && meshes == old(meshes)[entity := meshes[entity]]
        && IsMeshOfGroup(meshes[entity], lines, lineWidth)
        && GetLines(entity) == Ok(lines)
        && (forall e :: e != entity ==> GetLines(e) == old(GetLines(e)))
    {
      var bundle := LinesToMesh(lines);
      if bundle.Panic? {
        return Panic(bundle.reason);
      }
      if entity >= nextEntity {
        return Panic(NoSuchEntity);
      }
      RecordKeepsConsistent(histories, meshes, nextEntity, lineWidth, entity, lines, bundle.value, nextEntity);
      meshes := meshes[entity := bundle.value];
      histories := histories[entity := LineHistory(lines)];
      return Ok(());
    }
  }

  /// A spawned entity updated once reports the second group, not the first.
  method LatestSubmissionWins(first: LineGroup, second: LineGroup) returns (r: Outcome<LineGroup>)
    requires first.lines != [] && |first.lines| <= LINE_NUMBER && HasDivisibleSize(first)
    requires second.lines != [] && |second.lines| <= LINE_NUMBER && HasDivisibleSize(second)
    ensures r == Ok(second)
  {
    var renderer := new LineRenderer();
    var spawned := renderer.Spawn(first);
    var updated := renderer.Update(spawned.value, second);
    r := renderer.GetLines(spawned.value);
  }
}
