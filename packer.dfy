/// `LineRendererSettings`: the fixed-capacity buffer of packed segments that
/// the line shader reads, and its unpacking.
module Packing {
  import opened Common
  import opened Vectors
  import opened Lines
  import opened LineGroups

  /// Capacity of the shader buffer.
  const LINE_NUMBER: nat := 256

  /// The settings are a plain value: a 256-slot array of packed segments
  /// (a Rust array is copied by value) and a line width.
  datatype LineRendererSettings = LineRendererSettings(lines: seq<Vec4>, width: real)
  {
    /// `get_lines`: every slot unpacked back into a segment.
    function GetLines(): (g: LineGroup)
      ensures |g.lines| == |lines|
      ensures forall i :: 0 <= i < |lines| ==> g.lines[i].AsVec4() == lines[i]
    {
      LineGroup(seq(|lines|, i requires 0 <= i < |lines| => FromVec4(lines[i])))
    }
  }

  /// `s` is `group` packed: 256 slots, slot i holding segment i of the group
  /// while there is one and the zero vector after, and the width unchanged.
  ghost predicate IsPackingOf(s: LineRendererSettings, group: LineGroup, width: real)
  {
    && |s.lines| == LINE_NUMBER
    && |group.lines| <= LINE_NUMBER
    && s.width == width
    && (forall i :: 0 <= i < |group.lines| ==> s.lines[i] == group.lines[i].AsVec4())
    && (forall i :: |group.lines| <= i < LINE_NUMBER ==> s.lines[i] == ZERO4)
  }

  /// `LineRendererSettings::new`: panics when the group has more segments than
  /// slots; otherwise copies the segments into a buffer of origin segments
  /// and packs every slot.
  method New(group: LineGroup, width: real) returns (r: Outcome<LineRendererSettings>)
    ensures r.Panic? <==> |group.lines| > LINE_NUMBER
    ensures r.Panic? ==> r.reason == TooManyLines
    ensures r.Ok? ==> IsPackingOf(r.value, group, width)
  {
    var lines := group.lines;
    var lineAmount := |lines|;
    if lineAmount > LINE_NUMBER {
      return Panic(TooManyLines);
    }
    var linesArray := new Line[LINE_NUMBER](_ => ORIGIN_LINE);
    for i := 0 to lineAmount
      invariant forall k :: 0 <= k < i ==> linesArray[k] == lines[k]
      invariant forall k :: i <= k < LINE_NUMBER ==> linesArray[k] == ORIGIN_LINE
    {
      linesArray[i] := lines[i];
    }
    var filled := linesArray[..];
    var packed := seq(LINE_NUMBER, k requires 0 <= k < LINE_NUMBER => filled[k].AsVec4());
    return Ok(LineRendererSettings(packed, width));
  }

  /// The padding that fills the unused slots, as segments.
  function Padding(n: nat): (p: seq<Line>)
    ensures |p| == n && forall i :: 0 <= i < n ==> p[i] == ORIGIN_LINE
  {
    seq(n, _ => ORIGIN_LINE)
  }

  /// Unpacking a packed group gives exactly 256 segments: the group's own, in
  /// order, then origin segments. It gives back the group itself exactly when
  /// the group filled every slot.
  lemma UnpackPacked(s: LineRendererSettings, group: LineGroup, width: real)
    requires IsPackingOf(s, group, width)
    ensures s.GetLines().lines == group.lines + Padding(LINE_NUMBER - |group.lines|)
    ensures |s.GetLines().lines| == LINE_NUMBER
    ensures s.GetLines() == group <==> |group.lines| == LINE_NUMBER
  {
    var u := s.GetLines().lines;
    var expected := group.lines + Padding(LINE_NUMBER - |group.lines|);
    forall i | 0 <= i < LINE_NUMBER ensures u[i] == expected[i] {
      UnpackPack(expected[i]);
      if i >= |group.lines| {
        OriginPacksToZero(s.lines[i]);
      }
    }
  }

  /// The packing of a group with a given width is unique.
  lemma PackingIsUnique(s: LineRendererSettings, t: LineRendererSettings, group: LineGroup, width: real)
    requires IsPackingOf(s, group, width) && IsPackingOf(t, group, width)
    ensures s == t
  {
    forall i | 0 <= i < LINE_NUMBER ensures s.lines[i] == t.lines[i] {
    }
  }
}
