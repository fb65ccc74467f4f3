/// The procedural vector font: `LineGroup::letter` and `LineGroup::text`.
module Glyphs {
  import opened Vectors
  import opened Lines
  import opened LineGroups

  /// The characters that have a glyph; every other character maps to the
  /// empty group.
  const SUPPORTED: string := "AEFGILMNOPRSTUVY"

  /// `letter`: the glyph of one character, drawn in the box [-4, 4] x [-4, 4].
  function Letter(c: char): LineGroup
  {
    match c
    case 'A' =>
      Concat(GenerateContinuous([Vec2(-4.0, -4.0), Vec2(0.0, 4.0), Vec2(4.0, -4.0)]),
             LineGroup([New(Vec2(-3.0, 0.0), Vec2(3.0, 0.0))]))
    case 'E' =>
      Concat(GenerateContinuous([Vec2(3.0, -4.0), Vec2(-4.0, -4.0), Vec2(-4.0, 4.0), Vec2(3.0, 4.0)]),
             FromLine(New(Vec2(-4.0, 0.0), Vec2(2.0, 0.0))))
    case 'F' =>
      Concat(GenerateContinuous([Vec2(-4.0, -4.0), Vec2(-4.0, 4.0), Vec2(3.0, 4.0)]),
             FromLine(New(Vec2(-4.0, 0.0), Vec2(2.0, 0.0))))
    case 'G' =>
      GenerateContinuous([Vec2(4.0, 4.0), Vec2(-4.0, 3.0), Vec2(-4.0, -3.0), Vec2(4.0, -4.0),
                          Vec2(4.0, 0.0), Vec2(0.0, 0.0)])
    case 'I' => FromLine(New(Vec2(0.0, -4.0), Vec2(0.0, 4.0)))
    case 'L' => GenerateContinuous([Vec2(-4.0, 4.0), Vec2(-4.0, -4.0), Vec2(2.0, -4.0)])
    case 'M' =>
      GenerateContinuous([Vec2(-4.0, -4.0), Vec2(-2.0, 4.0), Vec2(0.0, 0.0), Vec2(2.0, 4.0),
                          Vec2(4.0, -4.0)])
    case 'N' => GenerateContinuous([Vec2(-4.0, -4.0), Vec2(-4.0, 4.0), Vec2(4.0, -4.0), Vec2(4.0, 4.0)])
    case 'O' =>
      GenerateContinuousClosed([Vec2(-2.0, -4.0), Vec2(2.0, -4.0), Vec2(4.0, 0.0), Vec2(2.0, 4.0),
                                Vec2(-2.0, 4.0), Vec2(-4.0, 0.0)])
    case 'P' =>
      GenerateContinuous([Vec2(-3.0, -4.0), Vec2(-3.0, 4.0), Vec2(2.0, 4.0), Vec2(3.0, 2.0),
                          Vec2(2.0, 0.0), Vec2(-3.0, 0.0)])
    case 'R' =>
      GenerateContinuous([Vec2(-3.0, -4.0), Vec2(-3.0, 4.0), Vec2(2.0, 4.0), Vec2(3.0, 2.0),
                          Vec2(2.0, 0.0), Vec2(-3.0, 0.0), Vec2(3.0, -4.0)])
    case 'S' =>
      GenerateContinuous([Vec2(3.0, 4.0), Vec2(-4.0, 4.0), Vec2(-4.0, 0.0), Vec2(3.0, 0.0),
                          Vec2(3.0, -4.0), Vec2(-4.0, -4.0)])
    case 'T' =>
      LineGroup([New(Vec2(0.0, -4.0), Vec2(0.0, 4.0)), New(Vec2(-4.0, 4.0), Vec2(4.0, 4.0))])
    case 'U' =>
      GenerateContinuous([Vec2(-4.0, 4.0), Vec2(-4.0, -2.0), Vec2(-2.0, -4.0), Vec2(2.0, -4.0),
                          Vec2(4.0, -2.0), Vec2(4.0, 4.0)])
    case 'V' => GenerateContinuous([Vec2(-3.0, 4.0), Vec2(0.0, -4.0), Vec2(3.0, 4.0)])
    case 'Y' =>
      Concat(GenerateContinuous([Vec2(-3.0, 4.0), Vec2(0.0, 0.0), Vec2(3.0, 4.0)]),
             FromLine(New(Vec2(0.0, 0.0), Vec2(0.0, -4.0))))
    case _ => EMPTY
  }

  /// A character has segments exactly when it is one of the supported letters.
  lemma LetterSupported(c: char)
    ensures Letter(c).lines != [] <==> c in SUPPORTED
  {
  }

  /// Every endpoint of `g` lies in the nominal glyph box [-4, 4] x [-4, 4].
  ghost predicate FitsGlyphBox(g: LineGroup)
  {
    forall p :: p in Endpoints(g.lines) ==> InGlyphBox(p)
  }

  ghost predicate InGlyphBox(p: Vec2)
  {
    -4.0 <= p.x <= 4.0 && -4.0 <= p.y <= 4.0
  }

  lemma PathFitsGlyphBox(ps: seq<Vec2>, closed: bool)
    requires forall p :: p in ps ==> InGlyphBox(p)
    ensures FitsGlyphBox(if closed then GenerateContinuousClosed(ps) else GenerateContinuous(ps))
  {
    PathEndpointsFromPoints(ps, closed);
  }

  lemma ConcatFitsGlyphBox(g: LineGroup, h: LineGroup)
    requires FitsGlyphBox(g) && FitsGlyphBox(h)
    ensures FitsGlyphBox(Concat(g, h))
  {
    EndpointsConcat(g, h);
  }

  lemma SegmentsFitGlyphBox(g: LineGroup)
    requires forall l :: l in g.lines ==> InGlyphBox(l.a) && InGlyphBox(l.b)
    ensures FitsGlyphBox(g)
  {
    var es := Endpoints(g.lines);
    forall p | p in es ensures InGlyphBox(p) {
      var j :| 0 <= j < |es| && es[j] == p;
      EndpointAt(g.lines, j);
      assert g.lines[j / 2] in g.lines;
    }
  }

  /// Every glyph fits the nominal box [-4, 4] x [-4, 4] around the origin.
  lemma LetterFitsGlyphBox(c: char)
    ensures FitsGlyphBox(Letter(c))
  {
    match c
    case 'A' =>
      PathFitsGlyphBox([Vec2(-4.0, -4.0), Vec2(0.0, 4.0), Vec2(4.0, -4.0)], false);
      SegmentsFitGlyphBox(LineGroup([New(Vec2(-3.0, 0.0), Vec2(3.0, 0.0))]));
      ConcatFitsGlyphBox(GenerateContinuous([Vec2(-4.0, -4.0), Vec2(0.0, 4.0), Vec2(4.0, -4.0)]),
                         LineGroup([New(Vec2(-3.0, 0.0), Vec2(3.0, 0.0))]));
    case 'E' =>
      PathFitsGlyphBox([Vec2(3.0, -4.0), Vec2(-4.0, -4.0), Vec2(-4.0, 4.0), Vec2(3.0, 4.0)], false);
      SegmentsFitGlyphBox(FromLine(New(Vec2(-4.0, 0.0), Vec2(2.0, 0.0))));
      ConcatFitsGlyphBox(GenerateContinuous([Vec2(3.0, -4.0), Vec2(-4.0, -4.0), Vec2(-4.0, 4.0), Vec2(3.0, 4.0)]),
                         FromLine(New(Vec2(-4.0, 0.0), Vec2(2.0, 0.0))));
    case 'F' =>
      PathFitsGlyphBox([Vec2(-4.0, -4.0), Vec2(-4.0, 4.0), Vec2(3.0, 4.0)], false);
      SegmentsFitGlyphBox(FromLine(New(Vec2(-4.0, 0.0), Vec2(2.0, 0.0))));
      ConcatFitsGlyphBox(GenerateContinuous([Vec2(-4.0, -4.0), Vec2(-4.0, 4.0), Vec2(3.0, 4.0)]),
                         FromLine(New(Vec2(-4.0, 0.0), Vec2(2.0, 0.0))));
    case 'G' =>
      PathFitsGlyphBox([Vec2(4.0, 4.0), Vec2(-4.0, 3.0), Vec2(-4.0, -3.0), Vec2(4.0, -4.0),
                        Vec2(4.0, 0.0), Vec2(0.0, 0.0)], false);
    case 'I' => SegmentsFitGlyphBox(FromLine(New(Vec2(0.0, -4.0), Vec2(0.0, 4.0))));
    case 'L' => PathFitsGlyphBox([Vec2(-4.0, 4.0), Vec2(-4.0, -4.0), Vec2(2.0, -4.0)], false);
    case 'M' =>
      PathFitsGlyphBox([Vec2(-4.0, -4.0), Vec2(-2.0, 4.0), Vec2(0.0, 0.0), Vec2(2.0, 4.0),
                        Vec2(4.0, -4.0)], false);
    case 'N' => PathFitsGlyphBox([Vec2(-4.0, -4.0), Vec2(-4.0, 4.0), Vec2(4.0, -4.0), Vec2(4.0, 4.0)], false);
    case 'O' =>
      PathFitsGlyphBox([Vec2(-2.0, -4.0), Vec2(2.0, -4.0), Vec2(4.0, 0.0), Vec2(2.0, 4.0),
                        Vec2(-2.0, 4.0), Vec2(-4.0, 0.0)], true);
    case 'P' =>
      PathFitsGlyphBox([Vec2(-3.0, -4.0), Vec2(-3.0, 4.0), Vec2(2.0, 4.0), Vec2(3.0, 2.0),
                        Vec2(2.0, 0.0), Vec2(-3.0, 0.0)], false);
    case 'R' =>
      PathFitsGlyphBox([Vec2(-3.0, -4.0), Vec2(-3.0, 4.0), Vec2(2.0, 4.0), Vec2(3.0, 2.0),
                        Vec2(2.0, 0.0), Vec2(-3.0, 0.0), Vec2(3.0, -4.0)], false);
    case 'S' =>
      PathFitsGlyphBox([Vec2(3.0, 4.0), Vec2(-4.0, 4.0), Vec2(-4.0, 0.0), Vec2(3.0, 0.0),
                        Vec2(3.0, -4.0), Vec2(-4.0, -4.0)], false);
    case 'T' =>
      SegmentsFitGlyphBox(LineGroup([New(Vec2(0.0, -4.0), Vec2(0.0, 4.0)), New(Vec2(-4.0, 4.0), Vec2(4.0, 4.0))]));
    case 'U' =>
      PathFitsGlyphBox([Vec2(-4.0, 4.0), Vec2(-4.0, -2.0), Vec2(-2.0, -4.0), Vec2(2.0, -4.0),
                        Vec2(4.0, -2.0), Vec2(4.0, 4.0)], false);
    case 'V' => PathFitsGlyphBox([Vec2(-3.0, 4.0), Vec2(0.0, -4.0), Vec2(3.0, 4.0)], false);
    case 'Y' =>
      PathFitsGlyphBox([Vec2(-3.0, 4.0), Vec2(0.0, 0.0), Vec2(3.0, 4.0)], false);
      SegmentsFitGlyphBox(FromLine(New(Vec2(0.0, 0.0), Vec2(0.0, -4.0))));
      ConcatFitsGlyphBox(GenerateContinuous([Vec2(-3.0, 4.0), Vec2(0.0, 0.0), Vec2(3.0, 4.0)]),
                         FromLine(New(Vec2(0.0, 0.0), Vec2(0.0, -4.0))));
    case _ =>
  }

  /// `g` moved by `v`, built one segment at a time: the same group as
  /// `OffsetBy(g, v)` (`ShiftIsOffset`), in the form the typesetting lemmas
  /// unfold.
  function Shift(g: LineGroup, v: Vec2): LineGroup
    decreases |g.lines|
  {
    if g.lines == [] then EMPTY
    else LineGroup(Shift(LineGroup(g.lines[..|g.lines| - 1]), v).lines + [g.lines[|g.lines| - 1].Offset(v)])
  }

  lemma {:induction false} ShiftIsOffset(g: LineGroup, v: Vec2)
    ensures Shift(g, v) == OffsetBy(g, v)
    decreases |g.lines|
  {
    if g.lines != [] {
      ShiftIsOffset(LineGroup(g.lines[..|g.lines| - 1]), v);
      assert Shift(g, v).lines == OffsetBy(g, v).lines;
    }
  }

  lemma ShiftCompose(g: LineGroup, e: Vec2, d: Vec2)
    ensures Shift(Shift(g, e), d) == Shift(g, e.Add(d))
    ensures Shift(g, ZERO2) == g
  {
    ShiftIsOffset(g, e);
    ShiftIsOffset(Shift(g, e), d);
    ShiftIsOffset(g, e.Add(d));
    ShiftIsOffset(g, ZERO2);
    OffsetByCompose(g, e, d);
  }

  lemma ShiftConcat(g: LineGroup, h: LineGroup, d: Vec2)
    ensures Shift(Concat(g, h), d) == Concat(Shift(g, d), Shift(h, d))
  {
    ShiftIsOffset(Concat(g, h), d);
    ShiftIsOffset(g, d);
    ShiftIsOffset(h, d);
    OffsetByConcat(g, h, d);
  }

  /// The glyphs of the characters `s[lo..hi]`, the one at index i moved right
  /// by 10·i, concatenated left to right; stated for any glyph table so that
  /// the lemmas below do not depend on the shapes of the letters.
  function Typeset(s: string, glyph: char -> LineGroup, lo: nat, hi: nat): LineGroup
    requires lo <= hi <= |s|
    decreases hi - lo
  {
    if hi == lo then EMPTY
    else Concat(Typeset(s, glyph, lo, hi - 1), Shift(glyph(s[hi - 1]), Vec2(10.0 * (hi - 1) as real, 0.0)))
  }

  function TextLines(s: string): LineGroup
  {
    Typeset(s, Letter, 0, |s|)
  }

  /// `text`: appends each glyph at the pen position, then advances the pen
  /// by 10 whether or not the character drew anything.
  method Text(s: string) returns (res: LineGroup)
    ensures res == TextLines(s)
  {
    res := EMPTY;
    var offset := 0.0;
    for i := 0 to |s|
      invariant res == Typeset(s, Letter, 0, i)
      invariant offset == 10.0 * i as real
    {
      var glyph := Offset(Letter(s[i]), Vec2(offset, 0.0));
      ShiftIsOffset(Letter(s[i]), Vec2(offset, 0.0));
      res := res.Extend(glyph);
      offset := offset + 10.0;
    }
  }

  /// Typesetting a range is typesetting its two halves, one after the other.
  lemma {:induction false} TypesetSplit(s: string, glyph: char -> LineGroup, lo: nat, mid: nat, hi: nat)
    requires lo <= mid <= hi <= |s|
    ensures Typeset(s, glyph, lo, hi) == Concat(Typeset(s, glyph, lo, mid), Typeset(s, glyph, mid, hi))
    decreases hi - mid
  {
    if hi == mid {
      ConcatAssociative(Typeset(s, glyph, lo, mid), EMPTY, EMPTY);
    } else {
      TypesetSplit(s, glyph, lo, mid, hi - 1);
      var g := Shift(glyph(s[hi - 1]), Vec2(10.0 * (hi - 1) as real, 0.0));
      ConcatAssociative(Typeset(s, glyph, lo, mid), Typeset(s, glyph, mid, hi - 1), g);
    }
  }

  /// Typesetting a concatenation: the second part is typeset on its own and
  /// moved right by 10 per character of the first part.
  lemma TypesetAppend(s: string, t: string, glyph: char -> LineGroup)
    ensures Typeset(s + t, glyph, 0, |s| + |t|) ==
      Concat(Typeset(s, glyph, 0, |s|), Shift(Typeset(t, glyph, 0, |t|), Vec2(10.0 * |s| as real, 0.0)))
  {
    TypesetAppendAt(s, t, glyph, |s|, |s| + |t|, Vec2(10.0 * |s| as real, 0.0));
  }

  /// `TypesetAppend` with the length of `s`, the total length and the move
  /// named, so that callers can match the conclusion term for term.
  lemma TypesetAppendAt(s: string, t: string, glyph: char -> LineGroup, m: nat, hi: nat, d: Vec2)
    requires m == |s| && hi == m + |t| && d == Vec2(10.0 * m as real, 0.0)
    ensures Typeset(s + t, glyph, 0, hi) == Concat(Typeset(s, glyph, 0, m), Shift(Typeset(t, glyph, 0, |t|), d))
  {
    var x := s + t;
    assert x[..m] == s[..m];
    assert x[m..hi] == t;
    TypesetPrefix(x, s, glyph, m);
    TypesetAfter(x, t, glyph, Typeset(s, glyph, 0, m), m, |t|, hi, d);
  }

  /// If the first `m` characters of `x` typeset to `front` and `t` follows
  /// them, the first `n` characters of `t` typeset after `front`, moved right
  /// by 10·m. (`hi` and `d` name `m + n` and that move, so that callers can
  /// match the conclusion term for term.)
  lemma {:induction false} TypesetAfter(x: string, t: string, glyph: char -> LineGroup, front: LineGroup,
                                        m: nat, n: nat, hi: nat, d: Vec2)
    requires n <= |t| && m + |t| <= |x| && hi == m + n && d == Vec2(10.0 * m as real, 0.0)
    requires Typeset(x, glyph, 0, m) == front && x[m..m + |t|] == t
    ensures Typeset(x, glyph, 0, hi) == Concat(front, Shift(Typeset(t, glyph, 0, n), d))
    decreases n
  {
    if n == 0 {
      ConcatAssociative(front, EMPTY, EMPTY);
    } else {
      TypesetAfter(x, t, glyph, front, m, n - 1, hi - 1, d);
      var g := glyph(t[n - 1]);
      var e := Vec2(10.0 * (n - 1) as real, 0.0);
      assert x[hi - 1] == x[m..m + |t|][n - 1];
      assert e.Add(d) == Vec2(10.0 * (hi - 1) as real, 0.0);
      ShiftCompose(g, e, d);
      ShiftConcat(Typeset(t, glyph, 0, n - 1), Shift(g, e), d);
      ConcatAssociative(front, Shift(Typeset(t, glyph, 0, n - 1), d), Shift(g, e.Add(d)));
    }
  }

  /// A character without a glyph (a space, say) draws nothing but still moves
  /// everything after it one advance to the right.
  lemma UnsupportedCharacterAdvances(s: string, c: char, t: string)
    requires c !in SUPPORTED
    ensures TextLines(s + [c] + t) ==
      Concat(TextLines(s), OffsetBy(TextLines(t), Vec2(10.0 * (|s| + 1) as real, 0.0)))
  {
    LetterSupported(c);
    BlankAdvances(s, c, t, s + [c], s + [c] + t, Letter);
    ShiftIsOffset(TextLines(t), Vec2(10.0 * (|s| + 1) as real, 0.0));
  }

  /// `UnsupportedCharacterAdvances` for any glyph table, with `s + [c]` and
  /// `s + [c] + t` named.
  lemma BlankAdvances(s: string, c: char, t: string, sc: string, x: string, glyph: char -> LineGroup)
    requires glyph(c).lines == [] && sc == s + [c] && x == sc + t
    ensures Typeset(x, glyph, 0, |x|) ==
      Concat(Typeset(s, glyph, 0, |s|), Shift(Typeset(t, glyph, 0, |t|), Vec2(10.0 * |sc| as real, 0.0)))
  {
    BlankAtEnd(s, c, sc, glyph);
    TypesetAppendAt(sc, t, glyph, |sc|, |x|, Vec2(10.0 * |sc| as real, 0.0));
  }

  /// A blank last character adds no segment.
  lemma BlankAtEnd(s: string, c: char, sc: string, glyph: char -> LineGroup)
    requires glyph(c).lines == [] && sc == s + [c]
    ensures Typeset(sc, glyph, 0, |sc|) == Typeset(s, glyph, 0, |s|)
  {
    assert sc[..|s|] == s[..|s|];
    TypesetPrefix(sc, s, glyph, |s|);
    TypesetLast(sc, glyph, |sc|, |s|);
    assert sc[|s|] == c;
    assert Shift(glyph(c), Vec2(10.0 * |s| as real, 0.0)) == EMPTY;
    ConcatAssociative(Typeset(s, glyph, 0, |s|), EMPTY, EMPTY);
  }

  /// One unfolding of `Typeset` with the last index named.
  lemma TypesetLast(s: string, glyph: char -> LineGroup, hi: nat, last: nat)
    requires 0 < hi <= |s| && last == hi - 1
    ensures Typeset(s, glyph, 0, hi) ==
      Concat(Typeset(s, glyph, 0, last), Shift(glyph(s[last]), Vec2(10.0 * last as real, 0.0)))
  {
  }

  /// Typesetting depends only on the characters typeset.
  lemma {:induction false} TypesetPrefix(x: string, y: string, glyph: char -> LineGroup, hi: nat)
    requires hi <= |x| && hi <= |y| && x[..hi] == y[..hi]
    ensures Typeset(x, glyph, 0, hi) == Typeset(y, glyph, 0, hi)
  {
    if hi > 0 {
      assert x[..hi - 1] == x[..hi][..hi - 1];
      assert y[..hi - 1] == y[..hi][..hi - 1];
      TypesetPrefix(x, y, glyph, hi - 1);
      assert x[hi - 1] == x[..hi][hi - 1];
    }
  }

  /// `text("AI")` is the glyph of 'A' followed by the glyph of 'I' moved right by 10.
  lemma TextOfAI()
    ensures TextLines("AI") == Concat(Letter('A'), OffsetBy(Letter('I'), Vec2(10.0, 0.0)))
  {
    ShiftCompose(Letter('A'), ZERO2, ZERO2);
    ShiftIsOffset(Letter('I'), Vec2(10.0, 0.0));
    ConcatAssociative(Letter('A'), EMPTY, EMPTY);
    assert Typeset("AI", Letter, 0, 1) == Letter('A');
  }
}
