/**
 * The glyph layout DrawString performs: a pen walks the text, '\r' is skipped, '\n' starts
 * a new line, and every other character places one glyph. The flip and rotation matrix of
 * the full DrawString overload, and the batch items both overloads emit per glyph.
 */
module TextLayout {
  import opened Wrappers
  import opened SpriteGeometry
  import opened Numerics

  /**
   * A UTF-16 code unit, which is what a C# `char` is: the text loops index `string` and
   * `StringBuilder` by code unit, so a character outside the Basic Multilingual Plane is
   * two units (a surrogate pair), looked up and placed one at a time.
   */
  newtype CodeUnit = x: int | 0 <= x < 0x1_0000

  /** A C# string or StringBuilder's contents, as its sequence of code units. */
  type Text = seq<CodeUnit>

  /** '\r' and '\n'. */
  const CR: CodeUnit := 13
  const LF: CodeUnit := 10

  /** A glyph of the font's glyph table. */
  datatype Glyph = Glyph(BoundsInTexture: Rectangle, Cropping: Rectangle,
                         LeftSideBearing: real, RightSideBearing: real, Width: real)

  /**
   * The font collaborator: its texture, glyph table, the glyph-index lookup
   * (GetGlyphIndexOrDefault, a total function here), line spacing and glyph spacing.
   */
  datatype SpriteFont = SpriteFont(Texture: Texture2D, Glyphs: seq<Glyph>, GlyphIndex: CodeUnit -> nat,
                                   LineSpacing: int, Spacing: real)

  /** Every character's glyph index lies inside the glyph table. */
  ghost predicate ValidFont(font: SpriteFont)
  {
    forall c: CodeUnit :: font.GlyphIndex(c) < |font.Glyphs|
  }

  function GlyphOf(font: SpriteFont, c: CodeUnit): Glyph
    requires ValidFont(font)
  {
    font.Glyphs[font.GlyphIndex(c)]
  }

  function Max(a: real, b: real): real
  {
    if a < b then b else a
  }

  /** Characters that place a glyph. */
  predicate IsGlyphChar(c: CodeUnit)
  {
    c != CR && c != LF
  }

  /** The loop state: `offset` and `firstGlyphOfLine`. */
  datatype Pen = Pen(X: real, Y: real, FirstGlyphOfLine: bool)

  const StartPen: Pen := Pen(0.0, 0.0, true)

  /** Where a glyph is placed on the pen's line: the first one clamps its left bearing at 0. */
  function GlyphX(font: SpriteFont, pen: Pen, g: Glyph): real
  {
    if pen.FirstGlyphOfLine then Max(g.LeftSideBearing, 0.0)
    else pen.X + font.Spacing + g.LeftSideBearing
  }

  /** One iteration of the text loop. */
  function Step(font: SpriteFont, pen: Pen, c: CodeUnit): Pen
    requires ValidFont(font)
  {
    if c == CR then pen
    else if c == LF then Pen(0.0, pen.Y + font.LineSpacing as real, true)
    else
      var g := GlyphOf(font, c);
      Pen(GlyphX(font, pen, g) + g.Width + g.RightSideBearing, pen.Y, false)
  }

  /** The pen after the loop has consumed `s`. */
  function PenAfter(font: SpriteFont, s: Text): Pen
    requires ValidFont(font)
  {
    if |s| == 0 then StartPen else Step(font, PenAfter(font, s[..|s| - 1]), s[|s| - 1])
  }

  /**
   * A placed glyph: the index of its character in the text, the character, its glyph, the
   * pen offset it is drawn at, and whether it is the first glyph of its line.
   */
  datatype Placement = Placement(Index: nat, Ch: CodeUnit, Glyph: Glyph, Offset: Vector2, FirstOnLine: bool)

  /** The glyphs the loop places for `s`, in text order. */
  function Placements(font: SpriteFont, s: Text): seq<Placement>
    requires ValidFont(font)
  {
    if |s| == 0 then []
    else
      var pre, c := s[..|s| - 1], s[|s| - 1];
      var pen := PenAfter(font, pre);
      Placements(font, pre) +
        (if IsGlyphChar(c) then
           [Placement(|s| - 1, c, GlyphOf(font, c), Vector2(GlyphX(font, pen, GlyphOf(font, c)), pen.Y), pen.FirstGlyphOfLine)]
         else [])
  }

  /** The characters of `s` that place a glyph. */
  function Visible(s: Text): Text
  {
    if |s| == 0 then [] else Visible(s[..|s| - 1]) + (if IsGlyphChar(s[|s| - 1]) then [s[|s| - 1]] else [])
  }

  function Chars(ps: seq<Placement>): Text
  {
    seq(|ps|, k requires 0 <= k < |ps| => ps[k].Ch)
  }

  function NewlineCount(s: Text): nat
  {
    if |s| == 0 then 0 else NewlineCount(s[..|s| - 1]) + (if s[|s| - 1] == LF then 1 else 0)
  }

  /** Nothing but carriage returns since the last line feed (or the start of the text). */
  predicate AtLineStart(s: Text)
  {
    |s| == 0 || s[|s| - 1] == LF || (s[|s| - 1] == CR && AtLineStart(s[..|s| - 1]))
  }

  /** One more character of the text: one more step of the pen, one more glyph if it shows. */
  lemma PrefixStep(font: SpriteFont, s: Text, i: nat)
    requires ValidFont(font) && i < |s|
    ensures PenAfter(font, s[..i + 1]) == Step(font, PenAfter(font, s[..i]), s[i])
    ensures var pen := PenAfter(font, s[..i]);
      Placements(font, s[..i + 1]) == Placements(font, s[..i]) +
        (if IsGlyphChar(s[i]) then
           [Placement(i, s[i], GlyphOf(font, s[i]), Vector2(GlyphX(font, pen, GlyphOf(font, s[i])), pen.Y), pen.FirstGlyphOfLine)]
         else [])
  {
    assert s[..i + 1][..i] == s[..i];
  }

  // ---- The pen ----

  /**
   * One glyph per character that is neither '\r' nor '\n', in text order: the placed
   * characters are exactly the visible ones.
   */
  lemma {:induction false} PlacementsFollowText(font: SpriteFont, s: Text)
    requires ValidFont(font)
    ensures Chars(Placements(font, s)) == Visible(s)
    ensures |Placements(font, s)| == |Visible(s)|
  {
    if |s| > 0 {
      PlacementsFollowText(font, s[..|s| - 1]);
    }
  }

  /**
   * A character outside the Basic Multilingual Plane, such as U+1F600, is two code units
   * (the surrogate pair D83D DE00), and each unit gets its own glyph lookup and placement.
   */
  lemma {:induction false} SurrogatePairPlacesTwoGlyphs(font: SpriteFont)
    requires ValidFont(font)
    ensures |Placements(font, [0xD83D, 0xDE00])| == 2
    ensures Placements(font, [0xD83D, 0xDE00])[0].Glyph == GlyphOf(font, 0xD83D)
    ensures Placements(font, [0xD83D, 0xDE00])[1].Glyph == GlyphOf(font, 0xDE00)
  {
    var s: Text := [0xD83D, 0xDE00];
    PlacementsFollowText(font, s);
    PlacementIndices(font, s);
    assert s[..1] == [0xD83D] && s[..1][..0] == [];
    assert Visible(s) == s;
  }

  /**
   * Each placement points at its own character in the text, with that character's glyph,
   * and the indices increase strictly.
   */
  lemma {:induction false} PlacementIndices(font: SpriteFont, s: Text)
    requires ValidFont(font)
    ensures forall k :: 0 <= k < |Placements(font, s)| ==>
      var p := Placements(font, s)[k];
      p.Index < |s| && s[p.Index] == p.Ch && IsGlyphChar(p.Ch) && p.Glyph == GlyphOf(font, p.Ch)
    ensures forall k, l :: 0 <= k < l < |Placements(font, s)| ==>
      Placements(font, s)[k].Index < Placements(font, s)[l].Index
  {
    if |s| > 0 {
      var pre := s[..|s| - 1];
      PlacementIndices(font, pre);
      var ps := Placements(font, pre);
      assert forall k :: 0 <= k < |ps| ==> ps[k].Index < |pre| && s[ps[k].Index] == pre[ps[k].Index];
    }
  }

  /**
   * The pen after a prefix: Y is the line spacing times the line feeds so far;
   * FirstGlyphOfLine holds exactly at a line start, where X is 0.
   */
  lemma {:induction false} PenAfterLines(font: SpriteFont, s: Text)
    requires ValidFont(font)
    ensures PenAfter(font, s).Y == font.LineSpacing as real * NewlineCount(s) as real
    ensures PenAfter(font, s).FirstGlyphOfLine <==> AtLineStart(s)
    ensures PenAfter(font, s).FirstGlyphOfLine ==> PenAfter(font, s).X == 0.0
  {
    if |s| > 0 {
      PenAfterLines(font, s[..|s| - 1]);
    }
  }

  /**
   * Without a line start since the last glyph, the pen stands at that glyph's offset
   * plus its width and right side bearing.
   */
  lemma {:induction false} PenAfterGlyph(font: SpriteFont, s: Text)
    requires ValidFont(font)
    requires !AtLineStart(s)
    ensures var ps := Placements(font, s);
      |ps| > 0 &&
      PenAfter(font, s).X == ps[|ps| - 1].Offset.X + ps[|ps| - 1].Glyph.Width + ps[|ps| - 1].Glyph.RightSideBearing &&
      PenAfter(font, s).Y == ps[|ps| - 1].Offset.Y
  {
    var pre, c := s[..|s| - 1], s[|s| - 1];
    if c == CR {
      PenAfterGlyph(font, pre);
    }
  }

  /**
   * The pen rules over the placed glyphs: the first glyph of a line sits at its left bearing
   * clamped at 0, so never left of the line; a later glyph on the same line sits at the
   * previous glyph's offset plus its width and right bearing, plus the font spacing and its
   * own left bearing; and the first placement of any text starts a line.
   */
  predicate PenRulesHold(font: SpriteFont, ps: seq<Placement>)
  {
    && (|ps| > 0 ==> ps[0].FirstOnLine)
    && (forall k :: 0 <= k < |ps| && ps[k].FirstOnLine ==>
          ps[k].Offset.X == Max(ps[k].Glyph.LeftSideBearing, 0.0) >= 0.0)
    && (forall k :: 0 < k < |ps| && !ps[k].FirstOnLine ==>
          && ps[k].Offset.X == ps[k - 1].Offset.X + ps[k - 1].Glyph.Width + ps[k - 1].Glyph.RightSideBearing
                               + font.Spacing + ps[k].Glyph.LeftSideBearing
          && ps[k].Offset.Y == ps[k - 1].Offset.Y)
  }

  /** Every prefix of the text's placements keeps the pen rules. */
  lemma {:induction false} PenRules(font: SpriteFont, s: Text)
    requires ValidFont(font)
    ensures PenRulesHold(font, Placements(font, s))
  {
    if |s| > 0 {
      var pre, c := s[..|s| - 1], s[|s| - 1];
      PenRules(font, pre);
      if IsGlyphChar(c) {
        var ps, pen := Placements(font, pre), PenAfter(font, pre);
        var g := GlyphOf(font, c);
        var p := Placement(|s| - 1, c, g, Vector2(GlyphX(font, pen, g), pen.Y), pen.FirstGlyphOfLine);
        assert Placements(font, s) == ps + [p];
        PenAfterLines(font, pre);
        if !AtLineStart(pre) {
          PenAfterGlyph(font, pre);
        }
        if |ps| == 0 {
          PlacementsFollowText(font, pre);
          NoGlyphAtLineStart(pre);
        }
        PenRulesExtend(font, ps, p);
      } else {
        assert Placements(font, s) == Placements(font, pre);
      }
    }
  }

  /** One more glyph placed by the pen rules keeps the rules. */
  lemma PenRulesExtend(font: SpriteFont, ps: seq<Placement>, p: Placement)
    requires PenRulesHold(font, ps)
    requires |ps| == 0 ==> p.FirstOnLine
    requires p.FirstOnLine ==> p.Offset.X == Max(p.Glyph.LeftSideBearing, 0.0)
    requires |ps| > 0 && !p.FirstOnLine ==>
      && p.Offset.X == ps[|ps| - 1].Offset.X + ps[|ps| - 1].Glyph.Width + ps[|ps| - 1].Glyph.RightSideBearing
                       + font.Spacing + p.Glyph.LeftSideBearing
      && p.Offset.Y == ps[|ps| - 1].Offset.Y
    ensures PenRulesHold(font, ps + [p])
  {
    var qs := ps + [p];
    forall k | 0 < k < |qs| && !qs[k].FirstOnLine
      ensures qs[k].Offset.X == qs[k - 1].Offset.X + qs[k - 1].Glyph.Width + qs[k - 1].Glyph.RightSideBearing
                                + font.Spacing + qs[k].Glyph.LeftSideBearing
      ensures qs[k].Offset.Y == qs[k - 1].Offset.Y
    {
      assert qs[k - 1] == ps[k - 1];
      if k < |ps| {
        assert qs[k] == ps[k];
      }
    }
  }

  /** A text without visible characters leaves the pen at a line start. */
  lemma {:induction false} NoGlyphAtLineStart(s: Text)
    requires |Visible(s)| == 0
    ensures AtLineStart(s)
  {
    if |s| > 0 {
      NoGlyphAtLineStart(s[..|s| - 1]);
    }
  }

  /** Every placement lies on the line its character is on. */
  lemma {:induction false} PlacementLines(font: SpriteFont, s: Text)
    requires ValidFont(font)
    ensures forall k :: 0 <= k < |Placements(font, s)| ==> PlacedOnItsLine(font, s, Placements(font, s)[k])
  {
    if |s| > 0 {
      var pre, c := s[..|s| - 1], s[|s| - 1];
      PlacementLines(font, pre);
      PenAfterLines(font, pre);
      var ps := Placements(font, pre);
      forall k | 0 <= k < |ps|
        ensures PlacedOnItsLine(font, s, ps[k])
      {
        assert PlacedOnItsLine(font, pre, ps[k]);
        assert s[..ps[k].Index] == pre[..ps[k].Index];
      }
      if IsGlyphChar(c) {
        assert s[..|s| - 1] == pre;
      }
    }
  }

  /**
   * A placement's line: its Y offset is the line spacing times the line feeds before its
   * character, and it is first on its line exactly when only carriage returns lie between
   * the last line feed and it.
   */
  predicate PlacedOnItsLine(font: SpriteFont, s: Text, p: Placement)
  {
    && p.Index <= |s|
    && p.Offset.Y == font.LineSpacing as real * NewlineCount(s[..p.Index]) as real
    && (p.FirstOnLine <==> AtLineStart(s[..p.Index]))
  }

  // ---- The transform of the full overload ----

  /**
   * The entries of a Matrix that Vector2.Transform reads; the rest stay at the identity.
   * Applying it is the standard affine map of a row vector.
   */
  datatype Transform2D = Transform2D(M11: real, M12: real, M21: real, M22: real, M41: real, M42: real)

  function Apply(m: Transform2D, p: Vector2): Vector2
  {
    Vector2(p.X * m.M11 + p.Y * m.M21 + m.M41, p.X * m.M12 + p.Y * m.M22 + m.M42)
  }

  /** The two flip tests DrawString makes once, up front (`flippedHorz`, `flippedVert`). */
  datatype Flips = Flips(Horizontal: bool, Vertical: bool)

  function FlipsOf(effects: SpriteEffects): Flips
  {
    Flips(FlipsHorizontally(effects), FlipsVertically(effects))
  }

  /** The origin, negated on each flipped axis. */
  function FlippedOrigin(origin: Vector2, f: Flips): Vector2
  {
    Vector2(if f.Horizontal then -origin.X else origin.X, if f.Vertical then -origin.Y else origin.Y)
  }

  /** The shift that keeps a flipped text block in place, from the measured text size. */
  function FlipAdjustment(f: Flips, size: Vector2, lineSpacing: int): Vector2
  {
    Vector2(if f.Horizontal then -size.X else 0.0, if f.Vertical then lineSpacing as real - size.Y else 0.0)
  }

  /** The scale, negated on each flipped axis. */
  function SignedScale(scale: Vector2, f: Flips): Vector2
  {
    Vector2(if f.Horizontal then -scale.X else scale.X, if f.Vertical then -scale.Y else scale.Y)
  }

  /** The matrix the full DrawString overload builds from its arguments. */
  function TextTransform(position: Vector2, rotation: real, sin: real, cos: real, origin: Vector2,
                         scale: Vector2, f: Flips, size: Vector2, lineSpacing: int): Transform2D
  {
    var o := FlippedOrigin(origin, f);
    var adj := FlipAdjustment(f, size, lineSpacing);
    var s := SignedScale(scale, f);
    if rotation == 0.0 then ScaleMatrix(s.X, s.Y, adj.X - o.X, adj.Y - o.Y, position)
    else RotationMatrix(s.X, s.Y, adj.X - o.X, adj.Y - o.Y, sin, cos, position)
  }

  /** The rotation-0 matrix: a diagonal scale, translated by the scaled shift plus the position. */
  function ScaleMatrix(sx: real, sy: real, ax: real, ay: real, position: Vector2): Transform2D
  {
    Transform2D(sx, 0.0, 0.0, sy, ax * sx + position.X, ay * sy + position.Y)
  }

  /** The rotated matrix: scale then rotation, translated by the transformed shift plus the position. */
  function RotationMatrix(sx: real, sy: real, ax: real, ay: real, sin: real, cos: real, position: Vector2): Transform2D
  {
    var m11, m12, m21, m22 := sx * cos, sx * sin, sy * -sin, sy * cos;
    Transform2D(m11, m12, m21, m22, ax * m11 + ay * m21 + position.X, ax * m12 + ay * m22 + position.Y)
  }

  /**
   * A point of the text block mirrored inside the measured block: across its width when
   * flipped horizontally, and across its height less one line when flipped vertically.
   */
  function Mirror(p: Vector2, f: Flips, size: Vector2, lineSpacing: int): Vector2
  {
    Vector2(if f.Horizontal then size.X - p.X else p.X,
            if f.Vertical then size.Y - lineSpacing as real - p.Y else p.Y)
  }

  /**
   * At rotation 0 the text matrix mirrors a point inside the measured block, moves the
   * origin to 0, scales and translates to the position.
   */
  lemma TextTransformUnrotated(position: Vector2, sin: real, cos: real, origin: Vector2,
                               scale: Vector2, f: Flips, size: Vector2, lineSpacing: int, p: Vector2)
    ensures var m := Mirror(p, f, size, lineSpacing);
      Apply(TextTransform(position, 0.0, sin, cos, origin, scale, f, size, lineSpacing), p) ==
        Vector2(scale.X * (m.X - origin.X) + position.X, scale.Y * (m.Y - origin.Y) + position.Y)
  {
    var o := FlippedOrigin(origin, f);
    var adj := FlipAdjustment(f, size, lineSpacing);
    var sc := SignedScale(scale, f);
    MirroredPoint(p, origin, scale, f, size, lineSpacing);
    UnrotatedApply(p, sc.X, sc.Y, adj.X - o.X, adj.Y - o.Y, position);
  }

  /**
   * Otherwise it mirrors, moves the origin to 0, scales, rotates by (sin, cos) and
   * translates to the position.
   */
  lemma TextTransformRotated(position: Vector2, rotation: real, sin: real, cos: real, origin: Vector2,
                             scale: Vector2, f: Flips, size: Vector2, lineSpacing: int, p: Vector2)
    requires rotation != 0.0
    ensures var m := Mirror(p, f, size, lineSpacing);
      var ux, uy := scale.X * (m.X - origin.X), scale.Y * (m.Y - origin.Y);
      Apply(TextTransform(position, rotation, sin, cos, origin, scale, f, size, lineSpacing), p) ==
        Vector2(cos * ux - sin * uy + position.X, sin * ux + cos * uy + position.Y)
  {
    var o := FlippedOrigin(origin, f);
    var adj := FlipAdjustment(f, size, lineSpacing);
    var sc := SignedScale(scale, f);
    MirroredPoint(p, origin, scale, f, size, lineSpacing);
    RotatedApply(p, sc.X, sc.Y, adj.X - o.X, adj.Y - o.Y, sin, cos, position);
  }

  /** Mirroring, less the origin, scaled: what the signed scale does to the shifted point. */
  lemma MirroredPoint(p: Vector2, origin: Vector2, scale: Vector2, f: Flips, size: Vector2, lineSpacing: int)
    ensures var o := FlippedOrigin(origin, f);
      var adj := FlipAdjustment(f, size, lineSpacing);
      var m := Mirror(p, f, size, lineSpacing);
      && scale.X * (m.X - origin.X) == SignedScale(scale, f).X * (p.X + (adj.X - o.X))
      && scale.Y * (m.Y - origin.Y) == SignedScale(scale, f).Y * (p.Y + (adj.Y - o.Y))
  {
    MirroredAxis(f.Horizontal, p.X, origin.X, size.X, scale.X);
    MirroredAxis(f.Vertical, p.Y, origin.Y, size.Y - lineSpacing as real, scale.Y);
  }

  lemma UnrotatedApply(p: Vector2, sx: real, sy: real, ax: real, ay: real, position: Vector2)
    ensures Apply(ScaleMatrix(sx, sy, ax, ay, position), p) == Vector2(sx * (p.X + ax) + position.X, sy * (p.Y + ay) + position.Y)
  {
    var m := ScaleMatrix(sx, sy, ax, ay, position);
    assert Apply(m, p).X == p.X * sx + p.Y * 0.0 + (ax * sx + position.X);
    assert Apply(m, p).Y == p.X * 0.0 + p.Y * sy + (ay * sy + position.Y);
    AxisRow(p.X, p.Y, ax, sx, position.X);
    AxisRow(p.Y, p.X, ay, sy, position.Y);
  }

  lemma RotatedApply(p: Vector2, sx: real, sy: real, ax: real, ay: real, sin: real, cos: real, position: Vector2)
    ensures Apply(RotationMatrix(sx, sy, ax, ay, sin, cos, position), p) ==
      Vector2(cos * (sx * (p.X + ax)) - sin * (sy * (p.Y + ay)) + position.X,
              sin * (sx * (p.X + ax)) + cos * (sy * (p.Y + ay)) + position.Y)
  {
    var m := RotationMatrix(sx, sy, ax, ay, sin, cos, position);
    var qx, qy := sx * (p.X + ax), sy * (p.Y + ay);
    assert Apply(m, p).X == p.X * (sx * cos) + p.Y * (sy * -sin) + (ax * (sx * cos) + ay * (sy * -sin) + position.X);
    assert Apply(m, p).Y == p.X * (sx * sin) + p.Y * (sy * cos) + (ax * (sx * sin) + ay * (sy * cos) + position.Y);
    RotatedRow(p.X, p.Y, ax, ay, sx, sy, cos, -sin, position.X);
    RotatedRow(p.X, p.Y, ax, ay, sx, sy, sin, cos, position.Y);
    NegatedFactor(sin, qy);
    assert Apply(m, p).X == cos * qx - sin * qy + position.X;
    assert Apply(m, p).Y == sin * qx + cos * qy + position.Y;
  }

  /** On one axis, a flip's negated scale, negated origin and adjustment amount to mirroring. */
  lemma MirroredAxis(flipped: bool, p: real, origin: real, extent: real, scale: real)
    ensures var s := if flipped then -scale else scale;
      var o := if flipped then -origin else origin;
      var adj := if flipped then -extent else 0.0;
      s * (p + adj - o) == scale * ((if flipped then extent - p else p) - origin)
  {
  }

  lemma NegatedFactor(a: real, b: real)
    ensures -a * b == -(a * b)
  {
  }

  lemma AxisRow(p: real, q: real, a: real, s: real, t: real)
    ensures p * s + q * 0.0 + (a * s + t) == s * (p + a) + t
    ensures q * 0.0 + p * s + (a * s + t) == s * (p + a) + t
  {
  }

  lemma RotatedRow(px: real, py: real, ax: real, ay: real, sx: real, sy: real, c1: real, c2: real, t: real)
    ensures px * (sx * c1) + py * (sy * c2) + (ax * (sx * c1) + ay * (sy * c2) + t)
         == c1 * (sx * (px + ax)) + c2 * (sy * (py + ay)) + t
  {
  }

  // ---- The items DrawString emits ----

  /** The sort key of the full overload: the mode's key, or 0 where the mode assigns none. */
  function TextSortKey(mode: SpriteSortMode, texture: Texture2D, layerDepth: real): real
  {
    var k := SortKeyFor(mode, texture, layerDepth);
    if k.Some? then k.value else 0.0
  }

  /** The sort key of the StringBuilder overload: the texture key in texture mode, else 0. */
  function SimpleTextSortKey(mode: SpriteSortMode, texture: Texture2D): real
  {
    if mode == Texture then texture.SortingKey as real else 0.0
  }

  /** The pen offset of a glyph moved to its cropped corner, adjusted per flipped axis. */
  function GlyphCorner(p: Placement, f: Flips, lineSpacing: int): Vector2
  {
    var b := p.Glyph.BoundsInTexture;
    Vector2(p.Offset.X + (if f.Horizontal then b.Width as real else 0.0) + p.Glyph.Cropping.X as real,
            p.Offset.Y + (if f.Vertical then (b.Height - lineSpacing) as real else 0.0) + p.Glyph.Cropping.Y as real)
  }

  /** The item of one placed glyph in the full overload. */
  function GlyphItem(font: SpriteFont, p: Placement, color: Color, rotation: real, sin: real, cos: real,
                     scale: Vector2, effects: SpriteEffects, layerDepth: real, sortKey: real, m: Transform2D): BatchItem
  {
    var q := Apply(m, GlyphCorner(p, FlipsOf(effects), font.LineSpacing));
    var b := p.Glyph.BoundsInTexture;
    var tc := ApplyEffects(SourceTexCoords(b, font.Texture), effects);
    var w, h := b.Width as real * scale.X, b.Height as real * scale.Y;
    BatchItem(Some(font.Texture), Some(sortKey),
              if rotation == 0.0 then Unrotated(q.X, q.Y, w, h, color, tc.TL, tc.BR, layerDepth)
              else Rotated(q.X, q.Y, 0.0, 0.0, w, h, sin, cos, color, tc.TL, tc.BR, layerDepth))
  }

  function GlyphItems(font: SpriteFont, ps: seq<Placement>, color: Color, rotation: real, sin: real, cos: real,
                      scale: Vector2, effects: SpriteEffects, layerDepth: real, sortKey: real, m: Transform2D): (r: seq<BatchItem>)
  {
    seq(|ps|, k requires 0 <= k < |ps| =>
      GlyphItem(font, ps[k], color, rotation, sin, cos, scale, effects, layerDepth, sortKey, m))
  }

  lemma GlyphItemsAppend(font: SpriteFont, ps: seq<Placement>, p: Placement, color: Color, rotation: real, sin: real, cos: real,
                         scale: Vector2, effects: SpriteEffects, layerDepth: real, sortKey: real, m: Transform2D)
    ensures GlyphItems(font, ps + [p], color, rotation, sin, cos, scale, effects, layerDepth, sortKey, m) ==
      GlyphItems(font, ps, color, rotation, sin, cos, scale, effects, layerDepth, sortKey, m) +
      [GlyphItem(font, p, color, rotation, sin, cos, scale, effects, layerDepth, sortKey, m)]
  {
    var l := GlyphItems(font, ps + [p], color, rotation, sin, cos, scale, effects, layerDepth, sortKey, m);
    var r := GlyphItems(font, ps, color, rotation, sin, cos, scale, effects, layerDepth, sortKey, m) +
      [GlyphItem(font, p, color, rotation, sin, cos, scale, effects, layerDepth, sortKey, m)];
    assert |l| == |r|;
    forall k | 0 <= k < |l|
      ensures l[k] == r[k]
    {
      if k < |ps| {
        assert (ps + [p])[k] == ps[k];
      }
    }
  }

  /** The item of one placed glyph in the StringBuilder overload: no flip, scale, rotation or depth. */
  function SimpleGlyphItem(font: SpriteFont, p: Placement, position: Vector2, color: Color, sortKey: real): BatchItem
  {
    var b := p.Glyph.BoundsInTexture;
    var tc := SourceTexCoords(b, font.Texture);
    BatchItem(Some(font.Texture), Some(sortKey),
              Unrotated(p.Offset.X + p.Glyph.Cropping.X as real + position.X,
                        p.Offset.Y + p.Glyph.Cropping.Y as real + position.Y,
                        b.Width as real, b.Height as real, color, tc.TL, tc.BR, 0.0))
  }

  function SimpleGlyphItems(font: SpriteFont, ps: seq<Placement>, position: Vector2, color: Color, sortKey: real): (r: seq<BatchItem>)
  {
    seq(|ps|, k requires 0 <= k < |ps| => SimpleGlyphItem(font, ps[k], position, color, sortKey))
  }

  lemma SimpleGlyphItemsAppend(font: SpriteFont, ps: seq<Placement>, p: Placement, position: Vector2, color: Color, sortKey: real)
    ensures SimpleGlyphItems(font, ps + [p], position, color, sortKey) ==
      SimpleGlyphItems(font, ps, position, color, sortKey) + [SimpleGlyphItem(font, p, position, color, sortKey)]
  {
    var l := SimpleGlyphItems(font, ps + [p], position, color, sortKey);
    var r := SimpleGlyphItems(font, ps, position, color, sortKey) + [SimpleGlyphItem(font, p, position, color, sortKey)];
    assert |l| == |r|;
    forall k | 0 <= k < |l|
      ensures l[k] == r[k]
    {
      if k < |ps| {
        assert (ps + [p])[k] == ps[k];
      }
    }
  }

  /**
   * Every item DrawString emits belongs to one visible character, in text order, carries
   * the font's texture and one common sort key, and has that character's glyph's texture
   * rectangle as its coordinates (swapped per flip).
   */
  lemma TextItemsShape(font: SpriteFont, s: Text, color: Color, rotation: real, sin: real, cos: real,
                       scale: Vector2, effects: SpriteEffects, layerDepth: real, sortKey: real, m: Transform2D)
    requires ValidFont(font)
    ensures var items := GlyphItems(font, Placements(font, s), color, rotation, sin, cos, scale, effects, layerDepth, sortKey, m);
      && |items| == |Visible(s)|
      && forall k :: 0 <= k < |items| ==> GlyphItemOf(font, Visible(s)[k], items[k], effects, sortKey)
  {
    PlacementsFollowText(font, s);
    PlacementIndices(font, s);
    var ps := Placements(font, s);
    var items := GlyphItems(font, ps, color, rotation, sin, cos, scale, effects, layerDepth, sortKey, m);
    forall k | 0 <= k < |items|
      ensures GlyphItemOf(font, Visible(s)[k], items[k], effects, sortKey)
    {
      assert Chars(ps)[k] == ps[k].Ch;
      assert items[k] == GlyphItem(font, ps[k], color, rotation, sin, cos, scale, effects, layerDepth, sortKey, m);
    }
  }

  /**
   * An item for character `c`: the font's texture, the common sort key, and the glyph's
   * texture rectangle as coordinates, swapped per flip.
   */
  predicate GlyphItemOf(font: SpriteFont, c: CodeUnit, item: BatchItem, effects: SpriteEffects, sortKey: real)
    requires ValidFont(font)
  {
    var tc := ApplyEffects(SourceTexCoords(GlyphOf(font, c).BoundsInTexture, font.Texture), effects);
    && item.Texture == Some(font.Texture)
    && item.SortKey == Some(sortKey)
    && !item.Geometry.Unset?
    && item.Geometry.texTL == tc.TL
    && item.Geometry.texBR == tc.BR
  }

  /** Both overloads agree on the sort key at depth 0, whatever the mode. */
  lemma SortKeysAgreeAtDepthZero(mode: SpriteSortMode, texture: Texture2D)
    ensures SimpleTextSortKey(mode, texture) == TextSortKey(mode, texture, 0.0)
    ensures mode in {Texture, FrontToBack, BackToFront} ==> Some(TextSortKey(mode, texture, 0.0)) == SortKeyFor(mode, texture, 0.0)
  {
  }

  /**
   * The StringBuilder overload is the full overload with no rotation, zero origin, unit
   * scale, no effects and depth 0: the same items, glyph for glyph.
   */
  lemma SimpleTextIsDefaultText(font: SpriteFont, s: Text, position: Vector2, color: Color,
                                mode: SpriteSortMode, sin: real, cos: real, size: Vector2)
    requires ValidFont(font)
    ensures var ps := Placements(font, s);
      var m := TextTransform(position, 0.0, sin, cos, Vector2(0.0, 0.0), Vector2(1.0, 1.0), FlipsOf(0), size, font.LineSpacing);
      SimpleGlyphItems(font, ps, position, color, SimpleTextSortKey(mode, font.Texture)) ==
        GlyphItems(font, ps, color, 0.0, sin, cos, Vector2(1.0, 1.0), 0, 0.0, TextSortKey(mode, font.Texture, 0.0), m)
  {
    var ps := Placements(font, s);
    var m := TextTransform(position, 0.0, sin, cos, Vector2(0.0, 0.0), Vector2(1.0, 1.0), FlipsOf(0), size, font.LineSpacing);
    assert !FlipsHorizontally(0) && !FlipsVertically(0);
    forall k | 0 <= k < |ps|
      ensures SimpleGlyphItem(font, ps[k], position, color, SimpleTextSortKey(mode, font.Texture)) ==
        GlyphItem(font, ps[k], color, 0.0, sin, cos, Vector2(1.0, 1.0), 0, 0.0, TextSortKey(mode, font.Texture, 0.0), m)
    {
      var c := GlyphCorner(ps[k], FlipsOf(0), font.LineSpacing);
      assert Apply(m, c) == Vector2(c.X + position.X, c.Y + position.Y);
    }
  }
}
