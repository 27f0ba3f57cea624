/**
 * SpriteBatch's submission calls: each validates its arguments, takes an item from the
 * batcher and fills it in. The batcher is modelled as the sequence of items handed out so
 * far; FlushIfNeeded as an event recorded with the item count at that moment.
 */
module SpriteBatching {
  import opened Wrappers
  import opened SpriteGeometry
  import opened TextLayout
  import opened Numerics

  /** ArgumentNullException (with its parameter name), InvalidOperationException, or the plain Exception of Immediate mode. */
  datatype DrawError = ArgumentNull(ParamName: string) | InvalidOperation | ImmediateNotSupported

  /** The two checks every sprite submission makes, in order, before touching the batcher. */
  function DrawAdmission(texture: Option<Texture2D>, beginCalled: bool): (r: Outcome<DrawError>)
    ensures r.Pass? <==> texture.Some? && beginCalled
    ensures texture.None? ==> r == Fail(ArgumentNull("texture"))
    ensures texture.Some? && !beginCalled ==> r == Fail(InvalidOperation)
  {
    if texture.None? then Fail(ArgumentNull("texture"))
    else if !beginCalled then Fail(InvalidOperation)
    else Pass
  }

  /** The checks of CheckValid: the font, then the text, then an open session. */
  function TextAdmission(font: Option<SpriteFont>, text: Option<Text>, beginCalled: bool): (r: Outcome<DrawError>)
    ensures r.Pass? <==> font.Some? && text.Some? && beginCalled
    ensures font.None? ==> r == Fail(ArgumentNull("spriteFont"))
    ensures font.Some? && text.None? ==> r == Fail(ArgumentNull("text"))
    ensures font.Some? && text.Some? && !beginCalled ==> r == Fail(InvalidOperation)
  {
    if font.None? then Fail(ArgumentNull("spriteFont"))
    else if text.None? then Fail(ArgumentNull("text"))
    else if !beginCalled then Fail(InvalidOperation)
    else Pass
  }

  /** The sine and cosine DrawString computes: both 0 at rotation 0. */
  function TextAngle(rotation: real, sin: real -> real, cos: real -> real): (real, real)
  {
    if rotation == 0.0 then (0.0, 0.0) else (sin(rotation), cos(rotation))
  }

  /** The scratch coordinates after the glyphs placed so far: the last glyph's, or `before` if there is none. */
  function LastTexCoords(font: SpriteFont, ps: seq<Placement>, effects: SpriteEffects, before: TexCoords): TexCoords
  {
    if |ps| == 0 then before
    else ApplyEffects(SourceTexCoords(ps[|ps| - 1].Glyph.BoundsInTexture, font.Texture), effects)
  }

  /** The batcher's item pool, as the items handed out this frame. */
  class SpriteBatcher {
    var Items: seq<BatchItem>

    constructor()
      ensures Items == []
    {
      Items := [];
    }

    /** Hands out a fresh item at the end of the queue and returns its index. */
    method CreateBatchItem() returns (index: nat)
      modifies this
      ensures Items == old(Items) + [FreshItem]
      ensures index == |old(Items)|
    {
      index := |Items|;
      Items := Items + [FreshItem];
    }

    /** `item.Texture = texture` */
    method SetTexture(index: nat, texture: Texture2D)
      requires index < |Items|
      modifies this
      ensures Items == old(Items)[index := old(Items)[index].(Texture := Some(texture))]
    {
      Items := Items[index := Items[index].(Texture := Some(texture))];
    }

    /** `item.SortKey = key` */
    method SetSortKey(index: nat, key: real)
      requires index < |Items|
      modifies this
      ensures Items == old(Items)[index := old(Items)[index].(SortKey := Some(key))]
    {
      Items := Items[index := Items[index].(SortKey := Some(key))];
    }

    /** `item.Set(...)`, in either of its two forms. */
    method Set(index: nat, geometry: Geometry)
      requires index < |Items|
      modifies this
      ensures Items == old(Items)[index := old(Items)[index].(Geometry := geometry)]
    {
      Items := Items[index := Items[index].(Geometry := geometry)];
    }
  }

  class SpriteBatch {
    const batcher: SpriteBatcher
    /** MathF.Sin and MathF.Cos. */
    const Sin: real -> real
    const Cos: real -> real
    /** Session state set by Begin. */
    var beginCalled: bool
    var sortMode: SpriteSortMode
    /** The scratch texture coordinates every submission rewrites. */
    var texCoordTL: Vector2
    var texCoordBR: Vector2
    /** One entry per FlushIfNeeded call: how many items had been handed out then. */
    var flushes: seq<nat>

    /** A batch whose session is in the given state, with its own empty batcher. */
    constructor(sin: real -> real, cos: real -> real, beginCalled: bool, sortMode: SpriteSortMode)
      ensures fresh(batcher) && batcher.Items == [] && flushes == []
      ensures Sin == sin && Cos == cos && this.beginCalled == beginCalled && this.sortMode == sortMode
      ensures texCoordTL == Vector2(0.0, 0.0) && texCoordBR == Vector2(0.0, 0.0)
    {
      batcher := new SpriteBatcher();
      Sin, Cos := sin, cos;
      this.beginCalled, this.sortMode := beginCalled, sortMode;
      texCoordTL, texCoordBR := Vector2(0.0, 0.0), Vector2(0.0, 0.0);
      flushes := [];
    }

    method FlushIfNeeded()
      modifies this`flushes
      ensures flushes == old(flushes) + [|batcher.Items|]
    {
      flushes := flushes + [|batcher.Items|];
    }

    /** Sets the item's sort key when the mode assigns one. */
    method AssignSortKey(index: nat, texture: Texture2D, layerDepth: real)
      requires index < |batcher.Items|
      modifies batcher
      ensures var key := SortKeyFor(sortMode, texture, layerDepth);
        batcher.Items == old(batcher.Items)[index := old(batcher.Items)[index].(SortKey := if key.Some? then key else old(batcher.Items)[index].SortKey)]
    {
      var key := SortKeyFor(sortMode, texture, layerDepth);
      if key.Some? {
        batcher.SetSortKey(index, key.value);
      }
    }

    /** Sets the item's geometry: the unrotated form at rotation 0, else the rotated one. */
    method SetQuad(index: nat, x: real, y: real, originX: real, originY: real, w: real, h: real,
                   rotation: real, color: Color, layerDepth: real)
      requires index < |batcher.Items|
      modifies batcher
      ensures batcher.Items == old(batcher.Items)[index := old(batcher.Items)[index].(Geometry :=
        SpriteQuad(Vector2(x, y), Vector2(originX, originY), w, h, rotation, Sin(rotation), Cos(rotation),
                   color, TexCoords(texCoordTL, texCoordBR), layerDepth))]
    {
      if rotation == 0.0 {
        batcher.Set(index, Unrotated(x - originX, y - originY, w, h, color, texCoordTL, texCoordBR, layerDepth));
      } else {
        batcher.Set(index, Rotated(x, y, -originX, -originY, w, h, Sin(rotation), Cos(rotation),
                                   color, texCoordTL, texCoordBR, layerDepth));
      }
    }

    /** Loads the coordinates of the source rectangle, or of the whole texture without one. */
    method LoadTexCoords(texture: Texture2D, sourceRectangle: Option<Rectangle>)
      modifies this`texCoordTL, this`texCoordBR
      ensures TexCoords(texCoordTL, texCoordBR) == TexCoordsFor(sourceRectangle, texture)
    {
      if sourceRectangle.Some? {
        var src := sourceRectangle.value;
        texCoordTL := Vector2(src.X as real * texture.TexelWidth, src.Y as real * texture.TexelHeight);
        texCoordBR := Vector2((src.X + src.Width) as real * texture.TexelWidth, (src.Y + src.Height) as real * texture.TexelHeight);
      } else {
        texCoordTL, texCoordBR := Vector2(0.0, 0.0), Vector2(1.0, 1.0);
      }
    }

    /** Swaps the coordinate pair on each axis the effects flip: vertical first, then horizontal. */
    method ApplyFlips(effects: SpriteEffects)
      modifies this`texCoordTL, this`texCoordBR
      ensures TexCoords(texCoordTL, texCoordBR) == ApplyEffects(TexCoords(old(texCoordTL), old(texCoordBR)), effects)
    {
      if FlipsVertically(effects) {
        var temp := texCoordBR.Y;
        texCoordBR := texCoordBR.(Y := texCoordTL.Y);
        texCoordTL := texCoordTL.(Y := temp);
      }
      if FlipsHorizontally(effects) {
        var temp := texCoordBR.X;
        texCoordBR := texCoordBR.(X := texCoordTL.X);
        texCoordTL := texCoordTL.(X := temp);
      }
    }

    /**
     * Draw(texture, position, color, rotation, origin, scale, layerDepth): the whole texture,
     * sorted per mode; no flush. Immediate mode is refused after the item was taken.
     */
    method Draw(texture: Option<Texture2D>, position: Vector2, color: Color, rotation: real,
                origin: Vector2, scale: Vector2, layerDepth: real) returns (r: Outcome<DrawError>)
      modifies this`texCoordTL, this`texCoordBR, batcher
      ensures flushes == old(flushes)
      ensures DrawAdmission(texture, beginCalled).Fail? ==>
        r == DrawAdmission(texture, beginCalled) && batcher.Items == old(batcher.Items)
        && texCoordTL == old(texCoordTL) && texCoordBR == old(texCoordBR)
      ensures DrawAdmission(texture, beginCalled).Pass? && sortMode == Immediate ==>
        r == Fail(ImmediateNotSupported) && batcher.Items == old(batcher.Items) + [FreshItem.(Texture := texture)]
        && texCoordTL == old(texCoordTL) && texCoordBR == old(texCoordBR)
      ensures DrawAdmission(texture, beginCalled).Pass? && sortMode != Immediate ==>
        r == Pass && TexCoords(texCoordTL, texCoordBR) == FullTexture
        && batcher.Items == old(batcher.Items) +
             [PositionedSprite(texture.value, SortKeyFor(sortMode, texture.value, layerDepth), position, None, 0,
                               color, rotation, origin, scale, layerDepth, Sin(rotation), Cos(rotation))]
    {
      if texture.None? {
        r := Fail(ArgumentNull("texture"));
        return;
      }
      if !beginCalled {
        r := Fail(InvalidOperation);
        return;
      }
      var tex := texture.value;
      var item := batcher.CreateBatchItem();
      batcher.SetTexture(item, tex);
      if sortMode == Immediate {
        r := Fail(ImmediateNotSupported);
        return;
      }
      AssignSortKey(item, tex, layerDepth);
      assert batcher.Items == old(batcher.Items) + [BatchItem(texture, SortKeyFor(sortMode, tex, layerDepth), Unset)];
      var o := Times(origin, scale);
      var w, h := tex.Width as real * scale.X, tex.Height as real * scale.Y;
      texCoordTL, texCoordBR := Vector2(0.0, 0.0), Vector2(1.0, 1.0);
      SetQuad(item, position.X, position.Y, o.X, o.Y, w, h, rotation, color, layerDepth);
      NoEffects(FullTexture);
      assert batcher.Items[item].Geometry == PositionedSprite(tex, SortKeyFor(sortMode, tex, layerDepth), position, None, 0,
                               color, rotation, origin, scale, layerDepth, Sin(rotation), Cos(rotation)).Geometry;
      r := Pass;
    }

    /** DrawDeferred(texture, position, color, rotation, origin, scale, layerDepth): no sort key, no flush. */
    method DrawDeferred(texture: Option<Texture2D>, position: Vector2, color: Color, rotation: real,
                        origin: Vector2, scale: Vector2, layerDepth: real) returns (r: Outcome<DrawError>)
      modifies this`texCoordTL, this`texCoordBR, batcher
      ensures r == DrawAdmission(texture, beginCalled)
      ensures flushes == old(flushes)
      ensures r.Fail? ==> batcher.Items == old(batcher.Items) && texCoordTL == old(texCoordTL) && texCoordBR == old(texCoordBR)
      ensures r.Pass? ==>
        TexCoords(texCoordTL, texCoordBR) == FullTexture
        && batcher.Items == old(batcher.Items) +
             [PositionedSprite(texture.value, None, position, None, 0, color, rotation, origin, scale, layerDepth,
                               Sin(rotation), Cos(rotation))]
    {
      if texture.None? {
        r := Fail(ArgumentNull("texture"));
        return;
      }
      if !beginCalled {
        r := Fail(InvalidOperation);
        return;
      }
      var tex := texture.value;
      var item := batcher.CreateBatchItem();
      batcher.SetTexture(item, tex);
      var o := Times(origin, scale);
      var w, h := tex.Width as real * scale.X, tex.Height as real * scale.Y;
      texCoordTL, texCoordBR := Vector2(0.0, 0.0), Vector2(1.0, 1.0);
      SetQuad(item, position.X, position.Y, o.X, o.Y, w, h, rotation, color, layerDepth);
      NoEffects(FullTexture);
      assert batcher.Items[item].Geometry == PositionedSprite(tex, None, position, None, 0, color, rotation, origin, scale,
                                                              layerDepth, Sin(rotation), Cos(rotation)).Geometry;
      r := Pass;
    }

    /**
     * DrawDeferred(texture, position, sourceRectangle, ...): as the previous overload, with
     * size and coordinates taken from the source rectangle.
     */
    method DrawDeferredRegion(texture: Option<Texture2D>, position: Vector2, sourceRectangle: Rectangle, color: Color,
                              rotation: real, origin: Vector2, scale: Vector2, layerDepth: real) returns (r: Outcome<DrawError>)
      modifies this`texCoordTL, this`texCoordBR, batcher
      ensures r == DrawAdmission(texture, beginCalled)
      ensures flushes == old(flushes)
      ensures r.Fail? ==> batcher.Items == old(batcher.Items) && texCoordTL == old(texCoordTL) && texCoordBR == old(texCoordBR)
      ensures r.Pass? ==>
        TexCoords(texCoordTL, texCoordBR) == SourceTexCoords(sourceRectangle, texture.value)
        && batcher.Items == old(batcher.Items) +
             [PositionedSprite(texture.value, None, position, Some(sourceRectangle), 0, color, rotation, origin, scale,
                               layerDepth, Sin(rotation), Cos(rotation))]
    {
      if texture.None? {
        r := Fail(ArgumentNull("texture"));
        return;
      }
      if !beginCalled {
        r := Fail(InvalidOperation);
        return;
      }
      var tex := texture.value;
      var item := batcher.CreateBatchItem();
      batcher.SetTexture(item, tex);
      var o := Times(origin, scale);
      var w, h := tex.Width as real * scale.X, tex.Height as real * scale.Y;
      texCoordTL, texCoordBR := Vector2(0.0, 0.0), Vector2(1.0, 1.0);
      var src := sourceRectangle;
      w, h := src.Width as real * scale.X, src.Height as real * scale.Y;
      LoadTexCoords(tex, Some(src));
      SetQuad(item, position.X, position.Y, o.X, o.Y, w, h, rotation, color, layerDepth);
      NoEffects(SourceTexCoords(src, tex));
      assert batcher.Items[item].Geometry == PositionedSprite(tex, None, position, Some(src), 0, color, rotation, origin, scale,
                                                              layerDepth, Sin(rotation), Cos(rotation)).Geometry;
      r := Pass;
    }

    /**
     * Draw(texture, position, sourceRectangle?, color, rotation, origin, scale, effects,
     * layerDepth): sorted per mode, flipped per effect, then FlushIfNeeded.
     */
    method DrawRegion(texture: Option<Texture2D>, position: Vector2, sourceRectangle: Option<Rectangle>, color: Color,
                      rotation: real, origin: Vector2, scale: Vector2, effects: SpriteEffects, layerDepth: real)
      returns (r: Outcome<DrawError>)
      modifies this`texCoordTL, this`texCoordBR, this`flushes, batcher
      ensures r == DrawAdmission(texture, beginCalled)
      ensures r.Fail? ==>
        batcher.Items == old(batcher.Items) && flushes == old(flushes)
        && texCoordTL == old(texCoordTL) && texCoordBR == old(texCoordBR)
      ensures r.Pass? ==>
        TexCoords(texCoordTL, texCoordBR) == SpriteTexCoords(texture.value, sourceRectangle, effects)
        && batcher.Items == old(batcher.Items) +
             [PositionedSprite(texture.value, SortKeyFor(sortMode, texture.value, layerDepth), position, sourceRectangle,
                               effects, color, rotation, origin, scale, layerDepth, Sin(rotation), Cos(rotation))]
        && flushes == old(flushes) + [|batcher.Items|]
    {
      if texture.None? {
        r := Fail(ArgumentNull("texture"));
        return;
      }
      if !beginCalled {
        r := Fail(InvalidOperation);
        return;
      }
      var tex := texture.value;
      var item := batcher.CreateBatchItem();
      batcher.SetTexture(item, tex);
      AssignSortKey(item, tex, layerDepth);
      var o := Times(origin, scale);
      var w, h;
      if sourceRectangle.Some? {
        w, h := sourceRectangle.value.Width as real * scale.X, sourceRectangle.value.Height as real * scale.Y;
      } else {
        w, h := tex.Width as real * scale.X, tex.Height as real * scale.Y;
      }
      assert Vector2(w, h) == Times(SourceSize(sourceRectangle, tex), scale);
      LoadTexCoords(tex, sourceRectangle);
      ApplyFlips(effects);
      SetQuad(item, position.X, position.Y, o.X, o.Y, w, h, rotation, color, layerDepth);
      assert batcher.Items[item].Geometry ==
        PositionedSprite(tex, SortKeyFor(sortMode, tex, layerDepth), position, sourceRectangle, effects, color, rotation,
                         origin, scale, layerDepth, Sin(rotation), Cos(rotation)).Geometry;
      FlushIfNeeded();
      r := Pass;
    }

    /**
     * Draw(texture, destinationRectangle, sourceRectangle?, color, rotation, origin, effects,
     * layerDepth): sized by the destination, the origin scaled from source to destination.
     */
    method DrawToRectangle(texture: Option<Texture2D>, destinationRectangle: Rectangle, sourceRectangle: Option<Rectangle>,
                           color: Color, rotation: real, origin: Vector2, effects: SpriteEffects, layerDepth: real)
      returns (r: Outcome<DrawError>)
      modifies this`texCoordTL, this`texCoordBR, this`flushes, batcher
      ensures r == DrawAdmission(texture, beginCalled)
      ensures r.Fail? ==>
        batcher.Items == old(batcher.Items) && flushes == old(flushes)
        && texCoordTL == old(texCoordTL) && texCoordBR == old(texCoordBR)
      ensures r.Pass? ==>
        TexCoords(texCoordTL, texCoordBR) == SpriteTexCoords(texture.value, sourceRectangle, effects)
        && batcher.Items == old(batcher.Items) +
             [DestinationSprite(texture.value, SortKeyFor(sortMode, texture.value, layerDepth), destinationRectangle,
                                sourceRectangle, effects, color, rotation, origin, layerDepth, Sin(rotation), Cos(rotation))]
        && flushes == old(flushes) + [|batcher.Items|]
    {
      if texture.None? {
        r := Fail(ArgumentNull("texture"));
        return;
      }
      if !beginCalled {
        r := Fail(InvalidOperation);
        return;
      }
      var tex := texture.value;
      var dest := destinationRectangle;
      var item := batcher.CreateBatchItem();
      batcher.SetTexture(item, tex);
      AssignSortKey(item, tex, layerDepth);
      LoadTexCoords(tex, sourceRectangle);
      var o := DestinationOrigin(origin, dest, sourceRectangle, tex);
      ApplyFlips(effects);
      SetQuad(item, dest.X as real, dest.Y as real, o.X, o.Y, dest.Width as real, dest.Height as real,
              rotation, color, layerDepth);
      assert batcher.Items[item].Geometry ==
        DestinationSprite(tex, SortKeyFor(sortMode, tex, layerDepth), dest, sourceRectangle, effects, color, rotation,
                          origin, layerDepth, Sin(rotation), Cos(rotation)).Geometry;
      FlushIfNeeded();
      r := Pass;
    }

    /**
     * The body of the full DrawString loop for one placed glyph: its corner moved by the
     * text matrix, a new item with the font texture and the key, the glyph's texture
     * rectangle (flipped) as coordinates, and the Set of the rotation's form.
     */
    method EmitGlyph(font: SpriteFont, placed: Placement, color: Color, rotation: real, sin: real, cos: real,
                     scale: Vector2, effects: SpriteEffects, layerDepth: real, sortKey: real, m: Transform2D)
      modifies this`texCoordTL, this`texCoordBR, batcher
      ensures batcher.Items == old(batcher.Items) +
        [GlyphItem(font, placed, color, rotation, sin, cos, scale, effects, layerDepth, sortKey, m)]
      ensures TexCoords(texCoordTL, texCoordBR) == ApplyEffects(SourceTexCoords(placed.Glyph.BoundsInTexture, font.Texture), effects)
    {
      var g, f := placed.Glyph, FlipsOf(effects);
      var p := placed.Offset;
      if f.Horizontal {
        p := p.(X := p.X + g.BoundsInTexture.Width as real);
      }
      p := p.(X := p.X + g.Cropping.X as real);
      if f.Vertical {
        p := p.(Y := p.Y + (g.BoundsInTexture.Height - font.LineSpacing) as real);
      }
      p := p.(Y := p.Y + g.Cropping.Y as real);
      assert p == GlyphCorner(placed, f, font.LineSpacing);
      p := Apply(m, p);
      var item := batcher.CreateBatchItem();
      batcher.SetTexture(item, font.Texture);
      batcher.SetSortKey(item, sortKey);
      assert batcher.Items == old(batcher.Items) + [BatchItem(Some(font.Texture), Some(sortKey), Unset)];
      var b := g.BoundsInTexture;
      texCoordTL := Vector2(b.X as real * font.Texture.TexelWidth, b.Y as real * font.Texture.TexelHeight);
      texCoordBR := Vector2((b.X + b.Width) as real * font.Texture.TexelWidth, (b.Y + b.Height) as real * font.Texture.TexelHeight);
      ApplyFlips(effects);
      ghost var target := GlyphItem(font, placed, color, rotation, sin, cos, scale, effects, layerDepth, sortKey, m);
      assert TexCoords(texCoordTL, texCoordBR) == ApplyEffects(SourceTexCoords(b, font.Texture), effects);
      if rotation == 0.0 {
        batcher.Set(item, Unrotated(p.X, p.Y, b.Width as real * scale.X, b.Height as real * scale.Y,
                                    color, texCoordTL, texCoordBR, layerDepth));
        assert batcher.Items[item].Geometry == target.Geometry;
      } else {
        batcher.Set(item, Rotated(p.X, p.Y, 0.0, 0.0, b.Width as real * scale.X, b.Height as real * scale.Y,
                                  sin, cos, color, texCoordTL, texCoordBR, layerDepth));
        assert batcher.Items[item].Geometry == target.Geometry;
      }
      assert item == |old(batcher.Items)|;
      assert batcher.Items[item].Texture == Some(font.Texture) && batcher.Items[item].SortKey == Some(sortKey);
    }

    /** The body of the StringBuilder loop for one placed glyph: an unscaled, unrotated item at depth 0. */
    method EmitSimpleGlyph(font: SpriteFont, placed: Placement, position: Vector2, color: Color, sortKey: real)
      modifies this`texCoordTL, this`texCoordBR, batcher
      ensures batcher.Items == old(batcher.Items) + [SimpleGlyphItem(font, placed, position, color, sortKey)]
      ensures TexCoords(texCoordTL, texCoordBR) == SourceTexCoords(placed.Glyph.BoundsInTexture, font.Texture)
    {
      var g := placed.Glyph;
      var p := placed.Offset;
      p := p.(X := p.X + g.Cropping.X as real);
      p := p.(Y := p.Y + g.Cropping.Y as real);
      p := Vector2(p.X + position.X, p.Y + position.Y);
      var item := batcher.CreateBatchItem();
      batcher.SetTexture(item, font.Texture);
      batcher.SetSortKey(item, sortKey);
      assert batcher.Items == old(batcher.Items) + [BatchItem(Some(font.Texture), Some(sortKey), Unset)];
      var b := g.BoundsInTexture;
      texCoordTL := Vector2(b.X as real * font.Texture.TexelWidth, b.Y as real * font.Texture.TexelHeight);
      texCoordBR := Vector2((b.X + b.Width) as real * font.Texture.TexelWidth, (b.Y + b.Height) as real * font.Texture.TexelHeight);
      batcher.Set(item, Unrotated(p.X, p.Y, b.Width as real, b.Height as real, color, texCoordTL, texCoordBR, 0.0));
      assert item == |old(batcher.Items)|;
      assert batcher.Items[item].Texture == Some(font.Texture) && batcher.Items[item].SortKey == Some(sortKey);
      assert batcher.Items[item].Geometry == SimpleGlyphItem(font, placed, position, color, sortKey).Geometry;
    }

    /**
     * One pass of the full DrawString loop over the character `c` at `index`: '\r' is
     * skipped; '\n' returns the pen to the start of the next line; any other character
     * moves the pen by its glyph's left bearing (clamped at 0 on a line's first glyph),
     * emits the glyph's item there, and advances the pen past the glyph.
     */
    method DrawCharacter(font: SpriteFont, c: CodeUnit, index: nat, offset: Vector2, firstGlyphOfLine: bool,
                         color: Color, rotation: real, sin: real, cos: real, scale: Vector2, effects: SpriteEffects,
                         layerDepth: real, sortKey: real, m: Transform2D) returns (nextOffset: Vector2, nextFirst: bool)
      requires ValidFont(font)
      modifies this`texCoordTL, this`texCoordBR, batcher
      ensures Pen(nextOffset.X, nextOffset.Y, nextFirst) == Step(font, Pen(offset.X, offset.Y, firstGlyphOfLine), c)
      ensures !IsGlyphChar(c) ==>
        batcher.Items == old(batcher.Items) && texCoordTL == old(texCoordTL) && texCoordBR == old(texCoordBR)
      ensures IsGlyphChar(c) ==>
        var g := GlyphOf(font, c);
        var placed := Placement(index, c, g, Vector2(GlyphX(font, Pen(offset.X, offset.Y, firstGlyphOfLine), g), offset.Y),
                                firstGlyphOfLine);
        && batcher.Items == old(batcher.Items) +
             [GlyphItem(font, placed, color, rotation, sin, cos, scale, effects, layerDepth, sortKey, m)]
        && TexCoords(texCoordTL, texCoordBR) == ApplyEffects(SourceTexCoords(g.BoundsInTexture, font.Texture), effects)
    {
      nextOffset, nextFirst := offset, firstGlyphOfLine;
      if c == CR {
        return;
      }
      if c == LF {
        nextOffset := Vector2(0.0, nextOffset.Y + font.LineSpacing as real);
        nextFirst := true;
        return;
      }
      var g := font.Glyphs[font.GlyphIndex(c)];
      if nextFirst {
        nextOffset := nextOffset.(X := Max(g.LeftSideBearing, 0.0));
        nextFirst := false;
      } else {
        nextOffset := nextOffset.(X := nextOffset.X + font.Spacing + g.LeftSideBearing);
      }
      EmitGlyph(font, Placement(index, c, g, nextOffset, firstGlyphOfLine), color, rotation, sin, cos, scale, effects,
                layerDepth, sortKey, m);
      nextOffset := nextOffset.(X := nextOffset.X + g.Width + g.RightSideBearing);
    }

    /** One pass of the StringBuilder loop: the same pen, and the simple glyph item. */
    method DrawSimpleCharacter(font: SpriteFont, c: CodeUnit, index: nat, offset: Vector2, firstGlyphOfLine: bool,
                               position: Vector2, color: Color, sortKey: real) returns (nextOffset: Vector2, nextFirst: bool)
      requires ValidFont(font)
      modifies this`texCoordTL, this`texCoordBR, batcher
      ensures Pen(nextOffset.X, nextOffset.Y, nextFirst) == Step(font, Pen(offset.X, offset.Y, firstGlyphOfLine), c)
      ensures !IsGlyphChar(c) ==>
        batcher.Items == old(batcher.Items) && texCoordTL == old(texCoordTL) && texCoordBR == old(texCoordBR)
      ensures IsGlyphChar(c) ==>
        var g := GlyphOf(font, c);
        var placed := Placement(index, c, g, Vector2(GlyphX(font, Pen(offset.X, offset.Y, firstGlyphOfLine), g), offset.Y),
                                firstGlyphOfLine);
        && batcher.Items == old(batcher.Items) + [SimpleGlyphItem(font, placed, position, color, sortKey)]
        && TexCoords(texCoordTL, texCoordBR) == SourceTexCoords(g.BoundsInTexture, font.Texture)
    {
      nextOffset, nextFirst := offset, firstGlyphOfLine;
      if c == CR {
        return;
      }
      if c == LF {
        nextOffset := Vector2(0.0, nextOffset.Y + font.LineSpacing as real);
        nextFirst := true;
        return;
      }
      var g := font.Glyphs[font.GlyphIndex(c)];
      if nextFirst {
        nextOffset := nextOffset.(X := Max(g.LeftSideBearing, 0.0));
        nextFirst := false;
      } else {
        nextOffset := nextOffset.(X := nextOffset.X + font.Spacing + g.LeftSideBearing);
      }
      EmitSimpleGlyph(font, Placement(index, c, g, nextOffset, firstGlyphOfLine), position, color, sortKey);
      nextOffset := nextOffset.(X := nextOffset.X + g.Width + g.RightSideBearing);
    }

    /**
     * DrawString(spriteFont, text, position, color, rotation, origin, scale, effects,
     * layerDepth): one item per visible character, placed by the pen and moved by the text
     * matrix; then FlushIfNeeded. `measuredSize` is what MeasureString reports for the text.
     */
    method DrawString(spriteFont: Option<SpriteFont>, text: Option<Text>, position: Vector2, color: Color,
                      rotation: real, origin: Vector2, scale: Vector2, effects: SpriteEffects, layerDepth: real,
                      measuredSize: Vector2) returns (r: Outcome<DrawError>)
      requires spriteFont.Some? ==> ValidFont(spriteFont.value)
      modifies this`texCoordTL, this`texCoordBR, this`flushes, batcher
      ensures r == TextAdmission(spriteFont, text, beginCalled)
      ensures r.Fail? ==>
        batcher.Items == old(batcher.Items) && flushes == old(flushes)
        && texCoordTL == old(texCoordTL) && texCoordBR == old(texCoordBR)
      ensures r.Pass? ==>
        var font, s := spriteFont.value, text.value;
        var (sin, cos) := TextAngle(rotation, Sin, Cos);
        var m := TextTransform(position, rotation, sin, cos, origin, scale, FlipsOf(effects), measuredSize, font.LineSpacing);
        var ps := Placements(font, s);
        && batcher.Items == old(batcher.Items) +
             GlyphItems(font, ps, color, rotation, sin, cos, scale, effects, layerDepth,
                        TextSortKey(sortMode, font.Texture, layerDepth), m)
        && TexCoords(texCoordTL, texCoordBR) == LastTexCoords(font, ps, effects, TexCoords(old(texCoordTL), old(texCoordBR)))
        && flushes == old(flushes) + [|batcher.Items|]
    {
      r := TextAdmission(spriteFont, text, beginCalled);
      if r.Fail? {
        return;
      }
      var font, s := spriteFont.value, text.value;
      var sortKey := TextSortKey(sortMode, font.Texture, layerDepth);
      var f := FlipsOf(effects);
      var sin, cos := 0.0, 0.0;
      if rotation != 0.0 {
        sin, cos := Sin(rotation), Cos(rotation);
      }
      var m := TextTransform(position, rotation, sin, cos, origin, scale, f, measuredSize, font.LineSpacing);
      ghost var before := TexCoords(texCoordTL, texCoordBR);
      var offset := Vector2(0.0, 0.0);
      var firstGlyphOfLine := true;
      ghost var ps: seq<Placement> := [];
      var i := 0;
      while i < |s|
        invariant 0 <= i <= |s|
        invariant Pen(offset.X, offset.Y, firstGlyphOfLine) == PenAfter(font, s[..i])
        invariant ps == Placements(font, s[..i])
        invariant batcher.Items == old(batcher.Items) +
          GlyphItems(font, ps, color, rotation, sin, cos, scale, effects, layerDepth, sortKey, m)
        invariant TexCoords(texCoordTL, texCoordBR) == LastTexCoords(font, ps, effects, before)
        invariant flushes == old(flushes)
      {
        PrefixStep(font, s, i);
        ghost var pen := Pen(offset.X, offset.Y, firstGlyphOfLine);
        offset, firstGlyphOfLine := DrawCharacter(font, s[i], i, offset, firstGlyphOfLine, color, rotation, sin, cos,
                                                  scale, effects, layerDepth, sortKey, m);
        if IsGlyphChar(s[i]) {
          ghost var placed := Placement(i, s[i], GlyphOf(font, s[i]), Vector2(GlyphX(font, pen, GlyphOf(font, s[i])), pen.Y),
                                        pen.FirstGlyphOfLine);
          GlyphItemsAppend(font, ps, placed, color, rotation, sin, cos, scale, effects, layerDepth, sortKey, m);
          ps := ps + [placed];
        }
        i := i + 1;
      }
      assert s[..|s|] == s;
      FlushIfNeeded();
    }

    /**
     * DrawString(spriteFont, text, position, color) over a StringBuilder: the same pen, no
     * flip, scale or rotation, depth 0, and the texture key only in texture mode.
     */
    method DrawStringBuilder(spriteFont: Option<SpriteFont>, text: Option<Text>, position: Vector2, color: Color)
      returns (r: Outcome<DrawError>)
      requires spriteFont.Some? ==> ValidFont(spriteFont.value)
      modifies this`texCoordTL, this`texCoordBR, this`flushes, batcher
      ensures r == TextAdmission(spriteFont, text, beginCalled)
      ensures r.Fail? ==>
        batcher.Items == old(batcher.Items) && flushes == old(flushes)
        && texCoordTL == old(texCoordTL) && texCoordBR == old(texCoordBR)
      ensures r.Pass? ==>
        var font, s := spriteFont.value, text.value;
        var ps := Placements(font, s);
        && batcher.Items == old(batcher.Items) +
             SimpleGlyphItems(font, ps, position, color, SimpleTextSortKey(sortMode, font.Texture))
        && TexCoords(texCoordTL, texCoordBR) == LastTexCoords(font, ps, 0, TexCoords(old(texCoordTL), old(texCoordBR)))
        && flushes == old(flushes) + [|batcher.Items|]
    {
      r := TextAdmission(spriteFont, text, beginCalled);
      if r.Fail? {
        return;
      }
      var font, s := spriteFont.value, text.value;
      var sortKey := if sortMode == Texture then font.Texture.SortingKey as real else 0.0;
      ghost var before := TexCoords(texCoordTL, texCoordBR);
      var offset := Vector2(0.0, 0.0);
      var firstGlyphOfLine := true;
      ghost var ps: seq<Placement> := [];
      var i := 0;
      while i < |s|
        invariant 0 <= i <= |s|
        invariant Pen(offset.X, offset.Y, firstGlyphOfLine) == PenAfter(font, s[..i])
        invariant ps == Placements(font, s[..i])
        invariant batcher.Items == old(batcher.Items) + SimpleGlyphItems(font, ps, position, color, sortKey)
        invariant TexCoords(texCoordTL, texCoordBR) == LastTexCoords(font, ps, 0, before)
        invariant flushes == old(flushes)
      {
        PrefixStep(font, s, i);
        ghost var pen := Pen(offset.X, offset.Y, firstGlyphOfLine);
        offset, firstGlyphOfLine := DrawSimpleCharacter(font, s[i], i, offset, firstGlyphOfLine, position, color, sortKey);
        if IsGlyphChar(s[i]) {
          ghost var placed := Placement(i, s[i], GlyphOf(font, s[i]), Vector2(GlyphX(font, pen, GlyphOf(font, s[i])), pen.Y),
                                        pen.FirstGlyphOfLine);
          NoEffects(TexCoords(texCoordTL, texCoordBR));
          SimpleGlyphItemsAppend(font, ps, placed, position, color, sortKey);
          ps := ps + [placed];
        }
        i := i + 1;
      }
      assert s[..|s|] == s;
      FlushIfNeeded();
    }
  }
}
