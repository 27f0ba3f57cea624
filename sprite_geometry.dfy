/**
 * The pure parts of SpriteBatch's sprite submission: the sort key a sort mode picks,
 * texture coordinates from a source rectangle, flip effects as coordinate swaps, origin
 * scaling, and the two forms of item geometry a sprite is submitted with.
 */
module SpriteGeometry {
  import opened Wrappers
  import opened Numerics

  /** Componentwise product, as `origin * scale`. */
  function Times(a: Vector2, b: Vector2): Vector2
  {
    Vector2(a.X * b.X, a.Y * b.Y)
  }

  datatype Rectangle = Rectangle(X: int, Y: int, Width: int, Height: int)

  /** A tint, passed through to the batch item unchanged. */
  datatype Color = Color(PackedValue: int)

  /**
   * The texture collaborator: pixel size, the reciprocal pixel ("texel") size, and the
   * identity key used by texture sort mode.
   */
  datatype Texture2D = Texture2D(Width: int, Height: int, TexelWidth: real, TexelHeight: real, SortingKey: int)

  datatype SpriteSortMode = Deferred | Immediate | Texture | BackToFront | FrontToBack

  /** SpriteEffects is a flags enumeration. */
  type SpriteEffects = bv32

  const FlipHorizontally: SpriteEffects := 1
  const FlipVertically: SpriteEffects := 2

  predicate FlipsHorizontally(effects: SpriteEffects) { effects & FlipHorizontally != 0 }
  predicate FlipsVertically(effects: SpriteEffects) { effects & FlipVertically != 0 }

  /**
   * The sort key the Draw switch assigns for a sort mode, or None for a mode that leaves
   * the item's SortKey as it was.
   */
  function SortKeyFor(mode: SpriteSortMode, texture: Texture2D, layerDepth: real): Option<real>
  {
    match mode
    case Texture => Some(texture.SortingKey as real)
    case FrontToBack => Some(layerDepth)
    case BackToFront => Some(-layerDepth)
    case _ => None
  }

  /** The pair of fields `_texCoordTL` and `_texCoordBR`. */
  datatype TexCoords = TexCoords(TL: Vector2, BR: Vector2)

  /** The whole texture: (0,0) to (1,1). */
  const FullTexture: TexCoords := TexCoords(Vector2(0.0, 0.0), Vector2(1.0, 1.0))

  /** A source rectangle in pixels, scaled to normalised coordinates by the texel size. */
  function SourceTexCoords(src: Rectangle, texture: Texture2D): TexCoords
  {
    TexCoords(Vector2(src.X as real * texture.TexelWidth, src.Y as real * texture.TexelHeight),
              Vector2((src.X + src.Width) as real * texture.TexelWidth,
                      (src.Y + src.Height) as real * texture.TexelHeight))
  }

  /** The coordinates for an optional source rectangle: all of the texture when it is absent. */
  function TexCoordsFor(src: Option<Rectangle>, texture: Texture2D): TexCoords
  {
    if src.Some? then SourceTexCoords(src.value, texture) else FullTexture
  }

  /** Swapping the two Y coordinates. */
  function SwapY(tc: TexCoords): TexCoords
  {
    TexCoords(tc.TL.(Y := tc.BR.Y), tc.BR.(Y := tc.TL.Y))
  }

  /** Swapping the two X coordinates. */
  function SwapX(tc: TexCoords): TexCoords
  {
    TexCoords(tc.TL.(X := tc.BR.X), tc.BR.(X := tc.TL.X))
  }

  /** The flips of `effects`, vertical first and then horizontal, as the Draw overloads apply them. */
  function ApplyEffects(tc: TexCoords, effects: SpriteEffects): TexCoords
  {
    var v := if FlipsVertically(effects) then SwapY(tc) else tc;
    if FlipsHorizontally(effects) then SwapX(v) else v
  }

  /** The unscaled size of what is drawn: the source rectangle, or else the whole texture. */
  function SourceSize(src: Option<Rectangle>, texture: Texture2D): Vector2
  {
    if src.Some? then Vector2(src.value.Width as real, src.value.Height as real)
    else Vector2(texture.Width as real, texture.Height as real)
  }

  /**
   * The origin of the destination-rectangle Draw, given in source pixels, brought to
   * destination scale: by dest/src along an axis whose source extent is non-zero, and by
   * dest times the texel size otherwise (always the latter without a source rectangle).
   */
  function DestinationOrigin(origin: Vector2, dest: Rectangle, src: Option<Rectangle>, texture: Texture2D): Vector2
  {
    if src.Some? then
      Vector2(if src.value.Width != 0 then origin.X * dest.Width as real / src.value.Width as real
              else origin.X * dest.Width as real * texture.TexelWidth,
              if src.value.Height != 0 then origin.Y * dest.Height as real / src.value.Height as real
              else origin.Y * dest.Height as real * texture.TexelHeight)
    else
      Vector2(origin.X * dest.Width as real * texture.TexelWidth,
              origin.Y * dest.Height as real * texture.TexelHeight)
  }

  /**
   * The arguments a batch item's Set receives. Unrotated: top-left corner and size.
   * Rotated: anchor, offset of the top-left corner from the anchor, size, and the sine and
   * cosine of the rotation. Unset: Set has not been called on the item.
   */
  datatype Geometry =
    | Unset
    | Unrotated(x: real, y: real, w: real, h: real, color: Color, texTL: Vector2, texBR: Vector2, depth: real)
    | Rotated(x: real, y: real, dx: real, dy: real, w: real, h: real, sin: real, cos: real,
              color: Color, texTL: Vector2, texBR: Vector2, depth: real)

  /**
   * The Set call of a sprite at `position` with origin `origin` (already scaled) and size
   * w x h: the unrotated form for rotation 0 and the rotated form otherwise.
   */
  function SpriteQuad(position: Vector2, origin: Vector2, w: real, h: real, rotation: real,
                      sin: real, cos: real, color: Color, tc: TexCoords, depth: real): Geometry
  {
    if rotation == 0.0 then Unrotated(position.X - origin.X, position.Y - origin.Y, w, h, color, tc.TL, tc.BR, depth)
    else Rotated(position.X, position.Y, -origin.X, -origin.Y, w, h, sin, cos, color, tc.TL, tc.BR, depth)
  }

  /** A queued draw: its texture, its sort key (None: not assigned) and its Set arguments. */
  datatype BatchItem = BatchItem(Texture: Option<Texture2D>, SortKey: Option<real>, Geometry: Geometry)

  /** The item the batcher hands out, before a submission fills it in. */
  const FreshItem: BatchItem := BatchItem(None, None, Unset)

  /** The texture coordinates a sprite ends up with: from its source rectangle, then flipped. */
  function SpriteTexCoords(texture: Texture2D, src: Option<Rectangle>, effects: SpriteEffects): TexCoords
  {
    ApplyEffects(TexCoordsFor(src, texture), effects)
  }

  /**
   * The item of a sprite drawn at a position: sized by its source (or texture) times the
   * scale, with the origin scaled too.
   */
  function PositionedSprite(texture: Texture2D, sortKey: Option<real>, position: Vector2, src: Option<Rectangle>,
                            effects: SpriteEffects, color: Color, rotation: real, origin: Vector2, scale: Vector2,
                            layerDepth: real, sin: real, cos: real): BatchItem
  {
    var size := Times(SourceSize(src, texture), scale);
    BatchItem(Some(texture), sortKey,
              SpriteQuad(position, Times(origin, scale), size.X, size.Y, rotation, sin, cos, color,
                         SpriteTexCoords(texture, src, effects), layerDepth))
  }

  /** The item of a sprite drawn into a destination rectangle, with the origin brought to its scale. */
  function DestinationSprite(texture: Texture2D, sortKey: Option<real>, dest: Rectangle, src: Option<Rectangle>,
                             effects: SpriteEffects, color: Color, rotation: real, origin: Vector2,
                             layerDepth: real, sin: real, cos: real): BatchItem
  {
    BatchItem(Some(texture), sortKey,
              SpriteQuad(Vector2(dest.X as real, dest.Y as real), DestinationOrigin(origin, dest, src, texture),
                         dest.Width as real, dest.Height as real, rotation, sin, cos, color,
                         SpriteTexCoords(texture, src, effects), layerDepth))
  }

  // ---- Properties ----

  /** SpriteEffects.None flips nothing, so the coordinates stay as the source gives them. */
  lemma NoEffects(tc: TexCoords)
    ensures !FlipsHorizontally(0) && !FlipsVertically(0)
    ensures ApplyEffects(tc, 0) == tc
  {
  }

  /**
   * Each sort mode's key: texture identity, depth, negated depth; Deferred and Immediate
   * assign none. Back-to-front orders depths in reverse of front-to-back.
   */
  lemma SortKeyByMode(mode: SpriteSortMode, texture: Texture2D, d1: real, d2: real)
    ensures SortKeyFor(mode, texture, d1).Some? <==> mode in {Texture, FrontToBack, BackToFront}
    ensures mode == Texture ==> SortKeyFor(mode, texture, d1) == SortKeyFor(mode, texture, d2)
    ensures mode == FrontToBack ==> (SortKeyFor(mode, texture, d1).value < SortKeyFor(mode, texture, d2).value <==> d1 < d2)
    ensures mode == BackToFront ==> (SortKeyFor(mode, texture, d1).value < SortKeyFor(mode, texture, d2).value <==> d2 < d1)
  {
  }

  /**
   * Flipping is an involution that touches one axis: each swap undone by itself, the two
   * swaps commute, and a flip leaves the other axis as it was.
   */
  lemma FlipsAreInvolutions(tc: TexCoords, effects: SpriteEffects)
    ensures SwapY(SwapY(tc)) == tc && SwapX(SwapX(tc)) == tc
    ensures SwapX(SwapY(tc)) == SwapY(SwapX(tc))
    ensures SwapY(tc).TL.X == tc.TL.X && SwapY(tc).BR.X == tc.BR.X
    ensures SwapX(tc).TL.Y == tc.TL.Y && SwapX(tc).BR.Y == tc.BR.Y
    ensures ApplyEffects(ApplyEffects(tc, effects), effects) == tc
  {
  }

  /**
   * A source rectangle covering the whole texture gives the same coordinates and size as no
   * source rectangle, when the texel size is the reciprocal of the pixel size.
   */
  lemma FullSourceRectangle(texture: Texture2D)
    requires texture.Width as real * texture.TexelWidth == 1.0
    requires texture.Height as real * texture.TexelHeight == 1.0
    ensures var src := Some(Rectangle(0, 0, texture.Width, texture.Height));
      TexCoordsFor(src, texture) == TexCoordsFor(None, texture) && SourceSize(src, texture) == SourceSize(None, texture)
  {
  }

  /**
   * A source rectangle inside a texture with reciprocal texel size maps into the unit
   * square, its top-left coordinate at most its bottom-right one on each axis.
   */
  lemma SourceTexCoordsInUnitSquare(src: Rectangle, texture: Texture2D)
    requires 0 < texture.Width && 0 < texture.Height
    requires texture.Width as real * texture.TexelWidth == 1.0
    requires texture.Height as real * texture.TexelHeight == 1.0
    requires 0 <= src.X && 0 <= src.Width && src.X + src.Width <= texture.Width
    requires 0 <= src.Y && 0 <= src.Height && src.Y + src.Height <= texture.Height
    ensures var tc := SourceTexCoords(src, texture);
      && 0.0 <= tc.TL.X <= tc.BR.X <= 1.0
      && 0.0 <= tc.TL.Y <= tc.BR.Y <= 1.0
  {
    AxisInUnitInterval(src.X, src.Width, texture.Width, texture.TexelWidth);
    AxisInUnitInterval(src.Y, src.Height, texture.Height, texture.TexelHeight);
  }

  /** One axis of a source rectangle: the span [x, x + w] inside [0, n] scales into [0, 1]. */
  lemma AxisInUnitInterval(x: int, w: int, n: int, t: real)
    requires 0 < n && n as real * t == 1.0
    requires 0 <= x && 0 <= w && x + w <= n
    ensures 0.0 <= x as real * t <= (x + w) as real * t <= 1.0
  {
    PositiveReciprocal(n as real, t);
    MonotoneScale(0.0, x as real, t);
    MonotoneScale(x as real, (x + w) as real, t);
    MonotoneScale((x + w) as real, n as real, t);
  }

  lemma PositiveReciprocal(n: real, t: real)
    requires 0.0 < n && n * t == 1.0
    ensures 0.0 < t
  {
    if t <= 0.0 {
      MonotoneScale(t, 0.0, n);
    }
  }

  lemma MonotoneScale(a: real, b: real, t: real)
    requires a <= b && 0.0 < t
    ensures a * t <= b * t
  {
  }

  /**
   * The destination origin is proportional: an origin at the far edge of the source
   * rectangle lands at the far edge of the destination rectangle, on either axis.
   */
  lemma DestinationOriginAtSourceEdge(dest: Rectangle, src: Rectangle, texture: Texture2D, oy: real)
    requires src.Width != 0
    ensures DestinationOrigin(Vector2(src.Width as real, oy), dest, Some(src), texture).X == dest.Width as real
  {
    var w, d := src.Width as real, dest.Width as real;
    assert w * d / w == d;
  }

  /**
   * Without a source rectangle the origin is in texture pixels: at the texture's far edge it
   * lands at the destination's far edge, when the texel size is the reciprocal pixel size.
   */
  lemma DestinationOriginAtTextureEdge(dest: Rectangle, texture: Texture2D, oy: real)
    requires texture.Width as real * texture.TexelWidth == 1.0
    ensures DestinationOrigin(Vector2(texture.Width as real, oy), dest, None, texture).X == dest.Width as real
  {
    var w, d, t := texture.Width as real, dest.Width as real, texture.TexelWidth;
    assert w * d * t == d * (w * t);
  }

  /**
   * A positioned sprite: the texture and key it was given; size source (or texture) times
   * scale; at rotation 0 the top-left corner is the position less the scaled origin,
   * otherwise the position is the anchor, the negated scaled origin the offset, and the
   * sine and cosine are passed on; the coordinates are the source's, flipped per effect.
   */
  lemma PositionedSpriteLayout(texture: Texture2D, sortKey: Option<real>, position: Vector2, src: Option<Rectangle>,
                               effects: SpriteEffects, color: Color, rotation: real, origin: Vector2, scale: Vector2,
                               layerDepth: real, sin: real, cos: real)
    ensures var item := PositionedSprite(texture, sortKey, position, src, effects, color, rotation, origin, scale, layerDepth, sin, cos);
      var g := item.Geometry;
      var w := (if src.Some? then src.value.Width else texture.Width) as real * scale.X;
      var h := (if src.Some? then src.value.Height else texture.Height) as real * scale.Y;
      && item.Texture == Some(texture) && item.SortKey == sortKey
      && (rotation == 0.0 <==> g.Unrotated?) && !g.Unset?
      && g.w == w && g.h == h && g.color == color && g.depth == layerDepth
      && (g.Unrotated? ==> g.x == position.X - origin.X * scale.X && g.y == position.Y - origin.Y * scale.Y)
      && (g.Rotated? ==> g.x == position.X && g.y == position.Y && g.dx == -(origin.X * scale.X) && g.dy == -(origin.Y * scale.Y)
                         && g.sin == sin && g.cos == cos)
      && TexCoords(g.texTL, g.texBR) == ApplyEffects(if src.Some? then SourceTexCoords(src.value, texture) else FullTexture, effects)
  {
  }

  /**
   * Flip effects change only a sprite's texture coordinates: position, size, rotation,
   * tint, depth, texture and key are those of the unflipped sprite.
   */
  lemma FlipsOnlyTouchTexCoords(texture: Texture2D, sortKey: Option<real>, position: Vector2, src: Option<Rectangle>,
                                effects: SpriteEffects, color: Color, rotation: real, origin: Vector2, scale: Vector2,
                                layerDepth: real, sin: real, cos: real)
    ensures var flipped := PositionedSprite(texture, sortKey, position, src, effects, color, rotation, origin, scale, layerDepth, sin, cos);
      var plain := PositionedSprite(texture, sortKey, position, src, 0, color, rotation, origin, scale, layerDepth, sin, cos);
      var tc := ApplyEffects(TexCoords(plain.Geometry.texTL, plain.Geometry.texBR), effects);
      !plain.Geometry.Unset? && flipped == plain.(Geometry := plain.Geometry.(texTL := tc.TL, texBR := tc.BR))
  {
    assert !FlipsHorizontally(0) && !FlipsVertically(0);
  }

  /**
   * A sprite drawn into a destination rectangle has the rectangle's size, and its corner
   * (rotation 0) or anchor (otherwise) is the rectangle's top-left less, or offset by,
   * the destination-scaled origin.
   */
  lemma DestinationSpriteLayout(texture: Texture2D, sortKey: Option<real>, dest: Rectangle, src: Option<Rectangle>,
                                effects: SpriteEffects, color: Color, rotation: real, origin: Vector2,
                                layerDepth: real, sin: real, cos: real)
    ensures var item := DestinationSprite(texture, sortKey, dest, src, effects, color, rotation, origin, layerDepth, sin, cos);
      var g := item.Geometry;
      var o := DestinationOrigin(origin, dest, src, texture);
      && item.Texture == Some(texture) && item.SortKey == sortKey && !g.Unset?
      && g.w == dest.Width as real && g.h == dest.Height as real
      && (rotation == 0.0 ==> g == Unrotated(dest.X as real - o.X, dest.Y as real - o.Y, dest.Width as real, dest.Height as real,
                                             color, g.texTL, g.texBR, layerDepth))
      && (rotation != 0.0 ==> g.Rotated? && g.x == dest.X as real && g.y == dest.Y as real && g.dx == -o.X && g.dy == -o.Y)
      && TexCoords(g.texTL, g.texBR) == SpriteTexCoords(texture, src, effects)
  {
  }

  /**
   * Both forms of a sprite's Set describe the same unrotated rectangle: the rotated form's
   * anchor plus offset is the unrotated form's top-left corner, with the same size,
   * coordinates, tint and depth.
   */
  lemma QuadFormsAgree(position: Vector2, origin: Vector2, w: real, h: real, rotation: real,
                       sin: real, cos: real, color: Color, tc: TexCoords, depth: real)
    requires rotation != 0.0
    ensures var r := SpriteQuad(position, origin, w, h, rotation, sin, cos, color, tc, depth);
      var u := SpriteQuad(position, origin, w, h, 0.0, sin, cos, color, tc, depth);
      && r.Rotated? && u.Unrotated?
      && r.x + r.dx == u.x && r.y + r.dy == u.y
      && r.w == u.w && r.h == u.h && r.texTL == u.texTL && r.texBR == u.texBR
      && r.color == u.color && r.depth == u.depth
  {
  }

  /**
   * A 64 x 32 texture drawn whole at (10, 10) with zero origin, unit scale and no rotation
   * gives an unrotated quad at (10, 10) of size 64 x 32 with coordinates (0,0)-(1,1).
   */
  lemma WholeTextureScenario(texture: Texture2D, sortKey: Option<real>, color: Color, sin: real, cos: real)
    requires texture.Width == 64 && texture.Height == 32
    ensures PositionedSprite(texture, sortKey, Vector2(10.0, 10.0), None, 0, color, 0.0,
                             Vector2(0.0, 0.0), Vector2(1.0, 1.0), 0.0, sin, cos).Geometry ==
      Unrotated(10.0, 10.0, 64.0, 32.0, color, Vector2(0.0, 0.0), Vector2(1.0, 1.0), 0.0)
  {
    var item := PositionedSprite(texture, sortKey, Vector2(10.0, 10.0), None, 0, color, 0.0,
                                 Vector2(0.0, 0.0), Vector2(1.0, 1.0), 0.0, sin, cos);
    PositionedSpriteLayout(texture, sortKey, Vector2(10.0, 10.0), None, 0, color, 0.0,
                           Vector2(0.0, 0.0), Vector2(1.0, 1.0), 0.0, sin, cos);
    NoEffects(FullTexture);
    assert item.Geometry.Unrotated?;
  }

  /** The same sprite with FlipHorizontally: the same quad, with the X coordinates traded, (1,0)-(0,1). */
  lemma WholeTextureFlippedScenario(texture: Texture2D, sortKey: Option<real>, color: Color, sin: real, cos: real)
    requires texture.Width == 64 && texture.Height == 32
    ensures PositionedSprite(texture, sortKey, Vector2(10.0, 10.0), None, FlipHorizontally, color, 0.0,
                             Vector2(0.0, 0.0), Vector2(1.0, 1.0), 0.0, sin, cos).Geometry ==
      Unrotated(10.0, 10.0, 64.0, 32.0, color, Vector2(1.0, 0.0), Vector2(0.0, 1.0), 0.0)
  {
    var item := PositionedSprite(texture, sortKey, Vector2(10.0, 10.0), None, FlipHorizontally, color, 0.0,
                                 Vector2(0.0, 0.0), Vector2(1.0, 1.0), 0.0, sin, cos);
    PositionedSpriteLayout(texture, sortKey, Vector2(10.0, 10.0), None, FlipHorizontally, color, 0.0,
                           Vector2(0.0, 0.0), Vector2(1.0, 1.0), 0.0, sin, cos);
    assert FlipsHorizontally(FlipHorizontally) && !FlipsVertically(FlipHorizontally);
    assert item.Geometry.Unrotated?;
  }
}
