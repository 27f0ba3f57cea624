# MonoGame sprite submission and effect-parameter marshalling, in Dafny

This project models two parts of MonoGame's graphics layer:

- **Sprite submission in `SpriteBatch`.** Each `Draw`, `DrawDeferred` and `DrawString`
  overload validates its arguments, takes a batch item from the batcher and gives it its
  texture. The `Draw` and `DrawString` overloads also give the item the sort key of the
  active `SpriteSortMode`, where that mode defines one. `DrawDeferred` never sets a key.
  Each overload rewrites the scratch texture coordinates `_texCoordTL`/`_texCoordBR` from the source rectangle and the
  texel size, and swaps them per flip flag. It then calls the item's `Set` in the unrotated
  form (top-left and size) or the rotated form (anchor, offset, size, sine and cosine).
  `DrawString` also walks the text with a pen, one UTF-16 code unit at a time (a C# `char`),
  so a character outside the Basic Multilingual Plane is two units. The pen skips `'\r'`,
  starts a new line at `'\n'`, and clamps the left bearing of a line's first glyph at 0.
  It emits one item per code unit that is neither `'\r'` nor `'\n'`.
- **`EffectParameter.SetValue`.** Each overload checks the parameter's class and type. It
  copies vector components, or a matrix transposed to column-major order, into the flat
  float array `Data`. It then stamps `StateKey` from the process-wide counter
  `NextStateKey`, which wraps at 2^64.

Layout:

- `numerics.dfy` (module `Numerics`): `System.Numerics.Vector2`, shared by both halves.
- `wrappers.dfy`: `Option` (a nullable reference or struct) and `Outcome` (a `void` method
  that completes or throws).
- `sprite_geometry.dfy` (module `SpriteGeometry`): the pure rules of a sprite submission.
  These are the sort key per mode, texture coordinates from a source rectangle, the flips as
  coordinate swaps, origin scaling, and the two forms of `Set`. The batch item each `Draw`
  overload produces is given as a function (`PositionedSprite`, `DestinationSprite`).
- `text_layout.dfy` (module `TextLayout`): the pen of `DrawString` as a step function and
  its glyph placements. It also holds the flip/rotation matrix of the full overload and the
  items both overloads emit per glyph.
- `sprite_batch.dfy` (module `SpriteBatching`): the classes `SpriteBatcher` (the items handed
  out this frame, a `seq`) and `SpriteBatch` (session state, the scratch coordinates, and a
  log of `FlushIfNeeded` calls). The overloads are methods proved against the functions above.
- `effect_layout.dfy` (module `EffectLayout`): the value types, the store sequence of each
  overload, the transposed matrix layout and the wrapping counter.
- `effect_parameter.dfy` (module `EffectParameters`): the class `EffectParameter` with
  `Data: array<real>`, `Elements`, `StateKey` and a shared `StateKeyCounter`. It has one
  method per `SetValue` overload.

`float` is `real`. `MathF.Sin`/`MathF.Cos` are function-valued fields of `SpriteBatch`, so
nothing is assumed about them. `_batcher.CreateBatchItem()` appends a fresh item (no
texture, no sort key, no geometry) to `SpriteBatcher.Items`. Setting an item's fields updates
that entry of the sequence. `FlushIfNeeded()` appends the current item count to
`SpriteBatch.flushes`, because its body is not part of this model.

## Behaviour worth noting

- The 7-argument `Draw` throws in Immediate mode after it has already queued an item that
  has only its texture set.
- The `DrawDeferred` overloads never set a sort key and never call `FlushIfNeeded`.
- The 9-argument `Draw` and the destination-rectangle `Draw` do not reject Immediate mode.
  In that mode, and in Deferred mode, they leave the item's sort key as the batcher handed it out.
- Each element of a vector-array parameter is set through its own `SetValue`, which
  type-checks and stamps that element. The parent is stamped once more at the end.
- The matrix-array overload writes the elements' `Data` directly and stamps only the parent.

## Model

| member | source | states |
|---|---|---|
| `SpriteBatching.DrawAdmission` | MonoGame.Framework/Graphics/SpriteBatchCustom.cs:38-42 | a submission is admitted iff the texture is non-null and Begin was called; a null texture is reported as ArgumentNullException("texture") before the session check, and a non-null texture without Begin as InvalidOperationException |
| `SpriteBatching.TextAdmission` | MonoGame.Framework/Graphics/SpriteBatchCustom.cs:479 | DrawString is admitted iff font and text are non-null and Begin was called; a null font is reported first as ArgumentNullException("spriteFont"), then a null text as ArgumentNullException("text"), then a missing Begin as InvalidOperationException |
| `SpriteBatching.SpriteBatcher.CreateBatchItem` | MonoGame.Framework/Graphics/SpriteBatchCustom.cs:44 | appends exactly one fresh item (no texture, no sort key, no geometry) and returns its index |
| `SpriteBatching.SpriteBatcher.SetTexture` | MonoGame.Framework/Graphics/SpriteBatchCustom.cs:45 | only the texture of the given item changes |
| `SpriteBatching.SpriteBatcher.SetSortKey` | MonoGame.Framework/Graphics/SpriteBatchCustom.cs:51 | only the sort key of the given item changes |
| `SpriteBatching.SpriteBatcher.Set` | MonoGame.Framework/Graphics/SpriteBatchCustom.cs:73-98 | only the geometry of the given item changes |
| `SpriteBatching.SpriteBatch.FlushIfNeeded` | MonoGame.Framework/Graphics/SpriteBatchCustom.cs:350 | records one flush event with the item count at that moment, and changes nothing else |
| `SpriteBatching.SpriteBatch.AssignSortKey` | MonoGame.Framework/Graphics/SpriteBatchCustom.cs:273-287 | the item's key becomes the mode's key (texture key, depth, negated depth); other modes leave it as it was |
| `SpriteBatching.SpriteBatch.SetQuad` | MonoGame.Framework/Graphics/SpriteBatchCustom.cs:321-348 | the item gets the unrotated form at rotation 0 and the rotated form with Sin/Cos of the rotation otherwise, using the current scratch coordinates |
| `SpriteBatching.SpriteBatch.LoadTexCoords` | MonoGame.Framework/Graphics/SpriteBatchCustom.cs:292-308 | the scratch coordinates become the source rectangle times the texel size, or (0,0)-(1,1) without one |
| `SpriteBatching.SpriteBatch.ApplyFlips` | MonoGame.Framework/Graphics/SpriteBatchCustom.cs:310-319 | the scratch coordinates are swapped on Y for FlipVertically, then on X for FlipHorizontally |
| `SpriteBatching.SpriteBatch.Draw` | MonoGame.Framework/Graphics/SpriteBatchCustom.cs:30-100 | a failed check queues nothing; Immediate mode throws after queueing an item that has only its texture; otherwise exactly one item is queued: whole texture, the mode's key, size texture×scale; never flushes |
| `SpriteBatching.SpriteBatch.DrawDeferred` | MonoGame.Framework/Graphics/SpriteBatchCustom.cs:112-164 | as Draw over the whole texture, but the item never gets a sort key, Immediate is not rejected, and nothing is flushed |
| `SpriteBatching.SpriteBatch.DrawDeferredRegion` | MonoGame.Framework/Graphics/SpriteBatchCustom.cs:178-240 | one item sized source rectangle×scale with the source's texture coordinates; no sort key, no flush |
| `SpriteBatching.SpriteBatch.DrawRegion` | MonoGame.Framework/Graphics/SpriteBatchCustom.cs:254-351 | a failed check queues nothing; otherwise one item with the mode's key, source (or texture) size×scale, flipped coordinates, the rotation's form of Set, then one flush event |
| `SpriteBatching.SpriteBatch.DrawToRectangle` | MonoGame.Framework/Graphics/SpriteBatchCustom.cs:364-461 | one item of the destination rectangle's size with the origin brought to destination scale, flipped coordinates, then one flush event |
| `SpriteBatching.SpriteBatch.EmitGlyph` | MonoGame.Framework/Graphics/SpriteBatchCustom.cs:574-628 | queues one item for a placed glyph: the font texture, the common key, the glyph's flipped texture rectangle, its corner moved by the text matrix |
| `SpriteBatching.SpriteBatch.EmitSimpleGlyph` | MonoGame.Framework/Graphics/SpriteBatchCustom.cs:680-701 | queues one unscaled, unrotated item at depth 0 at the glyph's cropped pen offset plus the position |
| `SpriteBatching.SpriteBatch.DrawCharacter` | MonoGame.Framework/Graphics/SpriteBatchCustom.cs:549-630 | the pen moves by one Step; '\r' and '\n' queue nothing; any other character queues its glyph's item at the clamped or advanced pen offset |
| `SpriteBatching.SpriteBatch.DrawSimpleCharacter` | MonoGame.Framework/Graphics/SpriteBatchCustom.cs:655-703 | the same pen step for the StringBuilder overload, with the simple glyph item |
| `SpriteBatching.SpriteBatch.DrawString` | MonoGame.Framework/Graphics/SpriteBatchCustom.cs:475-635 | a failed check queues nothing; otherwise the queued items are exactly the glyph items of the text's placements, in text order, under the text matrix and one common key, followed by one flush event |
| `SpriteBatching.SpriteBatch.DrawStringBuilder` | MonoGame.Framework/Graphics/SpriteBatchCustom.cs:644-708 | the same for the StringBuilder overload: the texture key in Texture mode and 0 otherwise, depth 0, no flip, scale or rotation |
| `SpriteGeometry.SortKeyByMode` | MonoGame.Framework/Graphics/SpriteBatchCustom.cs:48-63 | a key is assigned exactly in Texture, FrontToBack and BackToFront modes; Texture ignores depth; FrontToBack orders keys as depths and BackToFront reverses that order |
| `SpriteGeometry.NoEffects` | MonoGame.Framework/Graphics/SpriteBatchCustom.cs:310-319 | SpriteEffects.None flips nothing and leaves the coordinates as they are |
| `SpriteGeometry.FlipsAreInvolutions` | MonoGame.Framework/Graphics/SpriteBatchCustom.cs:310-319 | each swap undoes itself, the two swaps commute, each leaves the other axis alone, and applying the same effects twice restores the coordinates |
| `SpriteGeometry.FullSourceRectangle` | MonoGame.Framework/Graphics/SpriteBatchCustom.cs:292-308 | a source rectangle covering the whole texture gives the same coordinates and size as none, given reciprocal texel sizes |
| `SpriteGeometry.SourceTexCoordsInUnitSquare` | MonoGame.Framework/Graphics/SpriteBatchCustom.cs:297-300 | a source rectangle inside the texture maps into [0,1]², with TL ≤ BR on each axis |
| `SpriteGeometry.DestinationOriginAtSourceEdge` | MonoGame.Framework/Graphics/SpriteBatchCustom.cs:404-405 | with a non-zero source width, an origin at the source's right edge lands at the destination's right edge |
| `SpriteGeometry.DestinationOriginAtTextureEdge` | MonoGame.Framework/Graphics/SpriteBatchCustom.cs:416 | without a source rectangle, an origin at the texture's right edge lands at the destination's right edge |
| `SpriteGeometry.PositionedSpriteLayout` | MonoGame.Framework/Graphics/SpriteBatchCustom.cs:289-348 | the item has the given texture and key and size source (or texture)×scale; rotation 0 gives top-left = position − origin·scale, otherwise anchor = position, offset = −origin·scale and the given sin/cos; the coordinates are the source's, flipped |
| `SpriteGeometry.FlipsOnlyTouchTexCoords` | MonoGame.Framework/Graphics/SpriteBatchCustom.cs:310-348 | flipping changes only the texture coordinates of the item; position, size, rotation, tint, depth, texture and key are unchanged |
| `SpriteGeometry.DestinationSpriteLayout` | MonoGame.Framework/Graphics/SpriteBatchCustom.cs:397-457 | the item has the destination's size; its corner (rotation 0) or anchor and offset (otherwise) come from the destination's top-left and the destination-scaled origin |
| `SpriteGeometry.QuadFormsAgree` | MonoGame.Framework/Graphics/SpriteBatchCustom.cs:321-348 | the rotated form's anchor plus offset is the unrotated form's top-left, with the same size, coordinates, tint and depth |
| `SpriteGeometry.WholeTextureScenario` | MonoGame.Framework/Graphics/SpriteBatchCustom.cs:302-308 | a 64×32 texture drawn whole at (10,10) with zero origin and unit scale gives the quad (10,10) 64×32 with coordinates (0,0)-(1,1) |
| `SpriteGeometry.WholeTextureFlippedScenario` | MonoGame.Framework/Graphics/SpriteBatchCustom.cs:315-319 | the same sprite flipped horizontally keeps the quad and gets coordinates (1,0)-(0,1) |
| `TextLayout.PlacementsFollowText` | MonoGame.Framework/Graphics/SpriteBatchCustom.cs:548-588 | one placement per code unit that is neither '\r' nor '\n', in text order |
| `TextLayout.SurrogatePairPlacesTwoGlyphs` | MonoGame.Framework/Graphics/SpriteBatchCustom.cs:548-562 | the text is walked by UTF-16 code unit: a surrogate pair (U+1F600 as D83D DE00) gets two glyph lookups and two placements |
| `TextLayout.PlacementIndices` | MonoGame.Framework/Graphics/SpriteBatchCustom.cs:548-562 | each placement points at its own character and that character's glyph, with strictly increasing indices |
| `TextLayout.PenAfterLines` | MonoGame.Framework/Graphics/SpriteBatchCustom.cs:554-558 | after a prefix, pen Y is LineSpacing times the line feeds so far; FirstGlyphOfLine holds exactly at a line start, where X is 0 |
| `TextLayout.PenAfterGlyph` | MonoGame.Framework/Graphics/SpriteBatchCustom.cs:630 | away from a line start, the pen stands at the last glyph's offset plus its Width and RightSideBearing |
| `TextLayout.PenRules` | MonoGame.Framework/Graphics/SpriteBatchCustom.cs:564-572 | the first placement starts a line; a line's first glyph sits at max(LeftSideBearing, 0) ≥ 0; a later glyph sits at the previous offset + Width + RightSideBearing + Spacing + its LeftSideBearing, on the same line |
| `TextLayout.PlacementLines` | MonoGame.Framework/Graphics/SpriteBatchCustom.cs:554-558 | each placement's Y is LineSpacing times the line feeds before its character, and it is first on its line iff only '\r' lie between the last '\n' and it |
| `TextLayout.TextTransformUnrotated` | MonoGame.Framework/Graphics/SpriteBatchCustom.cs:499-527 | at rotation 0 the text matrix mirrors a point within the measured block on each flipped axis, subtracts the origin, scales and adds the position |
| `TextLayout.TextTransformRotated` | MonoGame.Framework/Graphics/SpriteBatchCustom.cs:528-542 | otherwise it mirrors, subtracts the origin, scales, rotates by (sin, cos) and adds the position |
| `TextLayout.TextItemsShape` | MonoGame.Framework/Graphics/SpriteBatchCustom.cs:586-604 | DrawString's items correspond one to one with the visible characters, in order; each carries the font texture, the common key and its glyph's flipped texture rectangle |
| `TextLayout.SortKeysAgreeAtDepthZero` | MonoGame.Framework/Graphics/SpriteBatchCustom.cs:481-497 | the StringBuilder overload's key equals the full overload's key at depth 0 in every mode |
| `TextLayout.SimpleTextIsDefaultText` | MonoGame.Framework/Graphics/SpriteBatchCustom.cs:644-708 | the StringBuilder overload's items are those of the full overload with rotation 0, zero origin, unit scale, no effects and depth 0 |
| `EffectLayout.MatrixStoresTransposed` | MonoGame.Framework/Graphics/Effect/EffectParameterExtensionsCustom.cs:76-166 | for each supported shape (R,C), exactly R·C floats are stored and store R·j+i holds M[i+1][j+1]; an unsupported shape stores nothing |
| `EffectLayout.MatrixOverwriteLayout` | MonoGame.Framework/Graphics/Effect/EffectParameterExtensionsCustom.cs:76-166 | after a matrix store into a large enough Data, Data[R·j+i] = M[i+1][j+1] and every entry from R·C on is unchanged |
| `EffectLayout.AdvanceStep` | MonoGame.Framework/Graphics/Effect/EffectParameterExtensionsCustom.cs:20 | one more wrapping increment after n increments equals n+1 increments |
| `EffectLayout.AdvanceDistinct` | MonoGame.Framework/Graphics/Effect/EffectParameterExtensionsCustom.cs:20 | fewer than 2^64 increments never return the counter to a value already handed out |
| `EffectParameters.StoreFloats` | MonoGame.Framework/Graphics/Effect/EffectParameterExtensionsCustom.cs:17-19 | stores go to Data[0], Data[1], … in order; later entries are unchanged; a store past the end throws with the earlier stores done |
| `EffectParameters.EffectParameter.Stamp` | MonoGame.Framework/Graphics/Effect/EffectParameterExtensionsCustom.cs:20 | StateKey becomes the old NextStateKey and the counter advances by one, modulo 2^64 |
| `EffectParameters.EffectParameter.SetVectorComponents` | MonoGame.Framework/Graphics/Effect/EffectParameterExtensionsCustom.cs:14-20 | throws InvalidCastException unless the class is Vector and the type Single, and then Data, StateKey and the counter are unchanged; otherwise the components go to Data[0..] and the parameter is stamped |
| `EffectParameters.EffectParameter.SetValueVector2` | MonoGame.Framework/Graphics/Effect/EffectParameterExtensionsCustom.cs:12-21 | InvalidCast unless it is a float vector; Data[0..1] = X,Y, all else unchanged; StateKey stamped only on success |
| `EffectParameters.EffectParameter.SetValueVector3` | MonoGame.Framework/Graphics/Effect/EffectParameterExtensionsCustom.cs:30-40 | the same for Data[0..2] = X,Y,Z |
| `EffectParameters.EffectParameter.SetValueVector4` | MonoGame.Framework/Graphics/Effect/EffectParameterExtensionsCustom.cs:49-60 | the same for Data[0..3] = X,Y,Z,W |
| `EffectParameters.EffectParameter.SetValueQuaternion` | MonoGame.Framework/Graphics/Effect/EffectParameterExtensionsCustom.cs:286-297 | the same for Data[0..3] = X,Y,Z,W of the quaternion |
| `EffectParameters.EffectParameter.SetElement` | MonoGame.Framework/Graphics/Effect/EffectParameterExtensionsCustom.cs:26 | the element's own SetValue runs; every other element's Data and StateKey are unchanged |
| `EffectParameters.EffectParameter.SetEachElement` | MonoGame.Framework/Graphics/Effect/EffectParameterExtensionsCustom.cs:25-26 | elements before the stop index hold their values and consecutive counter keys; the loop stops at the first missing or rejecting element; the counter moves once per element set |
| `EffectParameters.EffectParameter.SetVectorArray` | MonoGame.Framework/Graphics/Effect/EffectParameterExtensionsCustom.cs:23-28 | each element is set in order; if all succeed the parent is stamped last and the counter advanced by |value|+1; the parent's Data is untouched |
| `EffectParameters.EffectParameter.SetValueVector2Array` | MonoGame.Framework/Graphics/Effect/EffectParameterExtensionsCustom.cs:23-28 | SetVectorArray for the Vector2 components of each value |
| `EffectParameters.EffectParameter.SetValueVector3Array` | MonoGame.Framework/Graphics/Effect/EffectParameterExtensionsCustom.cs:42-47 | SetVectorArray for the Vector3 components of each value |
| `EffectParameters.EffectParameter.SetValueVector4Array` | MonoGame.Framework/Graphics/Effect/EffectParameterExtensionsCustom.cs:62-67 | SetVectorArray for the Vector4 components of each value |
| `EffectParameters.EffectParameter.SetValueMatrix` | MonoGame.Framework/Graphics/Effect/EffectParameterExtensionsCustom.cs:69-169 | InvalidCast unless it is a float matrix; a supported shape stores the transposed layout into Data, and an unsupported one stores nothing but still stamps |
| `EffectParameters.EffectParameter.StoreEachElement` | MonoGame.Framework/Graphics/Effect/EffectParameterExtensionsCustom.cs:176-201 | stores value i's layout into Elements[i].Data for each i in order, stopping at the first missing element or short array |
| `EffectParameters.EffectParameter.SetValueMatrixArray` | MonoGame.Framework/Graphics/Effect/EffectParameterExtensionsCustom.cs:171-284 | the class is checked once; elements get their values transposed; only the parent is stamped, once; no element's StateKey changes; an unsupported shape writes nothing and still stamps |

## Left out

- The batcher's internals are not part of this model: item pooling, sorting, texture-run
  coalescing, `DrawBatch` and the body of `FlushIfNeeded`. Items are a growing sequence,
  and a flush is a recorded event.
- `SpriteBatchItem.Set` only records its arguments. Its vertex expansion is not part of this model.
- Floating point is modelled as `real`: no rounding, no NaN or infinity, and no
  `float`/`double` difference between the `NETSTANDARD2_1` and `(float)Math` variants.
  `Sin` and `Cos` are arbitrary functions, so nothing is claimed about continuity at rotation 0.
- `Rectangle` arithmetic such as `srcRect.X + srcRect.Width` uses unbounded integers, so
  32-bit overflow is not modelled.
- `SpriteFont.MeasureString` is an input (`measuredSize`) of `DrawString`.
  `GetGlyphIndexOrDefault` is a total function of the font into its glyph table
  (`ValidFont`). The fixed-pointer glyph access is indexing into a sequence.
- `CheckValid` is defined in SpriteBatch.cs, which is not part of this model. It is taken to
  check the font, then the text, then the session, in that order.
- The text of both `DrawString` overloads is a sequence of UTF-16 code units, as C#
  `string` and `StringBuilder` index it. No decoding of surrogate pairs takes place, in
  the code or in the model.
- `Vector2.Transform` is the standard affine map of a row vector by the matrix entries
  M11, M12, M21, M22, M41, M42. The `Matrix` type is not part of this model.
- `batchLock` is an unused lock object, and concurrency is out of scope.
- `Color` is an opaque value passed through to the item.
- `EffectParameter.Data` is assumed to be a `float[]`, so the cast never fails. `StateKey`
  and `NextStateKey` are taken to be 64-bit unsigned, because EffectParameter.cs is not part
  of this model. How `Data` is uploaded to the GPU is not modelled.
- The array overloads (`SetValue` of `Vector2[]`, `Vector3[]`, `Vector4[]` and `Matrix[]`)
  take a sequence, so a null `value` array is not modelled. The code would throw
  `NullReferenceException` at `value.Length` before storing anything.
- An element index past the end of `Elements` is modelled as an index-out-of-range failure,
  like a store past the end of `Data`.
- `Begin` and `End` are not modelled. The session state (`beginCalled`, `sortMode`) is set
  by the `SpriteBatch` constructor.
