# software7 core, modelled in Dafny

software7 is a software-rendered "Mode-7" engine. A scene instance holds these texture slots:

- a ground, drawn as a floor seen in perspective;
- three sky layers;
- a track slot;
- a sparse tile map whose tiles name their textures through a tile-reference table;
- a list of billboard sprites.

Textures live in one process-wide cache, keyed by their source plus colour replacements. A global clock advances every animated texture by one frame per five virtual ticks. Each camera draws its frame in passes:

1. the background and sky layers;
2. the ground, pixel by pixel, with the track, tile and ground layers in priority order;
3. the sprites, each a scaled, clipped, alpha-tested blit into the frame's RGBA buffer.

The project models these modules:

- `Pixels` (`pixels.dfy`): RGBA image data and the frame buffer, with texel reads and pixel writes.
- `Textures` (`textures.dfy`): the texture cache, its key function and the animation clock.
- `Tiles` (`tiles.dfy`): the tile map's text key, and the tile map as a map over integer cells.
- `Scenes` (`scene.dfy`): the scene instance with its slot setters, tile and tile-reference setters, and sprite list.
- `Ground` (`ground.dfy`): tiled ground sampling and the per-pixel layer priority of the ground pass.
- `SpriteBlit` (`sprites.dfy`): the sprite frame choice, the cull test and the sprite blit.
- `Cameras` (`camera.dfy`): the heading normalisation, the resize arithmetic and the sky tiling loop.
- `Optional` (`option.dfy`): the optional value used for the engine's null.

The model represents values as follows:

- Numbers are exact: integers are unbounded and fractional values are `real`.
- Headings are kept in turns (the engine's radians divided by 2π).
- The engine's `%` (sign of the dividend), `Math.round` (halves up) and `Math.floor` are written out explicitly.

Mutable engine objects are classes: the cache, the scene instance, sprites, cameras and the output buffer. Their setters are methods whose contracts give the whole new state. The sprite blit (`SpriteBlit.RenderSprite`), the clock loop (`Textures.TextureCache.CheckIncrementGlobalTextures`) and the list setters (`Scenes.Engine.SetTile`, `Scenes.Engine.SetTileReference`) are loops proved against recursive specification functions of the old state; the properties are then proved as lemmas about those functions. The ground pixel is proved against the list of writes it performs. The sky tiling loop (`Cameras.RenderSky`) returns the list of draws it makes, and its contract states every draw directly.

## Model

| member | source | states |
|---|---|---|
| Pixels.TexelAt | src/index.js:674-683 | the colour's four components are the four bytes at offset (y*w+x)*4 |
| Pixels.ColorAt | src/index.js:674-683 | a read drops the sign of each coordinate and floors it before indexing; for non-negative coordinates it is the texel at the floors |
| Pixels.ColorAtReflects | src/index.js:674-683 | for all integers x, y: get(x, y) == get(-x, y) == get(x, -y) == the texel at (abs x, abs y) |
| Pixels.SampleInside | src/index.js:674-683 | inside a well-formed image, a read at integer (x, y) is readable and returns exactly texel (x, y) |
| Pixels.StoreByte | src/index.js:685-692 | a store into the clamped byte array changes only the index written, and is dropped outside the array |
| Pixels.WritePixel | src/index.js:685-692 | a pixel write keeps the buffer's length; its byte-level effect is WritePixelBytes |
| Pixels.WritePixelBytes | src/index.js:685-692 | a pixel write changes exactly the bytes (y*w+x)*4 .. +3 that lie in the buffer, to r, g, b, a, and no other byte |
| Pixels.WriteThenRead | src/index.js:674-692 | reading an in-bounds pixel just written returns the colour written |
| Pixels.WritePixelAt | src/index.js:685-692 | seen pixel by pixel, a write at (qx, qy) changes only that pixel of a w by h buffer |
| Pixels.IdxDistinct | src/index.js:685-692 | distinct in-range pixels occupy disjoint bytes |
| Pixels.ImageBuffer.SetColor | src/index.js:685-692 | the buffer afterwards is the old contents with the pixel written |
| Textures.TextureName | src/index.js:694-712 | the key is the source's base name alone when there are no replacements, and always starts with that name |
| Textures.SuffixAppend | src/index.js:701-709 | each further pair appends exactly its ".c:r" to the key |
| Textures.GetTextureName | src/index.js:694-712 | the loop builds the source followed by ".c:r" for each pair in order |
| Textures.TextureNameCollision | src/index.js:694-712 | the key is not injective: a URL ending in ".red:blue" collides with the bare URL plus that replacement |
| Textures.NewTexture | src/index.js:275-291 | a new entry carries its key as its name, is unloaded and shows frame 0 |
| Textures.Resolved | src/index.js:833-844 | resolving adds exactly the key, keeps every existing entry unchanged, and adds a fresh unloaded entry only when the key was absent |
| Textures.ResolvedTwice | src/index.js:833-844 | resolving the same source twice changes nothing more and yields the identical entry |
| Textures.TextureCache.GetTexture | src/index.js:833-844 | the cache grows as Resolved says, the returned entry is the cached one under the key, and the cache invariant is kept |
| Textures.TextureCache.FinishLoad | src/index.js:358-390 | a load fills in frames, size and images, marks the entry loaded and leaves every other entry alone |
| Textures.Tick | src/index.js:761-770 | one step keeps a consistent texture consistent and changes nothing but the frame index |
| Textures.TickN | src/index.js:761-770 | any number of steps changes nothing but the frame index |
| Textures.TickNCycles | src/index.js:761-770 | n steps move a loaded animated texture to (currentFrame + n) mod frames and change nothing else |
| Textures.TickNIdle | src/index.js:761-767 | textures with at most one frame, or not loaded, never change |
| Textures.TickNCompose | src/index.js:754-771 | a steps and then b steps are a + b steps |
| Textures.TickNConsistent | src/index.js:761-770 | any number of steps keeps a texture consistent and keeps its name |
| Textures.AdvanceAll | src/index.js:757-771 | a step over the cache keeps its key set |
| Textures.AdvanceAllCompose | src/index.js:754-771 | steps over the whole cache compose additively |
| Textures.AdvanceAllStep | src/index.js:754-771 | n steps over the cache followed by one more are n + 1 steps |
| Textures.Ticks | src/index.js:754-756 | the loop takes no step exactly when the count is below 5, and from a non-negative count never takes more than count/5 steps |
| Textures.Residue | src/index.js:754-756 | from a non-negative count the counter left over is non-negative, and a count below 5 is kept whole |
| Textures.TicksClosedForm | src/index.js:751-772 | from a non-negative count the loop runs floor(count/5) times and leaves a remainder in [0, 5) |
| Textures.TicksSplit | src/index.js:751-772 | feeding delta in two calls takes the same number of steps, and leaves the same remainder, as one call |
| Textures.TextureCache.CheckIncrementGlobalTextures | src/index.js:751-772 | the counter ends at the remainder of counter+delta, and every texture has taken Ticks(counter+delta) steps |
| Textures.TextureCache.AdvanceEveryTexture | src/index.js:757-770 | one pass over the keys advances every entry exactly one step |
| Textures.ClockResidueBounded | src/index.js:751-772 | when counter+delta >= 0 the counter ends in [0, 5) after floor((counter+delta)/5) steps |
| Textures.AdvancedFrameInRange | src/index.js:761-770 | a loaded animated frame index advances by the step count modulo frames and stays in [0, frames) |
| Textures.SeventeenTicksTakeThreeSteps | src/index.js:751-772 | 8.5 + 8.5 ticks in two calls take exactly three steps |
| Tiles.Digits | src/index.js:811-813 | a natural number prints as at least one decimal digit |
| Tiles.IntToString | src/index.js:811-813 | a printed integer never contains the separator ':' |
| Tiles.DigitsInjective | src/index.js:811-813 | distinct naturals print differently |
| Tiles.IntToStringSign | src/index.js:811-813 | a printed integer starts with '-' exactly when it is negative |
| Tiles.IntToStringInjective | src/index.js:811-813 | distinct integers print differently |
| Tiles.TilemapIndex | src/index.js:811-813 | the key contains the ':' separator |
| Tiles.TilemapIndexMatchesCell | src/index.js:811-813 | two positions have the same text key if and only if they have the same floored cell, so the map can be keyed by cells |
| Tiles.ColonSplit | src/index.js:811-813 | a key splits back uniquely at its colon |
| Tiles.PutTile | src/index.js:815-821 | storing a tile sets its cell to the id, creates an absent map, and leaves every other cell unchanged |
| Tiles.Lookup | src/index.js:807-809 | a cell has a tile exactly when the map exists and holds the cell, and then it is the stored id |
| Tiles.ApplyTiles | src/index.js:146-150 | after a list the map exists exactly when it existed or the list is non-empty, keeps every old cell, and holds every listed cell |
| Tiles.ApplyTilesLastWins | src/index.js:146-150 | after a list, each cell holds the last id the list gives it, or its old id |
| Scenes.ScaleOption | src/index.js:253-254 | the scale is the first non-zero given value, else 0.16 |
| Scenes.RefsAfter | src/index.js:161-165 | after a list the table has exactly the old ids plus the listed ids |
| Scenes.RefsAfterLastWins | src/index.js:161-165 | after a list, each listed id names the texture of its last entry, and every other id keeps its old name |
| Scenes.CacheAfter | src/index.js:161-165 | resolving a list of references leaves every existing entry unchanged, adds each listed texture's key, and every added entry is a fresh unloaded texture named by its key |
| Scenes.CacheAfterKeys | src/index.js:161-165 | the cache keys afterwards are exactly the old keys plus the listed textures' keys |
| Scenes.IndexOf | src/index.js:266 | the result is -1 exactly when the sprite is absent; otherwise it is the position of its first occurrence |
| Scenes.RemoveFirst | src/index.js:264-272 | an absent element leaves the list unchanged; otherwise exactly one copy is removed (as multisets) |
| Scenes.RemoveFirstKeepsOrder | src/index.js:264-272 | the remaining elements keep their relative order, closing up over the removed one |
| Scenes.AppendThenRemove | src/index.js:176-185 | removing a sprite just appended, and not in the list before, restores the list |
| Scenes.RemoveOnlyFirst | src/index.js:264-272 | a later occurrence of the same sprite survives the removal |
| Scenes.Engine.constructor | src/index.js:35-55 | a new scene has a black background, empty slots, no tiles or references, tile size 8 and no sprites |
| Scenes.Engine.SlotName | src/index.js:72-144 | a setter stores the texture's key after resolving it, or null for a falsy argument, which leaves the cache alone |
| Scenes.Engine.SetOversky | src/index.js:72-85 | only the over-sky slot changes, to the key or null; the cache grows as Resolved says |
| Scenes.Engine.SetUndersky | src/index.js:87-99 | a falsy argument clears the slot and resets the background to black; otherwise only the slot changes |
| Scenes.Engine.SetSky | src/index.js:101-114 | only the sky slot changes, to the key or null |
| Scenes.Engine.SetGround | src/index.js:116-129 | only the ground slot changes, to the key with the colour replacements, or null |
| Scenes.Engine.SetTrack | src/index.js:131-144 | only the track slot changes, to the texture's name (a string) or null |
| Scenes.Engine.GetTile | src/index.js:807-809 | the lookup finds a tile exactly when the floored cell is in the map, and then returns the id stored there |
| Scenes.Engine.SetInstanceTile | src/index.js:815-821 | afterwards getTile at (x, y) returns the id, and every other cell and all other state is unchanged |
| Scenes.Engine.SetTile | src/index.js:146-159 | a list is applied in order, null removes the map, and one entry is stored |
| Scenes.Engine.SetInstanceTileReference | src/index.js:823-831 | the id now names the resolved texture's key; the cache grows as Resolved says |
| Scenes.Engine.SetTileReference | src/index.js:161-174 | a list is applied in order, null empties the table, and one entry is recorded |
| Scenes.Engine.AddSprite | src/index.js:176-185 | the new sprite is appended at the end, owned by the given instance or by this one, with the options' position, defaulted scales, frame -1 and its texture's key; the scene's other fields are unchanged |
| Scenes.Sprite.constructor | src/index.js:245-262 | a sprite takes its position and scales from the options, frame -1, and the key of its resolved texture |
| Scenes.Sprite.Remove | src/index.js:264-272 | with an owner, its list loses this sprite's first occurrence only and the owner's slots, tile map, tile references and tile size are unchanged |
| Ground.JsRem | src/index.js:850-851 | the remainder lies strictly between -n and n, equals the Euclidean remainder for non-negative dividends, is never positive for negative ones, and always differs from the dividend by a multiple of n, so for a negative dividend it is -((-a) mod n) |
| Ground.GroundTexel | src/index.js:846-869 | the texel column or row always lies in [0, texture dimension) |
| Ground.GroundCoordFloor | src/index.js:847-857 | for every screen coordinate, including negative ones, the computed coordinate is non-negative and floors to ((v mod tileSize) * dim) / tileSize |
| Ground.GroundTexelPeriodic | src/index.js:847-857 | the texel index repeats with period tileSize |
| Ground.TileOffset | src/index.js:847-859 | the scaled, shifted remainder the engine computes is GroundCoord, whose floor lies in the texture (GroundCoordFloor) |
| Ground.GroundSample | src/index.js:846-869 | the texel drawn is the current frame's texel at (GroundTexel(x), GroundTexel(y)) |
| Ground.GroundSamplePeriodic | src/index.js:846-869 | ground drawing repeats every tileSize pixels along both axes |
| Ground.RenderGroundAtPosition | src/index.js:846-869 | only pixel (x, y) is written, with GroundSample, and the result is true iff its alpha is 255 |
| Ground.GroundTexture | src/index.js:615-617 | the ground texture is looked up exactly when the slot holds a non-empty cached name |
| Ground.TrackData | src/index.js:607-612 | the track frame is never present, whatever the track slot holds, because a stored name has no loaded flag |
| Ground.TileTexture | src/index.js:645-661 | a tile texture applies iff the map exists, the cell's id is non-zero, its reference is a non-empty name, and that texture is cached and loaded |
| Ground.TileCellOfWorld | src/index.js:646-649 | the tile layer reads cell (x div tileSize, y div tileSize), rounding toward minus infinity |
| Ground.TileZeroIsEmpty | src/index.js:651 | tile id 0 draws nothing, like an empty cell |
| Ground.TrackTexel | src/index.js:632-641 | the track writes only inside its frame, and writes the texel at the world position |
| Ground.PixelWrites | src/index.js:629-666 | at most three writes (track, tile, ground) go to one pixel |
| Ground.GroundFallback | src/index.js:658-666 | the ground is drawn iff it is loaded and not covered, where covered is the tile texel's opacity when a tile applies, else the track's; when drawn it is the last write |
| Ground.TileResultReplacesTrack | src/index.js:658-666 | an opaque track texel under a non-opaque tile texel still gets the ground drawn over both, because the tile result replaces `painted` |
| Ground.SampledAtScreenPosition | src/index.js:658-666 | without a track the pixel's colours do not depend on the world position once the tile texture is chosen |
| Ground.TrackNeverDraws | src/index.js:607-612 | since the track frame is always absent, a pixel gets at most the tile and ground writes, and the tile write comes first |
| Ground.ApplyWrites | src/index.js:629-666 | a series of pixel writes keeps the buffer's length |
| Ground.ApplyWritesLast | src/index.js:629-666 | after several writes at one pixel, that pixel holds the last colour and every other byte is unchanged |
| Ground.ApplyWritesConcat | src/index.js:629-666 | applying two series of writes one after the other is applying their concatenation |
| Ground.DrawTrackLayer | src/index.js:632-641 | the track layer writes TrackTexel and reports whether it was opaque |
| Ground.DrawTileLayer | src/index.js:643-661 | the tile layer writes the tile sample when a tile texture applies and replaces `painted` with its opacity; otherwise it changes nothing |
| Ground.RenderGroundPixel | src/index.js:607-666 | with the track data and ground texture looked up from the scene as the pass does, the output buffer is the old one with PixelWrites applied in order at the screen pixel |
| Cameras.Round | src/index.js:433-434 | round(v) is the integer r with v - 1/2 < r <= v + 1/2 |
| Cameras.NormalizeTurns | src/index.js:225-237 | the stored heading differs from degrees/360 by at most one whole turn, so it names the same direction, and it never exceeds one turn for headings up to 720 degrees |
| Cameras.NormalizeTurnsRange | src/index.js:225-237 | for headings in [-360, 360) the stored heading is in [0, 1) turns and names the same direction |
| Cameras.NormalizeTurnsAbove | src/index.js:225-237 | for headings in (360, 720] the stored heading is one turn less, in (0, 1] |
| Cameras.FullTurnKept | src/index.js:234 | 360 and 720 degrees are stored as a full turn, and 0 as 0 |
| Cameras.NormalizeTurnsPeriodic | src/index.js:225-237 | adding 360 degrees gives the same heading, except from 0 |
| Cameras.Horizon | src/index.js:430 | the horizon h satisfies h*divider <= height < (h+1)*divider |
| Cameras.ProjectionScale | src/index.js:432-435 | the scale is within one half of 300*width/320 |
| Cameras.ProjectionScaleMonotone | src/index.js:432-435 | a wider viewport never has a smaller scale, and width 320 gives scale 300 |
| Cameras.Camera.constructor | src/index.js:188-222 | a new camera starts at (84, 142, 16), heading 0 and width 320, with the derived values of a resize |
| Cameras.Camera.SetAngle | src/index.js:225-237 | the stored heading is NormalizeTurns(degrees) and nothing else changes |
| Cameras.Camera.Resize | src/index.js:409-436 | over exact arithmetic, the height becomes floor(aHeight*width/aWidth), and horizon, camScale and both scales are re-derived from it |
| Cameras.Camera.SetResolution | src/index.js:239-242 | the width is set, then the camera is resized |
| Cameras.PlaceSky | src/index.js:564-587 | a layer is drawn at round(size*camScale); the fixed layer is never narrower than round(1.25*viewport width), and when its scaled width falls short it is drawn at exactly that width, with its height scaled by the same factor; every copy's bottom edge is row horizon+1, and the first copy starts at -round(width*turns) |
| Cameras.SkyLoopDiverges | src/index.js:590-598 | with a non-positive width and a first copy short of the right edge, the loop test holds after any number of rounds |
| Cameras.RenderSky | src/index.js:564-598 | copies are drawn at x0 + k*w; every copy but the last ends left of the right edge, the last reaches it; an unloaded texture draws nothing |
| Cameras.FixedSkyLoopEnds | src/index.js:574-581 | the middle (fixed) sky's loop always ends on a non-empty viewport |
| Cameras.SkyScrollFullTurn | src/index.js:583-585 | one more turn of heading shifts a layer by exactly its drawn width |
| SpriteBlit.SpriteFrame | src/index.js:522-526 | the frame shown is the texture's current frame or the sprite's override |
| SpriteBlit.SpriteFrameChoice | src/index.js:522-526 | an override in [0, frames) wins, while -1 or one >= frames falls back; for overrides >= -1 the result is a valid frame |
| SpriteBlit.NegativeOverrideAccepted | src/index.js:524 | an override below -1 is returned as it is, and it names no frame |
| SpriteBlit.TexelCoord | src/index.js:729-730 | over exact arithmetic, floor(d/w*dim) equals (d*dim) div w and lies in [0, dim) |
| SpriteBlit.BlitEffect | src/index.js:714-749 | after the blit, a camera pixel inside the box takes the box texel when its alpha is 255; every other byte is unchanged |
| SpriteBlit.BlitRows | src/index.js:717-748 | the blit of rows sy .. the box bottom keeps the buffer's length; its pixel effect is BlitEffect |
| SpriteBlit.BlitRow | src/index.js:723-746 | the blit of one row keeps the buffer's length; its pixel effect is BlitRowAt |
| SpriteBlit.CullIsSound | src/index.js:540-558 | a sprite the Culled test skips (box empty, or entirely left, right, above or below the screen) would have changed nothing |
| SpriteBlit.EdgeBoxPassesCull | src/index.js:556-558 | a box starting exactly at the right edge passes the cull yet draws nothing |
| SpriteBlit.RenderSprite | src/index.js:714-749 | the nested loops leave the buffer equal to BlitRows of the old contents |

## Left out

- DOM and canvas work is not modelled. This covers canvas creation, the holder's offset size (taken as the inputs `aWidth`, `aHeight`), `drawImage`, `fillRect`, `getImageData`/`putImageData`, the resize listener and `onResize`. RenderSky returns its draws as a list instead of drawing them.
- Asset loading is not modelled: `loadTexture`, `loadSVGTexture`, `loadPixelPaintTexture`, `framerizeImage`'s slicing and `onLoad`. FinishLoad stands for their completion and takes the decoded frames as given.
- Pixel Paint sources are keyed by the hash of their JSON text. The hash and `guid` are external, so a Pixel Paint source carries its digest directly.
- The render loop is not modelled: `globalRender`, `requestAnimationFrame`, `elapsed`/`fps` and `loopFunction`. The clock takes `delta` directly.
- The floating-point projection is not modelled: the distance and world-position stepping of the ground pass, `cos`/`sin`, and the rotation and projected size in `renderSprites`. The ground pixel takes its world position, and the blit its box, as inputs.
- `renderCamera` and `renderSprites` are not modelled as whole passes. This covers the background fill, the order of the three sky layers, and the per-sprite texture lookup. Their per-item steps are modelled.
- `setBackgroundColorFromTexture` is not modelled: it is never called, and it builds a CSS string from float averages.
- Cameras.Camera.Resize, Cameras.Camera.constructor, Cameras.Camera.SetResolution: require a positive holder width. A zero width makes the engine divide by zero and store an infinite or undefined height.
- Cameras.RenderSky: requires that the tiling loop ends (positive drawn width, or a first copy that already reaches the right edge). Otherwise the engine's loop never ends; SkyLoopDiverges states that case instead.
- SpriteBlit.TexelCoord, SpriteBlit.RenderSprite, Ground.TileOffset, Ground.GroundSample, Cameras.Camera.Resize, Cameras.Camera.constructor, Cameras.Camera.SetResolution: the engine computes with IEEE doubles, and the model with exact rationals. A double quotient rounded before the multiplication can move a floor down by one at an exact-ratio boundary. For example, 7/10*90 gives column 62 in doubles and 63 here, and 77*(320/77) gives height 319 in doubles and 320 here. The ground's remainder times (dim/tileSize) has the same hazard.
- SpriteBlit.RenderSprite: requires a frame index inside the frame list. The engine's frame choice can yield a negative override (NegativeOverrideAccepted), and then reading that frame's data fails in the engine.
- Ground.RenderGroundPixel: the track bounds test uses the track frame's own size, not the track texture's size. The two agree for every decoded texture, and the track layer never has a frame anyway.
- Camera and viewport widths and heights are modelled as integers. The engine stores whatever number `setResolution` is given, and a fractional width then reaches the clipping tests.
- Tile ids are modelled as integers, with 0 the only falsy id. Non-numeric ids and NaN are not modelled.
- A colour-replacement argument of null is modelled as the empty list, which gives the same key.
- Integer keys are printed in plain decimal. The engine's exponent form for very large magnitudes is not modelled.
- Textures and scene objects are keyed by string in a `map`. Keys that clash with built-in object property names are not modelled.
- The engine keeps the cache and the clock counter as process-wide variables. Here they live in one `TextureCache` object that is passed to the operations that use it.
- The engine stores headings in radians (turns times 2π). Only the normalisation in turns is modelled, since 2π is irrational.
