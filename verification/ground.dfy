/**
 * The ground pass, one output pixel at a time: the track layer, then the
 * tile layer, then the ground texture as a fallback, each texture repeated
 * once per tile-size square of the screen.
 */
module Ground {
  import opened Optional
  import opened Pixels
  import opened Textures
  import opened Tiles
  import opened Scenes

  /** The engine's `%`: the remainder takes the sign of the dividend. */
  function JsRem(a: int, b: int): (r: int)
    requires b > 0
    ensures -b < r < b
    ensures a >= 0 ==> r == a % b
    ensures a < 0 ==> r <= 0
    ensures (a - r) % b == 0
  {
    var r := if a >= 0 then a % b else -((-a) % b);
    RemainderCongruent(a, b, r);
    r
  }

  /** The engine's remainder differs from the dividend by a multiple of the divisor. */
  lemma RemainderCongruent(a: int, b: int, r: int)
    requires b > 0 && r == if a >= 0 then a % b else -((-a) % b)
    ensures (a - r) % b == 0
  {
    var q := if a >= 0 then a / b else -((-a) / b);
    if a >= 0 {
      assert a == (a / b) * b + a % b;
    } else {
      assert -a == ((-a) / b) * b + (-a) % b;
    }
    assert a - r == q * b;
    ModUnique(a - r, b, q, 0);
  }

  /**
   * The texel coordinate the engine computes for screen coordinate v: its
   * remainder by the tile size, scaled to the texture dimension, and shifted
   * by one texture dimension when negative.
   */
  function GroundCoord(v: int, tileSize: int, dim: int): real
    requires tileSize > 0
  {
    var t := (JsRem(v, tileSize) * dim) as real / tileSize as real;
    if t < 0.0 then t + dim as real else t
  }

  /** The texel column (or row) a screen coordinate maps to: its offset within its tile, scaled. */
  function GroundTexel(v: int, tileSize: int, dim: int): (t: int)
    requires tileSize > 0 && dim >= 0
    ensures dim > 0 ==> 0 <= t < dim
  {
    TexelBound(v % tileSize, tileSize, dim);
    (v % tileSize) * dim / tileSize
  }

  /** For the engine's tile size and a texture dimension, the real coordinate floors to GroundTexel. */
  lemma GroundCoordFloor(v: int, tileSize: int, dim: int)
    requires tileSize > 0 && dim >= 1
    ensures GroundCoord(v, tileSize, dim) >= 0.0
    ensures Abs(GroundCoord(v, tileSize, dim)).Floor == GroundTexel(v, tileSize, dim)
  {
    if JsRem(v, tileSize) >= 0 {
      CoordFloorNonNegative(v, tileSize, dim);
    } else {
      CoordFloorNegative(v, tileSize, dim);
    }
  }

  lemma CoordFloorNonNegative(v: int, tileSize: int, dim: int)
    requires tileSize > 0 && dim >= 1 && JsRem(v, tileSize) >= 0
    ensures GroundCoord(v, tileSize, dim) >= 0.0
    ensures Abs(GroundCoord(v, tileSize, dim)).Floor == GroundTexel(v, tileSize, dim)
  {
    var r := JsRem(v, tileSize);
    if v < 0 {
      var k := (-v) / tileSize;
      assert -v == k * tileSize;
      ModUnique(v, tileSize, -k, 0);
    }
    ProductSign(r, dim);
    RatioSign(r * dim, tileSize);
    FloorOfRatio(r * dim, tileSize, GroundCoord(v, tileSize, dim));
  }

  lemma CoordFloorNegative(v: int, tileSize: int, dim: int)
    requires tileSize > 0 && dim >= 1 && JsRem(v, tileSize) < 0
    ensures GroundCoord(v, tileSize, dim) >= 0.0
    ensures Abs(GroundCoord(v, tileSize, dim)).Floor == GroundTexel(v, tileSize, dim)
  {
    var r := JsRem(v, tileSize);
    NegativeRemainder(v, tileSize, -r);
    ShiftedRatio(-r, dim, tileSize);
    FloorOfRatio((v % tileSize) * dim, tileSize, GroundCoord(v, tileSize, dim));
  }

  lemma ProductSign(a: int, b: int)
    requires a >= 0 && b >= 0
    ensures a * b >= 0
  {
  }

  lemma RatioSign(a: int, b: int)
    requires b > 0
    ensures a >= 0 ==> a as real / b as real >= 0.0
  {
  }

  lemma FloorOfRatio(a: int, b: int, t: real)
    requires b > 0 && a >= 0 && t == (a as real) / (b as real)
    ensures t >= 0.0 && Abs(t).Floor == a / b
  {
    RealFloorDiv(a, b);
  }

  /** The remainder scaled by dim / tileSize, then shifted when negative, is GroundCoord. */
  lemma ScaledCoord(v: int, tileSize: int, dim: int, t: real)
    requires tileSize > 0
    requires var s := JsRem(v, tileSize) as real * (dim as real / tileSize as real);
             t == if s < 0.0 then s + dim as real else s
    ensures t == GroundCoord(v, tileSize, dim)
  {
    ScaledRatio(JsRem(v, tileSize), dim, tileSize);
  }

  lemma ScaledRatio(r: int, dim: int, ts: int)
    requires ts > 0
    ensures r as real * (dim as real / ts as real) == ((r * dim) as real) / ts as real
  {
  }

  /** Adding one texture dimension to a negative scaled remainder gives the complementary remainder, scaled. */
  lemma ShiftedRatio(q: int, dim: int, ts: int)
    requires 0 < q < ts && dim >= 1
    ensures ((-q) * dim) as real / ts as real < 0.0
    ensures ((-q) * dim) as real / ts as real + dim as real == ((ts - q) * dim) as real / ts as real
  {
    assert -q * dim < 0;
    assert (ts - q) * dim == ts * dim - q * dim;
  }

  /** For a negative dividend the engine's remainder and the Euclidean one are complementary. */
  lemma NegativeRemainder(v: int, tileSize: int, q: int)
    requires v < 0 && tileSize > 0 && q == (-v) % tileSize && q > 0
    ensures v % tileSize == tileSize - q
  {
    var k := (-v) / tileSize;
    assert -v == k * tileSize + q;
    assert v == (-k - 1) * tileSize + (tileSize - q);
    ModUnique(v, tileSize, -k - 1, tileSize - q);
  }

  /** The texel at screen (x, y) is the same one tile-size square further along, in either direction. */
  lemma GroundTexelPeriodic(v: int, tileSize: int, dim: int, k: int)
    requires tileSize > 0 && dim >= 0
    ensures GroundTexel(v + k * tileSize, tileSize, dim) == GroundTexel(v, tileSize, dim)
  {
    assert v + k * tileSize == (v / tileSize + k) * tileSize + v % tileSize;
    ModUnique(v + k * tileSize, tileSize, v / tileSize + k, v % tileSize);
  }

  /** The texel of a decoded texture's current frame that ground drawing copies to screen (x, y). */
  function GroundSample(texture: Texture, tileSize: int, x: int, y: int): (c: Color)
    requires texture.Decoded() && tileSize > 0
    ensures var img, tx, ty := texture.images[texture.currentFrame],
                               GroundTexel(x, tileSize, texture.width), GroundTexel(y, tileSize, texture.height);
            (IdxInRange(img.width, img.height, tx, ty, 3); c == TexelAt(img, tx, ty))
  {
    var img := texture.images[texture.currentFrame];
    GroundCoordFloor(x, tileSize, texture.width);
    GroundCoordFloor(y, tileSize, texture.height);
    ReadableWithin(img, GroundCoord(x, tileSize, texture.width), GroundCoord(y, tileSize, texture.height));
    ColorAt(img, GroundCoord(x, tileSize, texture.width), GroundCoord(y, tileSize, texture.height))
  }

  /** Ground sampling repeats with the tile size along both screen axes. */
  lemma GroundSamplePeriodic(texture: Texture, tileSize: int, x: int, y: int, i: int, j: int)
    requires texture.Decoded() && tileSize > 0
    ensures GroundSample(texture, tileSize, x + i * tileSize, y + j * tileSize) == GroundSample(texture, tileSize, x, y)
  {
    GroundTexelPeriodic(x, tileSize, texture.width, i);
    GroundTexelPeriodic(y, tileSize, texture.height, j);
  }

  /**
   * The position inside the texture of screen coordinate v: the remainder
   * scaled by dim / tileSize, moved into [0, dim) when it is negative.
   */
  method TileOffset(v: int, tileSize: int, dim: int) returns (t: real)
    requires tileSize > 0
    ensures t == GroundCoord(v, tileSize, dim)
  {
    var scale := dim as real / tileSize as real;
    t := JsRem(v, tileSize) as real * scale;
    if t < 0.0 {
      t := t + dim as real;
    }
    ScaledCoord(v, tileSize, dim, t);
  }

  /**
   * Draws one pixel of a tiled texture at screen (x, y), reporting whether
   * the texel drawn was fully opaque.
   */
  method RenderGroundAtPosition(buf: ImageBuffer, texture: Texture, tileSize: int, x: int, y: int)
    returns (isOpaque: bool)
    requires texture.Decoded() && tileSize > 0
    modifies buf.data
    ensures buf.data[..] == WritePixel(old(buf.data[..]), buf.width, x, y, GroundSample(texture, tileSize, x, y))
    ensures isOpaque <==> GroundSample(texture, tileSize, x, y).a == Opaque
  {
    var tileX := TileOffset(x, tileSize, texture.width);
    var tileY := TileOffset(y, tileSize, texture.height);
    var img := texture.images[texture.currentFrame];
    GroundCoordFloor(x, tileSize, texture.width);
    GroundCoordFloor(y, tileSize, texture.height);
    ReadableWithin(img, tileX, tileY);
    var texel := ColorAt(img, tileX, tileY);
    buf.SetColor(x, y, texel);
    if texel.a == Opaque {
      return true;
    }
    return false;
  }

  /**
   * The frame the track layer draws from. The slot holds a texture name,
   * and a name carries no `loaded` flag, so there is never one.
   */
  function TrackData(track: Option<string>): (frame: Option<ImageData>)
    ensures frame.None?
  {
    None
  }

  /** The ground texture, looked up when the ground slot holds a non-empty name. */
  function GroundTexture(ground: Option<string>, textures: map<string, Texture>): (t: Option<Texture>)
    ensures t.Some? <==> ground.Some? && ground.value != "" && ground.value in textures
    ensures t.Some? ==> t.value == textures[ground.value]
  {
    if ground.Some? && ground.value != "" && ground.value in textures then Some(textures[ground.value]) else None
  }

  /**
   * The loaded texture the tile layer draws at world cell (x, y): the map
   * must exist, the tile id there must be non-zero, its reference a
   * non-empty name, and that texture cached and loaded.
   */
  function TileTexture(tileMap: Option<TileMap>, tileReference: map<int, string>, tileSize: int,
                       textures: map<string, Texture>, x: int, y: int): (t: Option<Texture>)
    requires tileSize > 0
    ensures t.Some? ==> t.value.loaded
    ensures t.Some? <==>
      var id := Lookup(tileMap, Cell(x as real / tileSize as real, y as real / tileSize as real));
      && id.Some? && id.value != 0
      && id.value in tileReference && tileReference[id.value] != ""
      && tileReference[id.value] in textures && textures[tileReference[id.value]].loaded
  {
    if tileMap.None? then None
    else
      var id := Lookup(tileMap, Cell(x as real / tileSize as real, y as real / tileSize as real));
      if id.None? || id.value == 0 then None
      else if id.value !in tileReference || tileReference[id.value] == "" then None
      else
        var name := tileReference[id.value];
        if name in textures && textures[name].loaded then Some(textures[name]) else None
  }

  /** The tile layer reads world cell (x / tileSize, y / tileSize), rounding toward minus infinity. */
  lemma TileCellOfWorld(x: int, y: int, tileSize: int)
    requires tileSize > 0
    ensures Cell(x as real / tileSize as real, y as real / tileSize as real) == (x / tileSize, y / tileSize)
  {
    RealFloorDiv(x, tileSize);
    RealFloorDiv(y, tileSize);
  }

  /** A cell holding tile id 0 draws nothing, exactly as an empty cell. */
  lemma TileZeroIsEmpty(tileMap: Option<TileMap>, tileReference: map<int, string>, tileSize: int,
                        textures: map<string, Texture>, x: int, y: int)
    requires tileSize > 0
    requires Lookup(tileMap, Cell(x as real / tileSize as real, y as real / tileSize as real)) == Some(0)
    ensures TileTexture(tileMap, tileReference, tileSize, textures, x, y).None?
  {
  }

  /** The texel the track layer writes: only inside the track frame, read at the world position. */
  function TrackTexel(track: Option<ImageData>, x: int, y: int): (c: Option<Color>)
    requires track.Some? ==> track.value.WellFormed()
    ensures c.Some? <==> track.Some? && 0 <= x < track.value.width && 0 <= y < track.value.height
    ensures c.Some? ==> (IdxInRange(track.value.width, track.value.height, x, y, 3); c.value == TexelAt(track.value, x, y))
  {
    if track.Some? && 0 <= x < track.value.width && 0 <= y < track.value.height then
      SampleInside(track.value, x, y);
      Some(ColorAt(track.value, x as real, y as real))
    else None
  }

  function Writes(c: Option<Color>): seq<Color>
  {
    if c.Some? then [c.value] else []
  }

  /** The texel the tile layer writes at screen (sx, sy), when a tile texture applies. */
  function TileWrite(tile: Option<Texture>, tileSize: int, sx: int, sy: int): (c: Option<Color>)
    requires tileSize > 0 && (tile.Some? ==> tile.value.Decoded())
  {
    if tile.Some? then Some(GroundSample(tile.value, tileSize, sx, sy)) else None
  }

  /** Whether the layers before the ground fallback count the pixel as painted. */
  function Painted(trackWrite: Option<Color>, tileWrite: Option<Color>): bool
  {
    if tileWrite.Some? then tileWrite.value.a == Opaque
    else trackWrite.Some? && trackWrite.value.a == Opaque
  }

  /** Inputs every layer of one ground pixel may draw from. */
  ghost predicate LayersReady(track: Option<ImageData>, tile: Option<Texture>, ground: Option<Texture>)
  {
    && (track.Some? ==> track.value.WellFormed())
    && (tile.Some? ==> tile.value.Decoded())
    && (ground.Some? && ground.value.loaded ==> ground.value.Decoded())
  }

  /**
   * The colours written at screen (sx, sy) for world position (x, y), in
   * the order they are written: track, tile, then ground. The tile result
   * replaces whatever the track reported, and the ground is drawn only when
   * the pixel is not counted as painted. Tile and ground textures are
   * sampled at the screen position.
   */
  function PixelWrites(track: Option<ImageData>, tile: Option<Texture>, ground: Option<Texture>,
                       tileSize: int, x: int, y: int, sx: int, sy: int): (ws: seq<Color>)
    requires LayersReady(track, tile, ground) && tileSize > 0
    ensures |ws| <= 3
  {
    var trackWrite := TrackTexel(track, x, y);
    var tileWrite := TileWrite(tile, tileSize, sx, sy);
    var groundWrite :=
      if ground.Some? && ground.value.loaded && !Painted(trackWrite, tileWrite)
      then Some(GroundSample(ground.value, tileSize, sx, sy)) else None;
    Writes(trackWrite) + Writes(tileWrite) + Writes(groundWrite)
  }

  /**
   * The ground texture is drawn exactly when it is loaded and neither an
   * opaque tile texel nor, where no tile applies, an opaque track texel was
   * drawn; when drawn, it is the last write.
   */
  lemma GroundFallback(track: Option<ImageData>, tile: Option<Texture>, ground: Option<Texture>,
                       tileSize: int, x: int, y: int, sx: int, sy: int)
    requires LayersReady(track, tile, ground) && tileSize > 0
    ensures var ws := PixelWrites(track, tile, ground, tileSize, x, y, sx, sy);
            var covered :=
              if tile.Some? then GroundSample(tile.value, tileSize, sx, sy).a == Opaque
              else TrackTexel(track, x, y).Some? && TrackTexel(track, x, y).value.a == Opaque;
            (ground.Some? && ground.value.loaded && !covered)
            <==> (|ws| > 0 && ground.Some? && ground.value.loaded && ws[|ws| - 1] == GroundSample(ground.value, tileSize, sx, sy)
                  && |ws| == |Writes(TrackTexel(track, x, y))| + (if tile.Some? then 1 else 0) + 1)
  {
  }

  /**
   * A tile whose texel is not opaque hides an opaque track texel from the
   * fallback: the ground is still drawn over both.
   */
  lemma TileResultReplacesTrack(track: ImageData, tile: Texture, ground: Texture,
                                tileSize: int, x: int, y: int, sx: int, sy: int)
    requires LayersReady(Some(track), Some(tile), Some(ground)) && ground.loaded && tileSize > 0
    requires TrackTexel(Some(track), x, y).Some? && TrackTexel(Some(track), x, y).value.a == Opaque
    requires GroundSample(tile, tileSize, sx, sy).a != Opaque
    ensures PixelWrites(Some(track), Some(tile), Some(ground), tileSize, x, y, sx, sy)
         == [TrackTexel(Some(track), x, y).value, GroundSample(tile, tileSize, sx, sy), GroundSample(ground, tileSize, sx, sy)]
  {
  }

  /**
   * Without a track frame the world position only chooses the tile texture:
   * what is drawn depends on the screen position alone.
   */
  lemma SampledAtScreenPosition(tile: Option<Texture>, ground: Option<Texture>,
                                tileSize: int, x1: int, y1: int, x2: int, y2: int, sx: int, sy: int)
    requires LayersReady(None, tile, ground) && tileSize > 0
    ensures PixelWrites(None, tile, ground, tileSize, x1, y1, sx, sy) == PixelWrites(None, tile, ground, tileSize, x2, y2, sx, sy)
  {
  }

  /** Since there is never a track frame, the track layer writes nothing, whatever its slot holds. */
  lemma TrackNeverDraws(trackSlot: Option<string>, tile: Option<Texture>, ground: Option<Texture>,
                        tileSize: int, x: int, y: int, sx: int, sy: int)
    requires LayersReady(None, tile, ground) && tileSize > 0
    ensures var ws := PixelWrites(TrackData(trackSlot), tile, ground, tileSize, x, y, sx, sy);
            |ws| <= 2 && (tile.Some? ==> ws[0] == GroundSample(tile.value, tileSize, sx, sy))
  {
  }

  /** The bytes after writing each colour in turn at pixel (sx, sy). */
  function ApplyWrites(s: seq<Byte>, w: int, sx: int, sy: int, cs: seq<Color>): (r: seq<Byte>)
    ensures |r| == |s|
    decreases cs
  {
    if cs == [] then s else ApplyWrites(WritePixel(s, w, sx, sy, cs[0]), w, sx, sy, cs[1..])
  }

  /**
   * Writing several colours at one in-buffer pixel leaves that pixel with
   * the last colour and every other pixel as it was.
   */
  lemma {:induction false} ApplyWritesLast(s: seq<Byte>, w: int, h: int, sx: int, sy: int, cs: seq<Color>,
                                           x: int, y: int, k: int)
    requires |s| == w * h * 4
    requires 0 <= sx < w && 0 <= sy < h
    requires 0 <= x < w && 0 <= y < h && 0 <= k < 4
    ensures 0 <= Idx(w, x, y) + k < |s|
    ensures ApplyWrites(s, w, sx, sy, cs)[Idx(w, x, y) + k]
         == if (x, y) == (sx, sy) && cs != [] then cs[|cs| - 1].Component(k) else s[Idx(w, x, y) + k]
    decreases cs
  {
    IdxInRange(w, h, x, y, k);
    if cs != [] {
      var s' := WritePixel(s, w, sx, sy, cs[0]);
      WritePixelAt(s, w, h, sx, sy, cs[0], x, y, k);
      ApplyWritesLast(s', w, h, sx, sy, cs[1..], x, y, k);
      if cs[1..] == [] {
        assert |cs| == 1;
      } else {
        assert cs[1..][|cs[1..]| - 1] == cs[|cs| - 1];
      }
    }
  }

  /** The track layer at one pixel: draws the track texel when there is one, and reports whether it was opaque. */
  method DrawTrackLayer(buf: ImageBuffer, trackData: Option<ImageData>, screenX: int, screenY: int, x: int, y: int)
    returns (painted: bool)
    requires trackData.Some? ==> trackData.value.WellFormed()
    modifies buf.data
    ensures buf.data[..] == ApplyWrites(old(buf.data[..]), buf.width, screenX, screenY, Writes(TrackTexel(trackData, x, y)))
    ensures painted <==> TrackTexel(trackData, x, y).Some? && TrackTexel(trackData, x, y).value.a == Opaque
  {
    painted := false;
    if trackData.Some? {
      if x >= 0 && y >= 0 && x < trackData.value.width && y < trackData.value.height {
        SampleInside(trackData.value, x, y);
        var texel := ColorAt(trackData.value, x as real, y as real);
        buf.SetColor(screenX, screenY, texel);
        if texel.a == Opaque {
          painted := true;
        }
      }
    }
  }

  /**
   * The tile layer at one pixel: when a loaded tile texture applies at the
   * world cell, draws it and replaces `painted` with its opacity.
   */
  method DrawTileLayer(engine: Engine, cache: TextureCache, buf: ImageBuffer, painted: bool,
                       screenX: int, screenY: int, x: int, y: int)
    returns (painted': bool)
    requires engine.tileSize > 0 && cache.Valid()
    modifies buf.data
    ensures var tile := TileTexture(engine.tileMap, engine.tileReference, engine.tileSize, cache.textures, x, y);
            && (tile.Some? ==> tile.value.Decoded())
            && buf.data[..] == ApplyWrites(old(buf.data[..]), buf.width, screenX, screenY, Writes(TileWrite(tile, engine.tileSize, screenX, screenY)))
            && painted' == (if tile.Some? then GroundSample(tile.value, engine.tileSize, screenX, screenY).a == Opaque else painted)
  {
    painted' := painted;
    ghost var tile := TileTexture(engine.tileMap, engine.tileReference, engine.tileSize, cache.textures, x, y);
    TileTextureDecoded(engine.tileMap, engine.tileReference, engine.tileSize, cache, x, y);
    if engine.tileMap.Some? {
      var tileX := (x as real / engine.tileSize as real).Floor;
      var tileY := (y as real / engine.tileSize as real).Floor;
      var id := Lookup(engine.tileMap, Cell(tileX as real, tileY as real));
      if id.Some? && id.value != 0 {
        if id.value in engine.tileReference && engine.tileReference[id.value] != "" {
          var txName := engine.tileReference[id.value];
          if txName in cache.textures && cache.textures[txName].loaded {
            var texture := cache.textures[txName];
            painted' := RenderGroundAtPosition(buf, texture, engine.tileSize, screenX, screenY);
          }
        }
      }
    }
  }

  /** Every tile texture found through a valid cache is decoded. */
  lemma TileTextureDecoded(tileMap: Option<TileMap>, tileReference: map<int, string>, tileSize: int,
                           cache: TextureCache, x: int, y: int)
    requires tileSize > 0 && cache.Valid()
    ensures var tile := TileTexture(tileMap, tileReference, tileSize, cache.textures, x, y);
            tile.Some? ==> tile.value.Decoded()
  {
    var tile := TileTexture(tileMap, tileReference, tileSize, cache.textures, x, y);
    if tile.Some? {
      var id := Lookup(tileMap, Cell(x as real / tileSize as real, y as real / tileSize as real));
      assert cache.textures[tileReference[id.value]].Consistent();
    }
  }

  /**
   * One pixel of the ground pass: screen (screenX, screenY), already mapped
   * to world position (x, y), with the pass's track frame and ground
   * texture. Writes go straight to the output buffer.
   */
  method RenderGroundPixel(engine: Engine, cache: TextureCache, buf: ImageBuffer,
                           trackData: Option<ImageData>, groundTex: Option<Texture>,
                           screenX: int, screenY: int, x: int, y: int)
    requires engine.tileSize > 0 && cache.Valid()
    requires trackData == TrackData(engine.track) && groundTex == GroundTexture(engine.ground, cache.textures)
    requires LayersReady(trackData, None, groundTex)
    modifies buf.data
    ensures var tile := TileTexture(engine.tileMap, engine.tileReference, engine.tileSize, cache.textures, x, y);
            && LayersReady(trackData, tile, groundTex)
            && buf.data[..] == ApplyWrites(old(buf.data[..]), buf.width, screenX, screenY,
                                           PixelWrites(trackData, tile, groundTex, engine.tileSize, x, y, screenX, screenY))
  {
    ghost var s0 := buf.data[..];
    ghost var tile := TileTexture(engine.tileMap, engine.tileReference, engine.tileSize, cache.textures, x, y);
    ghost var trackWrite := TrackTexel(trackData, x, y);
    ghost var tileWrite := TileWrite(tile, engine.tileSize, screenX, screenY);

    var painted := DrawTrackLayer(buf, trackData, screenX, screenY, x, y);
    ghost var s1 := buf.data[..];
    painted := DrawTileLayer(engine, cache, buf, painted, screenX, screenY, x, y);
    assert painted == Painted(trackWrite, tileWrite);
    ghost var s2 := buf.data[..];

    ghost var groundWrite: Option<Color> := None;
    if groundTex.Some? && groundTex.value.loaded && !painted {
      var _ := RenderGroundAtPosition(buf, groundTex.value, engine.tileSize, screenX, screenY);
      groundWrite := Some(GroundSample(groundTex.value, engine.tileSize, screenX, screenY));
    }
    assert buf.data[..] == ApplyWrites(s2, buf.width, screenX, screenY, Writes(groundWrite));
    ApplyWritesConcat(s0, buf.width, screenX, screenY, Writes(trackWrite), Writes(tileWrite));
    ApplyWritesConcat(s0, buf.width, screenX, screenY, Writes(trackWrite) + Writes(tileWrite), Writes(groundWrite));
  }

  lemma {:induction false} ApplyWritesConcat(s: seq<Byte>, w: int, sx: int, sy: int, a: seq<Color>, b: seq<Color>)
    ensures ApplyWrites(s, w, sx, sy, a + b) == ApplyWrites(ApplyWrites(s, w, sx, sy, a), w, sx, sy, b)
    decreases a
  {
    if a != [] {
      assert (a + b)[1..] == a[1..] + b;
      ApplyWritesConcat(WritePixel(s, w, sx, sy, a[0]), w, sx, sy, a[1..], b);
    } else {
      assert a + b == b;
    }
  }
}
