/**
 * Sprite drawing: which animation frame a sprite shows, and the blit of
 * that frame into a screen-space box, nearest-neighbour scaled, clipped to
 * the camera, copying only fully opaque texels.
 */
module SpriteBlit {
  import opened Pixels
  import opened Textures

  /**
   * The frame a sprite shows: its own override when that is not -1 and is
   * below the frame count, the texture's current frame otherwise.
   */
  function SpriteFrame(currentFrame: int, spriteFrame: int, frames: int): (f: int)
    ensures f == currentFrame || f == spriteFrame
  {
    if spriteFrame != -1 && spriteFrame < frames then spriteFrame else currentFrame
  }

  /** A non-negative override below the frame count wins; -1 or one too large falls back to the texture's clock. */
  lemma SpriteFrameChoice(currentFrame: int, spriteFrame: int, frames: int)
    requires 0 <= currentFrame < frames
    ensures spriteFrame == -1 || spriteFrame >= frames ==> SpriteFrame(currentFrame, spriteFrame, frames) == currentFrame
    ensures 0 <= spriteFrame < frames ==> SpriteFrame(currentFrame, spriteFrame, frames) == spriteFrame
    ensures spriteFrame >= -1 ==> 0 <= SpriteFrame(currentFrame, spriteFrame, frames) < frames
  {
  }

  /** Any other negative override is accepted as it is, though it names no frame. */
  lemma NegativeOverrideAccepted(currentFrame: int, spriteFrame: int, frames: int)
    requires spriteFrame < -1 && frames >= 1
    ensures var f := SpriteFrame(currentFrame, spriteFrame, frames);
            f == spriteFrame && !(0 <= f < frames)
  {
  }

  /** A destination box on screen: top-left corner and size in pixels. */
  datatype Box = Box(x: int, y: int, w: int, h: int)

  /**
   * A sprite the renderer skips before drawing: a projected size under one
   * pixel, or a box wholly left of, right of, above or below the camera.
   */
  predicate Culled(b: Box, width: int, height: int)
  {
    b.w < 1 || b.h < 1 || b.x + b.w < 0 || b.x > width || b.y + b.h < 0 || b.y > height
  }

  /** Offset d of a box `n` pixels long, scaled to a texture dimension and floored. */
  function TexelCoord(d: int, n: int, dim: int): (t: int)
    requires 0 <= d < n && dim >= 0
    ensures t == d * dim / n
    ensures 0 <= t && (dim > 0 ==> t < dim)
  {
    RatioTimes(d, n, dim);
    RealFloorDiv(d * dim, n);
    TexelBound(d, n, dim);
    (d as real / n as real * dim as real).Floor
  }

  lemma RatioTimes(d: int, n: int, dim: int)
    requires n > 0
    ensures d as real / n as real * dim as real == (d * dim) as real / n as real
  {
  }

  /** Whether screen pixel (sx, sy) lies in box b. */
  predicate InBox(b: Box, sx: int, sy: int)
  {
    b.x <= sx < b.x + b.w && b.y <= sy < b.y + b.h
  }

  /** The texel of `frame` that lands on screen pixel (sx, sy) of box b. */
  function BoxTexel(frame: ImageData, b: Box, sx: int, sy: int): (c: Color)
    requires frame.WellFormed() && InBox(b, sx, sy)
  {
    var tx := TexelCoord(sx - b.x, b.w, frame.width);
    var ty := TexelCoord(sy - b.y, b.h, frame.height);
    IdxInRange(frame.width, frame.height, tx, ty, 3);
    TexelAt(frame, tx, ty)
  }

  /** The bytes after the blit's visit to (sx, sy): the texel is copied only when fully opaque. */
  function BlitTexel(s: seq<Byte>, width: int, frame: ImageData, b: Box, sx: int, sy: int): (r: seq<Byte>)
    requires frame.WellFormed() && InBox(b, sx, sy)
    ensures |r| == |s|
  {
    var c := BoxTexel(frame, b, sx, sy);
    if c.a == Opaque then WritePixel(s, width, sx, sy, c) else s
  }

  /** The blit of row sy from column sx to the box's right edge, skipping columns outside the camera. */
  function BlitRow(s: seq<Byte>, width: int, frame: ImageData, b: Box, sy: int, sx: int): (r: seq<Byte>)
    requires frame.WellFormed() && b.x <= sx && b.y <= sy < b.y + b.h
    ensures |r| == |s|
    decreases b.x + b.w - sx
  {
    if sx >= b.x + b.w then s
    else
      var s' := if 0 <= sx < width then BlitTexel(s, width, frame, b, sx, sy) else s;
      BlitRow(s', width, frame, b, sy, sx + 1)
  }

  /** The blit of rows sy to the box's bottom edge, skipping rows outside the camera. */
  function BlitRows(s: seq<Byte>, width: int, height: int, frame: ImageData, b: Box, sy: int): (r: seq<Byte>)
    requires frame.WellFormed() && b.y <= sy
    ensures |r| == |s|
    decreases b.y + b.h - sy
  {
    if sy >= b.y + b.h then s
    else
      var s' := if 0 <= sy < height then BlitRow(s, width, frame, b, sy, b.x) else s;
      BlitRows(s', width, height, frame, b, sy + 1)
  }

  /** What the blit leaves at byte k of camera pixel (px, py). */
  function BlitResultAt(s: seq<Byte>, width: int, height: int, frame: ImageData, b: Box,
                        px: int, py: int, k: int): Byte
    requires frame.WellFormed() && |s| == width * height * 4
    requires 0 <= px < width && 0 <= py < height && 0 <= k < 4
  {
    IdxInRange(width, height, px, py, k);
    if InBox(b, px, py) && BoxTexel(frame, b, px, py).a == Opaque
    then BoxTexel(frame, b, px, py).Component(k)
    else s[Idx(width, px, py) + k]
  }

  /** Row sy of the blit, from column sx on, seen at one camera pixel. */
  lemma {:induction false} BlitRowAt(s: seq<Byte>, width: int, height: int, frame: ImageData, b: Box,
                                     sy: int, sx: int, px: int, py: int, k: int)
    requires frame.WellFormed() && |s| == width * height * 4
    requires b.x <= sx && b.y <= sy < b.y + b.h && 0 <= sy < height
    requires 0 <= px < width && 0 <= py < height && 0 <= k < 4
    ensures 0 <= Idx(width, px, py) + k < |s|
    ensures BlitRow(s, width, frame, b, sy, sx)[Idx(width, px, py) + k]
         == if py == sy && sx <= px then BlitResultAt(s, width, height, frame, b, px, py, k) else s[Idx(width, px, py) + k]
    decreases b.x + b.w - sx
  {
    IdxInRange(width, height, px, py, k);
    if sx < b.x + b.w {
      var s' := if 0 <= sx < width then BlitTexel(s, width, frame, b, sx, sy) else s;
      if 0 <= sx < width {
        var c := BoxTexel(frame, b, sx, sy);
        if c.a == Opaque {
          WritePixelAt(s, width, height, sx, sy, c, px, py, k);
        }
      }
      BlitRowAt(s', width, height, frame, b, sy, sx + 1, px, py, k);
    }
  }

  /** Rows sy onward of the blit, seen at one camera pixel. */
  lemma {:induction false} BlitRowsAt(s: seq<Byte>, width: int, height: int, frame: ImageData, b: Box,
                                      sy: int, px: int, py: int, k: int)
    requires frame.WellFormed() && |s| == width * height * 4 && b.y <= sy
    requires 0 <= px < width && 0 <= py < height && 0 <= k < 4
    ensures 0 <= Idx(width, px, py) + k < |s|
    ensures BlitRows(s, width, height, frame, b, sy)[Idx(width, px, py) + k]
         == if sy <= py then BlitResultAt(s, width, height, frame, b, px, py, k) else s[Idx(width, px, py) + k]
    decreases b.y + b.h - sy
  {
    IdxInRange(width, height, px, py, k);
    if sy < b.y + b.h {
      var s' := if 0 <= sy < height then BlitRow(s, width, frame, b, sy, b.x) else s;
      if 0 <= sy < height {
        BlitRowAt(s, width, height, frame, b, sy, b.x, px, py, k);
      }
      BlitRowsAt(s', width, height, frame, b, sy + 1, px, py, k);
      if sy < py {
        assert BlitResultAt(s', width, height, frame, b, px, py, k) == BlitResultAt(s, width, height, frame, b, px, py, k);
      }
    }
  }

  /**
   * The whole blit, pixel by pixel: a camera pixel inside the box whose
   * texel is fully opaque takes that texel; every other byte is unchanged.
   */
  lemma BlitEffect(s: seq<Byte>, width: int, height: int, frame: ImageData, b: Box, px: int, py: int, k: int)
    requires frame.WellFormed() && |s| == width * height * 4
    requires 0 <= px < width && 0 <= py < height && 0 <= k < 4
    ensures 0 <= Idx(width, px, py) + k < |s|
    ensures BlitRows(s, width, height, frame, b, b.y)[Idx(width, px, py) + k]
         == if InBox(b, px, py) && BoxTexel(frame, b, px, py).a == Opaque
            then BoxTexel(frame, b, px, py).Component(k)
            else s[Idx(width, px, py) + k]
  {
    BlitRowsAt(s, width, height, frame, b, b.y, px, py, k);
    if !(b.y <= py) {
      assert !InBox(b, px, py);
    }
  }

  /** A culled sprite would have drawn nothing: no pixel of its box lies in the camera. */
  lemma CullIsSound(s: seq<Byte>, width: int, height: int, frame: ImageData, b: Box)
    requires frame.WellFormed() && |s| == width * height * 4 && width >= 0 && height >= 0
    requires Culled(b, width, height)
    ensures BlitRows(s, width, height, frame, b, b.y) == s
  {
    var r := BlitRows(s, width, height, frame, b, b.y);
    forall j | 0 <= j < |s| ensures r[j] == s[j] {
      var p := j / 4;
      var k := j % 4;
      var px, py := p % width, p / width;
      assert width > 0 && height > 0 by {
        if width <= 0 || height <= 0 {
          NoPixels(width, height);
        }
      }
      assert j == Idx(width, px, py) + k;
      assert 0 <= py < height by {
        ByteRow(j, width, height);
      }
      BlitEffect(s, width, height, frame, b, px, py, k);
    }
  }

  lemma NoPixels(width: int, height: int)
    requires width >= 0 && height >= 0 && (width == 0 || height == 0)
    ensures width * height * 4 == 0
  {
  }

  /** Byte j of a width-by-height buffer belongs to a row inside the buffer. */
  lemma ByteRow(j: int, width: int, height: int)
    requires width > 0 && 0 <= j < width * height * 4
    ensures 0 <= (j / 4) / width < height
  {
    var p := j / 4;
    assert p < width * height;
    if p / width >= height {
      MulMonotone(height, p / width, width);
      assert false;
    }
  }

  /**
   * The cull test lets through a box that starts exactly at the camera's
   * right edge; such a box draws nothing either.
   */
  lemma EdgeBoxPassesCull(s: seq<Byte>, width: int, height: int, frame: ImageData, b: Box)
    requires frame.WellFormed() && |s| == width * height * 4 && width >= 0 && height >= 1
    requires b.x == width && b.w >= 1 && b.h >= 1 && 0 <= b.y < height
    ensures !Culled(b, width, height)
    ensures BlitRows(s, width, height, frame, b, b.y) == s
  {
    var r := BlitRows(s, width, height, frame, b, b.y);
    forall j | 0 <= j < |s| ensures r[j] == s[j] {
      var p := j / 4;
      var k := j % 4;
      var px, py := p % width, p / width;
      assert j == Idx(width, px, py) + k;
      ByteRow(j, width, height);
      BlitEffect(s, width, height, frame, b, px, py, k);
    }
  }

  /**
   * Draws frame `frame` of a texture into box b of the camera's buffer:
   * every box pixel inside the camera takes the nearest texel, scaled from
   * the box to the texture, when that texel is fully opaque.
   */
  method RenderSprite(buf: ImageBuffer, texture: Texture, frame: int, b: Box)
    requires buf.Valid() && texture.Decoded() && 0 <= frame < texture.frames
    modifies buf.data
    ensures buf.data[..] == BlitRows(old(buf.data[..]), buf.width, buf.height, texture.images[frame], b, b.y)
  {
    var frameData := texture.images[frame];
    var screenY := b.y;
    while screenY < b.y + b.h
      invariant b.y <= screenY
      invariant BlitRows(buf.data[..], buf.width, buf.height, frameData, b, screenY)
             == BlitRows(old(buf.data[..]), buf.width, buf.height, frameData, b, b.y)
      decreases b.y + b.h - screenY
    {
      if !(screenY < 0 || screenY >= buf.height) {
        ghost var rowStart := buf.data[..];
        var screenX := b.x;
        while screenX < b.x + b.w
          invariant b.x <= screenX
          invariant BlitRow(buf.data[..], buf.width, frameData, b, screenY, screenX)
                 == BlitRow(rowStart, buf.width, frameData, b, screenY, b.x)
          decreases b.x + b.w - screenX
        {
          if !(screenX < 0 || screenX >= buf.width) {
            var texelX := TexelCoord(screenX - b.x, b.w, texture.width);
            var texelY := TexelCoord(screenY - b.y, b.h, texture.height);
            IdxInRange(frameData.width, frameData.height, texelX, texelY, 3);
            var texelIndex := Idx(texture.width, texelX, texelY);
            var r := frameData.data[texelIndex];
            var g := frameData.data[texelIndex + 1];
            var bl := frameData.data[texelIndex + 2];
            var a := frameData.data[texelIndex + 3];
            assert Color(r, g, bl, a) == BoxTexel(frameData, b, screenX, screenY);
            if a == Opaque {
              buf.SetColor(screenX, screenY, Color(r, g, bl, a));
            }
          }
          screenX := screenX + 1;
        }
      }
      screenY := screenY + 1;
    }
  }
}
