/**
 * Camera parameters over exact rationals. Headings are kept in turns (a
 * full revolution is 1), so the stored heading is the engine's radian
 * heading divided by 2π.
 */
module Cameras {
  import opened Optional
  import opened Textures

  const BaseCameraWidth: real := 320.0
  const BaseCameraScale: real := 300.0
  const DefHorizonDivider: int := 3

  /** Rounding half-way cases upward, as the engine's `round` does. */
  function Round(v: real): (r: int)
    ensures v - 0.5 < r as real <= v + 0.5
  {
    (v + 0.5).Floor
  }

  /**
   * A heading given in degrees, in turns: one turn is added when it is
   * negative, then one is taken off when it is strictly above a full turn.
   */
  function NormalizeTurns(degrees: real): (t: real)
    ensures t == degrees / 360.0 || t == degrees / 360.0 + 1.0 || t == degrees / 360.0 - 1.0
    ensures degrees / 360.0 <= 2.0 ==> t <= 1.0
  {
    var a := degrees / 360.0;
    var b := if a < 0.0 then a + 1.0 else a;
    if b > 1.0 then b - 1.0 else b
  }

  /** Within one revolution either way the heading lands in [0, 1) and names the same direction. */
  lemma NormalizeTurnsRange(degrees: real)
    requires -360.0 <= degrees < 360.0
    ensures 0.0 <= NormalizeTurns(degrees) < 1.0
    ensures NormalizeTurns(degrees) == degrees / 360.0 || NormalizeTurns(degrees) == degrees / 360.0 + 1.0
  {
  }

  /** Up to two revolutions above, the heading lands in (0, 1], one turn down. */
  lemma NormalizeTurnsAbove(degrees: real)
    requires 360.0 < degrees <= 720.0
    ensures 0.0 < NormalizeTurns(degrees) <= 1.0
    ensures NormalizeTurns(degrees) == degrees / 360.0 - 1.0
  {
  }

  /** 360 degrees is stored as a whole turn, not as 0: the upper test is strict. */
  lemma FullTurnKept()
    ensures NormalizeTurns(360.0) == 1.0
    ensures NormalizeTurns(0.0) == 0.0
    ensures NormalizeTurns(720.0) == 1.0
  {
  }

  /** Adding a revolution changes nothing, except at 0, where 360 gives a full turn. */
  lemma NormalizeTurnsPeriodic(degrees: real)
    requires -360.0 <= degrees <= 360.0 && degrees != 0.0
    ensures NormalizeTurns(degrees + 360.0) == NormalizeTurns(degrees)
  {
  }

  /** The horizon row for a viewport height: the floor of height / divider. */
  function Horizon(height: int, divider: int): (h: int)
    requires divider > 0
    ensures h * divider <= height < (h + 1) * divider
  {
    height / divider
  }

  /** The projection scale for a viewport width: the base scale in proportion to the base width, rounded. */
  function ProjectionScale(width: int): (s: int)
    ensures -0.5 < s as real - BaseCameraScale * (width as real / BaseCameraWidth) <= 0.5
  {
    Round(BaseCameraScale * (width as real / BaseCameraWidth))
  }

  /** The base width keeps the base scale, and a wider viewport never gets a smaller scale. */
  lemma ProjectionScaleMonotone(w1: int, w2: int)
    requires w1 <= w2
    ensures ProjectionScale(w1) <= ProjectionScale(w2)
    ensures ProjectionScale(320) == 300
  {
    var v1 := BaseCameraScale * (w1 as real / BaseCameraWidth);
    var v2 := BaseCameraScale * (w2 as real / BaseCameraWidth);
    assert v1 <= v2;
    assert (v1 + 0.5).Floor <= (v2 + 0.5).Floor;
    assert BaseCameraScale * (320 as real / BaseCameraWidth) == 300.0;
  }

  /** A camera's projection parameters. */
  class Camera {
    var x: real
    var y: real
    var z: real
    var width: int
    var height: int
    /** The heading, in turns. */
    var angle: real
    var camScale: real
    var scaleX: int
    var scaleY: int
    const horizonDivider: int
    var horizon: int

    /** What every resize establishes between the viewport size and the derived values. */
    ghost predicate Derived()
      reads this
    {
      && horizonDivider > 0
      && horizon == Horizon(height, horizonDivider)
      && camScale == width as real / BaseCameraWidth
      && scaleX == ProjectionScale(width) && scaleY == scaleX
    }

    /** A new camera sized to a display surface of aWidth by aHeight pixels. */
    constructor (aWidth: int, aHeight: int)
      requires aWidth > 0
      ensures Derived()
      ensures x == 84.0 && y == 142.0 && z == 16.0 && angle == 0.0
      ensures width == 320 && horizonDivider == DefHorizonDivider
      ensures height == (aHeight as real * (320.0 / aWidth as real)).Floor
    {
      x, y, z := 84.0, 142.0, 16.0;
      width := 320;
      height := 240;
      angle := 0.0;
      camScale := 1.0;
      scaleX, scaleY := 300, 300;
      horizonDivider := DefHorizonDivider;
      horizon := 240 / DefHorizonDivider;
      new;
      Resize(aWidth, aHeight);
    }

    /** Sets the heading from degrees. */
    method SetAngle(degrees: real)
      modifies this
      ensures angle == NormalizeTurns(degrees)
      ensures x == old(x) && y == old(y) && z == old(z) && width == old(width) && height == old(height)
      ensures camScale == old(camScale) && scaleX == old(scaleX) && scaleY == old(scaleY)
      ensures horizon == old(horizon)
    {
      var anglePer := degrees / 360.0;
      angle := anglePer;
      if angle < 0.0 {
        angle := angle + 1.0;
      }
      if angle > 1.0 {
        angle := angle - 1.0;
      }
    }

    /**
     * Re-derives the height from the display surface's aspect ratio, then
     * the horizon and the projection scales from the new size.
     */
    method Resize(aWidth: int, aHeight: int)
      requires aWidth > 0 && horizonDivider > 0
      modifies this
      ensures Derived()
      ensures height == (aHeight as real * (width as real / aWidth as real)).Floor
      ensures width == old(width) && angle == old(angle) && x == old(x) && y == old(y) && z == old(z)
    {
      var scale := width as real / aWidth as real;
      height := (aHeight as real * scale).Floor;
      horizon := height / horizonDivider;
      camScale := width as real / BaseCameraWidth;
      scaleX := Round(BaseCameraScale * camScale);
      scaleY := Round(BaseCameraScale * camScale);
    }

    /** Sets the viewport width, then resizes. */
    method SetResolution(w: int, aWidth: int, aHeight: int)
      requires aWidth > 0 && horizonDivider > 0
      modifies this
      ensures Derived() && width == w
      ensures height == (aHeight as real * (w as real / aWidth as real)).Floor
      ensures angle == old(angle) && x == old(x) && y == old(y) && z == old(z)
    {
      width := w;
      Resize(aWidth, aHeight);
    }
  }

  /** Where one sky layer goes: its drawn size and the first copy's top-left corner. */
  datatype SkyPlacement = SkyPlacement(w: int, h: int, x0: int, y0: int)

  /** One drawing of a sky layer's current frame at (x, y), w by h. */
  datatype SkyDraw = SkyDraw(frame: int, x: int, y: int, w: int, h: int)

  /**
   * The size of a sky layer: its natural size times the camera scale; the
   * fixed (middle) layer is widened to 1.25 viewport widths when narrower,
   * keeping its aspect ratio. It scrolls by its width times the heading, and
   * its bottom edge sits on the row below the horizon.
   */
  function PlaceSky(tw: int, th: int, camScale: real, camWidth: int, horizon: int, turns: real, isFixed: bool)
    : (p: SkyPlacement)
    requires tw > 0
    ensures p.y0 + p.h == horizon + 1
    ensures isFixed && camWidth > 0 ==> p.w > 0
    ensures isFixed ==> p.w >= Round(camWidth as real * 1.25)
    ensures !isFixed ==> p.w == Round(tw as real * camScale) && p.h == Round(th as real * camScale)
    ensures isFixed && Round(tw as real * camScale) as real >= camWidth as real * 1.25 ==>
              p.w == Round(tw as real * camScale) && p.h == Round(th as real * camScale)
    ensures isFixed && (Round(tw as real * camScale) as real) < camWidth as real * 1.25 ==>
              p.w == Round(camWidth as real * 1.25) && p.h == Round(th as real * (p.w as real / tw as real))
    ensures p.x0 == -Round(p.w as real * turns)
  {
    var rh := Round(th as real * camScale);
    var rw := Round(tw as real * camScale);
    var size :=
      if isFixed && (rw as real) < camWidth as real * 1.25 then
        var w := Round(camWidth as real * 1.25);
        (w, Round(th as real * (w as real / tw as real)))
      else (rw, rh);
    var xPos := Round(size.0 as real * turns);
    SkyPlacement(size.0, size.1, 0 - xPos, horizon + 1 - size.1)
  }

  /** Whether the tiling loop stops: copies advance to the right, or the first copy already reaches the right edge. */
  predicate SkyLoopEnds(p: SkyPlacement, camWidth: int)
  {
    p.w > 0 || p.x0 + p.w >= camWidth
  }

  /**
   * With a zero-or-negative drawn width and a first copy short of the right
   * edge, the loop's test stays true after any number of rounds.
   */
  lemma SkyLoopDiverges(p: SkyPlacement, camWidth: int, n: nat)
    requires !SkyLoopEnds(p, camWidth)
    ensures p.x0 + n * p.w + p.w < camWidth
  {
    assert n * p.w <= 0 by { NonPositiveMultiple(n, p.w); }
  }

  lemma NonPositiveMultiple(n: nat, w: int)
    requires w <= 0
    ensures n * w <= 0
  {
  }

  /**
   * The drawings of one sky layer, left to right: nothing for a missing or
   * unloaded texture; otherwise copies `w` apart from the scrolled start,
   * until one reaches the viewport's right edge.
   */
  method RenderSky(camWidth: int, horizon: int, camScale: real, turns: real,
                   texture: Option<Texture>, isFixed: bool)
    returns (draws: seq<SkyDraw>)
    requires texture.Some? && texture.value.loaded ==>
      texture.value.Decoded() &&
      SkyLoopEnds(PlaceSky(texture.value.width, texture.value.height, camScale, camWidth, horizon, turns, isFixed), camWidth)
    ensures texture.None? || !texture.value.loaded ==> draws == []
    ensures texture.Some? && texture.value.loaded ==>
      var t := texture.value;
      var p := PlaceSky(t.width, t.height, camScale, camWidth, horizon, turns, isFixed);
      && |draws| >= 1
      && (forall k :: 0 <= k < |draws| ==> draws[k] == SkyDraw(t.currentFrame, p.x0 + k * p.w, p.y0, p.w, p.h))
      && (forall k :: 0 <= k < |draws| - 1 ==> draws[k].x + draws[k].w < camWidth)
      && draws[|draws| - 1].x + p.w >= camWidth
  {
    if texture.None? || !texture.value.loaded {
      return [];
    }
    var t := texture.value;
    var p := PlaceSky(t.width, t.height, camScale, camWidth, horizon, turns, isFixed);
    var dx := p.x0;
    var filled := false;
    draws := [];
    while !filled
      invariant !filled ==> dx == p.x0 + |draws| * p.w
      invariant !filled && p.w <= 0 ==> draws == []
      invariant forall k :: 0 <= k < |draws| ==> draws[k] == SkyDraw(t.currentFrame, p.x0 + k * p.w, p.y0, p.w, p.h)
      invariant forall k :: 0 <= k < |draws| - (if filled then 1 else 0) ==> draws[k].x + draws[k].w < camWidth
      invariant filled ==> |draws| >= 1 && draws[|draws| - 1].x + p.w >= camWidth
      decreases if filled then 0 else 1 + (if camWidth - dx > 0 then camWidth - dx else 0)
    {
      draws := draws + [SkyDraw(t.currentFrame, dx, p.y0, p.w, p.h)];
      if dx + p.w < camWidth {
        dx := dx + p.w;
      } else {
        filled := true;
      }
    }
  }

  /** The middle sky layer always has a positive drawn width on a non-empty viewport, so its loop ends. */
  lemma FixedSkyLoopEnds(tw: int, th: int, camScale: real, camWidth: int, horizon: int, turns: real)
    requires tw > 0 && camWidth > 0
    ensures SkyLoopEnds(PlaceSky(tw, th, camScale, camWidth, horizon, turns, true), camWidth)
  {
  }

  /** A heading a full turn on scrolls a layer by exactly its drawn width. */
  lemma SkyScrollFullTurn(tw: int, th: int, camScale: real, camWidth: int, horizon: int, turns: real, isFixed: bool)
    requires tw > 0
    ensures var p := PlaceSky(tw, th, camScale, camWidth, horizon, turns, isFixed);
            var q := PlaceSky(tw, th, camScale, camWidth, horizon, turns + 1.0, isFixed);
            q.x0 == p.x0 - p.w && q.w == p.w && q.y0 == p.y0
  {
    var p := PlaceSky(tw, th, camScale, camWidth, horizon, turns, isFixed);
    assert p.w as real * (turns + 1.0) + 0.5 == (p.w as real * turns + 0.5) + p.w as real;
    FloorShift(p.w as real * turns + 0.5, p.w);
  }

  lemma FloorShift(v: real, n: int)
    ensures (v + n as real).Floor == v.Floor + n
  {
  }
}
