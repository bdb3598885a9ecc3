/**
 * The process-wide texture cache, its key function, and the animation clock
 * that advances every multi-frame texture on a fixed virtual-tick schedule.
 */
module Textures {
  import opened Pixels

  /** Virtual ticks per animation step. */
  const FrameIncrementTicks: real := 5.0

  /**
   * Where a texture comes from: a URL, or a Pixel Paint document, which is
   * identified by the hash of its JSON text (the hash itself is taken as given).
   */
  datatype Source = Url(path: string) | PixelPaintDoc(digest: string)

  /** A colour substitution applied while decoding: colour `c` becomes colour `r`. */
  datatype ColorReplacement = ColorReplacement(c: string, r: string)

  /**
   * A cached texture. `images` holds one decoded frame per animation frame,
   * all `width` by `height`; `currentFrame` is advanced by the clock.
   */
  datatype Texture = Texture(
    url: Source,
    name: string,
    frames: int,
    images: seq<ImageData>,
    loaded: bool,
    colorReplacements: seq<ColorReplacement>,
    width: int,
    height: int,
    currentFrame: int)
  {
    /** The shape a texture has once the asset pipeline has filled it in. */
    ghost predicate Decoded()
    {
      && frames >= 1 && |images| == frames
      && width >= 1 && height >= 1
      && 0 <= currentFrame < frames
      && forall i :: 0 <= i < |images| ==>
           images[i].width == width && images[i].height == height && images[i].WellFormed()
    }

    /** What holds of every cached texture, loaded or not. */
    ghost predicate Consistent()
    {
      && (!loaded ==> currentFrame == 0)
      && (loaded ==> Decoded())
    }
  }

  function BaseName(src: Source): string
  {
    match src
    case Url(p) => p
    case PixelPaintDoc(d) => d
  }

  /** The ".c:r" that one replacement pair contributes to a key. */
  function PairSuffix(p: ColorReplacement): string
  {
    "." + p.c + ":" + p.r
  }

  /** One ".c:r" per replacement pair, in order. */
  function ReplacementSuffix(reps: seq<ColorReplacement>): string
  {
    if reps == [] then "" else PairSuffix(reps[0]) + ReplacementSuffix(reps[1..])
  }

  /** The cache key of a source with its colour replacements (an absent list is the empty one). */
  function TextureName(src: Source, reps: seq<ColorReplacement>): (name: string)
    ensures reps == [] ==> name == BaseName(src)
    ensures |name| >= |BaseName(src)| && name[..|BaseName(src)|] == BaseName(src)
  {
    BaseName(src) + ReplacementSuffix(reps)
  }

  /** Appending one replacement pair appends exactly its ".c:r" to the suffix. */
  lemma {:induction false} SuffixAppend(reps: seq<ColorReplacement>, p: ColorReplacement)
    ensures ReplacementSuffix(reps + [p]) == ReplacementSuffix(reps) + PairSuffix(p)
  {
    if reps == [] {
      assert reps + [p] == [p];
      assert ReplacementSuffix([p]) == PairSuffix(p) + ReplacementSuffix([]);
    } else {
      assert (reps + [p])[1..] == reps[1..] + [p];
      SuffixAppend(reps[1..], p);
      calc {
        ReplacementSuffix(reps + [p]);
        PairSuffix(reps[0]) + ReplacementSuffix(reps[1..] + [p]);
        PairSuffix(reps[0]) + (ReplacementSuffix(reps[1..]) + PairSuffix(p));
        (PairSuffix(reps[0]) + ReplacementSuffix(reps[1..])) + PairSuffix(p);
      }
    }
  }

  /** Builds the key the way the engine does: start from the source, append one ".c:r" per pair. */
  method GetTextureName(src: Source, reps: seq<ColorReplacement>) returns (name: string)
    ensures name == TextureName(src, reps)
  {
    name := BaseName(src);
    if |reps| > 0 {
      var i := 0;
      while i < |reps|
        invariant 0 <= i <= |reps|
        invariant name == BaseName(src) + ReplacementSuffix(reps[..i])
      {
        SuffixAppend(reps[..i], reps[i]);
        assert reps[..i + 1] == reps[..i] + [reps[i]];
        name := name + "." + reps[i].c + ":" + reps[i].r;
        assert name == BaseName(src) + (ReplacementSuffix(reps[..i]) + PairSuffix(reps[i]));
        i := i + 1;
      }
      assert reps[..i] == reps;
    }
  }

  /** The key does not separate a URL containing ".c:r" from the bare URL with that pair. */
  lemma TextureNameCollision()
    ensures TextureName(Url("sky.png.red:blue"), []) == TextureName(Url("sky.png"), [ColorReplacement("red", "blue")])
  {
  }

  /** A freshly requested texture: not loaded, one frame, showing frame 0. */
  function NewTexture(src: Source, reps: seq<ColorReplacement>): (t: Texture)
    ensures t.name == TextureName(src, reps) && !t.loaded && t.currentFrame == 0
    ensures t.Consistent()
  {
    Texture(src, TextureName(src, reps), 1, [], false, reps, 0, 0, 0)
  }

  /** The cache after resolving (src, reps): an entry is added only when its key is absent. */
  function Resolved(m: map<string, Texture>, src: Source, reps: seq<ColorReplacement>): (r: map<string, Texture>)
    ensures r.Keys == m.Keys + {TextureName(src, reps)}
    ensures forall k :: k in m ==> r[k] == m[k]
    ensures TextureName(src, reps) !in m ==> r[TextureName(src, reps)] == NewTexture(src, reps)
  {
    var key := TextureName(src, reps);
    if key in m then m else m[key := NewTexture(src, reps)]
  }

  /** Resolving the same pair a second time adds nothing and yields the same entry. */
  lemma ResolvedTwice(m: map<string, Texture>, src: Source, reps: seq<ColorReplacement>)
    ensures Resolved(Resolved(m, src, reps), src, reps) == Resolved(m, src, reps)
    ensures Resolved(Resolved(m, src, reps), src, reps)[TextureName(src, reps)]
         == Resolved(m, src, reps)[TextureName(src, reps)]
  {
  }

  /** One animation step for one texture: loaded textures with more than one frame move to the next frame, wrapping to 0. */
  function Tick(t: Texture): (u: Texture)
    ensures t.Consistent() ==> u.Consistent()
    ensures u == t.(currentFrame := u.currentFrame)
  {
    if t.frames <= 1 then t
    else if t.loaded then t.(currentFrame := if t.currentFrame + 1 >= t.frames then 0 else t.currentFrame + 1)
    else t
  }

  /** n animation steps: only the frame index ever moves. */
  function TickN(t: Texture, n: nat): (u: Texture)
    ensures u == t.(currentFrame := u.currentFrame)
  {
    if n == 0 then t else Tick(TickN(t, n - 1))
  }

  /** A loaded animated texture advances by exactly n frames modulo its frame count; nothing else changes. */
  lemma {:induction false} TickNCycles(t: Texture, n: nat)
    requires t.loaded && t.frames > 1 && 0 <= t.currentFrame < t.frames
    ensures TickN(t, n) == t.(currentFrame := (t.currentFrame + n) % t.frames)
  {
    if n > 0 {
      TickNCycles(t, n - 1);
      var a := t.currentFrame + n - 1;
      assert a % t.frames + 1 == t.frames ==> (a + 1) % t.frames == 0 by {
        ModSucc(a, t.frames);
      }
      assert a % t.frames + 1 < t.frames ==> (a + 1) % t.frames == a % t.frames + 1 by {
        ModSucc(a, t.frames);
      }
    }
  }

  lemma ModSucc(a: int, f: int)
    requires a >= 0 && f > 1
    ensures (a + 1) % f == if a % f + 1 == f then 0 else a % f + 1
  {
    var q, r := a / f, a % f;
    assert a == q * f + r;
    if r + 1 == f {
      ModUnique(a + 1, f, q + 1, 0);
    } else {
      ModUnique(a + 1, f, q, r + 1);
    }
  }

  /** The remainder is the unique r in [0, f) with x == q * f + r. */
  lemma ModUnique(x: int, f: int, q: int, r: int)
    requires f > 0 && 0 <= r < f && x == q * f + r
    ensures x % f == r
  {
    var q', r' := x / f, x % f;
    assert x == q' * f + r';
    assert (q - q') * f == r' - r;
    if q > q' {
      assert (q - q') * f >= f by { MulAtLeast(q - q', f); }
    } else if q < q' {
      assert (q' - q) * f >= f by { MulAtLeast(q' - q, f); }
    }
  }

  lemma MulAtLeast(a: int, f: int)
    requires a >= 1 && f > 0
    ensures a * f >= f
  {
  }

  /** Single-frame and not-yet-loaded textures never change, however many steps pass. */
  lemma {:induction false} TickNIdle(t: Texture, n: nat)
    requires t.frames <= 1 || !t.loaded
    ensures TickN(t, n) == t
  {
    if n > 0 {
      TickNIdle(t, n - 1);
    }
  }

  /** Steps compose: a steps then b steps are a + b steps. */
  lemma {:induction false} TickNCompose(t: Texture, a: nat, b: nat)
    ensures TickN(TickN(t, a), b) == TickN(t, a + b)
  {
    if b > 0 {
      TickNCompose(t, a, b - 1);
    }
  }

  lemma {:induction false} TickNConsistent(t: Texture, n: nat)
    requires t.Consistent()
    ensures TickN(t, n).Consistent()
    ensures TickN(t, n).name == t.name
  {
    if n > 0 {
      TickNConsistent(t, n - 1);
    }
  }

  /** Every cached texture after n animation steps. */
  function AdvanceAll(m: map<string, Texture>, n: nat): (r: map<string, Texture>)
    ensures r.Keys == m.Keys
  {
    map k | k in m :: TickN(m[k], n)
  }

  lemma AdvanceAllCompose(m: map<string, Texture>, a: nat, b: nat)
    ensures AdvanceAll(AdvanceAll(m, a), b) == AdvanceAll(m, a + b)
  {
    forall k | k in m ensures AdvanceAll(AdvanceAll(m, a), b)[k] == AdvanceAll(m, a + b)[k] {
      TickNCompose(m[k], a, b);
    }
  }

  /** The number of times the clock loop runs on an accumulated count: once per whole threshold. */
  function Ticks(total: real): (n: nat)
    ensures n == 0 <==> total < FrameIncrementTicks
    ensures total >= 0.0 ==> n as real * FrameIncrementTicks <= total
    decreases total.Floor
  {
    if total < FrameIncrementTicks then 0 else 1 + Ticks(total - FrameIncrementTicks)
  }

  /** What the accumulator keeps after the loop. */
  function Residue(total: real): (r: real)
    ensures total >= 0.0 ==> r >= 0.0
    ensures total < FrameIncrementTicks ==> r == total
  {
    total - FrameIncrementTicks * Ticks(total) as real
  }

  /** From a non-negative count the loop runs floor(total / 5) times and leaves a remainder in [0, 5). */
  lemma {:induction false} TicksClosedForm(total: real)
    requires total >= 0.0
    ensures 0.0 <= Residue(total) < FrameIncrementTicks
    ensures Ticks(total) == (total / FrameIncrementTicks).Floor
  {
    if total >= FrameIncrementTicks {
      TicksClosedForm(total - FrameIncrementTicks);
    }
    var n := Ticks(total);
    assert total / FrameIncrementTicks == n as real + Residue(total) / FrameIncrementTicks;
  }

  /**
   * Splitting elapsed time over two render ticks does not change how many
   * animation steps are taken in all: animation speed is independent of frame rate.
   */
  lemma {:induction false} TicksSplit(total: real, d: real)
    requires d >= 0.0
    ensures Ticks(total) + Ticks(Residue(total) + d) == Ticks(total + d)
    ensures Residue(Residue(total) + d) == Residue(total + d)
    decreases total.Floor
  {
    if total >= FrameIncrementTicks {
      TicksSplit(total - FrameIncrementTicks, d);
      assert Residue(total) == Residue(total - FrameIncrementTicks);
    }
  }

  /**
   * The global texture table and the clock's accumulator. Both are
   * process-wide in the engine; here they live in one explicit object.
   */
  class TextureCache {
    var textures: map<string, Texture>
    var counter: real

    ghost predicate Valid()
      reads this
    {
      forall k :: k in textures ==> textures[k].name == k && textures[k].Consistent()
    }

    constructor ()
      ensures Valid() && textures == map[] && counter == 0.0
    {
      textures := map[];
      counter := 0.0;
    }

    /**
     * Returns the cached texture for (src, reps), first inserting an unloaded
     * entry when the key is absent (the load itself runs elsewhere).
     */
    method GetTexture(src: Source, reps: seq<ColorReplacement>) returns (t: Texture)
      requires Valid()
      modifies this
      ensures Valid() && counter == old(counter)
      ensures textures == Resolved(old(textures), src, reps)
      ensures t == textures[TextureName(src, reps)]
      ensures t.name == TextureName(src, reps)
    {
      var texName := GetTextureName(src, reps);
      if texName !in textures {
        textures := textures[texName := NewTexture(src, reps)];
      }
      t := textures[texName];
    }

    /**
     * The asset pipeline's one-time completion for the entry `key`: frames
     * and their dimensions are filled in, then the entry is marked loaded.
     */
    method FinishLoad(key: string, frames: int, width: int, height: int, images: seq<ImageData>)
      requires Valid() && key in textures && !textures[key].loaded
      requires frames >= 1 && |images| == frames && width >= 1 && height >= 1
      requires forall i :: 0 <= i < |images| ==>
                 images[i].width == width && images[i].height == height && images[i].WellFormed()
      modifies this
      ensures Valid() && counter == old(counter)
      ensures textures.Keys == old(textures).Keys
      ensures textures[key] == old(textures)[key].(frames := frames, width := width, height := height,
                                                   images := images, loaded := true)
      ensures forall k :: k in textures && k != key ==> textures[k] == old(textures)[k]
    {
      var t := textures[key];
      textures := textures[key := t.(frames := frames, width := width, height := height,
                                     images := images, loaded := true)];
    }

    /**
     * Adds `delta` virtual ticks to the accumulator; for every whole
     * threshold of 5 ticks, takes it off and advances every cached texture one step.
     */
    method CheckIncrementGlobalTextures(delta: real)
      requires Valid()
      modifies this
      ensures Valid()
      ensures counter == Residue(old(counter) + delta)
      ensures textures == AdvanceAll(old(textures), Ticks(old(counter) + delta))
    {
      counter := counter + delta;
      ghost var total := counter;
      ghost var start := textures;
      ghost var n: nat := 0;
      while counter >= FrameIncrementTicks
        invariant Valid()
        invariant counter == total - FrameIncrementTicks * n as real
        invariant n + Ticks(counter) == Ticks(total)
        invariant textures == AdvanceAll(start, n)
        decreases counter.Floor
      {
        counter := counter - FrameIncrementTicks;
        AdvanceAllStep(start, n);
        AdvanceEveryTexture();
        n := n + 1;
      }
    }

    /** One step for every cached texture, visiting the keys one at a time. */
    method AdvanceEveryTexture()
      requires Valid()
      modifies this
      ensures Valid() && counter == old(counter)
      ensures textures == AdvanceAll(old(textures), 1)
    {
      ghost var before := textures;
      var pending := textures.Keys;
      while pending != {}
        invariant pending <= textures.Keys && textures.Keys == before.Keys
        invariant counter == old(counter)
        invariant forall k :: k in textures ==> textures[k] == if k in pending then before[k] else Tick(before[k])
        invariant forall k :: k in textures ==> textures[k].name == k && textures[k].Consistent()
        decreases pending
      {
        var id :| id in pending;
        textures := textures[id := Tick(textures[id])];
        pending := pending - {id};
      }
      assert Valid();
      forall k | k in textures ensures textures[k] == AdvanceAll(before, 1)[k] {
        assert TickN(before[k], 1) == Tick(TickN(before[k], 0));
      }
    }
  }

  lemma AdvanceAllStep(m: map<string, Texture>, n: nat)
    ensures AdvanceAll(AdvanceAll(m, n), 1) == AdvanceAll(m, n + 1)
  {
    AdvanceAllCompose(m, n, 1);
  }

  /** After one clock call from a non-negative count the accumulator is back in [0, 5). */
  lemma ClockResidueBounded(counter: real, delta: real)
    requires counter + delta >= 0.0
    ensures 0.0 <= Residue(counter + delta) < FrameIncrementTicks
    ensures Ticks(counter + delta) == ((counter + delta) / FrameIncrementTicks).Floor
  {
    TicksClosedForm(counter + delta);
  }

  /** After any clock call a loaded animated frame index stays within [0, frames). */
  lemma AdvancedFrameInRange(m: map<string, Texture>, n: nat, k: string)
    requires k in m && m[k].loaded && m[k].frames > 1 && 0 <= m[k].currentFrame < m[k].frames
    ensures AdvanceAll(m, n)[k].currentFrame == (m[k].currentFrame + n) % m[k].frames
    ensures 0 <= AdvanceAll(m, n)[k].currentFrame < m[k].frames
  {
    TickNCycles(m[k], n);
  }

  /** Deltas adding up to 17 virtual ticks, fed from an empty accumulator in two calls, take exactly 3 steps. */
  lemma SeventeenTicksTakeThreeSteps()
    ensures Ticks(8.5) + Ticks(Residue(8.5) + 8.5) == 3
  {
    TicksSplit(8.5, 8.5);
    TicksClosedForm(17.0);
  }
}
