/**
 * A scene instance: its texture slots, its tile map and tile references,
 * and its sprite list. Textures are referred to by cache key only.
 */
module Scenes {
  import opened Optional
  import opened Textures
  import opened Tiles

  /** World units per tile-grid cell. */
  const DefTileSize: int := 8

  /** The fallback background colour. */
  const Black: string := "black"

  /** Whether a source argument is truthy: absent values and the empty URL are not. */
  predicate Given(url: Option<Source>)
  {
    url.Some? && url.value != Url("")
  }

  /** A tile argument: a list of entries, null, or a single entry. */
  datatype TileData = TileList(tiles: seq<TileSpec>) | NoTiles | OneTile(tile: TileSpec)

  /** One tile reference: tile id `id` is drawn with the texture of (src, colorReplacements). */
  datatype TileRefSpec = TileRefSpec(id: int, src: Source, colorReplacements: seq<ColorReplacement>)

  /** A tile-reference argument: a list of entries, null, or a single entry. */
  datatype TileRefData = RefList(refs: seq<TileRefSpec>) | NoRefs | OneRef(ref: TileRefSpec)

  /** The options a sprite is created from. */
  datatype SpriteOptions = SpriteOptions(
    x: real, y: real, z: real,
    scaleX: Option<real>, scaleY: Option<real>, scale: Option<real>,
    src: Source,
    instance: Engine?)

  /** The texture slots and background colour of a scene, as one value. */
  datatype Slots = Slots(
    backgroundColor: string,
    ground: Option<string>,
    sky: Option<string>,
    undersky: Option<string>,
    oversky: Option<string>,
    track: Option<string>)

  /** The default sprite scale. */
  const DefSpriteScale: real := 0.16

  /** `a || b || 0.16` over optional numbers: an absent value or zero falls through. */
  function ScaleOption(a: Option<real>, b: Option<real>): (s: real)
    ensures a.Some? && a.value != 0.0 ==> s == a.value
    ensures (a.None? || a.value == 0.0) && b.Some? && b.value != 0.0 ==> s == b.value
    ensures (a.None? || a.value == 0.0) && (b.None? || b.value == 0.0) ==> s == DefSpriteScale
  {
    if a.Some? && a.value != 0.0 then a.value
    else if b.Some? && b.value != 0.0 then b.value
    else DefSpriteScale
  }

  /** The tile map after a tile argument. */
  function TilesAfter(m: Option<TileMap>, data: TileData): Option<TileMap>
  {
    match data
    case TileList(ts) => ApplyTiles(m, ts)
    case NoTiles => None
    case OneTile(t) => Some(PutTile(m, t))
  }

  /** The tile-reference table after applying a list of references, first to last. */
  function RefsAfter(refs: map<int, string>, list: seq<TileRefSpec>): (r: map<int, string>)
    ensures r.Keys == refs.Keys + set i | 0 <= i < |list| :: list[i].id
    decreases list
  {
    if list == [] then refs
    else RefsAfter(refs[list[0].id := TextureName(list[0].src, list[0].colorReplacements)], list[1..])
  }

  /** The texture key of the last entry of the list for tile `id`. */
  function LastRefFor(list: seq<TileRefSpec>, id: int): Option<string>
  {
    if list == [] then None
    else
      var later := LastRefFor(list[1..], id);
      if later.Some? then later
      else if list[0].id == id then Some(TextureName(list[0].src, list[0].colorReplacements))
      else None
  }

  /**
   * Applying a list of references: tile `id` names the texture of the list's
   * last entry for it, or keeps its old name when no entry mentions it.
   */
  lemma {:induction false} RefsAfterLastWins(refs: map<int, string>, list: seq<TileRefSpec>, id: int)
    ensures id in RefsAfter(refs, list) <==> id in refs || LastRefFor(list, id).Some?
    ensures LastRefFor(list, id).Some? ==> RefsAfter(refs, list)[id] == LastRefFor(list, id).value
    ensures LastRefFor(list, id).None? && id in refs ==> RefsAfter(refs, list)[id] == refs[id]
    decreases list
  {
    if list != [] {
      RefsAfterLastWins(refs[list[0].id := TextureName(list[0].src, list[0].colorReplacements)], list[1..], id);
    }
  }

  /**
   * The texture cache after resolving every reference of a list, first to
   * last: exactly the listed keys are added, as fresh unloaded entries, and
   * every entry already cached is left as it was.
   */
  function CacheAfter(m: map<string, Texture>, list: seq<TileRefSpec>): (r: map<string, Texture>)
    ensures m.Keys <= r.Keys
    ensures forall i :: 0 <= i < |list| ==> TextureName(list[i].src, list[i].colorReplacements) in r
    ensures forall k :: k in m ==> r[k] == m[k]
    ensures forall k :: k in r && k !in m ==> r[k].name == k && !r[k].loaded && r[k].currentFrame == 0
    decreases list
  {
    if list == [] then m
    else
      var r := CacheAfter(Resolved(m, list[0].src, list[0].colorReplacements), list[1..]);
      assert forall i :: 1 <= i < |list| ==> list[i] == list[1..][i - 1];
      r
  }

  /** The cache keys a list of references names. */
  function ListedKeys(list: seq<TileRefSpec>): set<string>
  {
    set i | 0 <= i < |list| :: TextureName(list[i].src, list[i].colorReplacements)
  }

  lemma ListedKeysCons(list: seq<TileRefSpec>)
    requires list != []
    ensures ListedKeys(list) == {TextureName(list[0].src, list[0].colorReplacements)} + ListedKeys(list[1..])
  {
    var head, tail := {TextureName(list[0].src, list[0].colorReplacements)}, ListedKeys(list[1..]);
    forall k | k in ListedKeys(list) ensures k in head + tail {
      var i :| 0 <= i < |list| && k == TextureName(list[i].src, list[i].colorReplacements);
      if i > 0 {
        assert list[i] == list[1..][i - 1];
      }
    }
    forall k | k in tail ensures k in ListedKeys(list) {
      var i :| 0 <= i < |list[1..]| && k == TextureName(list[1..][i].src, list[1..][i].colorReplacements);
      assert list[1..][i] == list[i + 1];
    }
  }

  /** The keys the cache holds after a list of references: the old ones and the listed ones, nothing else. */
  lemma {:induction false} CacheAfterKeys(m: map<string, Texture>, list: seq<TileRefSpec>)
    ensures CacheAfter(m, list).Keys == m.Keys + ListedKeys(list)
    decreases list
  {
    if list != [] {
      CacheAfterKeys(Resolved(m, list[0].src, list[0].colorReplacements), list[1..]);
      ListedKeysCons(list);
    }
  }

  /** The position of the first occurrence of x in s, or -1 when x does not occur. */
  function IndexOf<T(==)>(s: seq<T>, x: T): (i: int)
    ensures -1 <= i < |s|
    ensures i == -1 <==> x !in s
    ensures 0 <= i ==> s[i] == x && x !in s[..i]
  {
    if s == [] then -1
    else if s[0] == x then 0
    else
      var j := IndexOf(s[1..], x);
      assert s[1..][..j + 1] == s[1..j + 2] by { if j >= 0 { } }
      if j == -1 then -1 else j + 1
  }

  /** The list with the first occurrence of x spliced out; unchanged when x does not occur. */
  function RemoveFirst<T(==)>(s: seq<T>, x: T): (r: seq<T>)
    ensures x !in s ==> r == s
    ensures x in s ==> |r| == |s| - 1 && multiset(r) == multiset(s) - multiset{x}
  {
    var i := IndexOf(s, x);
    if i == -1 then s
    else
      assert s == s[..i] + [s[i]] + s[i + 1..];
      s[..i] + s[i + 1..]
  }

  /** Removal keeps the relative order of all other elements: they close up over the removed one. */
  lemma RemoveFirstKeepsOrder<T>(s: seq<T>, x: T)
    requires x in s
    ensures var i, r := IndexOf(s, x), RemoveFirst(s, x);
            forall j :: 0 <= j < |r| ==> r[j] == s[if j < i then j else j + 1]
  {
  }

  /** Removing an element just appended, and found nowhere before, restores the list. */
  lemma AppendThenRemove<T>(s: seq<T>, x: T)
    requires x !in s
    ensures RemoveFirst(s + [x], x) == s
  {
    assert IndexOf(s + [x], x) == |s| by {
      assert (s + [x])[|s|] == x;
      assert (s + [x])[..|s|] == s;
    }
    assert (s + [x])[..|s|] == s;
  }

  /** A later occurrence survives the removal of the first one. */
  lemma RemoveOnlyFirst<T>(s: seq<T>, x: T, j: int)
    requires 0 <= j < |s| && s[j] == x && j != IndexOf(s, x)
    ensures x in RemoveFirst(s, x)
  {
    var i := IndexOf(s, x);
    assert i < j;
    assert RemoveFirst(s, x)[j - 1] == s[j];
  }

  /** A scene instance. */
  class Engine {
    var backgroundColor: string
    var ground: Option<string>
    var sky: Option<string>
    var undersky: Option<string>
    var oversky: Option<string>
    var track: Option<string>
    var tileReference: map<int, string>
    var tileMap: Option<TileMap>
    var tileSize: int
    var sprites: seq<Sprite>

    function Layers(): Slots
      reads this
    {
      Slots(backgroundColor, ground, sky, undersky, oversky, track)
    }

    /** Every texture name the scene holds is a key of the cache. */
    ghost predicate Resolves(cache: TextureCache)
      reads this, cache
    {
      && (ground.Some? ==> ground.value in cache.textures)
      && (sky.Some? ==> sky.value in cache.textures)
      && (undersky.Some? ==> undersky.value in cache.textures)
      && (oversky.Some? ==> oversky.value in cache.textures)
      && (track.Some? ==> track.value in cache.textures)
      && (forall id :: id in tileReference ==> tileReference[id] in cache.textures)
      && (forall i :: 0 <= i < |sprites| ==> sprites[i].texture in cache.textures)
    }

    constructor ()
      ensures Layers() == Slots(Black, None, None, None, None, None)
      ensures tileReference == map[] && tileMap == None && tileSize == DefTileSize && sprites == []
    {
      backgroundColor := Black;
      ground, sky, undersky, oversky, track := None, None, None, None, None;
      tileReference := map[];
      tileMap := None;
      tileSize := DefTileSize;
      sprites := [];
    }

    /** The slot value a setter stores: the texture's key, after resolving it, or null for a falsy argument. */
    static method SlotName(url: Option<Source>, reps: seq<ColorReplacement>, cache: TextureCache)
      returns (name: Option<string>)
      requires cache.Valid()
      modifies cache
      ensures cache.Valid() && cache.counter == old(cache.counter)
      ensures name == if Given(url) then Some(TextureName(url.value, reps)) else None
      ensures cache.textures == if Given(url) then Resolved(old(cache.textures), url.value, reps) else old(cache.textures)
    {
      if !Given(url) {
        return None;
      }
      var texture := cache.GetTexture(url.value, reps);
      name := Some(texture.name);
    }

    method SetOversky(url: Option<Source>, cache: TextureCache)
      requires cache.Valid() && Resolves(cache)
      modifies this, cache
      ensures cache.Valid() && Resolves(cache) && cache.counter == old(cache.counter)
      ensures Layers() == old(Layers()).(oversky := if Given(url) then Some(TextureName(url.value, [])) else None)
      ensures cache.textures == if Given(url) then Resolved(old(cache.textures), url.value, []) else old(cache.textures)
      ensures tileReference == old(tileReference) && tileMap == old(tileMap) && tileSize == old(tileSize)
      ensures sprites == old(sprites)
    {
      oversky := None;
      oversky := SlotName(url, [], cache);
    }

    /** Clearing the under-sky also resets the background colour. */
    method SetUndersky(url: Option<Source>, cache: TextureCache)
      requires cache.Valid() && Resolves(cache)
      modifies this, cache
      ensures cache.Valid() && Resolves(cache) && cache.counter == old(cache.counter)
      ensures Given(url) ==> Layers() == old(Layers()).(undersky := Some(TextureName(url.value, [])))
      ensures !Given(url) ==> Layers() == old(Layers()).(undersky := None, backgroundColor := Black)
      ensures cache.textures == if Given(url) then Resolved(old(cache.textures), url.value, []) else old(cache.textures)
      ensures tileReference == old(tileReference) && tileMap == old(tileMap) && tileSize == old(tileSize)
      ensures sprites == old(sprites)
    {
      if !Given(url) {
        undersky := None;
        backgroundColor := Black;
        return;
      }
      undersky := SlotName(url, [], cache);
    }

    method SetSky(url: Option<Source>, cache: TextureCache)
      requires cache.Valid() && Resolves(cache)
      modifies this, cache
      ensures cache.Valid() && Resolves(cache) && cache.counter == old(cache.counter)
      ensures Layers() == old(Layers()).(sky := if Given(url) then Some(TextureName(url.value, [])) else None)
      ensures cache.textures == if Given(url) then Resolved(old(cache.textures), url.value, []) else old(cache.textures)
      ensures tileReference == old(tileReference) && tileMap == old(tileMap) && tileSize == old(tileSize)
      ensures sprites == old(sprites)
    {
      sky := None;
      sky := SlotName(url, [], cache);
    }

    /** The ground is the only slot whose texture may carry colour replacements. */
    method SetGround(url: Option<Source>, colorReplacements: seq<ColorReplacement>, cache: TextureCache)
      requires cache.Valid() && Resolves(cache)
      modifies this, cache
      ensures cache.Valid() && Resolves(cache) && cache.counter == old(cache.counter)
      ensures Layers() == old(Layers()).(ground := if Given(url) then Some(TextureName(url.value, colorReplacements)) else None)
      ensures cache.textures == if Given(url) then Resolved(old(cache.textures), url.value, colorReplacements) else old(cache.textures)
      ensures tileReference == old(tileReference) && tileMap == old(tileMap) && tileSize == old(tileSize)
      ensures sprites == old(sprites)
    {
      ground := None;
      ground := SlotName(url, colorReplacements, cache);
    }

    /** Stores the track texture's key (a name, not the texture itself). */
    method SetTrack(url: Option<Source>, cache: TextureCache)
      requires cache.Valid() && Resolves(cache)
      modifies this, cache
      ensures cache.Valid() && Resolves(cache) && cache.counter == old(cache.counter)
      ensures Layers() == old(Layers()).(track := if Given(url) then Some(TextureName(url.value, [])) else None)
      ensures cache.textures == if Given(url) then Resolved(old(cache.textures), url.value, []) else old(cache.textures)
      ensures tileReference == old(tileReference) && tileMap == old(tileMap) && tileSize == old(tileSize)
      ensures sprites == old(sprites)
    {
      track := None;
      track := SlotName(url, [], cache);
    }

    /** The tile at the cell containing (x, y); the map must exist. */
    function GetTile(x: real, y: real): (r: Option<int>)
      reads this
      requires tileMap.Some?
      ensures r.Some? <==> Cell(x, y) in tileMap.value
      ensures r.Some? ==> r.value == tileMap.value[Cell(x, y)]
    {
      Lookup(tileMap, Cell(x, y))
    }

    /** Stores tile `id` at the cell containing (x, y), creating the map if there is none. */
    method SetInstanceTile(x: real, y: real, id: int)
      modifies this
      ensures tileMap == Some(PutTile(old(tileMap), TileSpec(x, y, id)))
      ensures GetTile(x, y) == Some(id)
      ensures forall c :: c != Cell(x, y) ==> Lookup(tileMap, c) == Lookup(old(tileMap), c)
      ensures Layers() == old(Layers()) && tileReference == old(tileReference)
      ensures tileSize == old(tileSize) && sprites == old(sprites)
    {
      var m := if tileMap.None? then map[] else tileMap.value;
      tileMap := Some(m[Cell(x, y) := id]);
    }

    /** A list is applied in order; null removes the whole map; a single entry is stored. */
    method SetTile(data: TileData)
      modifies this
      ensures tileMap == TilesAfter(old(tileMap), data)
      ensures Layers() == old(Layers()) && tileReference == old(tileReference)
      ensures tileSize == old(tileSize) && sprites == old(sprites)
    {
      match data
      case TileList(ts) =>
        var i := 0;
        while i < |ts|
          invariant 0 <= i <= |ts|
          invariant ApplyTiles(tileMap, ts[i..]) == ApplyTiles(old(tileMap), ts)
          invariant Layers() == old(Layers()) && tileReference == old(tileReference)
          invariant tileSize == old(tileSize) && sprites == old(sprites)
        {
          assert ts[i..][1..] == ts[i + 1..];
          SetInstanceTile(ts[i].x, ts[i].y, ts[i].id);
          i := i + 1;
        }
      case NoTiles =>
        tileMap := None;
      case OneTile(t) =>
        SetInstanceTile(t.x, t.y, t.id);
    }

    /** Resolves the texture of (src, reps) and records its key as the texture of tile `id`. */
    method SetInstanceTileReference(id: int, src: Source, reps: seq<ColorReplacement>, cache: TextureCache)
      requires cache.Valid() && Resolves(cache)
      modifies this, cache
      ensures cache.Valid() && Resolves(cache) && cache.counter == old(cache.counter)
      ensures tileReference == old(tileReference)[id := TextureName(src, reps)]
      ensures cache.textures == Resolved(old(cache.textures), src, reps)
      ensures Layers() == old(Layers()) && tileMap == old(tileMap)
      ensures tileSize == old(tileSize) && sprites == old(sprites)
    {
      var texture := cache.GetTexture(src, reps);
      tileReference := tileReference[id := texture.name];
    }

    /** A list is applied in order; null empties the table; a single entry is recorded. */
    method SetTileReference(data: TileRefData, cache: TextureCache)
      requires cache.Valid() && Resolves(cache)
      modifies this, cache
      ensures cache.Valid() && Resolves(cache) && cache.counter == old(cache.counter)
      ensures data.RefList? ==>
                tileReference == RefsAfter(old(tileReference), data.refs) &&
                cache.textures == CacheAfter(old(cache.textures), data.refs)
      ensures data.NoRefs? ==> tileReference == map[] && cache.textures == old(cache.textures)
      ensures data.OneRef? ==>
                tileReference == RefsAfter(old(tileReference), [data.ref]) &&
                cache.textures == CacheAfter(old(cache.textures), [data.ref])
      ensures Layers() == old(Layers()) && tileMap == old(tileMap)
      ensures tileSize == old(tileSize) && sprites == old(sprites)
    {
      match data
      case RefList(list) =>
        var i := 0;
        while i < |list|
          invariant 0 <= i <= |list|
          invariant cache.Valid() && Resolves(cache) && cache.counter == old(cache.counter)
          invariant RefsAfter(tileReference, list[i..]) == RefsAfter(old(tileReference), list)
          invariant CacheAfter(cache.textures, list[i..]) == CacheAfter(old(cache.textures), list)
          invariant Layers() == old(Layers()) && tileMap == old(tileMap)
          invariant tileSize == old(tileSize) && sprites == old(sprites)
        {
          assert list[i..][1..] == list[i + 1..];
          SetInstanceTileReference(list[i].id, list[i].src, list[i].colorReplacements, cache);
          i := i + 1;
        }
      case NoRefs =>
        tileReference := map[];
      case OneRef(r) =>
        SetInstanceTileReference(r.id, r.src, r.colorReplacements, cache);
        assert [r][1..] == [];
    }

    /** Creates a sprite owned by the options' instance, or by this scene when none is given, and appends it here. */
    method AddSprite(options: SpriteOptions, cache: TextureCache) returns (sprite: Sprite)
      requires cache.Valid() && Resolves(cache)
      modifies this, cache
      ensures cache.Valid() && Resolves(cache) && cache.counter == old(cache.counter)
      ensures fresh(sprite)
      ensures sprites == old(sprites) + [sprite]
      ensures sprite.instance == if options.instance == null then this else options.instance
      ensures sprite.texture == TextureName(options.src, []) && sprite.frame == -1
      ensures sprite.x == options.x && sprite.y == options.y && sprite.z == options.z
      ensures sprite.scaleX == ScaleOption(options.scaleX, options.scale)
      ensures sprite.scaleY == ScaleOption(options.scaleY, options.scale)
      ensures cache.textures == Resolved(old(cache.textures), options.src, [])
      ensures Layers() == old(Layers()) && tileReference == old(tileReference)
      ensures tileMap == old(tileMap) && tileSize == old(tileSize)
    {
      var owner := if options.instance == null then this else options.instance;
      sprite := new Sprite(options.(instance := owner), cache);
      sprites := sprites + [sprite];
    }
  }

  /** A billboard sprite. Its owning instance is used only to remove it from that instance's list. */
  class Sprite {
    var x: real
    var y: real
    var z: real
    var scaleX: real
    var scaleY: real
    /** An explicit frame overriding the animation clock, or -1 for none. */
    var frame: int
    const texture: string
    const instance: Engine?

    constructor (options: SpriteOptions, cache: TextureCache)
      requires cache.Valid()
      modifies cache
      ensures cache.Valid() && cache.counter == old(cache.counter)
      ensures cache.textures == Resolved(old(cache.textures), options.src, [])
      ensures x == options.x && y == options.y && z == options.z
      ensures scaleX == ScaleOption(options.scaleX, options.scale)
      ensures scaleY == ScaleOption(options.scaleY, options.scale)
      ensures frame == -1 && texture == TextureName(options.src, []) && instance == options.instance
    {
      x, y, z := options.x, options.y, options.z;
      scaleX := ScaleOption(options.scaleX, options.scale);
      scaleY := ScaleOption(options.scaleY, options.scale);
      var t := cache.GetTexture(options.src, []);
      frame := -1;
      texture := t.name;
      instance := options.instance;
    }

    /** Splices this sprite's first occurrence out of its owner's list, if it has an owner. */
    method Remove()
      modifies instance
      ensures instance != null ==> instance.sprites == RemoveFirst(old(instance.sprites), this)
      ensures instance != null ==> instance.Layers() == old(instance.Layers())
      ensures instance != null ==> instance.tileReference == old(instance.tileReference)
      ensures instance != null ==> instance.tileMap == old(instance.tileMap) && instance.tileSize == old(instance.tileSize)
    {
      if instance != null {
        var index := IndexOf(instance.sprites, this);
        if index != -1 {
          instance.sprites := instance.sprites[..index] + instance.sprites[index + 1..];
        }
      }
    }
  }
}
