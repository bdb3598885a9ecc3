/**
 * The sparse tile map's key: a cell is named by the floors of its two
 * coordinates written as decimal text and joined by a colon. Over integer
 * cells this text key is injective, so the map is modelled by its cells.
 */
module Tiles {
  import opened Optional

  /** A tile map: cell -> tile id. */
  type TileMap = map<(int, int), int>

  function DigitChar(d: int): char
    requires 0 <= d < 10
  {
    "0123456789"[d]
  }

  /** The decimal digits of a natural number, most significant first. */
  function Digits(n: nat): (s: string)
    ensures |s| >= 1
    ensures forall i :: 0 <= i < |s| ==> '0' <= s[i] <= '9'
  {
    if n < 10 then [DigitChar(n)] else Digits(n / 10) + [DigitChar(n % 10)]
  }

  /** How an integral number prints as text. */
  function IntToString(n: int): (s: string)
    ensures |s| >= 1 && ':' !in s
  {
    if n < 0 then "-" + Digits(-n) else Digits(n)
  }

  lemma {:induction false} DigitsInjective(n: nat, m: nat)
    requires Digits(n) == Digits(m)
    ensures n == m
  {
    var s := Digits(n);
    if n < 10 && m < 10 {
      assert "0123456789"[n] == "0123456789"[m];
    } else if n >= 10 && m >= 10 {
      assert Digits(n / 10) == s[..|s| - 1] == Digits(m / 10);
      DigitsInjective(n / 10, m / 10);
      assert "0123456789"[n % 10] == s[|s| - 1] == "0123456789"[m % 10];
    }
  }

  lemma IntToStringSign(n: int)
    ensures IntToString(n)[0] == '-' <==> n < 0
  {
  }

  lemma IntToStringInjective(a: int, b: int)
    requires IntToString(a) == IntToString(b)
    ensures a == b
  {
    IntToStringSign(a);
    IntToStringSign(b);
    if a < 0 {
      assert Digits(-a) == IntToString(a)[1..] == Digits(-b);
      DigitsInjective(-a, -b);
    } else {
      DigitsInjective(a, b);
    }
  }

  /** The cell a coordinate pair falls in. */
  function Cell(x: real, y: real): (int, int)
  {
    (x.Floor, y.Floor)
  }

  /** The text key of the cell containing (x, y). */
  function TilemapIndex(x: real, y: real): (key: string)
    ensures ':' in key
  {
    var k := IntToString(x.Floor) + ":" + IntToString(y.Floor);
    assert k[|IntToString(x.Floor)|] == ':';
    k
  }

  /** Two coordinate pairs share a text key exactly when they share a cell. */
  lemma TilemapIndexMatchesCell(x1: real, y1: real, x2: real, y2: real)
    ensures TilemapIndex(x1, y1) == TilemapIndex(x2, y2) <==> Cell(x1, y1) == Cell(x2, y2)
  {
    var u, v := IntToString(x1.Floor), IntToString(x2.Floor);
    var p, q := IntToString(y1.Floor), IntToString(y2.Floor);
    var k1, k2 := u + ":" + p, v + ":" + q;
    if k1 == k2 {
      ColonSplit(u, p, v, q);
      IntToStringInjective(x1.Floor, x2.Floor);
      IntToStringInjective(y1.Floor, y2.Floor);
    }
  }

  lemma ColonAt(u: string, p: string)
    ensures (u + ":" + p)[|u|] == ':'
    ensures forall i :: 0 <= i < |u| ==> (u + ":" + p)[i] == u[i]
  {
  }

  /** Text joined at a colon splits back uniquely when neither left part contains a colon. */
  lemma ColonSplit(u: string, p: string, v: string, q: string)
    requires ':' !in u && ':' !in v && u + ":" + p == v + ":" + q
    ensures u == v && p == q
  {
    var k := u + ":" + p;
    ColonAt(u, p);
    ColonAt(v, q);
    if |u| != |v| {
      assert false;
    }
    assert u == k[..|u|] == v;
    assert p == k[|u| + 1..] == q;
  }

  /** One entry of a tile list: the tile id for the cell containing (x, y). */
  datatype TileSpec = TileSpec(x: real, y: real, id: int)

  /** The tile stored at a cell, if the map exists and has that cell. */
  function Lookup(m: Option<TileMap>, c: (int, int)): (r: Option<int>)
    ensures r.Some? <==> m.Some? && c in m.value
    ensures r.Some? ==> r.value == m.value[c]
  {
    if m.Some? && c in m.value then Some(m.value[c]) else None
  }

  /** The map after storing one entry; an absent map is created empty first. */
  function PutTile(m: Option<TileMap>, t: TileSpec): (r: TileMap)
    ensures Cell(t.x, t.y) in r && r[Cell(t.x, t.y)] == t.id
    ensures forall c :: c != Cell(t.x, t.y) ==> Lookup(Some(r), c) == Lookup(m, c)
  {
    (if m.Some? then m.value else map[])[Cell(t.x, t.y) := t.id]
  }

  /** The map after storing every entry of a list, first to last. */
  function ApplyTiles(m: Option<TileMap>, tiles: seq<TileSpec>): (r: Option<TileMap>)
    ensures r.Some? <==> m.Some? || tiles != []
    ensures m.Some? ==> m.value.Keys <= r.value.Keys
    ensures forall i :: 0 <= i < |tiles| ==> Cell(tiles[i].x, tiles[i].y) in r.value
    decreases tiles
  {
    if tiles == [] then m
    else
      assert forall i :: 1 <= i < |tiles| ==> tiles[i] == tiles[1..][i - 1];
      ApplyTiles(Some(PutTile(m, tiles[0])), tiles[1..])
  }

  /** The id of the last entry of the list that falls in cell c. */
  function LastTileFor(tiles: seq<TileSpec>, c: (int, int)): Option<int>
  {
    if tiles == [] then None
    else
      var later := LastTileFor(tiles[1..], c);
      if later.Some? then later
      else if Cell(tiles[0].x, tiles[0].y) == c then Some(tiles[0].id)
      else None
  }

  /**
   * Applying a list: a cell holds the id of the list's last entry for it, or
   * what it held before when no entry names it.
   */
  lemma {:induction false} ApplyTilesLastWins(m: Option<TileMap>, tiles: seq<TileSpec>, c: (int, int))
    ensures Lookup(ApplyTiles(m, tiles), c) == if LastTileFor(tiles, c).Some? then LastTileFor(tiles, c) else Lookup(m, c)
    decreases tiles
  {
    if tiles != [] {
      ApplyTilesLastWins(Some(PutTile(m, tiles[0])), tiles[1..], c);
    }
  }
}
