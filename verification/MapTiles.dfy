/**
 Which map tiles a viewport shows. The projected centre is an arbitrary point of the world
 plane; coordinates are reals, so what the doubles round away is not modelled.
 */
module MapTiles {
  import opened Wrappers
  import opened Utf16
  import opened Decimal

  const TILE: real := 256.0
  const MIN_ZOOM := 4
  const MAX_ZOOM := 18

  datatype Point = Point(x: real, y: real)
  datatype Tile = Tile(key: Text, zoom: nat, x: int, y: int, left: real, top: real)
  datatype Error = InvalidViewport | InvalidProjection

  /** A checked request: the world coordinates of the viewport's top left corner, and its size. */
  datatype View = View(left: real, top: real, width: real, height: real, zoom: nat, padding: nat)

  function FloorDiv(v: real): int { (v / TILE).Floor }

  function FirstX(v: View): int { FloorDiv(v.left) - v.padding }
  function LastX(v: View): int { FloorDiv(v.left + v.width) + v.padding }
  function FirstY(v: View): int { FloorDiv(v.top) - v.padding }
  function LastY(v: View): int { FloorDiv(v.top + v.height) + v.padding }
  function Count(v: View): (n: nat)
    ensures n >= 1
  {
    PowerPositive(2, v.zoom);
    Power(2, v.zoom)
  }

  lemma {:induction false} PowerPositive(b: nat, e: nat)
    requires b >= 1
    ensures Power(b, e) >= 1
  {
    if e > 0 { PowerPositive(b, e - 1); }
  }

  /** ECMAScript's `%` on integers: the sign follows the dividend. */
  function Remainder(a: int, b: nat): int
    requires b >= 1
  {
    if a >= 0 then a % b else -((-a) % b)
  }

  /** `((raw % count) + count) % count` is the mathematical residue of the raw column. */
  lemma ColumnIsResidue(raw: int, count: nat)
    requires count >= 1
    ensures Remainder(Remainder(raw, count) + count, count) == raw % count
    ensures 0 <= raw % count < count
  {
    if raw < 0 {
      var r := (-raw) % count;
      var q := (-raw) / count;
      assert -raw == q * count + r;
      if r == 0 {
        assert raw == (-q) * count;
        Residue(raw, -q, 0, count);
        Residue(count, 1, 0, count);
      } else {
        assert raw == (-q - 1) * count + (count - r);
        Residue(raw, -q - 1, count - r, count);
        Residue(count - r, 0, count - r, count);
      }
    } else {
      Residue(raw % count + count, 1, raw % count, count);
    }
  }

  lemma Residue(n: int, q: int, r: nat, count: nat)
    requires n == q * count + r && r < count
    ensures n % count == r
  {
    var k, s := n / count, n % count;
    assert n == k * count + s;
    assert (k - q) * count == r - s;
    WholeMultiple(k - q, count);
  }

  lemma WholeMultiple(k: int, count: nat)
    ensures k >= 1 ==> k * count >= count
    ensures k <= -1 ==> k * count <= -(count as int)
  {
  }

  function IntText(n: int): Text {
    if n < 0 then ['-' as int] + Digits(-n) else Digits(n)
  }

  function Key(zoom: nat, rawX: int, rawY: int): Text {
    Digits(zoom) + [SLASH] + (IntText(rawX) + [SLASH] + IntText(rawY))
  }

  lemma IntTextPlain(n: int)
    ensures IntText(n) != [] && SLASH !in IntText(n)
    ensures (IntText(n)[0] == '-' as int) == (n < 0)
  {
  }

  lemma IntTextInjective(m: int, n: int)
    requires IntText(m) == IntText(n)
    ensures m == n
  {
    IntTextPlain(m);
    IntTextPlain(n);
    if m < 0 {
      assert IntText(m)[1..] == Digits(-m) && IntText(n)[1..] == Digits(-n);
      DigitsInjective(-m, -n);
    } else {
      DigitsInjective(m, n);
    }
  }

  lemma SplitAtSlash(a: Text, b: Text, c: Text, d: Text)
    requires SLASH !in a && SLASH !in c && a + [SLASH] + b == c + [SLASH] + d
    ensures a == c && b == d
  {
    var s, t := a + [SLASH] + b, c + [SLASH] + d;
    assert s[|a|] == SLASH && t[|c|] == SLASH;
    assert forall i :: 0 <= i < |a| ==> s[i] == a[i];
    assert forall i :: 0 <= i < |c| ==> t[i] == c[i];
    assert |a| == |c|;
    assert s[..|a|] == a && t[..|c|] == c && s[|a| + 1..] == b && t[|c| + 1..] == d;
  }

  lemma KeyInjective(zoom: nat, x: int, y: int, x': int, y': int)
    requires Key(zoom, x, y) == Key(zoom, x', y')
    ensures x == x' && y == y'
  {
    hide Digits, IntText;
    IntTextPlain(zoom);
    assert Digits(zoom) == IntText(zoom) by { ZoomText(zoom); }
    SplitAtSlash(Digits(zoom), IntText(x) + [SLASH] + IntText(y), Digits(zoom), IntText(x') + [SLASH] + IntText(y'));
    IntTextPlain(x);
    IntTextPlain(x');
    SplitAtSlash(IntText(x), IntText(y), IntText(x'), IntText(y'));
    IntTextInjective(x, x');
    IntTextInjective(y, y');
  }

  lemma ZoomText(zoom: nat)
    ensures Digits(zoom) == IntText(zoom)
  {
  }

  function TileAt(v: View, rawX: int, rawY: int): Tile {
    var count := Count(v);
    Tile(Key(v.zoom, rawX, rawY), v.zoom, Remainder(Remainder(rawX, count) + count, count), rawY,
         rawX as real * TILE - v.left, rawY as real * TILE - v.top)
  }

  /** The tiles of one row, from the first column up to but not including `x`. */
  function Row(v: View, y: int, x: int): seq<Tile>
    decreases x - FirstX(v)
  {
    if x <= FirstX(v) then [] else Row(v, y, x - 1) + [TileAt(v, x - 1, y)]
  }

  predicate OnMap(v: View, y: int) { 0 <= y < Count(v) }

  /** The tiles of the rows before `y`; rows off the map have none. */
  function Rows(v: View, y: int): seq<Tile>
    decreases y - FirstY(v)
  {
    if y <= FirstY(v) then [] else Rows(v, y - 1) + (if OnMap(v, y - 1) then Row(v, y - 1, LastX(v) + 1) else [])
  }

  lemma NoTiles(v: View, y: int, x: int)
    requires x <= FirstX(v)
    ensures Row(v, y, x) == []
  {
  }

  lemma NextTile(v: View, y: int, x: int, tile: Tile)
    requires x >= FirstX(v) && tile == Tile(Key(v.zoom, x, y), v.zoom, Remainder(Remainder(x, Count(v)) + Count(v), Count(v)), y,
                                            x as real * TILE - v.left, y as real * TILE - v.top)
    ensures Row(v, y, x + 1) == Row(v, y, x) + [tile]
    ensures Rows(v, y) + Row(v, y, x) + [tile] == Rows(v, y) + Row(v, y, x + 1)
  {
    assert tile == TileAt(v, x, y);
    hide TileAt, Rows;
  }

  lemma NextRow(v: View, y: int)
    requires y >= FirstY(v)
    ensures Rows(v, y + 1) == Rows(v, y) + (if OnMap(v, y) then Row(v, y, LastX(v) + 1) else [])
  {
    hide Row;
  }

  /** `mapTiles`, from the projected centre. */
  method Tiles(world: Point, zoom: int, width: real, height: real, padding: int) returns (r: Result<seq<Tile>, Error>)
    ensures r.Err? && r.error.InvalidViewport? <==> width <= 0.0 || height <= 0.0 || padding < 0 || padding > 2
    ensures r.Err? && r.error.InvalidProjection? <==>
              !(width <= 0.0 || height <= 0.0 || padding < 0 || padding > 2) && (zoom < 4 || zoom > 18)
    ensures r.Ok? ==>
              var v := View(world.x - width / 2.0, world.y - height / 2.0, width, height, zoom, padding);
              r.value == Rows(v, LastY(v) + 1)
  {
    if width <= 0.0 || height <= 0.0 || padding < 0 || padding > 2 {
      return Err(InvalidViewport);
    }
    if zoom < MIN_ZOOM || zoom > MAX_ZOOM {
      return Err(InvalidProjection);
    }
    var left, top := world.x - width / 2.0, world.y - height / 2.0;
    ghost var v := View(left, top, width, height, zoom, padding);
    var firstX, lastX := (left / TILE).Floor - padding, ((left + width) / TILE).Floor + padding;
    var firstY, lastY := (top / TILE).Floor - padding, ((top + height) / TILE).Floor + padding;
    PowerPositive(2, zoom);
    var count := Power(2, zoom);
    FloorMonotone(left / TILE, (left + width) / TILE);
    FloorMonotone(top / TILE, (top + height) / TILE);
    assert firstX == FirstX(v) && lastX == LastX(v) && firstY == FirstY(v) && lastY == LastY(v) && count == Count(v);
    assert Rows(v, firstY) == [];
    hide Key, Remainder, Row, Rows, FirstX, LastX, FirstY, LastY, Power, FloorDiv, TileAt, Count;
    var tiles := [];
    var rawY := firstY;
    while rawY <= lastY
      invariant firstY <= rawY <= lastY + 1
      invariant tiles == Rows(v, rawY)
    {
      NextRow(v, rawY);
      if rawY < 0 || rawY >= count {
        rawY := rawY + 1;
        continue;
      }
      var rawX := firstX;
      NoTiles(v, rawY, rawX);
      while rawX <= lastX
        invariant firstX <= rawX <= lastX + 1
        invariant tiles == Rows(v, rawY) + Row(v, rawY, rawX)
      {
        var x := Remainder(Remainder(rawX, count) + count, count);
        var tile := Tile(Key(zoom, rawX, rawY), zoom, x, rawY,
                         rawX as real * TILE - left, rawY as real * TILE - top);
        NextTile(v, rawY, rawX, tile);
        tiles := tiles + [tile];
        rawX := rawX + 1;
      }
      rawY := rawY + 1;
    }
    return Ok(tiles);
  }

  lemma FloorMonotone(a: real, b: real)
    requires a <= b
    ensures a.Floor <= b.Floor
  {
  }

  // What the tiles are for.

  lemma {:induction false} RowMembers(v: View, y: int, x: int)
    ensures forall raw :: FirstX(v) <= raw < x ==> TileAt(v, raw, y) in Row(v, y, x)
    ensures forall t :: t in Row(v, y, x) ==> exists raw :: FirstX(v) <= raw < x && t == TileAt(v, raw, y)
    decreases x - FirstX(v)
  {
    hide TileAt;
    if x > FirstX(v) { RowMembers(v, y, x - 1); }
  }

  predicate InGrid(v: View, x: int, y: int, rows: int) {
    FirstX(v) <= x <= LastX(v) && FirstY(v) <= y < rows && OnMap(v, y)
  }

  lemma {:induction false} RowsMembers(v: View, y: int)
    ensures forall rawX, rawY :: InGrid(v, rawX, rawY, y) ==> TileAt(v, rawX, rawY) in Rows(v, y)
    ensures forall t :: t in Rows(v, y) ==> exists rawX, rawY :: InGrid(v, rawX, rawY, y) && t == TileAt(v, rawX, rawY)
    decreases y - FirstY(v)
  {
    hide TileAt, OnMap, Row;
    if y > FirstY(v) {
      RowsMembers(v, y - 1);
      RowMembers(v, y - 1, LastX(v) + 1);
      forall t | t in Rows(v, y)
        ensures exists rawX, rawY :: InGrid(v, rawX, rawY, y) && t == TileAt(v, rawX, rawY)
      {
        if t in Rows(v, y - 1) {
          var rawX, rawY :| InGrid(v, rawX, rawY, y - 1) && t == TileAt(v, rawX, rawY);
          assert InGrid(v, rawX, rawY, y);
        } else {
          var raw :| FirstX(v) <= raw < LastX(v) + 1 && t == TileAt(v, raw, y - 1);
          assert InGrid(v, raw, y - 1, y);
        }
      }
      forall rawX, rawY | InGrid(v, rawX, rawY, y)
        ensures TileAt(v, rawX, rawY) in Rows(v, y)
      {
        if rawY < y - 1 { assert InGrid(v, rawX, rawY, y - 1); }
      }
    }
  }

  predicate DistinctKeys(tiles: seq<Tile>) {
    forall i, j :: 0 <= i < j < |tiles| ==> tiles[i].key != tiles[j].key
  }

  lemma DistinctJoin(a: seq<Tile>, b: seq<Tile>)
    requires DistinctKeys(a) && DistinctKeys(b)
    requires forall s, t :: s in a && t in b ==> s.key != t.key
    ensures DistinctKeys(a + b)
  {
    forall i, j | 0 <= i < j < |a + b|
      ensures (a + b)[i].key != (a + b)[j].key
    {
      if i < |a| <= j { assert a[i] in a && b[j - |a|] in b; }
    }
  }

  lemma {:induction false} RowDistinct(v: View, y: int, x: int)
    ensures DistinctKeys(Row(v, y, x))
    decreases x - FirstX(v)
  {
    if x > FirstX(v) {
      RowDistinct(v, y, x - 1);
      RowMembers(v, y, x - 1);
      forall s, t | s in Row(v, y, x - 1) && t in [TileAt(v, x - 1, y)] ensures s.key != t.key {
        var raw :| FirstX(v) <= raw < x - 1 && s == TileAt(v, raw, y);
        KeysDiffer(v, raw, y, x - 1, y);
      }
      hide TileAt;
      DistinctJoin(Row(v, y, x - 1), [TileAt(v, x - 1, y)]);
    }
  }

  lemma KeysDiffer(v: View, x: int, y: int, x': int, y': int)
    requires x != x' || y != y'
    ensures TileAt(v, x, y).key != TileAt(v, x', y').key
  {
    hide Key;
    if Key(v.zoom, x, y) == Key(v.zoom, x', y') { KeyInjective(v.zoom, x, y, x', y'); }
  }

  /** A tile of an earlier row has another key than any tile of row `y`. */
  lemma EarlierRowsDiffer(v: View, y: int, s: Tile, t: Tile)
    requires s in Rows(v, y) && t in Row(v, y, LastX(v) + 1)
    ensures s.key != t.key
  {
    RowsMembers(v, y);
    RowMembers(v, y, LastX(v) + 1);
    hide Rows, Row, TileAt, FirstX, LastX;
    var rawX, rawY :| InGrid(v, rawX, rawY, y) && s == TileAt(v, rawX, rawY);
    var raw :| FirstX(v) <= raw < LastX(v) + 1 && t == TileAt(v, raw, y);
    KeysDiffer(v, rawX, rawY, raw, y);
  }

  lemma {:induction false} RowsDistinct(v: View, y: int)
    ensures DistinctKeys(Rows(v, y))
    decreases y - FirstY(v)
  {
    if y > FirstY(v) {
      RowsDistinct(v, y - 1);
      if OnMap(v, y - 1) {
        var row := Row(v, y - 1, LastX(v) + 1);
        RowDistinct(v, y - 1, LastX(v) + 1);
        forall s, t | s in Rows(v, y - 1) && t in row ensures s.key != t.key {
          EarlierRowsDiffer(v, y - 1, s, t);
        }
        hide TileAt, Row, DistinctKeys;
        DistinctJoin(Rows(v, y - 1), row);
      }
    }
  }

  /** The tile's square on the screen contains the pixel. */
  predicate Covers(t: Tile, px: real, py: real) {
    t.left <= px < t.left + TILE && t.top <= py < t.top + TILE
  }

  /** The raw tile column or row of a world coordinate. */
  lemma FloorIsTile(w: real, raw: int)
    ensures raw as real * TILE <= w < raw as real * TILE + TILE <==> raw == FloorDiv(w)
  {
    var q := w / TILE;
    assert q * TILE == w;
    assert q.Floor as real <= q < q.Floor as real + 1.0;
  }

  lemma CoversAt(v: View, rawX: int, rawY: int, px: real, py: real)
    ensures Covers(TileAt(v, rawX, rawY), px, py) <==> rawX == FloorDiv(v.left + px) && rawY == FloorDiv(v.top + py)
  {
    FloorIsTile(v.left + px, rawX);
    FloorIsTile(v.top + py, rawY);
    hide Key, FloorDiv;
  }

  lemma PixelInRange(v: View, px: real, py: real)
    requires 0.0 <= px <= v.width && 0.0 <= py <= v.height
    ensures FirstX(v) <= FloorDiv(v.left + px) <= LastX(v) && FirstY(v) <= FloorDiv(v.top + py) <= LastY(v)
  {
    FloorMonotone(v.left / TILE, (v.left + px) / TILE);
    FloorMonotone((v.left + px) / TILE, (v.left + v.width) / TILE);
    FloorMonotone(v.top / TILE, (v.top + py) / TILE);
    FloorMonotone((v.top + py) / TILE, (v.top + v.height) / TILE);
  }

  /** The tiles cover the viewport exactly. A pixel whose world row is on the map lies in
      exactly one tile, and that tile's column is the pixel's world column reduced modulo
      the number of columns; a pixel off the map lies in none. No two keys are equal. */
  lemma ExactCover(v: View, px: real, py: real)
    requires 0.0 <= px <= v.width && 0.0 <= py <= v.height
    ensures var tiles := Rows(v, LastY(v) + 1); var row := FloorDiv(v.top + py);
            && DistinctKeys(tiles)
            && (OnMap(v, row) ==>
                exists t :: t in tiles && Covers(t, px, py) && t.y == row && t.x == FloorDiv(v.left + px) % Count(v))
            && (!OnMap(v, row) ==> forall t :: t in tiles ==> !Covers(t, px, py))
            && (forall i, j :: 0 <= i < |tiles| && 0 <= j < |tiles| && Covers(tiles[i], px, py) && Covers(tiles[j], px, py)
                  ==> i == j)
  {
    var tiles, row, column := Rows(v, LastY(v) + 1), FloorDiv(v.top + py), FloorDiv(v.left + px);
    RowsDistinct(v, LastY(v) + 1);
    RowsMembers(v, LastY(v) + 1);
    PixelInRange(v, px, py);
    CoversAt(v, column, row, px, py);
    ColumnIsResidue(column, Count(v));
    if OnMap(v, row) {
      assert InGrid(v, column, row, LastY(v) + 1);
      assert TileAt(v, column, row) in tiles;
    }
    forall t | t in tiles && Covers(t, px, py)
      ensures OnMap(v, row) && t == TileAt(v, column, row)
    {
      var rawX, rawY :| InGrid(v, rawX, rawY, LastY(v) + 1) && t == TileAt(v, rawX, rawY);
      CoversAt(v, rawX, rawY, px, py);
    }
    hide TileAt, Covers, Rows;
  }

  /** The tile drawn over the pixel is the world tile of that pixel, at its place. */
  predicate Shows(v: View, t: Tile, px: real, py: real) {
    var column, row := ((v.left + px) / 256.0).Floor, ((v.top + py) / 256.0).Floor;
    && t.zoom == v.zoom && t.y == row && t.x == column % Count(v) && 0 <= t.x < Count(v)
    && t.left == column as real * 256.0 - v.left && t.top == row as real * 256.0 - v.top
    && t.key == Digits(v.zoom) + [SLASH] + IntText(column) + [SLASH] + IntText(row)
  }

  /** The tiles, told by the pixels of an endless screen. With `padding` extra tiles on every
      side, a pixel lies in some tile exactly if its tile column is one the viewport touches or
      at most `padding` beyond, and so is its row, and the row is one of the map's 2^zoom; and
      the tile says where it is drawn and which column of the world it shows. */
  lemma PaddedCover(v: View, px: real, py: real)
    ensures var tiles := Rows(v, LastY(v) + 1);
            var column, row := ((v.left + px) / 256.0).Floor, ((v.top + py) / 256.0).Floor;
            (exists t :: t in tiles && Covers(t, px, py)) <==>
              && (v.left / 256.0).Floor - v.padding <= column <= ((v.left + v.width) / 256.0).Floor + v.padding
              && (v.top / 256.0).Floor - v.padding <= row <= ((v.top + v.height) / 256.0).Floor + v.padding
              && 0 <= row < Power(2, v.zoom)
    ensures forall t :: t in Rows(v, LastY(v) + 1) && Covers(t, px, py) ==> Shows(v, t, px, py)
  {
    CoveredBy(v, px, py);
    ShownAt(v, px, py);
    hide Covers, Rows, TileAt, Shows, Power;
    assert Count(v) == Power(2, v.zoom);
  }

  lemma CoveredBy(v: View, px: real, py: real)
    ensures var tiles := Rows(v, LastY(v) + 1); var column, row := FloorDiv(v.left + px), FloorDiv(v.top + py);
            && ((exists t :: t in tiles && Covers(t, px, py)) <==> InGrid(v, column, row, LastY(v) + 1))
            && (forall t :: t in tiles && Covers(t, px, py) ==> t == TileAt(v, column, row))
  {
    var tiles, column, row := Rows(v, LastY(v) + 1), FloorDiv(v.left + px), FloorDiv(v.top + py);
    RowsMembers(v, LastY(v) + 1);
    CoversAt(v, column, row, px, py);
    hide TileAt, Covers, Rows, FloorDiv, FirstX, LastX, FirstY, LastY, OnMap;
    if InGrid(v, column, row, LastY(v) + 1) { assert TileAt(v, column, row) in tiles; }
    forall t | t in tiles && Covers(t, px, py)
      ensures InGrid(v, column, row, LastY(v) + 1) && t == TileAt(v, column, row)
    {
      var rawX, rawY :| InGrid(v, rawX, rawY, LastY(v) + 1) && t == TileAt(v, rawX, rawY);
      CoversAt(v, rawX, rawY, px, py);
    }
  }

  lemma ShownAt(v: View, px: real, py: real)
    ensures Shows(v, TileAt(v, FloorDiv(v.left + px), FloorDiv(v.top + py)), px, py)
  {
    var column, row := FloorDiv(v.left + px), FloorDiv(v.top + py);
    ColumnIsResidue(column, Count(v));
    assert Key(v.zoom, column, row) == Digits(v.zoom) + [SLASH] + IntText(column) + [SLASH] + IntText(row);
    hide Remainder, IntText, Digits, Key, Power;
  }

  /** Real remainder with the sign of the dividend. */
  function RealRemainder(a: real, b: real): real
    requires b > 0.0
  {
    if a >= 0.0 then a - (a / b).Floor as real * b else -(-a - (-a / b).Floor as real * b)
  }

  function WrapLongitude(v: real): real {
    RealRemainder(RealRemainder(v + 180.0, 360.0) + 360.0, 360.0) - 180.0
  }

  function Turned(v: real, turns: int): real {
    v + turns as real * 360.0
  }

  /** The wrapped longitude is the one in [-180, 180) that differs by whole turns. */
  lemma WrappedLongitude(v: real)
    ensures -180.0 <= WrapLongitude(v) < 180.0
    ensures exists turns :: WrapLongitude(v) == Turned(v, turns)
  {
    var a := v + 180.0;
    var first := RealRemainder(a, 360.0);
    assert -360.0 < first < 360.0;
    var k := if a >= 0.0 then -((a / 360.0).Floor) else (-a / 360.0).Floor;
    assert first == a + k as real * 360.0;
    var b := first + 360.0;
    var m := (b / 360.0).Floor;
    assert RealRemainder(b, 360.0) == b - m as real * 360.0;
    assert WrapLongitude(v) == Turned(v, k + 1 - m);
  }
}
