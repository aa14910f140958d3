// tiled/tiled.go: the Tiled map demo. NewGame parses the tile layer (module
// TiledCsv), numbers the tiles of every tileset image, adds a static box per
// map object and sets up the camera; Update moves the camera from the held
// keys; Draw looks every cell of the layer up in the tileset table. File and
// XML decoding, image decoding and the camera's matrix are not modelled: the
// map attributes, the layer text and each tileset image's size are inputs.
module Tiled {
  import opened Geometry
  import opened TiledCsv

  /** image.Rect(x0, y0, x1, y1): the part of a tileset image a tile is cut from. */
  datatype Rect = Rect(x0: int, y0: int, x1: int, y1: int)

  /** A tile image: the index of the tileset whose image it is cut from, and where. */
  datatype Tile = Tile(sheet: nat, rect: Rect)

  /** The map attributes NewGame uses: size in tiles and tile size in pixels. */
  datatype MapInfo = MapInfo(width: int, height: int, tileWidth: int, tileHeight: int)

  /** A tileset entry of the map: its first tile id and the size of its image. */
  datatype Sheet = Sheet(firstgid: int, imageWidth: int, imageHeight: int)

  // ---------------------------------------------------------------------------
  // Integer arithmetic the loops rely on

  /**
   * How many times a loop `for v := 0; v < n; v += d` runs: the least count
   * whose multiple of d reaches n.
   */
  function CeilDiv(n: int, d: int): (r: nat)
    requires d > 0
  {
    if n <= 0 then 0 else (n + d - 1) / d
  }

  /** c steps of d reach n exactly when c is at least CeilDiv(n, d). */
  lemma CeilDivLeast(n: int, d: int, c: nat)
    requires d > 0
    ensures c * d >= n <==> c >= CeilDiv(n, d)
  {
    var q := CeilDiv(n, d);
    if n > 0 {
      var m := n + d - 1;
      assert m == d * (m / d) + m % d && 0 <= m % d < d;
      assert q * d >= n;
      assert (q - 1) * d < n;
      if c >= q {
        MulLe(q, c, d);
      } else {
        MulLe(c, q - 1, d);
      }
    }
  }

  lemma MulLe(a: int, b: int, d: nat)
    requires a <= b
    ensures a * d <= b * d
  {
    assert b * d - a * d == (b - a) * d;
  }

  /** Position k of a row-major walk over rows of length n is (k / n, k % n). */
  lemma RowMajor(q: int, r: int, n: int)
    requires n > 0 && 0 <= r < n
    ensures (q * n + r) / n == q && (q * n + r) % n == r
  {
    var k := q * n + r;
    var q', r' := k / n, k % n;
    assert k == q' * n + r' && 0 <= r' < n;
    assert (q - q') * n == r' - r;
    if q > q' {
      MulLe(1, q - q', n);
    } else if q < q' {
      MulLe(1, q' - q, n);
    }
  }

  /** The cells before row q and column r of a row-major walk over q' rows of n. */
  lemma RowMajorBound(q: int, r: int, q': int, n: int)
    requires 0 <= q < q' && 0 <= r < n
    ensures 0 <= q * n + r < q' * n
  {
    MulLe(q + 1, q', n);
    MulLe(0, q, n);
  }

  // ---------------------------------------------------------------------------
  // Tileset numbering (tiled/tiled.go:190-197)

  /** The part of the image the k-th tile of a sheet with cols tiles per row is cut from. */
  function TileRect(k: nat, cols: nat, tw: int, th: int): (r: Rect)
    requires cols > 0
    ensures r.x1 - r.x0 == tw && r.y1 - r.y0 == th
  {
    var c, row := k % cols, k / cols;
    Rect(c * tw, row * th, c * tw + tw, row * th + th)
  }

  /** The first n tiles of sheet number `sheet`, under consecutive ids from first. */
  function Numbered(sheet: nat, first: int, cols: nat, n: nat, tw: int, th: int): (m: map<int, Tile>)
    requires n == 0 || cols > 0
    ensures forall id :: id in m <==> first <= id < first + n
  {
    if n == 0 then map[]
    else Numbered(sheet, first, cols, n - 1, tw, th)[first + n - 1 := Tile(sheet, TileRect(n - 1, cols, tw, th))]
  }

  /** Id first + k is the k-th tile. */
  lemma {:induction false} NumberedAt(sheet: nat, first: int, cols: nat, n: nat, tw: int, th: int, id: int)
    requires cols > 0 && first <= id < first + n
    ensures Numbered(sheet, first, cols, n, tw, th)[id] == Tile(sheet, TileRect(id - first, cols, tw, th))
  {
    if id < first + n - 1 {
      NumberedAt(sheet, first, cols, n - 1, tw, th, id);
    }
  }

  /** The tiles of one tileset image: CeilDiv(height) rows of CeilDiv(width) tiles each. */
  function SheetTiles(sheet: nat, s: Sheet, tw: int, th: int): map<int, Tile>
    requires tw > 0 && th > 0
  {
    var cols, rows := CeilDiv(s.imageWidth, tw), CeilDiv(s.imageHeight, th);
    Numbered(sheet, s.firstgid, cols, rows * cols, tw, th)
  }

  /**
   * The ids run row by row: the tile in column c of row r of the image has id
   * firstgid + r*cols + c and is cut from that cell.
   */
  lemma SheetTilesCell(sheet: nat, s: Sheet, tw: int, th: int, c: int, r: int)
    requires tw > 0 && th > 0
    requires 0 <= c < CeilDiv(s.imageWidth, tw) && 0 <= r < CeilDiv(s.imageHeight, th)
    ensures var cols := CeilDiv(s.imageWidth, tw);
      var id := s.firstgid + r * cols + c;
      id in SheetTiles(sheet, s, tw, th) &&
      SheetTiles(sheet, s, tw, th)[id] == Tile(sheet, Rect(c * tw, r * th, c * tw + tw, r * th + th))
  {
    var cols, rows := CeilDiv(s.imageWidth, tw), CeilDiv(s.imageHeight, th);
    RowMajor(r, c, cols);
    RowMajorBound(r, c, rows, cols);
    NumberedAt(sheet, s.firstgid, cols, rows * cols, tw, th, s.firstgid + r * cols + c);
  }

  /** The row of the k-th of fewer than rows*cols tiles is below rows. */
  lemma RowBelow(k: nat, cols: nat, rows: nat)
    requires cols > 0 && k < rows * cols
    ensures k / cols < rows
  {
    var r := k / cols;
    assert k == r * cols + k % cols;
    if r >= rows {
      MulLe(rows, r, cols);
    }
  }

  /** The cell of the k-th of rows*cols tiles starts inside an image of the size they were counted from. */
  lemma CellInside(k: nat, tw: int, th: int, w: int, h: int)
    requires tw > 0 && th > 0 && k < CeilDiv(h, th) * CeilDiv(w, tw)
    ensures var cols := CeilDiv(w, tw);
      0 <= (k % cols) * tw < w && 0 <= (k / cols) * th < h
  {
    var cols, rows := CeilDiv(w, tw), CeilDiv(h, th);
    var c, r := k % cols, k / cols;
    RowBelow(k, cols, rows);
    CeilDivLeast(w, tw, c);
    CeilDivLeast(h, th, r);
    MulLe(0, c, tw);
    MulLe(0, r, th);
  }

  /** Every tile of a sheet is cut from a part of its image that starts inside it. */
  lemma SheetTilesInside(sheet: nat, s: Sheet, tw: int, th: int, id: int)
    requires tw > 0 && th > 0 && id in SheetTiles(sheet, s, tw, th)
    ensures var t := SheetTiles(sheet, s, tw, th)[id];
      t.sheet == sheet && 0 <= t.rect.x0 < s.imageWidth && 0 <= t.rect.y0 < s.imageHeight
  {
    var cols, rows := CeilDiv(s.imageWidth, tw), CeilDiv(s.imageHeight, th);
    NumberedAt(sheet, s.firstgid, cols, rows * cols, tw, th, id);
    CellInside(id - s.firstgid, tw, th, s.imageWidth, s.imageHeight);
  }

  /**
   * The numbering loop for one tileset: rows of tiles down the image, tiles
   * along each row, each under the next id; an id already in the table is
   * overwritten.
   */
  method NumberSheet(lookup: map<int, Tile>, sheet: nat, s: Sheet, tw: int, th: int) returns (r: map<int, Tile>)
    requires tw > 0 && th > 0
    ensures r == lookup + SheetTiles(sheet, s, tw, th)
  {
    ghost var cols, rows := CeilDiv(s.imageWidth, tw), CeilDiv(s.imageHeight, th);
    r := lookup;
    var index := s.firstgid;
    var y := 0;
    ghost var row := 0;
    while y < s.imageHeight
      invariant 0 <= row <= rows && y == row * th && index == s.firstgid + row * cols
      invariant r == lookup + Numbered(sheet, s.firstgid, cols, row * cols, tw, th)
    {
      CeilDivLeast(s.imageHeight, th, row);
      r, index := NumberRow(r, lookup, sheet, s, tw, th, row, row * cols, y, index);
      assert row * cols + cols == (row + 1) * cols;
      y := y + th;
      row := row + 1;
    }
    CeilDivLeast(s.imageHeight, th, row);
  }

  /** Numbering the n-th tile, in column c of row `row` and cut from that cell, extends the table by the next id. */
  lemma NumberStep(r: map<int, Tile>, lookup: map<int, Tile>, sheet: nat, first: int, cols: nat, n: nat, row: nat, c: nat, tw: int, th: int, index: int, x: int, y: int)
    requires 0 <= c < cols && n == row * cols + c && index == first + n && x == c * tw && y == row * th
    requires r == lookup + Numbered(sheet, first, cols, n, tw, th)
    ensures r[index := Tile(sheet, Rect(x, y, x + tw, y + th))] == lookup + Numbered(sheet, first, cols, n + 1, tw, th)
  {
    RowMajor(row, c, cols);
    assert TileRect(n, cols, tw, th) == Rect(x, y, x + tw, y + th);
  }

  /** One row of the numbering loop: the next cols ids, left to right. */
  method NumberRow(r0: map<int, Tile>, ghost lookup: map<int, Tile>, sheet: nat, s: Sheet, tw: int, th: int,
                   ghost row: nat, ghost done: nat, y: int, index0: int)
    returns (r: map<int, Tile>, index: int)
    requires tw > 0 && th > 0 && y == row * th && done == row * CeilDiv(s.imageWidth, tw)
    requires index0 == s.firstgid + done
    requires r0 == lookup + Numbered(sheet, s.firstgid, CeilDiv(s.imageWidth, tw), done, tw, th)
    ensures index == s.firstgid + done + CeilDiv(s.imageWidth, tw)
    ensures r == lookup + Numbered(sheet, s.firstgid, CeilDiv(s.imageWidth, tw), done + CeilDiv(s.imageWidth, tw), tw, th)
  {
    ghost var cols := CeilDiv(s.imageWidth, tw);
    r, index := r0, index0;
    var x := 0;
    ghost var c, n := 0, done;
    while x < s.imageWidth
      invariant 0 <= c <= cols && n == done + c && x == c * tw && index == s.firstgid + n
      invariant r == lookup + Numbered(sheet, s.firstgid, cols, n, tw, th)
    {
      CeilDivLeast(s.imageWidth, tw, c);
      NumberStep(r, lookup, sheet, s.firstgid, cols, n, row, c, tw, th, index, x, y);
      r := r[index := Tile(sheet, Rect(x, y, x + tw, y + th))];
      index := index + 1;
      x := x + tw;
      assert x == (c + 1) * tw;
      c, n := c + 1, n + 1;
    }
    CeilDivLeast(s.imageWidth, tw, c);
  }

  /**
   * The tile table after every tileset of the map is numbered in order; a
   * later tileset overwrites the ids it shares with an earlier one.
   */
  function AllTiles(sheets: seq<Sheet>, tw: int, th: int): (m: map<int, Tile>)
    requires tw > 0 && th > 0
    decreases |sheets|
  {
    if sheets == [] then map[]
    else AllTiles(sheets[..|sheets| - 1], tw, th) + SheetTiles(|sheets| - 1, sheets[|sheets| - 1], tw, th)
  }

  /** NewGame's loop over the tilesets: each numbered into the same table. */
  method NumberTilesets(sheets: seq<Sheet>, tw: int, th: int) returns (lookup: map<int, Tile>)
    requires tw > 0 && th > 0
    ensures lookup == AllTiles(sheets, tw, th)
  {
    lookup := map[];
    var i := 0;
    while i < |sheets|
      invariant 0 <= i <= |sheets| && lookup == AllTiles(sheets[..i], tw, th)
    {
      assert sheets[..i + 1][..i] == sheets[..i];
      lookup := NumberSheet(lookup, i, sheets[i], tw, th);
      i := i + 1;
    }
    assert sheets[..i] == sheets;
  }

  /**
   * An id of a tileset that no later tileset numbers is in the table, as that
   * tileset's tile; ids no tileset numbers are not in it.
   */
  lemma {:induction false} AllTilesFrom(sheets: seq<Sheet>, tw: int, th: int, id: int, i: nat)
    requires tw > 0 && th > 0 && i < |sheets| && id in SheetTiles(i, sheets[i], tw, th)
    requires forall j :: i < j < |sheets| ==> id !in SheetTiles(j, sheets[j], tw, th)
    ensures id in AllTiles(sheets, tw, th) && AllTiles(sheets, tw, th)[id] == SheetTiles(i, sheets[i], tw, th)[id]
    decreases |sheets|
  {
    var n := |sheets| - 1;
    if i < n {
      var front := sheets[..n];
      forall j | i < j < |front|
        ensures id !in SheetTiles(j, front[j], tw, th)
      {
        assert front[j] == sheets[j];
      }
      assert front[i] == sheets[i];
      AllTilesFrom(front, tw, th, id, i);
      assert id !in SheetTiles(n, sheets[n], tw, th);
    }
  }

  /** Only the tilesets' ids are in the table. */
  lemma {:induction false} AllTilesOnly(sheets: seq<Sheet>, tw: int, th: int, id: int)
    requires tw > 0 && th > 0 && id in AllTiles(sheets, tw, th)
    ensures exists i :: 0 <= i < |sheets| && id in SheetTiles(i, sheets[i], tw, th)
    decreases |sheets|
  {
    var n := |sheets| - 1;
    if id !in SheetTiles(n, sheets[n], tw, th) {
      var front := sheets[..n];
      AllTilesOnly(front, tw, th, id);
      var i :| 0 <= i < |front| && id in SheetTiles(i, front[i], tw, th);
      assert front[i] == sheets[i];
    }
  }

  // ---------------------------------------------------------------------------
  // World size (tiled/tiled.go:206)

  /** Whether the tile in column x and row y, drawn at (x*TileWidth, y*TileHeight), lies inside a world image of the given size. */
  predicate TileInWorld(m: MapInfo, size: (int, int), x: int, y: int)
  {
    (x + 1) * m.tileWidth <= size.0 && (y + 1) * m.tileHeight <= size.1
  }

  /** The world image's size as NewGame computes it: the map's width times the tile height, and its height times the tile width. */
  function WorldSizeAsWritten(m: MapInfo): (int, int)
  {
    (m.width * m.tileHeight, m.height * m.tileWidth)
  }

  /** A map of 10 by 10 tiles of 32 by 16 pixels: the last tile of the first row lies outside the world image as written. */
  lemma WorldSizeAsWrittenClips()
    ensures var m := MapInfo(10, 10, 32, 16);
      WorldSizeAsWritten(m) == (160, 320) && !TileInWorld(m, WorldSizeAsWritten(m), 9, 0)
  {
  }

  /** The world image's size: as wide as the map's columns of tiles and as tall as its rows. */
  function WorldSize(m: MapInfo): (size: (int, int))
    requires m.width >= 0 && m.height >= 0 && m.tileWidth >= 0 && m.tileHeight >= 0
    ensures forall x, y :: 0 <= x < m.width && 0 <= y < m.height ==> TileInWorld(m, size, x, y)
  {
    var size := (m.width * m.tileWidth, m.height * m.tileHeight);
    forall x, y | 0 <= x < m.width && 0 <= y < m.height
      ensures TileInWorld(m, size, x, y)
    {
      MulLe(x + 1, m.width, m.tileWidth);
      MulLe(y + 1, m.height, m.tileHeight);
    }
    size
  }

  /** With square tiles the size as written is the right one. */
  lemma WorldSizeSquareTiles(m: MapInfo)
    requires m.width >= 0 && m.height >= 0 && m.tileWidth >= 0 && m.tileHeight >= 0
    requires m.tileWidth == m.tileHeight
    ensures WorldSizeAsWritten(m) == WorldSize(m)
  {
  }

  // ---------------------------------------------------------------------------
  // Map objects (tiled/tiled.go:202-204)

  /** A rectangle of the map's object layer: its top-left corner and size in pixels. */
  datatype Object = Object(x: real, y: real, width: real, height: real)

  /** A static box: its centre and size. */
  datatype StaticBox = StaticBox(center: Vec, width: real, height: real)

  /** The static box NewGame adds for an object: the same size, centred on it, so it covers exactly the object's rectangle. */
  function ObjectBox(o: Object): (b: StaticBox)
    ensures b.width == o.width && b.height == o.height
    ensures b.center.x - b.width / 2.0 == o.x && b.center.x + b.width / 2.0 == o.x + o.width
    ensures b.center.y - b.height / 2.0 == o.y && b.center.y + b.height / 2.0 == o.y + o.height
  {
    StaticBox(Vec(o.x + o.width / 2.0, o.y + o.height / 2.0), o.width, o.height)
  }

  /** One box per object, in order. */
  function ObjectBoxes(objects: seq<Object>): (r: seq<StaticBox>)
    ensures |r| == |objects| && forall i :: 0 <= i < |objects| ==> r[i] == ObjectBox(objects[i])
    decreases |objects|
  {
    if objects == [] then [] else [ObjectBox(objects[0])] + ObjectBoxes(objects[1..])
  }

  // ---------------------------------------------------------------------------
  // Camera (tiled/tiled.go:80-137, 214-219)

  /** The camera's state: the viewport size, the position, and the zoom and rotation steps. */
  datatype CamState = CamState(viewPort: Vec, position: Vec, zoom: int, rotation: int)

  /** What Reset leaves: back at the origin, unzoomed and unrotated, with the same viewport. */
  function ResetState(c: CamState): (r: CamState)
    ensures r.viewPort == c.viewPort && r.position == Zero && r.zoom == 0 && r.rotation == 0
  {
    CamState(c.viewPort, Zero, 0, 0)
  }

  class Camera {
    var viewPort: Vec
    var position: Vec
    var zoomFactor: int
    var rotation: int

    /** The camera NewGame sets up for a world image of the given size. */
    constructor (worldWidth: int, worldHeight: int)
      ensures viewPort == Vec(worldWidth as real, worldHeight as real)
      ensures position == Vec(-100.0, -70.0) && zoomFactor == 100 && rotation == 0
    {
      viewPort := Vec(worldWidth as real, worldHeight as real);
      position := Vec(-100.0, -70.0);
      zoomFactor := 100;
      rotation := 0;
    }

    function State(): CamState
      reads this
    {
      CamState(viewPort, position, zoomFactor, rotation)
    }

    /** viewportCenter: the middle of the viewport, half its size. */
    function ViewportCenter(): (c: Vec)
      reads this
      ensures Scale(c, 2.0) == viewPort
    {
      Vec(viewPort.x * 0.5, viewPort.y * 0.5)
    }

    /** Update's handling of one axis pair: a unit step left if minus is held, then right if plus is. */
    method PanX(minus: bool, plus: bool)
      modifies this
      ensures position == Vec(old(position.x) + Step(minus, plus) as real, old(position.y))
      ensures viewPort == old(viewPort) && zoomFactor == old(zoomFactor) && rotation == old(rotation)
    {
      if minus {
        position := Vec(position.x - 1.0, position.y);
      }
      if plus {
        position := Vec(position.x + 1.0, position.y);
      }
    }

    /** The same for the vertical axis: up if minus is held, then down if plus is. */
    method PanY(minus: bool, plus: bool)
      modifies this
      ensures position == Vec(old(position.x), old(position.y) + Step(minus, plus) as real)
      ensures viewPort == old(viewPort) && zoomFactor == old(zoomFactor) && rotation == old(rotation)
    {
      if minus {
        position := Vec(position.x, position.y - 1.0);
      }
      if plus {
        position := Vec(position.x, position.y + 1.0);
      }
    }

    /** Zooming out one step if out is held, then in one step if into is. */
    method ZoomBy(out: bool, into: bool)
      modifies this
      ensures zoomFactor == old(zoomFactor) + Step(out, into)
      ensures viewPort == old(viewPort) && position == old(position) && rotation == old(rotation)
    {
      if out {
        zoomFactor := zoomFactor - 1;
      }
      if into {
        zoomFactor := zoomFactor + 1;
      }
    }

    /** The camera part of Update: pan, zoom and turn by the held keys, then reset if Space is held. */
    method Steer(k: Keys)
      modifies this
      ensures State() == Moved(old(State()), k)
    {
      PanX(k.a || k.left, k.d || k.right);
      PanY(k.w || k.up, k.s || k.down);
      ZoomBy(k.q, k.e);
      if k.r {
        rotation := rotation + 1;
      }
      if k.space {
        Reset();
      }
    }

    method Reset()
      modifies this
      ensures State() == ResetState(old(State()))
    {
      position := Vec(0.0, position.y);
      position := Vec(position.x, 0.0);
      rotation := 0;
      zoomFactor := 0;
    }
  }

  /** Resetting twice is resetting once, and the viewport centre survives a reset. */
  lemma ResetIdempotent(c: CamState)
    ensures ResetState(ResetState(c)) == ResetState(c)
    ensures ResetState(c).viewPort == c.viewPort
  {
  }

  // ---------------------------------------------------------------------------
  // Key handling (tiled/tiled.go:223-261)

  /** The keys Update polls: held keys, and whether P was pressed this frame. */
  datatype Keys = Keys(
    a: bool, left: bool, d: bool, right: bool, w: bool, up: bool, s: bool, down: bool,
    q: bool, e: bool, r: bool, space: bool, pJustPressed: bool)

  function Step(minus: bool, plus: bool): (d: int)
    ensures -1 <= d <= 1 && (d < 0 <==> minus && !plus) && (d > 0 <==> plus && !minus)
  {
    (if plus then 1 else 0) - (if minus then 1 else 0)
  }

  /** The step along x: -1 for A or Left, +1 for D or Right. */
  function StepX(k: Keys): int { Step(k.a || k.left, k.d || k.right) }

  /** The step along y: -1 for W or Up, +1 for S or Down. */
  function StepY(k: Keys): int { Step(k.w || k.up, k.s || k.down) }

  /** The zoom step: -1 for Q, +1 for E. */
  function StepZoom(k: Keys): int { Step(k.q, k.e) }

  /**
   * The camera after one Update: moved one unit along each axis whose key is
   * held, zoomed out by Q and in by E, turned by R, and then reset if Space
   * is held.
   */
  function Moved(c: CamState, k: Keys): CamState
  {
    var moved := CamState(c.viewPort, Vec(c.position.x + StepX(k) as real, c.position.y + StepY(k) as real),
                          c.zoom + StepZoom(k), c.rotation + (if k.r then 1 else 0));
    if k.space then ResetState(moved) else moved
  }

  /**
   * One Update never changes the viewport; Space resets the camera; otherwise
   * each axis, the zoom and the rotation move by at most one, in the
   * direction of the held keys, and opposite keys cancel.
   */
  lemma MovedBy(c: CamState, k: Keys)
    ensures Moved(c, k).viewPort == c.viewPort
    ensures k.space ==> Moved(c, k) == ResetState(c)
    ensures !k.space ==> var m := Moved(c, k);
      && -1.0 <= m.position.x - c.position.x <= 1.0 && -1.0 <= m.position.y - c.position.y <= 1.0
      && (m.position.x < c.position.x <==> (k.a || k.left) && !(k.d || k.right))
      && (m.position.x > c.position.x <==> (k.d || k.right) && !(k.a || k.left))
      && (m.position.y < c.position.y <==> (k.w || k.up) && !(k.s || k.down))
      && (m.position.y > c.position.y <==> (k.s || k.down) && !(k.w || k.up))
      && (m.zoom < c.zoom <==> k.q && !k.e) && (m.zoom > c.zoom <==> k.e && !k.q)
      && -1 <= m.zoom - c.zoom <= 1
      && (m.rotation == c.rotation + 1 <==> k.r) && (m.rotation == c.rotation <==> !k.r)
  {
  }

  /** The keys pointing the other way: left and right, up and down, and zoom out and in swapped. */
  function Mirror(k: Keys): (r: Keys)
    ensures StepX(r) == -StepX(k) && StepY(r) == -StepY(k) && StepZoom(r) == -StepZoom(k)
    ensures r.r == k.r && r.space == k.space
  {
    Keys(k.d, k.right, k.a, k.left, k.s, k.down, k.w, k.up, k.e, k.q, k.r, k.space, k.pJustPressed)
  }

  /** Holding the mirrored keys for a frame undoes a frame's movement and zoom, when neither resets nor turns. */
  lemma MovedUndo(c: CamState, k: Keys)
    requires !k.space && !k.r
    ensures Moved(Moved(c, k), Mirror(k)) == c
  {
    var m, k' := Moved(c, k), Mirror(k);
    assert m.position.x + StepX(k') as real == c.position.x;
    assert m.position.y + StepY(k') as real == c.position.y;
  }

  // ---------------------------------------------------------------------------
  // Drawing the layer (tiled/tiled.go:269-280)

  /** A DrawImage call of the tile loop: the tile image and where it is drawn on the world image. */
  datatype Placement = Placement(tile: Tile, x: int, y: int)

  /** Whether the cell in column x and row y exists in the layer and its id has an image. */
  predicate CellDrawable(layer: seq<seq<int>>, tiles: map<int, Tile>, x: int, y: int)
  {
    0 <= y < |layer| && 0 <= x < |layer[y]| && layer[y][x] in tiles
  }

  /** Drawing one cell: its tile at (x*TileWidth, y*TileHeight), or the panic a missing row, cell or image causes. */
  function CellAt(m: MapInfo, layer: seq<seq<int>>, tiles: map<int, Tile>, x: nat, y: nat): (r: Result<Placement>)
    ensures r.Ok? <==> CellDrawable(layer, tiles, x, y)
    ensures r.Ok? ==> r.value == Placement(tiles[layer[y][x]], x * m.tileWidth, y * m.tileHeight)
  {
    if y >= |layer| || x >= |layer[y]| then Failure(IndexOutOfRange(x, y))
    else if layer[y][x] !in tiles then Failure(NilImage(layer[y][x]))
    else Ok(Placement(tiles[layer[y][x]], x * m.tileWidth, y * m.tileHeight))
  }

  /** The cells of column x in rows 0 to n - 1, top to bottom. */
  function ColumnCells(m: MapInfo, layer: seq<seq<int>>, tiles: map<int, Tile>, x: nat, n: nat): (r: seq<Result<Placement>>)
    ensures |r| == n && forall y :: 0 <= y < n ==> r[y] == CellAt(m, layer, tiles, x, y)
  {
    if n == 0 then [] else ColumnCells(m, layer, tiles, x, n - 1) + [CellAt(m, layer, tiles, x, n - 1)]
  }

  function Rows(m: MapInfo): nat { if m.height < 0 then 0 else m.height }

  function Columns(m: MapInfo): nat { if m.width < 0 then 0 else m.width }

  /** Drawing column x, top to bottom: its tiles, or the first panic. */
  function ColumnResult(m: MapInfo, layer: seq<seq<int>>, tiles: map<int, Tile>, x: nat): Result<seq<Placement>>
  {
    Collect(ColumnCells(m, layer, tiles, x, Rows(m)))
  }

  /** Drawing columns 0 to n - 1, each top to bottom. */
  function ColumnResults(m: MapInfo, layer: seq<seq<int>>, tiles: map<int, Tile>, n: nat): (r: seq<Result<seq<Placement>>>)
    ensures |r| == n && forall x :: 0 <= x < n ==> r[x] == ColumnResult(m, layer, tiles, x)
  {
    if n == 0 then [] else ColumnResults(m, layer, tiles, n - 1) + [ColumnResult(m, layer, tiles, n - 1)]
  }

  function Flatten<T>(xss: seq<seq<T>>): seq<T>
  {
    if xss == [] then [] else xss[0] + Flatten(xss[1..])
  }

  /**
   * Drawing the layer: column by column, each top to bottom, every cell's
   * tile; the first cell in that order that is missing or has no image
   * panics.
   */
  function DrawLayer(m: MapInfo, layer: seq<seq<int>>, tiles: map<int, Tile>): Result<seq<Placement>>
  {
    match Collect(ColumnResults(m, layer, tiles, Columns(m)))
    case Ok(columns) => Ok(Flatten(columns))
    case Failure(e) => Failure(e)
  }

  /** A column draws without a panic exactly when each of its cells exists and has an image. */
  lemma ColumnOk(m: MapInfo, layer: seq<seq<int>>, tiles: map<int, Tile>, x: nat)
    ensures ColumnResult(m, layer, tiles, x).Ok? <==>
      forall y :: 0 <= y < m.height ==> CellDrawable(layer, tiles, x, y)
  {
    var cells := ColumnCells(m, layer, tiles, x, Rows(m));
    if Collect(cells).Ok? {
      forall y | 0 <= y < m.height
        ensures CellDrawable(layer, tiles, x, y)
      {
        assert cells[y].Ok?;
      }
    } else {
      var y :| 0 <= y < |cells| && cells[y].Failure?;
      assert !CellDrawable(layer, tiles, x, y);
    }
  }

  /** The layer draws without a panic exactly when every cell of the map exists in it and has an image. */
  lemma DrawLayerOk(m: MapInfo, layer: seq<seq<int>>, tiles: map<int, Tile>)
    ensures DrawLayer(m, layer, tiles).Ok? <==>
      forall x, y :: 0 <= x < m.width && 0 <= y < m.height ==> CellDrawable(layer, tiles, x, y)
  {
    var cols := ColumnResults(m, layer, tiles, Columns(m));
    if DrawLayer(m, layer, tiles).Ok? {
      forall x, y | 0 <= x < m.width && 0 <= y < m.height
        ensures CellDrawable(layer, tiles, x, y)
      {
        ColumnOk(m, layer, tiles, x);
      }
    } else {
      var x :| 0 <= x < |cols| && cols[x].Failure?;
      ColumnOk(m, layer, tiles, x);
    }
  }

  /** Flattening one more column appends its placements. */
  lemma {:induction false} FlattenSnoc<T>(xss: seq<seq<T>>, xs: seq<T>)
    ensures Flatten(xss + [xs]) == Flatten(xss) + xs
    decreases |xss|
  {
    if xss == [] {
      assert [xs][1..] == [];
    } else {
      assert (xss + [xs])[1..] == xss[1..] + [xs];
      FlattenSnoc(xss[1..], xs);
    }
  }

  // ---------------------------------------------------------------------------
  // The game (tiled/tiled.go:23-32, 139-280)

  /** NewGame's loop over the map objects: one static box per object, in order. */
  method AddObjectBoxes(objects: seq<Object>) returns (boxes: seq<StaticBox>)
    ensures boxes == ObjectBoxes(objects)
  {
    boxes := [];
    var i := 0;
    while i < |objects|
      invariant 0 <= i <= |objects| && boxes == ObjectBoxes(objects[..i])
    {
      assert ObjectBoxes(objects[..i + 1]) == boxes + [ObjectBox(objects[i])];
      boxes := boxes + [ObjectBox(objects[i])];
      i := i + 1;
    }
    assert objects[..i] == objects;
  }

  class Game {
    const info: MapInfo
    /** MapLayer: the parsed tile layer, one row per line. */
    const layer: seq<seq<int>>
    const tileSet: map<int, Tile>
    const boxes: seq<StaticBox>
    const camera: Camera
    var drawPhysics: bool

    constructor (info: MapInfo, layer: seq<seq<int>>, tileSet: map<int, Tile>, boxes: seq<StaticBox>, camera: Camera)
      ensures this.info == info && this.layer == layer && this.tileSet == tileSet && this.boxes == boxes
      ensures this.camera == camera && !drawPhysics
    {
      this.info := info;
      this.layer := layer;
      this.tileSet := tileSet;
      this.boxes := boxes;
      this.camera := camera;
      drawPhysics := false;
    }

    /**
     * Update: the camera moves, zooms, turns and resets as Moved says, and
     * each press of P toggles the physics overlay.
     */
    method Update(k: Keys)
      modifies this, camera
      ensures camera.State() == Moved(old(camera.State()), k)
      ensures drawPhysics == (old(drawPhysics) != k.pJustPressed)
    {
      camera.Steer(k);
      if k.pJustPressed {
        drawPhysics := !drawPhysics;
      }
    }

    /** The tile loop of Draw: every column in turn; the first panic ends the drawing. */
    method Draw() returns (r: Result<seq<Placement>>)
      ensures r == DrawLayer(info, layer, tileSet)
    {
      ghost var cols := ColumnResults(info, layer, tileSet, Columns(info));
      ghost var done: seq<seq<Placement>> := [];
      var placed: seq<Placement> := [];
      var x := 0;
      while x < info.width
        invariant 0 <= x <= Columns(info)
        invariant Collect(cols[..x]) == Ok(done) && placed == Flatten(done)
      {
        var column := DrawColumn(x);
        CollectStep(cols, x);
        if column.Failure? {
          CollectPrefixFails(cols, x + 1);
          return Failure(column.error);
        }
        FlattenSnoc(done, column.value);
        done := done + [column.value];
        placed := placed + column.value;
        x := x + 1;
      }
      assert cols[..x] == cols;
      return Ok(placed);
    }

    /** Draw's inner loop: the cells of column x, top to bottom. */
    method DrawColumn(x: nat) returns (r: Result<seq<Placement>>)
      ensures r == ColumnResult(info, layer, tileSet, x)
    {
      ghost var cells := ColumnCells(info, layer, tileSet, x, Rows(info));
      var placed: seq<Placement> := [];
      var y := 0;
      while y < info.height
        invariant 0 <= y <= Rows(info) && Collect(cells[..y]) == Ok(placed)
      {
        CollectStep(cells, y);
        if y >= |layer| || x >= |layer[y]| {
          CollectPrefixFails(cells, y + 1);
          return Failure(IndexOutOfRange(x, y));
        }
        var tile := layer[y][x];
        if tile !in tileSet {
          CollectPrefixFails(cells, y + 1);
          return Failure(NilImage(tile));
        }
        placed := placed + [Placement(tileSet[tile], x * info.tileWidth, y * info.tileHeight)];
        y := y + 1;
      }
      assert cells[..y] == cells;
      return Ok(placed);
    }
  }

  /**
   * NewGame: the layer text is loaded first, and a bad item panics before
   * anything else is built; then the tilesets are numbered, a static box is
   * added per object, and the camera looks at the whole world image.
   */
  method NewGame(info: MapInfo, layerText: string, sheets: seq<Sheet>, objects: seq<Object>) returns (r: Result<Game>)
    requires info.width > 0 && info.height > 0 && info.tileWidth > 0 && info.tileHeight > 0
    ensures ParseLayer(layerText).Failure? ==> r == Failure(ParseLayer(layerText).error)
    ensures ParseLayer(layerText).Ok? ==> r.Ok? && fresh(r.value) && fresh(r.value.camera)
    ensures r.Ok? ==> var g := r.value;
      && g.info == info && g.layer == ParseLayer(layerText).value
      && g.tileSet == AllTiles(sheets, info.tileWidth, info.tileHeight)
      && g.boxes == ObjectBoxes(objects) && !g.drawPhysics
      && g.camera.State() == CamState(Vec(WorldSize(info).0 as real, WorldSize(info).1 as real), Vec(-100.0, -70.0), 100, 0)
  {
    var layer := LoadLayer(layerText);
    if layer.Failure? {
      return Failure(layer.error);
    }
    var lookup := NumberTilesets(sheets, info.tileWidth, info.tileHeight);
    var boxes := AddObjectBoxes(objects);
    var size := WorldSize(info);
    var camera := new Camera(size.0, size.1);
    var g := new Game(info, layer.value, lookup, boxes, camera);
    return Ok(g);
  }
}
