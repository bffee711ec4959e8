/** MyPlaceMapLayer.extentToTms: the tiles covering an extent at one zoom, by
    a nested loop over integer tile corners. The corners come from
    `wgs84ToTms`, whose floating-point Mercator maths are not modelled: the
    projection is passed in, as the column of a longitude and the row of a
    latitude at a zoom. */
module Tiles {

  datatype Tile = Tile(x: int, y: int, z: int)

  /** The tile column of a longitude and the tile row of a latitude, at a zoom. */
  datatype Projection = Projection(tileX: (real, int) -> int, tileY: (real, int) -> int)

  /** `wgs84ToTms(lon, lat, zoom)`: `[xtile, ytile, zoom]`. */
  function Wgs84ToTms(p: Projection, lon: real, lat: real, zoom: int): (int, int, int) {
    (p.tileX(lon, zoom), p.tileY(lat, zoom), zoom)
  }

  /** Size of the integer range [a, b]. */
  function RangeSize(a: int, b: int): nat {
    if b < a then 0 else b - a + 1
  }

  /** The tiles (x, y0), ..., (x, y1): one pass of the inner loop. */
  function Column(x: int, y0: int, y1: int, z: int): seq<Tile>
    decreases y1 - y0
  {
    if y1 < y0 then [] else Column(x, y0, y1 - 1, z) + [Tile(x, y1, z)]
  }

  /** The tiles of columns x0..x1, each from y0 to y1: the whole loop. */
  function TileRange(x0: int, x1: int, y0: int, y1: int, z: int): seq<Tile>
    decreases x1 - x0
  {
    if x1 < x0 then [] else TileRange(x0, x1 - 1, y0, y1, z) + Column(x1, y0, y1, z)
  }

  /** `a` comes before `b` in the loop's order: by column, then by row. */
  predicate Before(a: Tile, b: Tile) {
    a.x < b.x || (a.x == b.x && a.y < b.y)
  }

  /** Every tile of `s` comes before every later one. */
  predicate InLoopOrder(s: seq<Tile>) {
    forall i, j :: 0 <= i < j < |s| ==> Before(s[i], s[j])
  }

  lemma {:induction false} ColumnContents(x: int, y0: int, y1: int, z: int)
    ensures var c := Column(x, y0, y1, z);
      |c| == RangeSize(y0, y1) && forall k :: 0 <= k < |c| ==> c[k] == Tile(x, y0 + k, z)
    decreases y1 - y0
  {
    if y1 >= y0 {
      ColumnContents(x, y0, y1 - 1, z);
    }
  }

  /** The number of tiles is the product of the two range sizes, so there
      are none when either range is empty. */
  lemma {:induction false} TileRangeSize(x0: int, x1: int, y0: int, y1: int, z: int)
    ensures |TileRange(x0, x1, y0, y1, z)| == RangeSize(x0, x1) * RangeSize(y0, y1)
    decreases x1 - x0
  {
    if x1 >= x0 {
      TileRangeSize(x0, x1 - 1, y0, y1, z);
      ColumnContents(x1, y0, y1, z);
      assert RangeSize(x0, x1) == RangeSize(x0, x1 - 1) + 1;
      assert RangeSize(x0, x1) * RangeSize(y0, y1) == RangeSize(x0, x1 - 1) * RangeSize(y0, y1) + RangeSize(y0, y1);
    }
  }

  /** A tile is emitted exactly when its column and row are in range and its
      zoom is the requested one. */
  lemma {:induction false} TileRangeMembership(x0: int, x1: int, y0: int, y1: int, z: int, t: Tile)
    ensures t in TileRange(x0, x1, y0, y1, z) <==> x0 <= t.x <= x1 && y0 <= t.y <= y1 && t.z == z
    decreases x1 - x0
  {
    if x1 >= x0 {
      TileRangeMembership(x0, x1 - 1, y0, y1, z, t);
      ColumnContents(x1, y0, y1, z);
      var c := Column(x1, y0, y1, z);
      if t.x == x1 && y0 <= t.y <= y1 && t.z == z {
        assert c[t.y - y0] == t;
      }
    }
  }

  /** Tiles come out column by column, rows ascending within a column, each
      exactly once. */
  lemma {:induction false} TileRangeOrdered(x0: int, x1: int, y0: int, y1: int, z: int)
    ensures InLoopOrder(TileRange(x0, x1, y0, y1, z))
    decreases x1 - x0
  {
    if x1 >= x0 {
      var p := TileRange(x0, x1 - 1, y0, y1, z);
      var c := Column(x1, y0, y1, z);
      var r := p + c;
      TileRangeOrdered(x0, x1 - 1, y0, y1, z);
      ColumnContents(x1, y0, y1, z);
      forall i | 0 <= i < |p|
        ensures p[i].x < x1
      {
        TileRangeMembership(x0, x1 - 1, y0, y1, z, p[i]);
      }
      forall i, j | 0 <= i < j < |r|
        ensures Before(r[i], r[j])
      {
        if j < |p| {
          assert r[i] == p[i] && r[j] == p[j];
          assert Before(p[i], p[j]);
        } else if i < |p| {
          assert r[i] == p[i] && r[j] == c[j - |p|];
          assert p[i].x < x1 && c[j - |p|].x == x1;
        } else {
          assert r[i] == c[i - |p|] && r[j] == c[j - |p|];
          assert c[i - |p|].y < c[j - |p|].y;
        }
      }
    }
  }

  /** `extentToTms(xmin, ymin, xmax, ymax, zoom)`. Both corners are taken at
      `ymax`, as the source does, so the tiles form a single row; `ymin` is
      not used. */
  method ExtentToTms(p: Projection, xmin: real, ymin: real, xmax: real, ymax: real, zoom: int)
    returns (tiles: seq<Tile>)
    ensures tiles == TileRange(p.tileX(xmin, zoom), p.tileX(xmax, zoom), p.tileY(ymax, zoom), p.tileY(ymax, zoom), zoom)
    ensures |tiles| == RangeSize(p.tileX(xmin, zoom), p.tileX(xmax, zoom))
    ensures forall t :: t in tiles <==>
      p.tileX(xmin, zoom) <= t.x <= p.tileX(xmax, zoom) && t.y == p.tileY(ymax, zoom) && t.z == zoom
  {
    tiles := [];
    var topLeft := Wgs84ToTms(p, xmin, ymax, zoom);
    var bottomRight := Wgs84ToTms(p, xmax, ymax, zoom);
    var xTile := topLeft.0;
    while xTile <= bottomRight.0
      invariant topLeft.0 <= xTile && (xTile <= bottomRight.0 + 1 || xTile == topLeft.0)
      invariant tiles == TileRange(topLeft.0, xTile - 1, topLeft.1, bottomRight.1, zoom)
      decreases bottomRight.0 - xTile
    {
      var yTile := topLeft.1;
      while yTile <= bottomRight.1
        invariant topLeft.1 <= yTile && (yTile <= bottomRight.1 + 1 || yTile == topLeft.1)
        invariant tiles == TileRange(topLeft.0, xTile - 1, topLeft.1, bottomRight.1, zoom)
                           + Column(xTile, topLeft.1, yTile - 1, zoom)
        decreases bottomRight.1 - yTile
      {
        tiles := tiles + [Tile(xTile, yTile, zoom)];
        yTile := yTile + 1;
      }
      xTile := xTile + 1;
    }
    ghost var x0, x1, y := topLeft.0, bottomRight.0, topLeft.1;
    TileRangeSize(x0, x1, y, y, zoom);
    forall t ensures t in tiles <==> x0 <= t.x <= x1 && t.y == y && t.z == zoom {
      TileRangeMembership(x0, x1, y, y, zoom, t);
    }
  }
}
