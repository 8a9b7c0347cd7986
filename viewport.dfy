/** World-to-screen arithmetic of the draw phase: Go's truncating integer
    division, the visible tile range, the tile under the camera, the screen
    position of tiles and of the player, and the checkerboard shade.
    World coordinates are reals: the float64 rounding of the source is not
    modelled. */
module Viewport {

  /** A point in world space (or, after projection, in screen space). */
  datatype Vec = Vec(x: real, y: real)

  /** Side length of a world tile, in pixels. */
  const TileSize: int := 48
  /** Extra tiles drawn beyond the screen on every side. */
  const Overscan: int := 4
  /** Side length of the player's square sprite. */
  const PlayerSize: real := 28.0

  /** Go's integer quotient a / b, which truncates toward zero. */
  function GoQuo(a: int, b: int): (q: int)
    requires b > 0
    ensures a >= 0 ==> 0 <= a - b * q < b
    ensures a < 0 ==> -b < a - b * q <= 0
  {
    if a >= 0 then a / b else -((-a) / b)
  }

  /** Go's integer remainder a % b, which takes the sign of a. */
  function GoRem(a: int, b: int): (r: int)
    requires b > 0
    ensures a == b * GoQuo(a, b) + r
    ensures a >= 0 ==> 0 <= r < b
    ensures a < 0 ==> -b < r <= 0
  {
    a - b * GoQuo(a, b)
  }

  /** Half of a screen dimension, as the source computes it in Go ints. */
  function Half(n: int): (h: int)
    ensures n >= 0 ==> 0 <= n - 2 * h <= 1
    ensures n < 0 ==> -1 <= n - 2 * h <= 0
  {
    GoQuo(n, 2)
  }

  /** The least integer not below x. */
  function Ceil(x: real): (c: int)
    ensures c as real - 1.0 < x <= c as real
  {
    -((-x).Floor)
  }

  /** Number of tiles drawn on each side of the camera tile along an axis
      whose screen extent is n pixels: the tiles needed to span n, plus
      the overscan. */
  function ViewTiles(n: int): (v: int)
    ensures TileSize * (v - Overscan) >= n
    ensures TileSize * (v - Overscan - 1) < n
  {
    Ceil(n as real / TileSize as real) + Overscan
  }

  /** Index of the tile `offset` tiles away from the one that holds the
      camera coordinate cam. */
  function TileIndex(cam: real, offset: int): (t: int)
    ensures ((t - offset) * TileSize) as real <= cam < ((t - offset + 1) * TileSize) as real
  {
    (cam / TileSize as real).Floor + offset
  }

  /** Screen coordinate of the left (or top) edge of tile t when the camera
      coordinate cam is shown at screen coordinate half. */
  function TileScreen(t: int, cam: real, half: int): real
  {
    (t * TileSize) as real - cam + half as real
  }

  /** Screen position of the world point p for a camera at cam on a w x h screen. */
  function Project(p: Vec, cam: Vec, w: int, h: int): Vec
  {
    Vec((p.x - cam.x) + Half(w) as real, (p.y - cam.y) + Half(h) as real)
  }

  /** Top-left corner of the player's sprite, which is centred on the
      player's projected position. */
  function PlayerSprite(p: Vec, cam: Vec, w: int, h: int): (s: Vec)
    ensures s.x + PlayerSize / 2.0 == Project(p, cam, w, h).x
    ensures s.y + PlayerSize / 2.0 == Project(p, cam, w, h).y
  {
    var c := Project(p, cam, w, h);
    Vec(c.x - PlayerSize / 2.0, c.y - PlayerSize / 2.0)
  }

  /** The two grey levels of the checkerboard: the source fills light tiles
      with grey 230 and dark ones with grey 210. */
  datatype Shade = Light | Dark

  /** Shade of world tile (tx, ty): light when tx + ty is even. The source
      tests the Go remainder, which is 0 exactly for even sums, negative
      ones included. */
  function ShadeOf(tx: int, ty: int): (s: Shade)
    ensures s == Light <==> (tx + ty) % 2 == 0
  {
    if GoRem(tx + ty, 2) == 0 then Light else Dark
  }

  /** One tile draw call: the world tile, where its top-left corner lands on
      screen, and its shade. */
  datatype TileDraw = TileDraw(tileX: int, tileY: int, screenX: real, screenY: real, shade: Shade)

  /** The draw call for the tile at offset (dx, dy) from the camera tile. */
  function TileAt(cam: Vec, w: int, h: int, dx: int, dy: int): (d: TileDraw)
    ensures d.tileX == TileIndex(cam.x, dx) && d.tileY == TileIndex(cam.y, dy)
    ensures d.shade == ShadeOf(d.tileX, d.tileY)
  {
    var tx := TileIndex(cam.x, dx);
    var ty := TileIndex(cam.y, dy);
    TileDraw(tx, ty, TileScreen(tx, cam.x, Half(w)), TileScreen(ty, cam.y, Half(h)), ShadeOf(tx, ty))
  }

  /** Number of iterations of `for d := -v; d <= v; d++`. */
  function Span(v: int): nat
  {
    if v >= 0 then 2 * v + 1 else 0
  }

  /** The tiles of one frame in draw order: column a holds the offset
      dx = a - ViewTiles(w), and within it row b the offset dy = b - ViewTiles(h). */
  function TileGrid(cam: Vec, w: int, h: int): seq<seq<TileDraw>>
  {
    var vx := ViewTiles(w);
    var vy := ViewTiles(h);
    seq(Span(vx), a => seq(Span(vy), b => TileAt(cam, w, h, a - vx, b - vy)))
  }

  /** Tile (tx, ty) is drawn in the frame somewhere. */
  ghost predicate Drawn(grid: seq<seq<TileDraw>>, tx: int, ty: int)
  {
    exists a, b :: 0 <= a < |grid| && 0 <= b < |grid[a]| &&
      grid[a][b].tileX == tx && grid[a][b].tileY == ty
  }

  /** The camera coordinate maps to the centre of the screen. */
  lemma CameraAtCentre(cam: Vec, w: int, h: int)
    ensures Project(cam, cam, w, h) == Vec(Half(w) as real, Half(h) as real)
  {
  }

  /** Moving a world point and the camera by the same delta leaves the
      point's screen position unchanged. */
  lemma ProjectTranslationInvariant(p: Vec, cam: Vec, d: Vec, w: int, h: int)
    ensures Project(Vec(p.x + d.x, p.y + d.y), Vec(cam.x + d.x, cam.y + d.y), w, h) == Project(p, cam, w, h)
  {
  }

  /** The tile that holds the camera covers the screen centre: its left
      edge is at most one tile left of the centre. */
  lemma CameraTileCoversCentre(cam: real, half: int)
    ensures half as real - TileSize as real < TileScreen(TileIndex(cam, 0), cam, half) <= half as real
  {
  }

  /** Neighbouring tiles, across a column or a row, have different shades. */
  lemma Checkerboard(tx: int, ty: int)
    ensures ShadeOf(tx + 1, ty) != ShadeOf(tx, ty)
    ensures ShadeOf(tx, ty + 1) != ShadeOf(tx, ty)
  {
    var s := tx + ty;
    assert s % 2 == 0 <==> (s + 1) % 2 == 1;
  }

  /** The frame draws exactly the tiles within ViewTiles of the camera tile
      on both axes, for every camera position. */
  lemma TileGridExact(cam: Vec, w: int, h: int, tx: int, ty: int)
    ensures Drawn(TileGrid(cam, w, h), tx, ty) <==>
      -ViewTiles(w) <= tx - TileIndex(cam.x, 0) <= ViewTiles(w) &&
      -ViewTiles(h) <= ty - TileIndex(cam.y, 0) <= ViewTiles(h)
  {
    var grid: seq<seq<TileDraw>> := TileGrid(cam, w, h);
    var vx, vy := ViewTiles(w), ViewTiles(h);
    var cx, cy := TileIndex(cam.x, 0), TileIndex(cam.y, 0);
    if -vx <= tx - cx <= vx && -vy <= ty - cy <= vy {
      var a, b := tx - cx + vx, ty - cy + vy;
      assert |grid| == Span(vx) && |grid[a]| == Span(vy);
      assert grid[a][b] == TileAt(cam, w, h, a - vx, b - vy);
      assert grid[a][b].tileX == tx && grid[a][b].tileY == ty;
    }
    if Drawn(grid, tx, ty) {
      var a, b :| 0 <= a < |grid| && 0 <= b < |grid[a]| &&
        grid[a][b].tileX == tx && grid[a][b].tileY == ty;
      assert |grid| == Span(vx) && |grid[a]| == Span(vy);
      assert grid[a][b] == TileAt(cam, w, h, a - vx, b - vy);
    }
  }

  /** A tile's shade is a function of its world coordinates alone: wherever
      the camera is, every drawn tile gets ShadeOf(tileX, tileY), so a tile
      drawn in two frames has the same shade in both. */
  lemma ShadeIndependentOfCamera(cam1: Vec, cam2: Vec, w: int, h: int, a1: int, b1: int, a2: int, b2: int)
    requires 0 <= a1 < |TileGrid(cam1, w, h)| && 0 <= b1 < |TileGrid(cam1, w, h)[a1]|
    requires 0 <= a2 < |TileGrid(cam2, w, h)| && 0 <= b2 < |TileGrid(cam2, w, h)[a2]|
    requires TileGrid(cam1, w, h)[a1][b1].tileX == TileGrid(cam2, w, h)[a2][b2].tileX
    requires TileGrid(cam1, w, h)[a1][b1].tileY == TileGrid(cam2, w, h)[a2][b2].tileY
    ensures TileGrid(cam1, w, h)[a1][b1].shade == TileGrid(cam2, w, h)[a2][b2].shade
  {
    assert TileGrid(cam1, w, h)[a1][b1] == TileAt(cam1, w, h, a1 - ViewTiles(w), b1 - ViewTiles(h));
    assert TileGrid(cam2, w, h)[a2][b2] == TileAt(cam2, w, h, a2 - ViewTiles(w), b2 - ViewTiles(h));
  }

  /** With the overscan the drawn tiles cover the whole screen: the first
      column starts left of (or at) the screen's left edge and the last one
      ends right of (or at) its right edge; likewise for rows. */
  lemma GridCoversScreen(cam: Vec, w: int, h: int)
    requires w >= 0 && h >= 0
    ensures TileAt(cam, w, h, -ViewTiles(w), 0).screenX <= 0.0
    ensures TileAt(cam, w, h, ViewTiles(w), 0).screenX + TileSize as real >= w as real
    ensures TileAt(cam, w, h, 0, -ViewTiles(h)).screenY <= 0.0
    ensures TileAt(cam, w, h, 0, ViewTiles(h)).screenY + TileSize as real >= h as real
  {
    var vx, vy := ViewTiles(w), ViewTiles(h);
    var cx, cy := TileIndex(cam.x, 0), TileIndex(cam.y, 0);
    assert TileIndex(cam.x, -vx) == cx - vx && TileIndex(cam.x, vx) == cx + vx;
    assert TileIndex(cam.y, -vy) == cy - vy && TileIndex(cam.y, vy) == cy + vy;
    CameraTileCoversCentre(cam.x, Half(w));
    CameraTileCoversCentre(cam.y, Half(h));
  }
}
