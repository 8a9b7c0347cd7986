/** The demo's game object: the player's world position and the camera,
    changed once per tick by the update phase from the keyboard and mouse
    state, and read by the draw phase to produce the frame's draw calls. */
module Demo {
  import opened Geometry
  import opened Viewport

  /** Player speed in pixels per tick: 200 pixels a second at 60 ticks a second. */
  const Speed: real := 200.0 / 60.0
  /** Camera speed in pixels per tick that NewGame installs. */
  const InitialCamSpeed: real := 8.0

  /** The four movement groups of one tick; each is already the OR of an
      arrow key and its WASD letter (Up|W, Down|S, Left|A, Right|D). */
  datatype Keys = Keys(up: bool, down: bool, left: bool, right: bool)

  /** What the update phase hands back to the run loop. */
  datatype Signal = Running | Termination

  /** Where one tick's key presses take the player from p. Each pressed
      group adds its full speed to exactly one axis; the groups add up, so
      a diagonal press moves speed along both axes, with no normalisation. */
  function PlayerStep(p: Vec, keys: Keys): (q: Vec)
    ensures keys.up == keys.down ==> q.y == p.y
    ensures keys.up && !keys.down ==> q.y == p.y - Speed
    ensures keys.down && !keys.up ==> q.y == p.y + Speed
    ensures keys.left == keys.right ==> q.x == p.x
    ensures keys.left && !keys.right ==> q.x == p.x - Speed
    ensures keys.right && !keys.left ==> q.x == p.x + Speed
  {
    var y1 := if keys.up then p.y - Speed else p.y;
    var y2 := if keys.down then y1 + Speed else y1;
    var x1 := if keys.left then p.x - Speed else p.x;
    var x2 := if keys.right then x1 + Speed else x1;
    Vec(x2, y2)
  }

  /** The camera after one tick of the on-screen buttons: the button under
      the cursor, if the left mouse button is held, pans the camera by
      camSpeed in its direction. The four buttons are tested one after the
      other; as no pixel lies in two of them, at most one pan happens. */
  function CameraStep(cam: Vec, screenH: int, mx: int, my: int, leftPressed: bool, camSpeed: real): (c: Vec)
    ensures !leftPressed ==> c == cam
    ensures ButtonAt(screenH, mx, my).None? ==> c == cam
    ensures leftPressed && ButtonAt(screenH, mx, my) == Some(Up) ==> c == Vec(cam.x, cam.y - camSpeed)
    ensures leftPressed && ButtonAt(screenH, mx, my) == Some(Down) ==> c == Vec(cam.x, cam.y + camSpeed)
    ensures leftPressed && ButtonAt(screenH, mx, my) == Some(Left) ==> c == Vec(cam.x - camSpeed, cam.y)
    ensures leftPressed && ButtonAt(screenH, mx, my) == Some(Right) ==> c == Vec(cam.x + camSpeed, cam.y)
  {
    var b := ButtonLayout(screenH);
    if !leftPressed then cam
    else
      var y1 := if PointInRect(mx, my, b.up) then cam.y - camSpeed else cam.y;
      var y2 := if PointInRect(mx, my, b.down) then y1 + camSpeed else y1;
      var x1 := if PointInRect(mx, my, b.left) then cam.x - camSpeed else cam.x;
      var x2 := if PointInRect(mx, my, b.right) then x1 + camSpeed else x1;
      Vec(x2, y2)
  }

  /** How a button is drawn: idle, under the cursor, or under the cursor
      with the left mouse button held. */
  datatype Look = Idle | Hover | Pressed

  /** One button draw call: the direction it stands for, its rectangle and its look. */
  datatype ButtonDraw = ButtonDraw(dir: Dir, rect: Rect, look: Look)

  /** The look of a button with rectangle r. */
  function LookOf(r: Rect, mx: int, my: int, leftPressed: bool): (l: Look)
    ensures l == Pressed <==> PointInRect(mx, my, r) && leftPressed
    ensures l == Hover <==> PointInRect(mx, my, r) && !leftPressed
  {
    if PointInRect(mx, my, r) && leftPressed then Pressed
    else if PointInRect(mx, my, r) then Hover
    else Idle
  }

  /** The button draw calls of one frame, in the order up, down, left, right. */
  function ButtonDraws(screenH: int, mx: int, my: int, leftPressed: bool): (s: seq<ButtonDraw>)
    ensures |s| == 4
    ensures s[0].dir == Up && s[1].dir == Down && s[2].dir == Left && s[3].dir == Right
    ensures forall i :: 0 <= i < 4 ==> s[i].rect == ButtonLayout(screenH).RectOf(s[i].dir)
    ensures forall i :: 0 <= i < 4 ==> s[i].look == LookOf(s[i].rect, mx, my, leftPressed)
  {
    var b := ButtonLayout(screenH);
    [ButtonDraw(Up, b.up, LookOf(b.up, mx, my, leftPressed)),
     ButtonDraw(Down, b.down, LookOf(b.down, mx, my, leftPressed)),
     ButtonDraw(Left, b.left, LookOf(b.left, mx, my, leftPressed)),
     ButtonDraw(Right, b.right, LookOf(b.right, mx, my, leftPressed))]
  }

  /** Everything one frame draws: the tile grid, the player sprite's top-left
      corner, and the four buttons. */
  datatype Frame = Frame(tiles: seq<seq<TileDraw>>, player: Vec, buttons: seq<ButtonDraw>)

  class Game {
    var playerX: real
    var playerY: real
    var cameraX: real
    var cameraY: real
    /** Camera pan per tick while a button is held; set once by NewGame. */
    const camSpeed: real
    const screenW: int
    const screenH: int

    /** The player's world position. */
    function Player(): Vec
      reads this
    {
      Vec(playerX, playerY)
    }

    /** The camera's world position, shown at the screen centre. */
    function Camera(): Vec
      reads this
    {
      Vec(cameraX, cameraY)
    }

    /** A game for a w x h screen: player and camera at the origin. */
    constructor NewGame(w: int, h: int)
      ensures Player() == Vec(0.0, 0.0) && Camera() == Vec(0.0, 0.0)
      ensures camSpeed == InitialCamSpeed
      ensures screenW == w && screenH == h
    {
      playerX, playerY := 0.0, 0.0;
      cameraX, cameraY := 0.0, 0.0;
      camSpeed := InitialCamSpeed;
      screenW, screenH := w, h;
    }

    /** The logical screen size: the one given to NewGame, whatever the
        size of the window outside. */
    method Layout(outsideWidth: int, outsideHeight: int) returns (w: int, h: int)
      ensures w == screenW && h == screenH
    {
      w, h := screenW, screenH;
    }

    /** One tick of the update phase. The player moves first and its new
        position is stored; then Escape ends the run with the camera left
        where it was; otherwise the camera pans by the held button. */
    method Update(keys: Keys, escape: bool, mx: int, my: int, leftPressed: bool) returns (sig: Signal)
      modifies this
      ensures Player() == PlayerStep(old(Player()), keys)
      ensures sig == Termination <==> escape
      ensures escape ==> Camera() == old(Camera())
      ensures !escape ==> Camera() == CameraStep(old(Camera()), screenH, mx, my, leftPressed, camSpeed)
    {
      var x, y := playerX, playerY;
      if keys.up {
        y := y - Speed;
      }
      if keys.down {
        y := y + Speed;
      }
      if keys.left {
        x := x - Speed;
      }
      if keys.right {
        x := x + Speed;
      }
      playerX, playerY := x, y;

      if escape {
        return Termination;
      }

      var b := ButtonLayout(screenH);
      if leftPressed {
        if PointInRect(mx, my, b.up) {
          cameraY := cameraY - camSpeed;
        }
        if PointInRect(mx, my, b.down) {
          cameraY := cameraY + camSpeed;
        }
        if PointInRect(mx, my, b.left) {
          cameraX := cameraX - camSpeed;
        }
        if PointInRect(mx, my, b.right) {
          cameraX := cameraX + camSpeed;
        }
      }
      sig := Running;
    }

    /** The draw phase: reads the state and returns the frame's draw calls,
        the tiles column by column as the source's nested loops issue them. */
    method Draw(mx: int, my: int, leftPressed: bool) returns (f: Frame)
      ensures f.tiles == TileGrid(Camera(), screenW, screenH)
      ensures f.player == PlayerSprite(Player(), Camera(), screenW, screenH)
      ensures f.buttons == ButtonDraws(screenH, mx, my, leftPressed)
    {
      var cam := Camera();
      var vx := ViewTiles(screenW);
      var vy := ViewTiles(screenH);
      var tiles: seq<seq<TileDraw>> := [];
      var dx := -vx;
      while dx <= vx
        invariant vx >= 0 ==> -vx <= dx <= vx + 1
        invariant vx < 0 ==> dx == -vx
        invariant |tiles| == if vx >= 0 then dx + vx else 0
        invariant forall a :: 0 <= a < |tiles| ==>
          tiles[a] == seq(Span(vy), b => TileAt(cam, screenW, screenH, a - vx, b - vy))
      {
        var column: seq<TileDraw> := [];
        var dy := -vy;
        while dy <= vy
          invariant vy >= 0 ==> -vy <= dy <= vy + 1
          invariant vy < 0 ==> dy == -vy
          invariant |column| == if vy >= 0 then dy + vy else 0
          invariant forall b :: 0 <= b < |column| ==>
            column[b] == TileAt(cam, screenW, screenH, dx, b - vy)
        {
          var tx := TileIndex(cameraX, dx);
          var ty := TileIndex(cameraY, dy);
          var sx := TileScreen(tx, cameraX, Half(screenW));
          var sy := TileScreen(ty, cameraY, Half(screenH));
          column := column + [TileDraw(tx, ty, sx, sy, ShadeOf(tx, ty))];
          dy := dy + 1;
        }
        tiles := tiles + [column];
        dx := dx + 1;
      }
      f := Frame(tiles, PlayerSprite(Player(), cam, screenW, screenH), ButtonDraws(screenH, mx, my, leftPressed));
    }
  }

  /** The cursor over a button with the left mouse button held is exactly
      the case in which that button is drawn pressed, and then the update
      phase pans the camera in that button's direction; the two phases
      agree because both take the same layout. */
  lemma PressedButtonIsPannedDirection(cam: Vec, screenH: int, mx: int, my: int, leftPressed: bool, camSpeed: real, i: int)
    requires 0 <= i < 4
    requires camSpeed > 0.0
    ensures var bd := ButtonDraws(screenH, mx, my, leftPressed)[i];
      var c := CameraStep(cam, screenH, mx, my, leftPressed, camSpeed);
      bd.look == Pressed <==>
        match bd.dir
        case Up => c.y < cam.y
        case Down => c.y > cam.y
        case Left => c.x < cam.x
        case Right => c.x > cam.x
  {
    var b := ButtonLayout(screenH);
    var bd := ButtonDraws(screenH, mx, my, leftPressed)[i];
    assert bd.look == LookOf(b.RectOf(bd.dir), mx, my, leftPressed);
    match ButtonAt(screenH, mx, my)
    case None =>
    case Some(d) =>
  }

  /** A tick pans the camera along at most one axis and by exactly camSpeed,
      whatever the cursor position and mouse state. */
  lemma CameraMovesAtMostOneStep(cam: Vec, screenH: int, mx: int, my: int, leftPressed: bool, camSpeed: real)
    ensures var c := CameraStep(cam, screenH, mx, my, leftPressed, camSpeed);
      c == cam ||
      (c.x == cam.x && (c.y == cam.y - camSpeed || c.y == cam.y + camSpeed)) ||
      (c.y == cam.y && (c.x == cam.x - camSpeed || c.x == cam.x + camSpeed))
  {
    match ButtonAt(screenH, mx, my)
    case None =>
    case Some(d) =>
  }

  /** One tick with only Down held, from a fresh 800 x 600 game: the player
      moves down by the speed, the camera stays, and the player is drawn
      that far below the screen centre. */
  method DownScenario()
  {
    var g := new Game.NewGame(800, 600);
    var sig := g.Update(Keys(false, true, false, false), false, 0, 0, false);
    assert sig == Running;
    assert g.Player() == Vec(0.0, 200.0 / 60.0);
    assert g.Camera() == Vec(0.0, 0.0);
    var f := g.Draw(0, 0, false);
    assert Project(g.Player(), g.Camera(), 800, 600) == Vec(400.0, 300.0 + 200.0 / 60.0);
    assert f.player == Vec(386.0, 286.0 + 200.0 / 60.0);
  }

  /** One tick with the cursor on the centre of the up button and the left
      button held: the camera moves up by 8 and nothing else changes. */
  method UpButtonScenario()
  {
    var g := new Game.NewGame(800, 600);
    ButtonLayoutCoordinates(600);
    var sig := g.Update(Keys(false, false, false, false), false, 92, 452, true);
    assert sig == Running;
    assert g.Player() == Vec(0.0, 0.0);
    assert g.Camera() == Vec(0.0, -8.0);
  }

  /** Escape together with a held up button: the player still moves, the
      camera does not, and the run loop is told to stop. */
  method EscapeScenario()
  {
    var g := new Game.NewGame(800, 600);
    var sig := g.Update(Keys(true, false, false, true), true, 92, 452, true);
    assert sig == Termination;
    assert g.Player() == Vec(Speed, -Speed);
    assert g.Camera() == Vec(0.0, 0.0);
  }
}
