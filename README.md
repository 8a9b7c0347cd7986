# Infinite-map demo: update step and viewport arithmetic

This project models the core of a small Ebitengine demo (`main.go`). In the demo a player square moves over an infinite checkerboard of 48-pixel tiles. The arrow keys or WASD move the player. Holding the left mouse button on one of four on-screen buttons in the lower-left corner pans the camera. Escape ends the run.

The model has three modules:

- `Geometry` (`geometry.dfy`): the integer screen rectangle `imageRectT` and its constructor `imageRect`. It also has the inclusive hit test `pointInRect` and the button cross, laid out from `btnSize = 48`, `spacing = 8` and `margin = 12`, anchored at `screenH - margin`.
- `Viewport` (`viewport.dfy`): the arithmetic of the draw phase. This covers Go's truncating integer division and remainder, the visible tile range `ceil(W/48) + 4` and the tile under the camera `floor(camera/48) + offset`. It also covers the screen position of tiles and of the player (`world - camera + screen/2`) and the checkerboard shade, which follows the parity of `tileX + tileY`.
- `Demo` (`game.dfy`): the `Game` object.
  - `NewGame` puts the player and the camera at the origin, with a camera speed of 8.
  - `Layout` returns the stored screen size.
  - `Update` is one tick of the update phase, written as a method that changes the object's fields step by step, like the source. Its ensures tie the new state to the specification functions `PlayerStep` and `CameraStep`.
  - `Draw` is a read-only method. It returns the frame's draw calls: the tile grid, built by the same nested `dx`/`dy` loops as the source, then the player sprite and the four buttons. It has no `modifies` clause, so the draw phase cannot change the game state.

Positions, the camera and speeds are `real`. The player speed `200.0 / 60.0` is therefore exactly 10/3, and float64 rounding is abstracted away. The screen size and the cursor are unbounded `int`s.

The source writes the button-layout formula twice, once in `Update` (main.go:110-128) and once in `Draw` (main.go:208-222). The two copies are identical, so the model writes the formula once (`ButtonLayout`) and both phases call it. That makes the layout the same in both phases by construction. `PressedButtonIsPannedDirection` states what this gives the user: a button is drawn pressed exactly when the update phase pans the camera in that button's direction.

The camera speed and the screen size are `const` fields, because the source writes them only in `NewGame`.

## Model

| member | source | states |
|---|---|---|
| `Geometry.ImageRectCovers` | main.go:250-259 | the rectangle built from `(cx, cy, w, h)` holds exactly the pixels from its top-left corner `(cx, cy)` to `(cx+w, cy+h)`, both included; nothing is validated |
| `Geometry.PointInRectInclusive` | main.go:257-259 | the hit test is inclusive on all four borders: both corners `(x, y)` and `(x+w, y+h)` are inside, and the pixels one step left, right, above or below the borders are outside |
| `Geometry.ButtonLayout` | main.go:110-128 | each of the four buttons is a 48 x 48 square |
| `Geometry.ButtonLayoutCoordinates` | main.go:111-128 | up is at (68, H-172), left at (12, H-116), right at (124, H-116) and down at (68, H-60); each is 48 x 48 |
| `Geometry.ButtonsDisjoint` | main.go:124-128 | no pixel is in two different buttons, even with inclusive borders |
| `Geometry.ButtonAt` | main.go:130-143 | names the button that holds the cursor, if any; a button that holds the cursor is the only one that does |
| `Viewport.GoQuo` | main.go:162-163 | Go's integer `/` for a positive divisor, truncating toward zero for negative dividends too (the only use divides by 2) |
| `Viewport.GoRem` | main.go:185 | Go's integer `%`: `a == b*(a/b) + r`, and `r` has the sign of `a` |
| `Viewport.Half` | main.go:161-163 | `halfW = screenW / 2` in Go ints: floor of half for non-negative sizes, truncated toward zero for negative ones |
| `Viewport.Ceil` | main.go:166-167 | `math.Ceil`: the least integer not below its argument |
| `Viewport.ViewTiles` | main.go:165-167 | the half-range is 4 more than the least number of 48-pixel tiles that span the screen extent |
| `Viewport.TileIndex` | main.go:172-174 | `floor(camera/48) + offset`: after removing the offset, the tile index is the tile whose span `[48t, 48t+48)` holds the camera coordinate |
| `Viewport.CameraTileCoversCentre` | main.go:176-178 | the tile that holds the camera has its left (top) edge within one tile left of (above) the screen centre, so it covers the centre |
| `Viewport.TileAt` | main.go:172-189 | the tile drawn at offset `(dx, dy)` is `floor(camera/48) + (dx, dy)`, and its shade depends only on that index |
| `Viewport.PlayerSprite` | main.go:195-202 | the 28-pixel player sprite is centred on the player's projected position |
| `Viewport.ShadeOf` | main.go:184-189 | a tile is light (grey 230) exactly when `tileX + tileY` is even and dark (210) otherwise; testing the Go remainder against 0 is correct for negative sums too |
| `Viewport.Checkerboard` | main.go:184-189 | neighbouring tiles in a row or a column always have different shades |
| `Viewport.CameraAtCentre` | main.go:199-201 | the camera's world point is drawn at the screen centre `(W/2, H/2)` |
| `Viewport.ProjectTranslationInvariant` | main.go:199-201 | moving a world point and the camera by the same delta leaves its screen position unchanged |
| `Viewport.TileGridExact` | main.go:165-174 | for every camera position, a tile is drawn exactly when it is within `ceil(W/48)+4` columns and `ceil(H/48)+4` rows of the camera's tile |
| `Viewport.ShadeIndependentOfCamera` | main.go:172-189 | a tile drawn in two frames with different cameras has the same shade in both |
| `Viewport.GridCoversScreen` | main.go:161-178 | for non-negative screen sizes, the drawn tiles reach beyond all four screen edges, whatever the camera position |
| `Demo.PlayerStep` | main.go:83-97 | each pressed group moves exactly one axis by `200/60`: Up decreases Y, Down increases Y, Left decreases X, Right increases X; opposite groups cancel; diagonals are not normalised; with no key pressed the position is unchanged |
| `Demo.CameraStep` | main.go:106-143 | with the left button released, or the cursor on no button, the camera stays; on a button with the left button held, the camera moves exactly `camSpeed` in that button's direction only |
| `Demo.CameraMovesAtMostOneStep` | main.go:130-143 | one tick moves the camera along at most one axis, by exactly `camSpeed` |
| `Demo.LookOf` | main.go:228-236 | a button is drawn pressed exactly when the cursor is on it and the left button is held, and hovered exactly when the cursor is on it and the left button is released |
| `Demo.ButtonDraws` | main.go:219-247 | the frame draws four buttons, in the order up, down, left, right, each at its rectangle in the shared layout and with the look (`LookOf`) that the cursor and the left button give that rectangle |
| `Demo.PressedButtonIsPannedDirection` | main.go:224-236 | if the camera speed is positive, a button is drawn pressed exactly when the update phase pans the camera in that button's direction |
| `Demo.Game.NewGame` | main.go:40-65 | the player and the camera start at (0, 0), the camera speed is 8 and the screen size is the given one |
| `Demo.Game.Layout` | main.go:266-269 | returns the stored screen size whatever the outside size |
| `Demo.Game.Update` | main.go:67-146 | the player moves as `PlayerStep` gives, and that position is stored even when Escape is pressed. Escape returns the termination signal and leaves the camera unchanged. Otherwise the camera moves as `CameraStep` gives and the signal is "running". Keyboard input never reaches the camera, and the camera speed and screen size never change |
| `Demo.Game.Draw` | main.go:148-248 | changes no state; draws exactly the tile grid around the camera's tile in the source's loop order, with each tile at `tile*48 - camera + half`, then the player sprite at `player - camera + half`, then the four buttons |

## Left out

- Float64 arithmetic: positions, the camera and the speeds are exact reals. The model does not claim bit-exact float results.
- `PlayerStep`: pressing Up and Down together cancels exactly over the reals. In float64, `y - 200/60 + 200/60` may differ from `y` by rounding.
- `ViewTiles`: the source divides the float64 conversion of the screen size by 48 before `math.Ceil`. The model takes the exact ceiling, which agrees with the float64 computation for every screen size of magnitude at most 2^53.
- Integer width: Go `int` is 64 bits on 64-bit platforms. The model's screen sizes and cursor coordinates are unbounded, so overflow of `screenH - 172` and similar expressions is not modelled.
- The entity-component registry: the model does not include the player entity, the `Position` component or the fallback that re-creates a missing component at the origin (main.go:69-81). The player position is two plain fields that start at the origin.
- Input polling: the key, cursor and mouse-button queries become the parameters of `Update` and `Draw`. Each direction group, such as Up or W, arrives already combined with OR.
- Rendering: image creation, `Fill`, `GeoM` scaling and translation, `Clear` and `DrawImage` are not modelled. `Draw` returns the positions, shades and button looks that the source passes to them. It does not return the RGBA colours of the three button looks.
- Text: the debug overlay with `formatFloat`, and the arrow glyphs drawn 6 pixels inside each button, are text output and are not modelled.
- `main`, the window setup and `RunGame` are run-loop plumbing and are not modelled. So is the host's check that a termination signal is not an error.
