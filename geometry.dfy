/** Screen-space UI geometry of the demo: the integer rectangle used for the
    on-screen camera buttons, the inclusive hit test, and the layout of the
    four buttons in the lower-left corner of the screen. */
module Geometry {

  /** An axis-aligned screen rectangle: top-left corner (x, y), width w and
      height h, all in whole pixels. No validation is done on w and h. */
  datatype Rect = Rect(x: int, y: int, w: int, h: int)

  /** Builds the rectangle anchored at top-left (cx, cy). */
  function ImageRect(cx: int, cy: int, w: int, h: int): Rect
  {
    Rect(cx, cy, w, h)
  }

  /** True when the pixel (px, py) lies in r, borders included on all four sides. */
  predicate PointInRect(px: int, py: int, r: Rect)
  {
    px >= r.x && px <= r.x + r.w && py >= r.y && py <= r.y + r.h
  }

  /** Side length of a camera button, in pixels. */
  const BtnSize: int := 48
  /** Gap between neighbouring buttons. */
  const Spacing: int := 8
  /** Distance of the button cross from the left and bottom screen edges. */
  const Margin: int := 12

  /** The four camera-pan directions, one per on-screen button. */
  datatype Dir = Up | Down | Left | Right

  /** The four button rectangles of one frame. */
  datatype Buttons = Buttons(up: Rect, down: Rect, left: Rect, right: Rect)
  {
    /** The rectangle of the button for direction d. */
    function RectOf(d: Dir): Rect
    {
      match d
      case Up => up
      case Down => down
      case Left => left
      case Right => right
    }
  }

  /** The button cross for a screen of height screenH: the down button sits
      on the bottom margin, the left/right pair one row above it and the up
      button one row above that, the up and down buttons in the middle
      column. Both the update phase and the draw phase use this one layout. */
  function ButtonLayout(screenH: int): (b: Buttons)
    ensures b.up.w == b.up.h == b.down.w == b.down.h == BtnSize
    ensures b.left.w == b.left.h == b.right.w == b.right.h == BtnSize
  {
    var baseX := Margin;
    var baseY := screenH - Margin;
    var centerX := baseX + BtnSize + Spacing;
    var downY := baseY - BtnSize;
    var midY := baseY - BtnSize * 2 - Spacing;
    var upY := baseY - BtnSize * 3 - Spacing * 2;
    Buttons(
      ImageRect(centerX, upY, BtnSize, BtnSize),
      ImageRect(centerX, downY, BtnSize, BtnSize),
      ImageRect(baseX, midY, BtnSize, BtnSize),
      ImageRect(baseX + (BtnSize + Spacing) * 2, midY, BtnSize, BtnSize))
  }

  /** Both corners of a rectangle are inside it, and the pixels just beyond
      its left and bottom borders are not: the hit test is inclusive. */
  lemma PointInRectInclusive(r: Rect)
    requires r.w >= 0 && r.h >= 0
    ensures PointInRect(r.x, r.y, r)
    ensures PointInRect(r.x + r.w, r.y + r.h, r)
    ensures PointInRect(r.x + r.w, r.y, r) && PointInRect(r.x, r.y + r.h, r)
    ensures !PointInRect(r.x - 1, r.y, r)
    ensures !PointInRect(r.x + r.w + 1, r.y, r)
    ensures !PointInRect(r.x, r.y - 1, r)
    ensures !PointInRect(r.x, r.y + r.h + 1, r)
  {
  }

  /** The rectangle built from (cx, cy, w, h) holds exactly the pixels from
      (cx, cy) to (cx + w, cy + h), both corners included. */
  lemma ImageRectCovers(cx: int, cy: int, w: int, h: int, px: int, py: int)
    ensures PointInRect(px, py, ImageRect(cx, cy, w, h)) <==> cx <= px <= cx + w && cy <= py <= cy + h
  {
  }

  /** The concrete pixel coordinates of the cross, relative to the screen height. */
  lemma ButtonLayoutCoordinates(screenH: int)
    ensures ButtonLayout(screenH).up == Rect(68, screenH - 172, 48, 48)
    ensures ButtonLayout(screenH).left == Rect(12, screenH - 116, 48, 48)
    ensures ButtonLayout(screenH).right == Rect(124, screenH - 116, 48, 48)
    ensures ButtonLayout(screenH).down == Rect(68, screenH - 60, 48, 48)
  {
  }

  /** Even with inclusive borders no pixel lies in two buttons of the cross. */
  lemma ButtonsDisjoint(screenH: int, px: int, py: int, d: Dir, e: Dir)
    requires d != e
    ensures !(PointInRect(px, py, ButtonLayout(screenH).RectOf(d)) &&
              PointInRect(px, py, ButtonLayout(screenH).RectOf(e)))
  {
  }

  /** The button (if any) under the pixel (px, py). */
  function ButtonAt(screenH: int, px: int, py: int): (o: Option<Dir>)
    ensures o.Some? ==> PointInRect(px, py, ButtonLayout(screenH).RectOf(o.value))
    ensures o.None? ==> forall d: Dir :: !PointInRect(px, py, ButtonLayout(screenH).RectOf(d))
    ensures forall d: Dir :: PointInRect(px, py, ButtonLayout(screenH).RectOf(d)) ==> o == Some(d)
  {
    var b := ButtonLayout(screenH);
    if PointInRect(px, py, b.up) then Some(Up)
    else if PointInRect(px, py, b.down) then Some(Down)
    else if PointInRect(px, py, b.left) then Some(Left)
    else if PointInRect(px, py, b.right) then Some(Right)
    else None
  }

  datatype Option<T> = None | Some(value: T)
}
