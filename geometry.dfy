/** Integer widget geometry as the plugin sees it: rectangles moved and resized
    in place, and C++ `int` halving. */
module Geometry {

  /** Width of the bookmark strip on the container's right edge
      (BookmarksBar::kBookmarkBarWidth). */
  const BookmarkBarWidth: int := 200

  /** A widget's position and size: x(), y(), width(), height(). */
  datatype Rect = Rect(x: int, y: int, width: int, height: int)

  /** `move(x, y)`: sets the position and keeps the size. */
  function Move(r: Rect, x: int, y: int): Rect
  {
    r.(x := x, y := y)
  }

  /** `resize(width, height)`: sets the size and keeps the position. */
  function Resize(r: Rect, width: int, height: int): Rect
  {
    r.(width := width, height := height)
  }

  /** C++ `a / 2` on `int`: the quotient is truncated toward zero, so the
      remainder `a - 2 * q` carries the sign of `a` (Dafny's own `/` would
      round -3 / 2 down to -2 instead of -1). */
  function Half(a: int): (q: int)
    ensures 0 <= a ==> 0 <= a - 2 * q <= 1
    ensures a < 0 ==> -1 <= a - 2 * q <= 0
  {
    if 0 <= a then a / 2 else -((-a) / 2)
  }
}
