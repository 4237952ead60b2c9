/** Sprite bounds on the 900 x 700 playfield: integer rectangles, centring,
    the overlap test used by every collision query, and clamping into the screen. */
module Geometry {

  const Width: int := 900
  const Height: int := 700

  /** An axis-aligned rectangle with integer corner (x, y) and size (w, h),
      y growing downwards, as the engine keeps a sprite's bounds. */
  datatype Rect = Rect(x: int, y: int, w: nat, h: nat) {
    function Right(): int { x + w }
    function Bottom(): int { y + h }
    function CenterX(): int { x + w / 2 }
    function CenterY(): int { y + h / 2 }

    /** The whole rectangle lies in [0, width] x [0, height]. */
    predicate Inside(width: int, height: int) {
      0 <= x && x + w <= width && 0 <= y && y + h <= height
    }
  }

  /** A rectangle of the given size placed so that its centre is (cx, cy). */
  function CenteredAt(cx: int, cy: int, w: nat, h: nat): (r: Rect)
    ensures r.CenterX() == cx && r.CenterY() == cy
    ensures r.w == w && r.h == h
  {
    Rect(cx - w / 2, cy - h / 2, w, h)
  }

  /** Two rectangles collide when both are non-empty and their interiors intersect. */
  predicate Overlaps(a: Rect, b: Rect) {
    a.w > 0 && a.h > 0 && b.w > 0 && b.h > 0 &&
    a.x < b.Right() && b.x < a.Right() && a.y < b.Bottom() && b.y < a.Bottom()
  }

  /** The pixel (px, py) lies in `r`. */
  predicate Covers(r: Rect, px: int, py: int) {
    r.x <= px < r.Right() && r.y <= py < r.Bottom()
  }

  /** The collision test is the same as asking for a pixel that lies in both
      rectangles, so it is symmetric and an empty rectangle never collides. */
  lemma OverlapsIffSharedPixel(a: Rect, b: Rect)
    ensures Overlaps(a, b) <==> exists px, py :: Covers(a, px, py) && Covers(b, px, py)
  {
    if Overlaps(a, b) {
      var px := if a.x >= b.x then a.x else b.x;
      var py := if a.y >= b.y then a.y else b.y;
      assert Covers(a, px, py) && Covers(b, px, py);
    }
  }

  function Dist(a: int, b: int): nat {
    if a <= b then b - a else a - b
  }

  /** One axis of clamping a span of length `size` starting at `pos` into [0, span]:
      a span too large for the range is centred on it; otherwise the result is the
      in-range position nearest to `pos`. */
  function ClampAxis(pos: int, size: nat, span: nat): (r: int)
    ensures size <= span ==> 0 <= r && r + size <= span
    ensures size <= span ==> forall q :: 0 <= q <= span - size ==> Dist(r, pos) <= Dist(q, pos)
    ensures 0 <= pos && pos + size <= span && size < span ==> r == pos
  {
    if size >= span then span / 2 - size / 2
    else if pos < 0 then 0
    else if pos + size > span then span - size
    else pos
  }

  /** Moves `r` the least distance on each axis that puts it inside the playfield. */
  function Clamp(r: Rect): (c: Rect)
    ensures c.w == r.w && c.h == r.h
    ensures r.w <= Width && r.h <= Height ==> c.Inside(Width, Height)
    ensures r.w < Width && r.h < Height && r.Inside(Width, Height) ==> c == r
  {
    Rect(ClampAxis(r.x, r.w, Width), ClampAxis(r.y, r.h, Height), r.w, r.h)
  }
}
