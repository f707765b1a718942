/**
 * The rectangle every game object occupies (sprite.py).  A sprite is a value:
 * each object of the game holds one in its `box` field, and the source's
 * property setters (`obj.bottom = v`, ...) become `box := box.WithBottom(v)`.
 */
module Sprites {

  /** Top-left corner (x, y) and size, in whole pixels; y grows downwards. */
  datatype Sprite = Sprite(x: int, y: int, width: int, height: int)
  {
    function Left(): int { x }
    function Top(): int { y }
    function Right(): int { x + width }
    function Bottom(): int { y + height }

    /** The horizontal centre; the source halves the width as a float, which
        is exact for the even widths every sprite of the game has. */
    function CenterX(): int { x + width / 2 }

    /** The `left` setter: assigns x. */
    function WithLeft(left: int): (s: Sprite)
      ensures s.Left() == left
      ensures s.y == y && s.width == width && s.height == height
    {
      this.(x := left)
    }

    /** The `top` setter: assigns y. */
    function WithTop(top: int): (s: Sprite)
      ensures s.Top() == top
      ensures s.x == x && s.width == width && s.height == height
    {
      this.(y := top)
    }

    /** The `right` setter: moves the sprite so that its right edge is at
        `right`, keeping its width. */
    function WithRight(right: int): (s: Sprite)
      ensures s.Right() == right
      ensures s.y == y && s.width == width && s.height == height
    {
      this.(x := right - width)
    }

    /** The `bottom` setter: moves the sprite so that its bottom edge is at
        `bottom`, keeping its height. */
    function WithBottom(bottom: int): (s: Sprite)
      ensures s.Bottom() == bottom
      ensures s.x == x && s.width == width && s.height == height
    {
      this.(y := bottom - height)
    }

    /** The `center_x` setter. */
    function WithCenterX(centerX: int): (s: Sprite)
      ensures s.CenterX() == centerX
      ensures s.y == y && s.width == width && s.height == height
    {
      this.(x := centerX - width / 2)
    }

    /** The overlap test of `intersects`: all four comparisons are strict. */
    predicate Intersects(other: Sprite)
    {
      Left() < other.Right() && Right() > other.Left() &&
      Top() < other.Bottom() && Bottom() > other.Top()
    }

    /** The pixel (px, py) lies inside the rectangle. */
    predicate Covers(px: int, py: int)
    {
      Left() <= px < Right() && Top() <= py < Bottom()
    }

    /** Both dimensions are positive, as for every colliding object of the game. */
    predicate Solid()
    {
      width > 0 && height > 0
    }
  }

  /** `a.intersects(b) == b.intersects(a)`. */
  lemma IntersectsSymmetric(a: Sprite, b: Sprite)
    ensures a.Intersects(b) <==> b.Intersects(a)
  {
  }

  /** The strict comparisons mean exactly this: two solid sprites intersect
      if and only if some pixel lies inside both. */
  lemma IntersectsIffSharedPixel(a: Sprite, b: Sprite)
    requires a.Solid() && b.Solid()
    ensures a.Intersects(b) <==> exists px, py :: a.Covers(px, py) && b.Covers(px, py)
  {
    if a.Intersects(b) {
      var px := if a.x < b.x then b.x else a.x;
      var py := if a.y < b.y then b.y else a.y;
      assert a.Covers(px, py) && b.Covers(px, py);
    }
  }

  /** Sprites that only share an edge do not intersect, e.g. x in 0..16 and
      x in 16..32. */
  lemma SharedEdgeIsNoOverlap(a: Sprite, b: Sprite)
    requires a.Right() == b.Left() || a.Bottom() == b.Top()
    ensures !a.Intersects(b) && !b.Intersects(a)
  {
  }
}
