/** Integer rectangles with the edge setters, the in-place move and the
    overlap test that the game uses on pygame's `Rect`. pygame itself is not
    part of this model: its documented behaviour is restated here. */
module Geometry {

  /** A rectangle given by its top-left corner (x, y), width w and height h.
      Every rectangle of the game (ball 25 by 25, bats 10 by 100) has a
      non-negative size. */
  datatype Rect = Rect(x: int, y: int, w: nat, h: nat)

  function Left(r: Rect): int { r.x }
  function Right(r: Rect): int { r.x + r.w }
  function Top(r: Rect): int { r.y }
  function Bottom(r: Rect): int { r.y + r.h }

  /** Assigning `rect.left`: the rectangle moves horizontally, keeping its size. */
  function SetLeft(r: Rect, v: int): (r': Rect)
    ensures Left(r') == v
    ensures Top(r') == Top(r) && r'.w == r.w && r'.h == r.h
  {
    r.(x := v)
  }

  /** Assigning `rect.right`: the rectangle moves so that its right edge is v. */
  function SetRight(r: Rect, v: int): (r': Rect)
    ensures Right(r') == v
    ensures Top(r') == Top(r) && r'.w == r.w && r'.h == r.h
  {
    r.(x := v - r.w)
  }

  /** Assigning `rect.top`. */
  function SetTop(r: Rect, v: int): (r': Rect)
    ensures Top(r') == v
    ensures Left(r') == Left(r) && r'.w == r.w && r'.h == r.h
  {
    r.(y := v)
  }

  /** Assigning `rect.bottom`: the rectangle moves so that its bottom edge is v. */
  function SetBottom(r: Rect, v: int): (r': Rect)
    ensures Bottom(r') == v
    ensures Left(r') == Left(r) && r'.w == r.w && r'.h == r.h
  {
    r.(y := v - r.h)
  }

  /** `rect.move_ip((dx, dy))`: a translation. */
  function Moved(r: Rect, dx: int, dy: int): (r': Rect)
    ensures Left(r') == Left(r) + dx && Right(r') == Right(r) + dx
    ensures Top(r') == Top(r) + dy && Bottom(r') == Bottom(r) + dy
    ensures r'.w == r.w && r'.h == r.h
  {
    Rect(r.x + dx, r.y + dy, r.w, r.h)
  }

  /** The integer points covered by a rectangle: its right and bottom edges
      are outside it. */
  predicate Contains(r: Rect, px: int, py: int)
  {
    r.x <= px < r.x + r.w && r.y <= py < r.y + r.h
  }

  /** pygame's `colliderect`: an empty rectangle collides with nothing, and
      rectangles that only touch along an edge do not collide. */
  predicate Collide(a: Rect, b: Rect)
  {
    && a.w > 0 && a.h > 0 && b.w > 0 && b.h > 0
    && Left(a) < Right(b) && Left(b) < Right(a)
    && Top(a) < Bottom(b) && Top(b) < Bottom(a)
  }

  /** The edge comparisons are exactly "some point lies in both rectangles". */
  lemma CollideIffSharedPoint(a: Rect, b: Rect)
    ensures Collide(a, b) <==> exists px, py :: Contains(a, px, py) && Contains(b, px, py)
  {
    if Collide(a, b) {
      var px := if a.x < b.x then b.x else a.x;
      var py := if a.y < b.y then b.y else a.y;
      assert Contains(a, px, py) && Contains(b, px, py);
    }
  }
}
