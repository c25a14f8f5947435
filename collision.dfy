/** Axis-aligned rectangle tests. A rectangle is a top-left position and a size; every edge is closed. */
module Collision {
  import opened Vectors

  /** `point_in_rect`: the point is rejected by the first edge it lies beyond (left, top, bottom, right). */
  function PointInRect(rectSize: Vec2, pos: Vec2, point: Vec2): (r: bool)
    ensures r <==> pos.x <= point.x <= pos.x + rectSize.x && pos.y <= point.y <= pos.y + rectSize.y
  {
    if point.x < pos.x then false
    else if point.y < pos.y then false
    else if point.y > pos.y + rectSize.y then false
    else if point.x > pos.x + rectSize.x then false
    else true
  }

  /** `rect_rect`: the closed x-extents overlap and the closed y-extents overlap. */
  predicate RectRect(r1Size: Vec2, r1Pos: Vec2, r2Size: Vec2, r2Pos: Vec2) {
    r1Pos.x + r1Size.x >= r2Pos.x && r1Pos.x <= r2Pos.x + r2Size.x &&
    r1Pos.y + r1Size.y >= r2Pos.y && r1Pos.y <= r2Pos.y + r2Size.y
  }

  predicate NonNegative(size: Vec2) {
    size.x >= 0.0 && size.y >= 0.0
  }

  function Max(a: real, b: real): real {
    if a >= b then a else b
  }

  /**
   * Two rectangles with non-negative sizes collide exactly when some point
   * lies in both of them, so rectangles that only share an edge or a corner
   * collide.
   */
  lemma RectRectIffCommonPoint(s1: Vec2, p1: Vec2, s2: Vec2, p2: Vec2)
    requires NonNegative(s1) && NonNegative(s2)
    ensures RectRect(s1, p1, s2, p2) <==> exists q :: PointInRect(s1, p1, q) && PointInRect(s2, p2, q)
  {
    if RectRect(s1, p1, s2, p2) {
      var q := Vec2(Max(p1.x, p2.x), Max(p1.y, p2.y));
      assert PointInRect(s1, p1, q) && PointInRect(s2, p2, q);
    }
  }

  /** Collision does not depend on which rectangle is named first. */
  lemma RectRectSymmetric(s1: Vec2, p1: Vec2, s2: Vec2, p2: Vec2)
    ensures RectRect(s1, p1, s2, p2) == RectRect(s2, p2, s1, p1)
  {
  }

  /** A point lies in a rectangle exactly when a zero-size rectangle at that point collides with it. */
  lemma PointIsZeroRect(size: Vec2, pos: Vec2, point: Vec2)
    ensures PointInRect(size, pos, point) == RectRect(Vec2(0.0, 0.0), point, size, pos)
  {
  }

  /** Every rectangle of non-negative size collides with itself. */
  lemma RectRectReflexive(size: Vec2, pos: Vec2)
    requires NonNegative(size)
    ensures RectRect(size, pos, size, pos)
  {
  }

  /**
   * Collision is monotone in the second rectangle: anything that touches a
   * rectangle contained in a larger one touches the larger one.
   */
  lemma RectRectMonotone(s: Vec2, p: Vec2, inner: Vec2, innerPos: Vec2, outer: Vec2, outerPos: Vec2)
    requires outerPos.x <= innerPos.x && innerPos.x + inner.x <= outerPos.x + outer.x
    requires outerPos.y <= innerPos.y && innerPos.y + inner.y <= outerPos.y + outer.y
    requires NonNegative(inner)
    ensures RectRect(s, p, inner, innerPos) ==> RectRect(s, p, outer, outerPos)
  {
  }
}
