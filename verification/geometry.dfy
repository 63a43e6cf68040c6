/**
  The two collision tests of the runner mini-game: axis-aligned box overlap
  and box-versus-circle overlap. Coordinates are reals (no floating point).
 */
module Geometry {

  /** A rectangle given by its top-left corner, width and height. */
  datatype Box = Box(x: real, y: real, w: real, h: real)

  function Min(a: real, b: real): real { if a <= b then a else b }

  function Max(a: real, b: real): real { if a >= b then a else b }

  /** Box overlap with strict inequalities on both axes. */
  predicate Aabb(a: Box, b: Box)
  {
    a.x < b.x + b.w && a.x + a.w > b.x && a.y < b.y + b.h && a.y + a.h > b.y
  }

  /** (px, py) lies strictly inside b. */
  predicate InsideOpen(b: Box, px: real, py: real)
  {
    b.x < px < b.x + b.w && b.y < py < b.y + b.h
  }

  /** (px, py) lies in the closed rectangle b. */
  predicate InsideClosed(b: Box, px: real, py: real)
  {
    b.x <= px <= b.x + b.w && b.y <= py <= b.y + b.h
  }

  /** Clamping v to [lo, hi]: for lo <= hi, the point of [lo, hi] nearest to v. */
  function Clamp(v: real, lo: real, hi: real): (c: real)
    ensures lo <= hi ==> lo <= c <= hi
    ensures lo <= v <= hi ==> c == v
  {
    Max(lo, Min(v, hi))
  }

  /** The offset (dx, dy) is strictly shorter than r: dx * dx + dy * dy < r * r. */
  predicate WithinRadius(dx: real, dy: real, r: real)
  {
    dx * dx + dy * dy < r * r
  }

  /** Circle (cx, cy, r) against rectangle p: the offset from the clamped point
      of the rectangle to the centre is shorter than r. */
  predicate RectCircle(p: Box, cx: real, cy: real, r: real)
  {
    WithinRadius(cx - Clamp(cx, p.x, p.x + p.w), cy - Clamp(cy, p.y, p.y + p.h), r)
  }

  lemma AabbSymmetric(a: Box, b: Box)
    ensures Aabb(a, b) <==> Aabb(b, a)
  {
  }

  /** Boxes that only share an edge do not collide. */
  lemma AabbEdgeContactIsNoHit(a: Box, b: Box)
    requires a.x + a.w == b.x || b.x + b.w == a.x || a.y + a.h == b.y || b.y + b.h == a.y
    ensures !Aabb(a, b)
  {
  }

  /** For boxes of positive size, the strict test holds exactly when the two
      boxes have an interior point in common. */
  lemma AabbIffSharedInterior(a: Box, b: Box)
    requires a.w > 0.0 && a.h > 0.0 && b.w > 0.0 && b.h > 0.0
    ensures Aabb(a, b) <==> exists px, py :: InsideOpen(a, px, py) && InsideOpen(b, px, py)
  {
    if Aabb(a, b) {
      var px := (Max(a.x, b.x) + Min(a.x + a.w, b.x + b.w)) / 2.0;
      var py := (Max(a.y, b.y) + Min(a.y + a.h, b.y + b.h)) / 2.0;
      assert InsideOpen(a, px, py) && InsideOpen(b, px, py);
    }
  }

  lemma MulLeft(x: real, a: real, b: real)
    requires x >= 0.0 && a <= b
    ensures x * a <= x * b
  {
    var e := b - a;
    assert x * e >= 0.0;
    assert x * b == x * a + x * e;
  }

  lemma SquareMonotonic(x: real, y: real)
    requires 0.0 <= x <= y
    ensures x * x <= y * y
  {
    MulLeft(x, x, y);
    MulLeft(y, x, y);
    assert x * y == y * x;
  }

  lemma SquareNonNegative(x: real)
    ensures x * x >= 0.0
  {
    if x < 0.0 {
      assert x * x == (-x) * (-x);
      MulLeft(-x, 0.0, -x);
    } else {
      MulLeft(x, 0.0, x);
    }
  }

  /** On one axis, the clamped coordinate is at least as close to v as any point of [lo, hi]. */
  lemma ClampIsNearest(v: real, lo: real, hi: real, q: real)
    requires lo <= q <= hi
    ensures (v - Clamp(v, lo, hi)) * (v - Clamp(v, lo, hi)) <= (v - q) * (v - q)
  {
    var c := Clamp(v, lo, hi);
    if v < lo {
      assert c == lo;
      SquareMonotonic(lo - v, q - v);
      assert (v - lo) * (v - lo) == (lo - v) * (lo - v);
      assert (v - q) * (v - q) == (q - v) * (q - v);
    } else if v > hi {
      assert c == hi;
      SquareMonotonic(v - hi, v - q);
    } else {
      assert c == v;
      SquareNonNegative(v - q);
    }
  }

  /** Shrinking both components of an offset keeps it within the radius. */
  lemma WithinRadiusShrinks(dx: real, dy: real, ex: real, ey: real, r: real)
    requires WithinRadius(ex, ey, r)
    requires dx * dx <= ex * ex && dy * dy <= ey * ey
    ensures WithinRadius(dx, dy, r)
  {
  }

  /** The clamped point is a point of the rectangle near enough to the centre. */
  lemma RectCircleGivesNearPoint(p: Box, cx: real, cy: real, r: real)
    requires p.w >= 0.0 && p.h >= 0.0
    requires RectCircle(p, cx, cy, r)
    ensures exists qx, qy :: InsideClosed(p, qx, qy) && WithinRadius(cx - qx, cy - qy, r)
  {
    var rx := Clamp(cx, p.x, p.x + p.w);
    var ry := Clamp(cy, p.y, p.y + p.h);
    assert InsideClosed(p, rx, ry) && WithinRadius(cx - rx, cy - ry, r);
  }

  /** Any point of the rectangle near enough to the centre makes `RectCircle` hold. */
  lemma NearPointGivesRectCircle(p: Box, cx: real, cy: real, r: real, qx: real, qy: real)
    requires InsideClosed(p, qx, qy) && WithinRadius(cx - qx, cy - qy, r)
    ensures RectCircle(p, cx, cy, r)
  {
    ClampIsNearest(cx, p.x, p.x + p.w, qx);
    ClampIsNearest(cy, p.y, p.y + p.h, qy);
    WithinRadiusShrinks(cx - Clamp(cx, p.x, p.x + p.w), cy - Clamp(cy, p.y, p.y + p.h), cx - qx, cy - qy, r);
  }

  /** For a rectangle of non-negative size, `RectCircle` holds exactly when some
      point of the closed rectangle is strictly within distance r of the centre. */
  lemma RectCircleIffNearPoint(p: Box, cx: real, cy: real, r: real)
    requires p.w >= 0.0 && p.h >= 0.0
    ensures RectCircle(p, cx, cy, r) <==>
            exists qx, qy :: InsideClosed(p, qx, qy) && WithinRadius(cx - qx, cy - qy, r)
  {
    if RectCircle(p, cx, cy, r) {
      RectCircleGivesNearPoint(p, cx, cy, r);
    }
    if exists qx, qy :: InsideClosed(p, qx, qy) && WithinRadius(cx - qx, cy - qy, r) {
      var qx, qy :| InsideClosed(p, qx, qy) && WithinRadius(cx - qx, cy - qy, r);
      NearPointGivesRectCircle(p, cx, cy, r, qx, qy);
    }
  }

  /** A circle of positive radius whose centre lies in the rectangle always collides. */
  lemma CentreInsideCollides(p: Box, cx: real, cy: real, r: real)
    requires InsideClosed(p, cx, cy) && r > 0.0
    ensures RectCircle(p, cx, cy, r)
  {
    assert Clamp(cx, p.x, p.x + p.w) == cx && Clamp(cy, p.y, p.y + p.h) == cy;
    assert WithinRadius(0.0, 0.0, r) by { assert r * r > 0.0; }
  }
}
