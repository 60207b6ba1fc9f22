/**
 * What the collision helpers and `intersect` mean: point2AABB2 is the squared
 * distance to the nearest point of the box, the overlap tests agree with
 * "the two regions share a point", and the sentinel answers of OBB and NONE
 * pairings. The last section shows the two dispatch faults of the code as
 * written.
 */
module CollisionProps {
  import opened Base
  import opened Collision

  // ---------------------------------------------------------------------------
  // point2AABB2 against its reference definition

  lemma {:induction false} AxisGapIsNearest(v: real, i: Interval, q: real)
    requires i.lo <= i.hi && InInterval(q, i)
    ensures InInterval(Clamp(v, i), i)
    ensures AxisGap(v, i.lo, i.hi) == Square(v - Clamp(v, i))
    ensures AxisGap(v, i.lo, i.hi) <= Square(v - q)
  {
    if v < i.lo {
      SquareOfNegation(v - i.lo);
      SquareOfNegation(v - q);
      SquareMonotone(i.lo - v, q - v);
    } else if i.hi < v {
      SquareMonotone(v - i.hi, v - q);
    }
  }

  /**
   * For a box with non-negative half-sizes, point2AABB2 is the squared
   * Euclidean distance from the point to the nearest point of the box, and no
   * point of the box is nearer.
   */
  lemma {:induction false} Point2AABB2IsNearestSquaredDistance(p: Bounding, aabb: Bounding, q: Vec3)
    requires aabb.shape.Box? && aabb.shape.scaleX >= 0.0 && aabb.shape.scaleY >= 0.0 && aabb.shape.scaleZ >= 0.0
    requires InExtent(q, BoxExtent(aabb).value)
    ensures InExtent(Nearest(WorldPosition(p), BoxExtent(aabb).value), BoxExtent(aabb).value)
    ensures Point2AABB2(p, aabb) == Real(SqDist(WorldPosition(p), Nearest(WorldPosition(p), BoxExtent(aabb).value)))
    ensures Point2AABB2(p, aabb).r <= SqDist(WorldPosition(p), q)
  {
    var c, e := WorldPosition(p), BoxExtent(aabb).value;
    assert Point2AABB2(p, aabb).r == AxisGap(c.x, e.xs.lo, e.xs.hi) + AxisGap(c.y, e.ys.lo, e.ys.hi) + AxisGap(c.z, e.zs.lo, e.zs.hi);
    AxisGapIsNearest(c.x, e.xs, q.x);
    AxisGapIsNearest(c.y, e.ys, q.y);
    AxisGapIsNearest(c.z, e.zs, q.z);
  }

  // ---------------------------------------------------------------------------
  // The overlap tests

  /** The 0/1 answer of AABB22AABB2 does not depend on the order of its arguments. */
  lemma AABB22AABB2Symmetric(a: Bounding, b: Bounding)
    ensures AABB22AABB2(a, b) == AABB22AABB2(b, a)
  {
  }

  /** For non-empty regions, overlapping on every axis means sharing a point. */
  lemma {:induction false} OverlapIffCommonPoint(a: Extent, b: Extent)
    requires NonEmpty(a) && NonEmpty(b)
    ensures ExtentsOverlap(a, b) <==> exists p :: InExtent(p, a) && InExtent(p, b)
  {
    if ExtentsOverlap(a, b) {
      var p := Vec3(if a.xs.lo <= b.xs.lo then b.xs.lo else a.xs.lo,
                    if a.ys.lo <= b.ys.lo then b.ys.lo else a.ys.lo,
                    if a.zs.lo <= b.zs.lo then b.zs.lo else a.zs.lo);
      assert InExtent(p, a) && InExtent(p, b);
    } else {
      forall p | InExtent(p, a) ensures !InExtent(p, b) {
      }
    }
  }

  /** Two AABB2 boxes with non-negative half-sizes give 0.0 exactly when they share a point. */
  lemma {:induction false} AABB22AABB2MeansCommonPoint(a: Bounding, b: Bounding)
    requires a.shape.Box? && a.shape.scaleX >= 0.0 && a.shape.scaleY >= 0.0 && a.shape.scaleZ >= 0.0
    requires b.shape.Box? && b.shape.scaleX >= 0.0 && b.shape.scaleY >= 0.0 && b.shape.scaleZ >= 0.0
    ensures AABB22AABB2(a, b) == 0.0 <==>
              exists p :: InExtent(p, BoxExtent(a).value) && InExtent(p, BoxExtent(b).value)
  {
    OverlapIffCommonPoint(BoxExtent(a).value, BoxExtent(b).value);
  }

  /** An AABB cube and an AABB2 box give 0.0 exactly when they share a point. */
  lemma {:induction false} AABB2AABB2MeansCommonPoint(cube: Bounding, box: Bounding)
    requires cube.shape.Cube? && cube.shape.scale >= 0.0
    requires box.shape.Box? && box.shape.scaleX >= 0.0 && box.shape.scaleY >= 0.0 && box.shape.scaleZ >= 0.0
    ensures AABB2AABB2(cube, box) == 0.0 <==>
              exists p :: InExtent(p, CubeExtent(cube).value) && InExtent(p, BoxExtent(box).value)
  {
    OverlapIffCommonPoint(CubeExtent(cube).value, BoxExtent(box).value);
  }

  // ---------------------------------------------------------------------------
  // intersect, pairing by pairing

  /** A point bounding hits an AABB2 when its squared distance to the box is below its threshold. */
  lemma PointHitsBox(pt: Bounding, box: Bounding, host: (Bounding, Method, Bounding) -> Num)
    requires pt.shape.PointShape? && box.tag == "AABB2" && box.shape.Box?
    ensures Intersect(pt, box, host) <==> Point2AABB2(pt, box).r < pt.threshold
  {
  }

  /**
   * An object tagged AABB2 without per-axis half-sizes gives `point2AABB2`
   * the answer 0, so a point with a positive threshold always hits it.
   */
  lemma PointHitsShapelessBox(pt: Bounding, another: Bounding, host: (Bounding, Method, Bounding) -> Num)
    requires pt.shape.PointShape? && another.tag == "AABB2" && !another.shape.Box? && 0.0 < pt.threshold
    ensures Intersect(pt, another, host) && IntersectAsWritten(pt, another, host)
  {
  }

  /** A sphere hits an AABB2 when the squared distance from its centre to the box is below radius² + threshold. */
  lemma SphereHitsBox(s: Bounding, box: Bounding, host: (Bounding, Method, Bounding) -> Num)
    requires s.shape.Sphere? && box.tag == "AABB2" && box.shape.Box?
    ensures Intersect(s, box, host) <==>
              Point2AABB2(s, box).r < Square(s.shape.radius) + s.threshold
  {
  }

  /** The AABB2 side of the same pairing uses the sphere's radius the same way. */
  lemma BoxHitsSphere(box: Bounding, s: Bounding, host: (Bounding, Method, Bounding) -> Num)
    requires box.shape.Box? && s.tag == "BS" && s.shape.Sphere?
    ensures Intersect(box, s, host) <==>
              Point2AABB2(s, box).r < Square(s.shape.radius) + box.threshold
  {
  }

  /** Any pairing of OBB with AABB2 answers distance 1, so it collides only when the threshold exceeds 1. */
  lemma OrientedAndBoxAnswerOne(a: Bounding, b: Bounding, host: (Bounding, Method, Bounding) -> Num)
    requires (a.shape.Oriented? && b.tag == "AABB2") || (a.shape.Box? && b.tag == "OBB")
    ensures Intersect(a, b, host) <==> 1.0 < a.threshold
  {
  }

  /**
   * NONE answers 1000 to every method, so it collides with nothing unless
   * its threshold exceeds 1000 and the other object has a known tag.
   */
  lemma NoneAnswersThousand(none: Bounding, another: Bounding, host: (Bounding, Method, Bounding) -> Num)
    requires none.shape.NoCollision?
    ensures forall m :: Distance(none, m, another, host) == Real(NoneDistance)
    ensures Intersect(none, another, host) <==> MethodFor(another.tag).Some? && 1000.0 < none.threshold
  {
  }

  /** Nothing collides with NONE: its tag is unknown to `intersect`. */
  lemma NothingHitsNone(a: Bounding, base: Bounding, host: (Bounding, Method, Bounding) -> Num)
    ensures !Intersect(a, NewNone(base), host)
  {
  }

  /** With a threshold in (0, 1], an AABB hits an AABB2 exactly when the regions overlap. */
  lemma CubeHitsBox(cube: Bounding, box: Bounding, host: (Bounding, Method, Bounding) -> Num)
    requires cube.shape.Cube? && box.tag == "AABB2" && box.shape.Box?
    requires 0.0 < cube.threshold <= 1.0
    ensures Intersect(cube, box, host) <==> ExtentsOverlap(CubeExtent(cube).value, BoxExtent(box).value)
  {
  }

  /** AABB against AABB2 answers the same from either side (with the corrected argument order). */
  lemma CubeBoxSymmetric(cube: Bounding, box: Bounding, host: (Bounding, Method, Bounding) -> Num)
    requires cube.shape.Cube? && cube.tag == "AABB" && box.shape.Box? && box.tag == "AABB2"
    requires cube.threshold == box.threshold
    ensures Intersect(cube, box, host) == Intersect(box, cube, host)
  {
  }

  /** Two AABB2 boxes with equal thresholds answer the same from either side. */
  lemma BoxBoxSymmetric(a: Bounding, b: Bounding, host: (Bounding, Method, Bounding) -> Num)
    requires a.shape.Box? && a.tag == "AABB2" && b.shape.Box? && b.tag == "AABB2"
    requires a.threshold == b.threshold
    ensures Intersect(a, b, host) == Intersect(b, a, host)
  {
    AABB22AABB2Symmetric(a, b);
  }

  /**
   * The corrections change only the two faulty pairings: a box asked about an
   * AABB, and a NONE asked about an AABB2. Every other query gives the answer
   * the code as written gives.
   */
  lemma IntersectAgreesAsWritten(self: Bounding, another: Bounding, host: (Bounding, Method, Bounding) -> Num)
    requires !(self.shape.Box? && another.tag == "AABB")
    requires !(self.shape.NoCollision? && another.tag == "AABB2")
    ensures Intersect(self, another, host) == IntersectAsWritten(self, another, host)
  {
  }

  // ---------------------------------------------------------------------------
  // The code as written: two faults

  /**
   * NONE does not override `toAABB2`, so it inherits the point test: a NONE
   * with a positive threshold whose position is inside an AABB2 reports a
   * collision, which the corrected dispatch does not.
   */
  lemma {:induction false} NoneHitsBoxAsWritten(none: Bounding, box: Bounding, host: (Bounding, Method, Bounding) -> Num)
    requires none.shape == NoCollision && 0.0 < none.threshold
    requires box.tag == "AABB2" && box.shape.Box?
    requires InExtent(WorldPosition(none), BoxExtent(box).value)
    ensures IntersectAsWritten(none, box, host)
    ensures Intersect(none, box, host) <==> 1000.0 < none.threshold
  {
    assert Point2AABB2(none, box) == Real(0.0);
  }

  /**
   * AABB2's `toAABB` passes itself as the cube: the AABB2 has no `scale`, so
   * the answer is 1.0 whatever the positions, and with a threshold of at most
   * 1 an AABB2 never hits an AABB.
   */
  lemma {:induction false} BoxNeverHitsCubeAsWritten(box: Bounding, cube: Bounding, host: (Bounding, Method, Bounding) -> Num)
    requires box.shape.Box? && cube.tag == "AABB" && box.threshold <= 1.0
    ensures !IntersectAsWritten(box, cube, host)
  {
    assert AABB2AABB2(box, cube) == 1.0;
  }

  /**
   * Two coinciding unit boxes, one AABB and one AABB2, with thresholds in
   * (0, 1]: the AABB side sees the collision, the AABB2 side as written does
   * not, and the corrected dispatch does.
   */
  lemma {:induction false} CubeBoxAsymmetricAsWritten(cube: Bounding, box: Bounding, host: (Bounding, Method, Bounding) -> Num)
    requires cube.shape == Cube(0.5) && cube.tag == "AABB" && 0.0 < cube.threshold <= 1.0
    requires box.shape == Box(0.5, 0.5, 0.5) && box.tag == "AABB2" && 0.0 < box.threshold <= 1.0
    requires WorldPosition(cube) == WorldPosition(box)
    ensures IntersectAsWritten(cube, box, host)
    ensures !IntersectAsWritten(box, cube, host)
    ensures Intersect(box, cube, host)
  {
    assert ExtentsOverlap(CubeExtent(cube).value, BoxExtent(box).value);
    BoxNeverHitsCubeAsWritten(box, cube, host);
  }
}
