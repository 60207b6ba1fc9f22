/**
 * The collision part of the plugin: the extra bounding kind `AABB2` (a box
 * with its own half-size on each axis), the kind `NONE` that is meant never to
 * collide, the three distance helpers they use, and the type-tag dispatch
 * `Bounding.prototype.intersect`.
 *
 * A bounding object is a value: its prototype with the fields that
 * prototype's constructor adds (`Shape`), its `type` tag, its offset `x, y, z`
 * from the node it belongs to, that node's position `parent`, and its
 * `threshold`. The distances the host library defines for its own kinds
 * (point, BS, AABB, OBB against one another) are passed in as `host`.
 */
module Collision {
  import opened Base

  /** A JavaScript number as the helpers can produce it: NaN when a field they read is missing. */
  datatype Num = Real(r: real) | NotANumber

  datatype Shape =
    | PointShape                                        // enchant.gl.collision.Bounding
    | Sphere(radius: real)                              // BS
    | Cube(scale: real)                                 // AABB: one half-size for all axes
    | Oriented                                          // OBB
    | Box(scaleX: real, scaleY: real, scaleZ: real)     // AABB2
    | NoCollision                                       // NONE

  datatype Bounding = Bounding(shape: Shape, tag: string, x: real, y: real, z: real,
                               parent: Vec3, threshold: real)

  /** The five `to*` methods that `intersect` can call. */
  datatype Method = ToBounding | ToBS | ToAABB | ToOBB | ToAABB2

  /** A closed interval on one axis. */
  datatype Interval = Interval(lo: real, hi: real)

  /** A closed axis-aligned region: one interval per axis. */
  datatype Extent = Extent(xs: Interval, ys: Interval, zs: Interval)

  const NoneDistance: real := 1000.0

  // ---------------------------------------------------------------------------
  // Geometry used to state what the helpers mean

  predicate InInterval(v: real, i: Interval) {
    i.lo <= v <= i.hi
  }

  predicate InExtent(p: Vec3, e: Extent) {
    InInterval(p.x, e.xs) && InInterval(p.y, e.ys) && InInterval(p.z, e.zs)
  }

  /** Two closed intervals overlap; touching ends count. */
  predicate Overlaps(a: Interval, b: Interval) {
    b.lo <= a.hi && a.lo <= b.hi
  }

  predicate ExtentsOverlap(a: Extent, b: Extent) {
    Overlaps(a.xs, b.xs) && Overlaps(a.ys, b.ys) && Overlaps(a.zs, b.zs)
  }

  predicate NonEmpty(e: Extent) {
    e.xs.lo <= e.xs.hi && e.ys.lo <= e.ys.hi && e.zs.lo <= e.zs.hi
  }

  /** Where the object is in the world: its offset plus its node's position. */
  function WorldPosition(b: Bounding): Vec3 {
    Vec3(b.x + b.parent.x, b.y + b.parent.y, b.z + b.parent.z)
  }

  /** The region of an AABB2: its world position plus or minus its per-axis half-sizes. */
  function BoxExtent(b: Bounding): Option<Extent> {
    match b.shape
    case Box(sx, sy, sz) =>
      var c := WorldPosition(b);
      Some(Extent(Interval(c.x - sx, c.x + sx), Interval(c.y - sy, c.y + sy), Interval(c.z - sz, c.z + sz)))
    case _ => None
  }

  /** The region of an AABB: a cube of half-size `scale` around its world position. */
  function CubeExtent(b: Bounding): Option<Extent> {
    match b.shape
    case Cube(s) =>
      var c := WorldPosition(b);
      Some(Extent(Interval(c.x - s, c.x + s), Interval(c.y - s, c.y + s), Interval(c.z - s, c.z + s)))
    case _ => None
  }

  function SqDist(p: Vec3, q: Vec3): real {
    Square(p.x - q.x) + Square(p.y - q.y) + Square(p.z - q.z)
  }

  function Clamp(v: real, i: Interval): real {
    if v < i.lo then i.lo else if i.hi < v then i.hi else v
  }

  /** The point of a non-empty extent nearest to `p`. */
  function Nearest(p: Vec3, e: Extent): Vec3 {
    Vec3(Clamp(p.x, e.xs), Clamp(p.y, e.ys), Clamp(p.z, e.zs))
  }

  // ---------------------------------------------------------------------------
  // The helpers

  /** The squared gap on one axis, as each of the three `if` blocks of point2AABB2 adds it. */
  function AxisGap(v: real, lo: real, hi: real): (g: real)
    ensures g >= 0.0
    ensures g == 0.0 <==> lo <= v <= hi
  {
    if v < lo then Square(v - lo) else if hi < v then Square(v - hi) else 0.0
  }

  /**
   * point2AABB2(p, aabb): the squared distance from the world position of `p`
   * to the box `aabb`, summed axis by axis. An `aabb` without per-axis
   * half-sizes makes both bounds of every axis NaN; every comparison is then
   * false, nothing is added, and the answer is 0.
   */
  function Point2AABB2(p: Bounding, aabb: Bounding): (d: Num)
    ensures d.Real? && d.r >= 0.0
    ensures !aabb.shape.Box? ==> d.r == 0.0
    ensures aabb.shape.Box? ==> (d.r == 0.0 <==> InExtent(WorldPosition(p), BoxExtent(aabb).value))
  {
    match aabb.shape
    case Box(sx, sy, sz) =>
      var ppx, ppy, ppz := p.x + p.parent.x, p.y + p.parent.y, p.z + p.parent.z;
      var px, py, pz := aabb.parent.x + aabb.x + sx, aabb.parent.y + aabb.y + sy, aabb.parent.z + aabb.z + sz;
      var nx, ny, nz := aabb.parent.x + (aabb.x - sx), aabb.parent.y + (aabb.y - sy), aabb.parent.z + (aabb.z - sz);
      Real(AxisGap(ppx, nx, px) + AxisGap(ppy, ny, py) + AxisGap(ppz, nz, pz))
    case _ => Real(0.0)
  }

  /**
   * AABB2AABB2(aabb1, aabb2): 0.0 when the cube of half-size `aabb1.scale`
   * overlaps the per-axis box of `aabb2`, else 1.0. A missing `scale` on the
   * first or a missing `scaleX`/`scaleY`/`scaleZ` on the second makes every
   * comparison false, so the answer is then 1.0.
   */
  function AABB2AABB2(aabb1: Bounding, aabb2: Bounding): (r: real)
    ensures r == 0.0 || r == 1.0
    ensures r == 0.0 <==> aabb1.shape.Cube? && aabb2.shape.Box?
                          && ExtentsOverlap(CubeExtent(aabb1).value, BoxExtent(aabb2).value)
  {
    match (aabb1.shape, aabb2.shape)
    case (Cube(s), Box(sx, sy, sz)) =>
      var px1, py1, pz1 := aabb1.parent.x + aabb1.x + s, aabb1.parent.y + aabb1.y + s, aabb1.parent.z + aabb1.z + s;
      var nx1, ny1, nz1 := aabb1.parent.x + (aabb1.x - s), aabb1.parent.y + (aabb1.y - s), aabb1.parent.z + (aabb1.z - s);
      var px2, py2, pz2 := aabb2.parent.x + aabb2.x + sx, aabb2.parent.y + aabb2.y + sy, aabb2.parent.z + aabb2.z + sz;
      var nx2, ny2, nz2 := aabb2.parent.x + (aabb2.x - sx), aabb2.parent.y + (aabb2.y - sy), aabb2.parent.z + (aabb2.z - sz);
      if nx2 <= px1 && nx1 <= px2 && ny2 <= py1 && ny1 <= py2 && nz2 <= pz1 && nz1 <= pz2 then 0.0 else 1.0
    case _ => 1.0
  }

  /**
   * AABB22AABB2(aabb1, aabb2): 0.0 when the two per-axis boxes overlap on
   * every axis (touching faces count), else 1.0.
   */
  function AABB22AABB2(aabb1: Bounding, aabb2: Bounding): (r: real)
    ensures r == 0.0 || r == 1.0
    ensures r == 0.0 <==> aabb1.shape.Box? && aabb2.shape.Box?
                          && ExtentsOverlap(BoxExtent(aabb1).value, BoxExtent(aabb2).value)
  {
    match (aabb1.shape, aabb2.shape)
    case (Box(sx1, sy1, sz1), Box(sx2, sy2, sz2)) =>
      var px1, py1, pz1 := aabb1.parent.x + aabb1.x + sx1, aabb1.parent.y + aabb1.y + sy1, aabb1.parent.z + aabb1.z + sz1;
      var nx1, ny1, nz1 := aabb1.parent.x + (aabb1.x - sx1), aabb1.parent.y + (aabb1.y - sy1), aabb1.parent.z + (aabb1.z - sz1);
      var px2, py2, pz2 := aabb2.parent.x + aabb2.x + sx2, aabb2.parent.y + aabb2.y + sy2, aabb2.parent.z + aabb2.z + sz2;
      var nx2, ny2, nz2 := aabb2.parent.x + (aabb2.x - sx2), aabb2.parent.y + (aabb2.y - sy2), aabb2.parent.z + (aabb2.z - sz2);
      if nx2 <= px1 && nx1 <= px2 && ny2 <= py1 && ny1 <= py2 && nz2 <= pz1 && nz1 <= pz2 then 0.0 else 1.0
    case _ => 1.0
  }

  /** JavaScript `a - b * b` where `a` may be NaN. */
  function MinusSquare(a: Num, radius: Option<real>): Num {
    if a.Real? && radius.Some? then Real(a.r - Square(radius.value)) else NotANumber
  }

  function Radius(b: Bounding): Option<real> {
    if b.shape.Sphere? then Some(b.shape.radius) else None
  }

  /** JavaScript `d < threshold`; NaN compares false. */
  predicate Below(d: Num, threshold: real) {
    d.Real? && d.r < threshold
  }

  /** The `to*` method `intersect` calls for a given `type` tag, if any. */
  function MethodFor(tag: string): (m: Option<Method>)
    ensures m.None? <==> tag !in {"point", "BS", "AABB", "OBB", "AABB2"}
  {
    if tag == "point" then Some(ToBounding)
    else if tag == "BS" then Some(ToBS)
    else if tag == "AABB" then Some(ToAABB)
    else if tag == "OBB" then Some(ToOBB)
    else if tag == "AABB2" then Some(ToAABB2)
    else None
  }

  // ---------------------------------------------------------------------------
  // The to* methods, as the code is written

  /**
   * `self.m(another)`, with the method looked up on `self`'s prototype:
   * the `toAABB2` overrides of the four host kinds, every method of AABB2 and
   * NONE, and `Bounding.prototype.toAABB2` for NONE, which does not override it.
   */
  function DistanceAsWritten(self: Bounding, m: Method, another: Bounding,
                             host: (Bounding, Method, Bounding) -> Num): Num
  {
    match self.shape
    case Box(_, _, _) =>
      (match m
       case ToBounding => Point2AABB2(another, self)
       case ToBS => MinusSquare(Point2AABB2(another, self), Radius(another))
       case ToAABB => Real(AABB2AABB2(self, another))
       case ToAABB2 => Real(AABB22AABB2(self, another))
       case ToOBB => Real(1.0))
    case NoCollision =>
      if m == ToAABB2 then Point2AABB2(self, another) else Real(NoneDistance)
    case PointShape =>
      if m == ToAABB2 then Point2AABB2(self, another) else host(self, m, another)
    case Sphere(r) =>
      if m == ToAABB2 then MinusSquare(Point2AABB2(self, another), Some(r)) else host(self, m, another)
    case Cube(_) =>
      if m == ToAABB2 then Real(AABB2AABB2(self, another)) else host(self, m, another)
    case Oriented =>
      if m == ToAABB2 then Real(1.0) else host(self, m, another)
  }

  /** `Bounding.prototype.intersect` as written, over DistanceAsWritten. */
  function IntersectAsWritten(self: Bounding, another: Bounding,
                              host: (Bounding, Method, Bounding) -> Num): (r: bool)
    ensures MethodFor(another.tag).None? ==> !r
  {
    match MethodFor(another.tag)
    case None => false
    case Some(m) => Below(DistanceAsWritten(self, m, another, host), self.threshold)
  }

  // ---------------------------------------------------------------------------
  // The to* methods with the two dispatch faults corrected

  /**
   * As DistanceAsWritten, except that AABB2's `toAABB` passes the cube first
   * (as AABB's `toAABB2` does), and NONE answers 1000 to `toAABB2` as it does
   * to its other four methods.
   */
  function Distance(self: Bounding, m: Method, another: Bounding,
                    host: (Bounding, Method, Bounding) -> Num): (d: Num)
    ensures !((self.shape.Box? && m == ToAABB) || (self.shape.NoCollision? && m == ToAABB2))
            ==> d == DistanceAsWritten(self, m, another, host)
  {
    if self.shape.Box? && m == ToAABB then Real(AABB2AABB2(another, self))
    else if self.shape.NoCollision? then Real(NoneDistance)
    else DistanceAsWritten(self, m, another, host)
  }

  /**
   * `Bounding.prototype.intersect`: the answer is false for a `type` tag it
   * does not know, and otherwise whether the matching distance is below this
   * object's threshold.
   */
  function Intersect(self: Bounding, another: Bounding,
                     host: (Bounding, Method, Bounding) -> Num): (r: bool)
    ensures MethodFor(another.tag).None? ==> !r
    ensures MethodFor(another.tag).Some? ==>
              (r <==> Below(Distance(self, MethodFor(another.tag).value, another, host), self.threshold))
  {
    match MethodFor(another.tag)
    case None => false
    case Some(m) => Below(Distance(self, m, another, host), self.threshold)
  }

  // ---------------------------------------------------------------------------
  // Constructors

  /**
   * `new AABB2()`: what the host's Bounding constructor made (`base`), with
   * type 'AABB2' and half-size 0.5 on every axis.
   */
  function NewAABB2(base: Bounding): (b: Bounding)
    ensures b.tag == "AABB2" && b.shape == Box(0.5, 0.5, 0.5)
    ensures WorldPosition(b) == WorldPosition(base) && b.threshold == base.threshold
  {
    base.(shape := Box(0.5, 0.5, 0.5), tag := "AABB2")
  }

  /** `new NONE()`: what the host's Bounding constructor made, with type 'NONE'. */
  function NewNone(base: Bounding): (b: Bounding)
    ensures b.tag == "NONE" && b.shape == NoCollision
    ensures WorldPosition(b) == WorldPosition(base) && b.threshold == base.threshold
  {
    base.(shape := NoCollision, tag := "NONE")
  }
}
