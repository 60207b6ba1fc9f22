/**
 * Values shared by the modules of the model: an Option type, 2- and 3-vectors,
 * quaternions, and the small part of JavaScript's dynamic values that the
 * tween code reads and writes on a node.
 *
 * Every number is a Dafny `real` and arithmetic on it is exact.
 */
module Base {

  datatype Option<T> = None | Some(value: T)

  datatype Vec2 = Vec2(x: real, y: real)

  datatype Vec3 = Vec3(x: real, y: real, z: real)

  /** A quaternion as the host's `quat4` holds it; the model never computes with it. */
  datatype Quat = Quat(x: real, y: real, z: real, w: real)

  /**
   * A property value on a JavaScript object: a number, NaN (what arithmetic
   * on anything that is not a number gives), `undefined` (a missing property)
   * or a quaternion object.
   */
  datatype Value = Num(n: real) | NaN | Undefined | QuatValue(q: Quat)

  /** `obj[name]` for an object whose own properties are `props`. */
  function Field(props: map<string, Value>, name: string): (v: Value)
    ensures name !in props ==> v == Undefined
    ensures name in props ==> v == props[name]
  {
    if name in props then props[name] else Undefined
  }

  /** JavaScript `a + b` where at least one side is meant as a number. */
  function Add(a: Value, b: Value): (r: Value)
    ensures r.Num? <==> a.Num? && b.Num?
    ensures r.Num? ==> r.n == a.n + b.n
  {
    if a.Num? && b.Num? then Num(a.n + b.n) else NaN
  }

  /** JavaScript `a - b`. */
  function Sub(a: Value, b: Value): (r: Value)
    ensures r.Num? <==> a.Num? && b.Num?
    ensures r.Num? ==> r.n == a.n - b.n
  {
    if a.Num? && b.Num? then Num(a.n - b.n) else NaN
  }

  /** JavaScript `a * b`. */
  function MulValue(a: Value, b: Value): (r: Value)
    ensures r.Num? <==> a.Num? && b.Num?
    ensures r.Num? ==> r.n == Mul(a.n, b.n)
  {
    if a.Num? && b.Num? then Num(Mul(a.n, b.n)) else NaN
  }

  function Abs(x: real): (r: real)
    ensures r >= 0.0 && (r == x || r == -x)
  {
    if x < 0.0 then -x else x
  }

  /**
   * `a * b`, with the sign rules stated once. Squares below are written as
   * Mul(d, d) so that every proof about them goes through these rules.
   */
  function Mul(a: real, b: real): (r: real)
    ensures a >= 0.0 && b >= 0.0 ==> r >= 0.0
    ensures a <= 0.0 && b <= 0.0 ==> r >= 0.0
    ensures a > 0.0 && b > 0.0 ==> r > 0.0
    ensures a < 0.0 && b < 0.0 ==> r > 0.0
    ensures a == 0.0 || b == 0.0 ==> r == 0.0
    ensures b == 1.0 ==> r == a
  {
    a * b
  }

  /** `d * d`. */
  function Square(d: real): (r: real)
    ensures r >= 0.0
    ensures r == 0.0 <==> d == 0.0
  {
    Mul(d, d)
  }

  lemma DifferenceOfSquares(a: real, b: real)
    ensures Square(b) - Square(a) == Mul(b - a, b + a)
  {
    assert (b - a) * (b + a) == b * b - a * a;
  }

  lemma SquareMonotone(a: real, b: real)
    requires 0.0 <= a <= b
    ensures Square(a) <= Square(b)
  {
    DifferenceOfSquares(a, b);
  }

  lemma SquareOfNegation(d: real)
    ensures Square(-d) == Square(d)
  {
    assert (-d) * (-d) == d * d;
  }

  function Min(a: real, b: real): (r: real)
    ensures r <= a && r <= b && (r == a || r == b)
  {
    if a <= b then a else b
  }
}
