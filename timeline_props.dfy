/**
 * What each Timeline builder makes the tween record when it starts, on any
 * node: the targets and origins of its properties, the order of the keys,
 * and the `time` and `easing` the tween runs with.
 */
module TimelineProps {
  import opened Base
  import opened Sprite
  import opened Tween
  import opened TweenProps
  import opened Timeline

  /** The tween's dictionaries before its first start. */
  function Empty(): Capture {
    Capture(map[], map[], [])
  }

  /** The `time` and `easing` a builder's last two arguments give the tween. */
  lemma {:induction false} TimingOfParams(head: Params, time: Arg, easing: Arg)
    requires forall i :: 0 <= i < |head| ==> head[i].0 != "time" && head[i].0 != "easing"
    ensures TweenTime(head + Timing(time, easing)) == if time.NumArg? then Some(time.n) else None
    ensures TweenEasing(head + Timing(time, easing)) == if easing.CurveArg? then Curve(easing.f) else Linear
    decreases |head|
  {
    if head != [] {
      assert (head + Timing(time, easing))[1..] == head[1..] + Timing(time, easing);
      TimingOfParams(head[1..], time, easing);
    }
  }

  function NamesInOrder(head: Params): seq<string> {
    seq(|head|, i requires 0 <= i < |head| => head[i].0)
  }

  lemma {:induction false} RecordableAppend(p: Params, q: Params)
    ensures Recordable(p + q) == Recordable(p) + Recordable(q)
    decreases |q|
  {
    if q != [] {
      var n := |q| - 1;
      assert (p + q)[..|p + q| - 1] == p + q[..n];
      RecordableAppend(p, q[..n]);
    } else {
      assert p + q == p;
    }
  }

  lemma {:induction false} RecordableAllKept(p: Params)
    requires forall i :: 0 <= i < |p| ==> p[i].0 !in Excepted
    ensures Recordable(p) == NamesInOrder(p)
    decreases |p|
  {
    if p != [] {
      var n := |p| - 1;
      RecordableAllKept(p[..n]);
      assert NamesInOrder(p) == NamesInOrder(p[..n]) + [p[n].0];
    }
  }

  /**
   * A builder's parameter object: its own properties, none of them excepted,
   * then `time` and `easing`. The tween keys its dictionaries by the own
   * properties in order, then `easing`.
   */
  lemma BuilderKeys(head: Params, time: Arg, easing: Arg, node: NodeState)
    requires DistinctNames(head + Timing(time, easing))
    requires forall i :: 0 <= i < |head| ==> head[i].0 !in Excepted
    ensures Captured(Empty(), head + Timing(time, easing), node).keys == NamesInOrder(head) + ["easing"]
  {
    CapturedKeyOrder(Empty(), head + Timing(time, easing), node);
    RecordableAppend(head, Timing(time, easing));
    RecordableAllKept(head);
    RecordableAppend([("time", ArgParam(time))], [("easing", ArgParam(easing))]);
    assert [("time", ArgParam(time))] + [("easing", ArgParam(easing))] == Timing(time, easing);
  }

  /** Three distinct non-excepted own properties followed by `time` and `easing` have distinct names. */
  lemma TripleIsBuilder(a: string, b: string, c: string, pa: Param, pb: Param, pc: Param, time: Arg, easing: Arg)
    requires a != b && b != c && a != c
    requires a !in Excepted && b !in Excepted && c !in Excepted
    requires a != "time" && b != "time" && c != "time" && a != "easing" && b != "easing" && c != "easing"
    ensures DistinctNames([(a, pa), (b, pb), (c, pc)] + Timing(time, easing))
    ensures forall i :: 0 <= i < 3 ==> [(a, pa), (b, pb), (c, pc)][i].0 !in Excepted
  {
  }

  /** An own property of a builder records its value against the node as target and the node's value as origin. */
  lemma BuilderRecords(head: Params, time: Arg, easing: Arg, node: NodeState, i: int)
    requires DistinctNames(head + Timing(time, easing))
    requires 0 <= i < |head| && head[i].0 !in Excepted
    ensures var r := Captured(Empty(), head + Timing(time, easing), node);
            head[i].0 in r.target && head[i].0 in r.origin &&
            r.target[head[i].0] == Evaluate(head[i].1, node) && r.origin[head[i].0] == OriginOf(head[i].0, node)
  {
    assert (head + Timing(time, easing))[i] == head[i];
    CapturedValues(Empty(), head + Timing(time, easing), node, i);
  }

  /** What a builder with three own properties makes the tween record. */
  lemma TripleRecords(a: string, b: string, c: string, pa: Param, pb: Param, pc: Param, time: Arg, easing: Arg, node: NodeState)
    requires a != b && b != c && a != c
    requires a !in Excepted && b !in Excepted && c !in Excepted
    requires a != "time" && b != "time" && c != "time" && a != "easing" && b != "easing" && c != "easing"
    ensures var r := Captured(Empty(), [(a, pa), (b, pb), (c, pc)] + Timing(time, easing), node);
            a in r.target && b in r.target && c in r.target && a in r.origin && b in r.origin && c in r.origin &&
            r.target[a] == Evaluate(pa, node) && r.origin[a] == OriginOf(a, node) &&
            r.target[b] == Evaluate(pb, node) && r.origin[b] == OriginOf(b, node) &&
            r.target[c] == Evaluate(pc, node) && r.origin[c] == OriginOf(c, node) &&
            r.keys == [a, b, c, "easing"]
    ensures TweenTime([(a, pa), (b, pb), (c, pc)] + Timing(time, easing)) == if time.NumArg? then Some(time.n) else None
    ensures TweenEasing([(a, pa), (b, pb), (c, pc)] + Timing(time, easing)) == if easing.CurveArg? then Curve(easing.f) else Linear
  {
    var head := [(a, pa), (b, pb), (c, pc)];
    TripleIsBuilder(a, b, c, pa, pb, pc, time, easing);
    BuilderRecords(head, time, easing, node, 0);
    BuilderRecords(head, time, easing, node, 1);
    BuilderRecords(head, time, easing, node, 2);
    BuilderKeys(head, time, easing, node);
    assert NamesInOrder(head) == [a, b, c];
    TimingOfParams(head, time, easing);
  }

  /** What a builder with one own property makes the tween record. */
  lemma SingleRecords(a: string, pa: Param, time: Arg, easing: Arg, node: NodeState)
    requires a !in Excepted && a != "time" && a != "easing"
    ensures var r := Captured(Empty(), [(a, pa)] + Timing(time, easing), node);
            a in r.target && a in r.origin &&
            r.target[a] == Evaluate(pa, node) && r.origin[a] == OriginOf(a, node) &&
            r.keys == [a, "easing"]
    ensures TweenTime([(a, pa)] + Timing(time, easing)) == if time.NumArg? then Some(time.n) else None
    ensures TweenEasing([(a, pa)] + Timing(time, easing)) == if easing.CurveArg? then Curve(easing.f) else Linear
  {
    var head := [(a, pa)];
    assert DistinctNames(head + Timing(time, easing));
    BuilderRecords(head, time, easing, node, 0);
    BuilderKeys(head, time, easing, node);
    assert NamesInOrder(head) == [a];
    TimingOfParams(head, time, easing);
  }

  // ---------------------------------------------------------------------------
  // The builders

  /**
   * `moveTo(x, y, z, time, easing)`: the targets are the given coordinates,
   * the origins the node's, the keys x, y, z, easing; `time` and `easing`
   * come from the last two arguments.
   */
  lemma MoveToRecords(node: NodeState, x: real, y: real, z: real, time: Arg, easing: Arg)
    ensures var r := Captured(Empty(), MoveTo(NumArg(x), NumArg(y), NumArg(z), time, easing), node);
            "x" in r.target && "y" in r.target && "z" in r.target &&
            "x" in r.origin && "y" in r.origin && "z" in r.origin &&
            r.target["x"] == Num(x) && r.target["y"] == Num(y) && r.target["z"] == Num(z) &&
            r.origin["x"] == Field(node.fields, "x") && r.origin["y"] == Field(node.fields, "y") &&
            r.origin["z"] == Field(node.fields, "z") &&
            r.keys == ["x", "y", "z", "easing"]
    ensures TweenTime(MoveTo(NumArg(x), NumArg(y), NumArg(z), time, easing)) == if time.NumArg? then Some(time.n) else None
    ensures TweenEasing(MoveTo(NumArg(x), NumArg(y), NumArg(z), time, easing)) == if easing.CurveArg? then Curve(easing.f) else Linear
  {
    TripleRecords("x", "y", "z", Literal(Num(x)), Literal(Num(y)), Literal(Num(z)), time, easing, node);
  }

  /** `moveTo(x, undefined, z)` records `y`, with an undefined target. */
  lemma MoveToUndefinedAxisRecords(node: NodeState, x: real, z: real, time: Arg, easing: Arg)
    ensures var r := Captured(Empty(), MoveTo(NumArg(x), NoArg, NumArg(z), time, easing), node);
            "y" in r.target && r.target["y"] == Undefined && r.keys == ["x", "y", "z", "easing"]
  {
    TripleRecords("x", "y", "z", Literal(Num(x)), Literal(Undefined), Literal(Num(z)), time, easing, node);
  }

  /**
   * A tick of `moveTo(x, undefined, z)` on a node that defines `y` (a
   * `Sprite3D` always does) writes NaN into `y`, since its target is
   * `undefined`; a node without `y` keeps it undefined.
   */
  lemma MoveToUndefinedAxisBecomesNaN(x: real, z: real, time: Arg, easing: Arg, node: NodeState, s: NodeState, c: TickContext)
    requires c.target == Captured(Empty(), MoveTo(NumArg(x), NoArg, NumArg(z), time, easing), node).target
    ensures var keys := Captured(Empty(), MoveTo(NumArg(x), NoArg, NumArg(z), time, easing), node).keys;
            var r := Ticked(s, keys, c);
            (Field(s.fields, "y") != Undefined ==> "y" in r.fields && r.fields["y"] == NaN) &&
            (Field(s.fields, "y") == Undefined ==> Field(r.fields, "y") == Undefined)
  {
    var keys := Captured(Empty(), MoveTo(NumArg(x), NoArg, NumArg(z), time, easing), node).keys;
    MoveToUndefinedAxisRecords(node, x, z, time, easing);
    assert DistinctKeys(keys);
    TickedFields(s, keys, c, "y");
  }

  /**
   * Every builder's tween records `easing`. A node that does not define
   * `easing` (a `Sprite3D` does not) keeps it undefined through every tick;
   * one that does gets NaN unless the curve was given as a number.
   */
  lemma BuilderLeavesEasingUndefined(head: Params, time: Arg, easing: Arg, node: NodeState, s: NodeState, c: TickContext)
    requires DistinctNames(head + Timing(time, easing))
    requires forall i :: 0 <= i < |head| ==> head[i].0 !in Excepted
    requires c.target == Captured(Empty(), head + Timing(time, easing), node).target
    ensures var keys := Captured(Empty(), head + Timing(time, easing), node).keys;
            "easing" in keys &&
            (Field(s.fields, "easing") == Undefined ==> Field(Ticked(s, keys, c).fields, "easing") == Undefined) &&
            (Field(s.fields, "easing") != Undefined && !easing.NumArg? ==>
               "easing" in Ticked(s, keys, c).fields && Ticked(s, keys, c).fields["easing"] == NaN)
  {
    var params := head + Timing(time, easing);
    var r := Captured(Empty(), params, node);
    BuilderKeys(head, time, easing, node);
    CapturedWellFormed(Empty(), params, node);
    assert params[|head| + 1] == ("easing", ArgParam(easing));
    EasingIsRecorded(Empty(), params, node, |head| + 1);
    TickedFields(s, r.keys, c, "easing");
  }

  /** `moveZ(z, time, easing)`: only z is recorded, with target z. */
  lemma MoveZRecords(node: NodeState, z: real, time: Arg, easing: Arg)
    ensures var r := Captured(Empty(), MoveZ(NumArg(z), time, easing), node);
            "z" in r.target && "z" in r.origin && r.target["z"] == Num(z) && r.origin["z"] == Field(node.fields, "z") &&
            r.keys == ["z", "easing"]
    ensures TweenTime(MoveZ(NumArg(z), time, easing)) == if time.NumArg? then Some(time.n) else None
  {
    SingleRecords("z", Literal(Num(z)), time, easing, node);
  }

  /**
   * `moveBy(dx, dy, dz, time, easing)` on a node whose x, y, z are numbers:
   * each target is the start value plus the offset, so target - origin is the
   * offset; the keys are x, y, z and easing in that order.
   */
  lemma MoveByRecordsOffsets(node: NodeState, dx: real, dy: real, dz: real, time: Arg, easing: Arg)
    requires Field(node.fields, "x").Num? && Field(node.fields, "y").Num? && Field(node.fields, "z").Num?
    ensures var r := Captured(Empty(), MoveBy(NumArg(dx), NumArg(dy), NumArg(dz), time, easing), node);
            "x" in r.target && "y" in r.target && "z" in r.target &&
            "x" in r.origin && "y" in r.origin && "z" in r.origin &&
            r.target["x"] == Num(node.fields["x"].n + dx) && Sub(r.target["x"], r.origin["x"]) == Num(dx) &&
            r.target["y"] == Num(node.fields["y"].n + dy) && Sub(r.target["y"], r.origin["y"]) == Num(dy) &&
            r.target["z"] == Num(node.fields["z"].n + dz) && Sub(r.target["z"], r.origin["z"]) == Num(dz) &&
            r.keys == ["x", "y", "z", "easing"]
  {
    TripleRecords("x", "y", "z", Thunk(Offset("x", NumArg(dx))), Thunk(Offset("y", NumArg(dy))), Thunk(Offset("z", NumArg(dz))),
                  time, easing, node);
  }

  /**
   * `moveBy(dx, 0, 0, 0)` followed by a tick of the started tween: with
   * `time` 0 the node's x moves by exactly dx, however far it had moved
   * since the start.
   */
  lemma MoveByInstantly(node: NodeState, dx: real, v: real, c: TickContext)
    requires Field(node.fields, "x").Num? && Field(node.fields, "y").Num? && Field(node.fields, "z").Num?
    requires var r := Captured(Empty(), MoveBy(NumArg(dx), NumArg(0.0), NumArg(0.0), NumArg(0.0), NoArg), node);
             c.origin == r.origin && c.target == r.target
    requires c.time == Some(0.0)
    ensures ScalarUpdate(Num(v), "x", c) == ClampNearZero(Num(v + dx))
  {
    MoveByRecordsOffsets(node, dx, 0.0, 0.0, NumArg(0.0), NoArg);
    ZeroDurationMovesAll(v, "x", c);
  }

  /** `scaleTo(s, time, easing)`, `easing` not a number: all three scales target s. */
  lemma ScaleToUniformRecords(node: NodeState, scale: real, time: Arg, easing: Arg)
    requires !easing.NumArg?
    ensures var r := Captured(Empty(), ScaleTo([NumArg(scale), time, easing]), node);
            "scaleX" in r.target && "scaleY" in r.target && "scaleZ" in r.target &&
            "scaleX" in r.origin && "scaleY" in r.origin && "scaleZ" in r.origin &&
            r.target["scaleX"] == Num(scale) && r.target["scaleY"] == Num(scale) && r.target["scaleZ"] == Num(scale) &&
            r.origin["scaleX"] == Field(node.fields, "scaleX") && r.origin["scaleY"] == Field(node.fields, "scaleY") &&
            r.origin["scaleZ"] == Field(node.fields, "scaleZ") &&
            r.keys == ["scaleX", "scaleY", "scaleZ", "easing"]
    ensures TweenTime(ScaleTo([NumArg(scale), time, easing])) == if time.NumArg? then Some(time.n) else None
  {
    TripleRecords("scaleX", "scaleY", "scaleZ", Literal(Num(scale)), Literal(Num(scale)), Literal(Num(scale)), time, easing, node);
  }

  /** `scaleTo(sx, sy, sz, time, easing)`: the third argument is a number, so each axis targets its own scale. */
  lemma ScaleToPerAxisRecords(node: NodeState, sx: real, sy: real, sz: real, time: Arg, easing: Arg)
    ensures var r := Captured(Empty(), ScaleTo([NumArg(sx), NumArg(sy), NumArg(sz), time, easing]), node);
            "scaleX" in r.target && "scaleY" in r.target && "scaleZ" in r.target &&
            "scaleX" in r.origin && "scaleY" in r.origin && "scaleZ" in r.origin &&
            r.target["scaleX"] == Num(sx) && r.target["scaleY"] == Num(sy) && r.target["scaleZ"] == Num(sz) &&
            r.origin["scaleX"] == Field(node.fields, "scaleX") && r.origin["scaleY"] == Field(node.fields, "scaleY") &&
            r.origin["scaleZ"] == Field(node.fields, "scaleZ") &&
            r.keys == ["scaleX", "scaleY", "scaleZ", "easing"]
    ensures TweenTime(ScaleTo([NumArg(sx), NumArg(sy), NumArg(sz), time, easing])) == if time.NumArg? then Some(time.n) else None
  {
    TripleRecords("scaleX", "scaleY", "scaleZ", Literal(Num(sx)), Literal(Num(sy)), Literal(Num(sz)), time, easing, node);
  }

  /** `scaleBy(k, time, easing)`, `easing` not a number: each scale targets k times its start value. */
  lemma ScaleByUniformRecords(node: NodeState, k: real, time: Arg, easing: Arg)
    requires !easing.NumArg?
    requires Field(node.fields, "scaleX").Num? && Field(node.fields, "scaleY").Num? && Field(node.fields, "scaleZ").Num?
    ensures var r := Captured(Empty(), ScaleBy([NumArg(k), time, easing]), node);
            "scaleX" in r.target && "scaleY" in r.target && "scaleZ" in r.target &&
            r.target["scaleX"] == Num(Mul(node.fields["scaleX"].n, k)) &&
            r.target["scaleY"] == Num(Mul(node.fields["scaleY"].n, k)) &&
            r.target["scaleZ"] == Num(Mul(node.fields["scaleZ"].n, k)) &&
            r.keys == ["scaleX", "scaleY", "scaleZ", "easing"]
    ensures ScaleByAsWritten([NumArg(k), time, easing]) == ScaleBy([NumArg(k), time, easing])
  {
    TripleRecords("scaleX", "scaleY", "scaleZ", Thunk(Factor("scaleX", NumArg(k))), Thunk(Factor("scaleY", NumArg(k))),
                  Thunk(Factor("scaleZ", NumArg(k))), time, easing, node);
  }

  /**
   * `scaleBy(kx, ky, kz, time, easing)` as written: every scale targets NaN,
   * whatever the node and the factors, so the first tick sets all three
   * scales of a node to NaN.
   */
  lemma ScaleByPerAxisAsWrittenIsNaN(node: NodeState, kx: real, ky: real, kz: real, time: Arg, easing: Arg)
    ensures var r := Captured(Empty(), ScaleByAsWritten([NumArg(kx), NumArg(ky), NumArg(kz), time, easing]), node);
            "scaleX" in r.target && "scaleY" in r.target && "scaleZ" in r.target &&
            r.target["scaleX"] == NaN && r.target["scaleY"] == NaN && r.target["scaleZ"] == NaN
  {
    TripleRecords("scaleX", "scaleY", "scaleZ", Thunk(Factor("scaleX", NoArg)), Thunk(Factor("scaleY", NoArg)),
                  Thunk(Factor("scaleZ", NoArg)), time, easing, node);
  }

  /** `scaleBy(kx, ky, kz, time, easing)` corrected: each scale targets its own factor times its start value. */
  lemma ScaleByPerAxisRecords(node: NodeState, kx: real, ky: real, kz: real, time: Arg, easing: Arg)
    requires Field(node.fields, "scaleX").Num? && Field(node.fields, "scaleY").Num? && Field(node.fields, "scaleZ").Num?
    ensures var r := Captured(Empty(), ScaleBy([NumArg(kx), NumArg(ky), NumArg(kz), time, easing]), node);
            "scaleX" in r.target && "scaleY" in r.target && "scaleZ" in r.target &&
            r.target["scaleX"] == Num(Mul(node.fields["scaleX"].n, kx)) &&
            r.target["scaleY"] == Num(Mul(node.fields["scaleY"].n, ky)) &&
            r.target["scaleZ"] == Num(Mul(node.fields["scaleZ"].n, kz)) &&
            r.keys == ["scaleX", "scaleY", "scaleZ", "easing"]
    ensures TweenTime(ScaleBy([NumArg(kx), NumArg(ky), NumArg(kz), time, easing])) == if time.NumArg? then Some(time.n) else None
  {
    TripleRecords("scaleX", "scaleY", "scaleZ", Thunk(Factor("scaleX", NumArg(kx))), Thunk(Factor("scaleY", NumArg(ky))),
                  Thunk(Factor("scaleZ", NumArg(kz))), time, easing, node);
  }

  /** `rotateTo(q, time, easing)`: the rotation targets q and starts from the node's `getQuat()`. */
  lemma RotateToRecords(node: NodeState, q: Quat, time: Arg, easing: Arg)
    ensures var r := Captured(Empty(), RotateTo(QuatArg(q), time, easing), node);
            "quat" in r.target && "quat" in r.origin && r.target["quat"] == QuatValue(q) && r.origin["quat"] == QuatValue(node.quat) &&
            r.keys == ["quat", "easing"]
    ensures TweenTime(RotateTo(QuatArg(q), time, easing)) == if time.NumArg? then Some(time.n) else None
  {
    SingleRecords("quat", Literal(QuatValue(q)), time, easing, node);
  }

  /** `rotateBy(q, time, easing)`: the rotation targets the start rotation multiplied by q. */
  lemma RotateByRecords(node: NodeState, q: Quat, time: Arg, easing: Arg, multiply: (Quat, Quat) -> Quat)
    ensures var r := Captured(Empty(), RotateBy(q, time, easing, multiply), node);
            "quat" in r.target && "quat" in r.origin && r.target["quat"] == QuatValue(multiply(node.quat, q)) &&
            r.origin["quat"] == QuatValue(node.quat) &&
            r.keys == ["quat", "easing"]
  {
    SingleRecords("quat", Thunk((s: NodeState) => QuatValue(multiply(s.quat, q))), time, easing, node);
  }

  /** `rotatePitchTo`, `rotateYawTo`, `rotateRollTo`: the target is the host quaternion built on the x, y or z axis. */
  lemma RotateAxisToRecords(node: NodeState, axis: Axis, angle: real, time: Arg, easing: Arg,
                            makeQuat: (real, real, real, real) -> Quat)
    ensures var r := Captured(Empty(), RotateAxisTo(axis, angle, time, easing, makeQuat), node);
            "quat" in r.target && "quat" in r.origin && r.origin["quat"] == QuatValue(node.quat) &&
            (axis == Pitch ==> r.target["quat"] == QuatValue(makeQuat(1.0, 0.0, 0.0, angle))) &&
            (axis == Yaw ==> r.target["quat"] == QuatValue(makeQuat(0.0, 1.0, 0.0, angle))) &&
            (axis == Roll ==> r.target["quat"] == QuatValue(makeQuat(0.0, 0.0, 1.0, angle)))
  {
    RotateToRecords(node, AxisQuat(axis, angle, makeQuat), time, easing);
  }

  /** `rotatePitchBy`, `rotateYawBy`, `rotateRollBy`: the target is the start rotation times the axis quaternion. */
  lemma RotateAxisByRecords(node: NodeState, axis: Axis, angle: real, time: Arg, easing: Arg,
                            makeQuat: (real, real, real, real) -> Quat, multiply: (Quat, Quat) -> Quat)
    ensures var r := Captured(Empty(), RotateAxisBy(axis, angle, time, easing, makeQuat, multiply), node);
            "quat" in r.target && "quat" in r.origin && r.origin["quat"] == QuatValue(node.quat) &&
            (axis == Pitch ==> r.target["quat"] == QuatValue(multiply(node.quat, makeQuat(1.0, 0.0, 0.0, angle)))) &&
            (axis == Yaw ==> r.target["quat"] == QuatValue(multiply(node.quat, makeQuat(0.0, 1.0, 0.0, angle)))) &&
            (axis == Roll ==> r.target["quat"] == QuatValue(multiply(node.quat, makeQuat(0.0, 0.0, 1.0, angle))))
  {
    RotateByRecords(node, AxisQuat(axis, angle, makeQuat), time, easing, multiply);
  }
}
