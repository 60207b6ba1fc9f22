/**
 * `enchant.gl.extension.Timeline`: the builders that turn their arguments into
 * the parameter object of a new Tween (`this.tween({...})`). The timeline
 * queue the tween is added to belongs to the host; a builder here returns the
 * parameter object, in the order its properties are written.
 *
 * A builder argument is a JavaScript value as the callers pass it: a number,
 * a function (an easing curve), a quaternion, or missing (`undefined`).
 */
module Timeline {
  import opened Base
  import opened Sprite
  import opened Tween

  datatype Arg = NumArg(n: real) | CurveArg(f: EasingFunction) | QuatArg(q: Quat) | NoArg

  /** `arguments[i]`: missing positions are `undefined`. */
  function ArgAt(args: seq<Arg>, i: nat): Arg {
    if i < |args| then args[i] else NoArg
  }

  /** An argument stored directly as a parameter value. */
  function ArgParam(a: Arg): (p: Param)
    ensures a.CurveArg? <==> p.EasingParam?
    ensures a.NumArg? ==> p == Literal(Num(a.n))
    ensures a.NoArg? ==> p == Literal(Undefined)
  {
    match a
    case NumArg(n) => Literal(Num(n))
    case CurveArg(f) => EasingParam(f)
    case QuatArg(q) => Literal(QuatValue(q))
    case NoArg => Literal(Undefined)
  }

  /** An argument used as an operand of `+` or `*`: numbers stay numbers, `undefined` gives NaN. */
  function ArgValue(a: Arg): (v: Value)
    ensures v.Num? <==> a.NumArg?
  {
    match a
    case NumArg(n) => Num(n)
    case QuatArg(q) => QuatValue(q)
    case _ => Undefined
  }

  /** The `time` and `easing` entries every builder ends with. */
  function Timing(time: Arg, easing: Arg): Params {
    [("time", ArgParam(time)), ("easing", ArgParam(easing))]
  }

  function MoveTo(x: Arg, y: Arg, z: Arg, time: Arg, easing: Arg): Params {
    [("x", ArgParam(x)), ("y", ArgParam(y)), ("z", ArgParam(z))] + Timing(time, easing)
  }

  function MoveZ(z: Arg, time: Arg, easing: Arg): Params {
    [("z", ArgParam(z))] + Timing(time, easing)
  }

  /** `function() { return this.<name> + d; }` */
  function Offset(name: string, d: Arg): NodeState -> Value {
    (s: NodeState) => Add(Field(s.fields, name), ArgValue(d))
  }

  function MoveBy(x: Arg, y: Arg, z: Arg, time: Arg, easing: Arg): Params {
    [("x", Thunk(Offset("x", x))), ("y", Thunk(Offset("y", y))), ("z", Thunk(Offset("z", z)))] + Timing(time, easing)
  }

  /** `typeof easing === "number"`: the third argument is a number, so the call gave one scale per axis. */
  predicate PerAxis(args: seq<Arg>) {
    ArgAt(args, 2).NumArg?
  }

  function ScaleTo(args: seq<Arg>): Params {
    if PerAxis(args) then
      [("scaleX", ArgParam(ArgAt(args, 0))), ("scaleY", ArgParam(ArgAt(args, 1))), ("scaleZ", ArgParam(ArgAt(args, 2)))]
      + Timing(ArgAt(args, 3), ArgAt(args, 4))
    else
      [("scaleX", ArgParam(ArgAt(args, 0))), ("scaleY", ArgParam(ArgAt(args, 0))), ("scaleZ", ArgParam(ArgAt(args, 0)))]
      + Timing(ArgAt(args, 1), ArgAt(args, 2))
  }

  /** `function() { return this.<name> * k; }` */
  function Factor(name: string, k: Arg): NodeState -> Value {
    (s: NodeState) => MulValue(Field(s.fields, name), ArgValue(k))
  }

  /**
   * `scaleBy` as written: in the per-axis branch each inner function reads
   * `arguments[i]` of its own call, which the start handler makes with no
   * arguments, so every factor is `undefined`.
   */
  function ScaleByAsWritten(args: seq<Arg>): Params {
    if PerAxis(args) then
      [("scaleX", Thunk(Factor("scaleX", NoArg))), ("scaleY", Thunk(Factor("scaleY", NoArg))), ("scaleZ", Thunk(Factor("scaleZ", NoArg)))]
      + Timing(ArgAt(args, 3), ArgAt(args, 4))
    else
      [("scaleX", Thunk(Factor("scaleX", ArgAt(args, 0)))), ("scaleY", Thunk(Factor("scaleY", ArgAt(args, 0)))), ("scaleZ", Thunk(Factor("scaleZ", ArgAt(args, 0))))]
      + Timing(ArgAt(args, 1), ArgAt(args, 2))
  }

  /** `scaleBy` with the per-axis factors taken from the builder's own arguments, as documented. */
  function ScaleBy(args: seq<Arg>): Params {
    if PerAxis(args) then
      [("scaleX", Thunk(Factor("scaleX", ArgAt(args, 0)))), ("scaleY", Thunk(Factor("scaleY", ArgAt(args, 1)))), ("scaleZ", Thunk(Factor("scaleZ", ArgAt(args, 2))))]
      + Timing(ArgAt(args, 3), ArgAt(args, 4))
    else
      [("scaleX", Thunk(Factor("scaleX", ArgAt(args, 0)))), ("scaleY", Thunk(Factor("scaleY", ArgAt(args, 0)))), ("scaleZ", Thunk(Factor("scaleZ", ArgAt(args, 0))))]
      + Timing(ArgAt(args, 1), ArgAt(args, 2))
  }

  function RotateTo(quat: Arg, time: Arg, easing: Arg): Params {
    [("quat", ArgParam(quat))] + Timing(time, easing)
  }

  /** `function() { return this.getQuat().multiply(quat); }`, with the host's quaternion product as `multiply`. */
  function RotateBy(quat: Quat, time: Arg, easing: Arg, multiply: (Quat, Quat) -> Quat): Params {
    [("quat", Thunk((s: NodeState) => QuatValue(multiply(s.quat, quat))))] + Timing(time, easing)
  }

  /** The axis of each single-axis rotation builder. */
  datatype Axis = Pitch | Yaw | Roll

  /** `new enchant.gl.Quat(ax, ay, az, angle)` for the builder's axis; `makeQuat` is the host constructor. */
  function AxisQuat(axis: Axis, angle: real, makeQuat: (real, real, real, real) -> Quat): Quat {
    match axis
    case Pitch => makeQuat(1.0, 0.0, 0.0, angle)
    case Yaw => makeQuat(0.0, 1.0, 0.0, angle)
    case Roll => makeQuat(0.0, 0.0, 1.0, angle)
  }

  /** `rotatePitchTo`, `rotateYawTo`, `rotateRollTo`. */
  function RotateAxisTo(axis: Axis, angle: real, time: Arg, easing: Arg, makeQuat: (real, real, real, real) -> Quat): Params {
    RotateTo(QuatArg(AxisQuat(axis, angle, makeQuat)), time, easing)
  }

  /** `rotatePitchBy`, `rotateYawBy`, `rotateRollBy`. */
  function RotateAxisBy(axis: Axis, angle: real, time: Arg, easing: Arg,
                        makeQuat: (real, real, real, real) -> Quat, multiply: (Quat, Quat) -> Quat): Params {
    RotateBy(AxisQuat(axis, angle, makeQuat), time, easing, multiply)
  }
}
