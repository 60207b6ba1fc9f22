/**
 * `enchant.gl.extension.Tween`: an action that, when it starts, records for
 * each of its parameters the node's current value (`origin`) and the value to
 * reach (`target`), and on every tick moves each recorded node property by its
 * share of `target - origin` for the frames that have passed, through an
 * easing curve.
 *
 * The parameter object is a sequence of (name, value) entries in the order a
 * JavaScript `for ... in` visits its own properties; its names are distinct.
 * The host action the tween extends copies the non-null parameters onto the
 * tween (so `time` and `easing` come from the entries of those names) and
 * advances `frame`; the event dispatch that runs the two handlers is the
 * host's as well.
 */
module Tween {
  import opened Base
  import opened Sprite

  /** An easing curve `(t, b, c, d)`: the value at frame `t` of a change from `b` by `c` over `d` frames. */
  type EasingFunction = (real, real, real, real) -> real

  /** The default curve the constructor installs, or one given as the `easing` parameter. */
  datatype Easing = Linear | Curve(f: EasingFunction)

  /**
   * A parameter value: a plain value, a function that computes the target
   * from the node (called with the node as `this`), or an easing curve
   * (a function too, so the start handler calls it in the same way).
   */
  datatype Param = Literal(v: Value) | Thunk(f: NodeState -> Value) | EasingParam(curve: EasingFunction)

  type Params = seq<(string, Param)>

  /** `10e-8`, the snapping distance of both the quaternion ratio and the node properties. */
  const Epsilon: real := 0.0000001

  /** Parameter names the start handler records nothing for; `easing` is not one of them. */
  const Excepted: seq<string> := ["frame", "time", "callback", "onactiontick", "onactionstart", "onactionend"]

  predicate DistinctNames(params: Params) {
    forall i, j :: 0 <= i < j < |params| ==> params[i].0 != params[j].0
  }

  function Names(params: Params): set<string> {
    set i | 0 <= i < |params| :: params[i].0
  }

  /** The names a start records, in parameter order. */
  function Recordable(params: Params): seq<string>
    decreases |params|
  {
    if params == [] then []
    else
      var n := |params| - 1;
      Recordable(params[..n]) + (if params[n].0 in Excepted then [] else [params[n].0])
  }

  // ---------------------------------------------------------------------------
  // What the constructor takes from the parameters

  /** `this.time` as the host copies it: a number, or missing (`null`) for anything else. */
  function TweenTime(params: Params): (t: Option<real>)
    ensures t.Some? ==> exists i :: 0 <= i < |params| && params[i] == ("time", Literal(Num(t.value)))
  {
    if params == [] then None
    else if params[0].0 == "time" then
      (if params[0].1.Literal? && params[0].1.v.Num? then Some(params[0].1.v.n) else None)
    else
      var t := TweenTime(params[1..]);
      if t.Some? then assert params[1..][0] == params[1]; t else None
  }

  /** `this.easing`: the `easing` parameter when it is a curve, else the linear default. */
  function TweenEasing(params: Params): Easing {
    if params == [] then Linear
    else if params[0].0 == "easing" then
      (match params[0].1 case EasingParam(f) => Curve(f) case _ => Linear)
    else TweenEasing(params[1..])
  }

  // ---------------------------------------------------------------------------
  // Easing

  /**
   * The default curve `c * t / d + b`. A zero `d` gives NaN (0/0) or an
   * infinity, both NaN here; the one infinity that matters, a snapped quaternion
   * ratio, is `LinearOverZero`.
   */
  function LinearEasing(t: real, b: real, c: real, d: real): Value {
    if d == 0.0 then NaN else Num(c * t / d + b)
  }

  /** `tween.time` in arithmetic: a missing `time` is `null`, which counts as 0. */
  function NullAsZero(time: Option<real>): real {
    if time.Some? then time.value else 0.0
  }

  /** `tween.easing(t, 0, 1, tween.time)`: the fraction of the change done at frame `t`. */
  function Ease(e: Easing, t: real, time: Option<real>): Value {
    match e
    case Linear => LinearEasing(t, 0.0, 1.0, NullAsZero(time))
    case Curve(f) => Num(f(t, 0.0, 1.0, NullAsZero(time)))
  }

  /**
   * The linear curve at a positive frame with a zero or missing `time`: `t / 0`
   * is +Infinity, and `1 - Infinity < 10e-8` snaps the quaternion ratio to 1.
   */
  predicate LinearOverZero(e: Easing, time: Option<real>, frame: real) {
    e.Linear? && NullAsZero(time) == 0.0 && frame > 0.0
  }

  /** The same fraction for a known non-zero duration. */
  function Eased(e: Easing, t: real, d: real): real
    requires d != 0.0
  {
    match e
    case Linear => 1.0 * t / d + 0.0
    case Curve(f) => f(t, 0.0, 1.0, d)
  }

  /**
   * The fraction of `target - origin` a scalar property moves by in a tick of
   * `elapsed` frames starting at frame `frame`: all of it when `time` is 0,
   * else the growth of the curve up to `min(time, frame + elapsed)`, a
   * missing `time` counting as 0.
   */
  function ScalarRatio(e: Easing, time: Option<real>, frame: real, elapsed: real): Value {
    if time == Some(0.0) then Num(1.0)
    else Sub(Ease(e, Min(NullAsZero(time), frame + elapsed), time), Ease(e, frame, time))
  }

  /**
   * The slerp ratio of the `quat` property: the curve at `frame`, snapped to
   * 1 within 10e-8 of 1 or when the linear curve is infinite.
   */
  function QuatRatio(e: Easing, time: Option<real>, frame: real): (r: Value)
    ensures LinearOverZero(e, time, frame) ==> r == Num(1.0)
    ensures !LinearOverZero(e, time, frame) ==> (r.Num? <==> Ease(e, frame, time).Num?)
    ensures r.Num? ==> r.n == 1.0 || 1.0 - r.n >= Epsilon
    ensures r.Num? && r.n != 1.0 ==> r == Ease(e, frame, time)
  {
    var r := Ease(e, frame, time);
    if LinearOverZero(e, time, frame) then Num(1.0)
    else if r.Num? && 1.0 - r.n < Epsilon then Num(1.0) else r
  }

  /**
   * A property value is set to 0 when its magnitude is below 10e-8: no
   * number strictly between -10e-8 and 10e-8 other than 0 comes out, larger
   * ones and NaN pass unchanged.
   */
  function ClampNearZero(v: Value): (r: Value)
    ensures r.Num? <==> v.Num?
    ensures r.Num? ==> r.n == 0.0 || Abs(r.n) >= Epsilon
    ensures !v.Num? || Abs(v.n) >= Epsilon ==> r == v
    ensures v.Num? && Abs(v.n) < Epsilon ==> r == Num(0.0)
  {
    if v.Num? && Abs(v.n) < Epsilon then Num(0.0) else v
  }

  // ---------------------------------------------------------------------------
  // The start handler as a function of the parameters

  /** The value a parameter gives at start; an easing curve called without arguments gives NaN. */
  function Evaluate(p: Param, node: NodeState): Value {
    match p
    case Literal(v) => v
    case Thunk(f) => f(node)
    case EasingParam(_) => NaN
  }

  /** A function-valued parameter, which the start handler calls with the node as `this`. */
  predicate IsCall(p: Param) {
    !p.Literal?
  }

  /**
   * The parameters the start handler calls, in order, as the code is written:
   * it calls every function-valued parameter before it checks the name
   * against `Excepted`, so a `callback` or `onaction*` handler given as a
   * parameter runs at start too.
   */
  function StartCallsAsWritten(params: Params): seq<string>
    decreases |params|
  {
    if params == [] then []
    else
      var n := |params| - 1;
      StartCallsAsWritten(params[..n]) + (if IsCall(params[n].1) then [params[n].0] else [])
  }

  /** The parameters the start handler calls once the check against `Excepted` comes first. */
  function StartCalls(params: Params): seq<string>
    decreases |params|
  {
    if params == [] then []
    else
      var n := |params| - 1;
      StartCalls(params[..n]) + (if IsCall(params[n].1) && params[n].0 !in Excepted then [params[n].0] else [])
  }

  /** The tween's `origin` and `target` dictionaries, and the order their keys were first added in. */
  datatype Capture = Capture(origin: map<string, Value>, target: map<string, Value>, keys: seq<string>)

  predicate DistinctKeys(keys: seq<string>) {
    forall i, j :: 0 <= i < j < |keys| ==> keys[i] != keys[j]
  }

  /** Both dictionaries have exactly the listed keys, each listed once. */
  predicate WellFormed(c: Capture) {
    DistinctKeys(c.keys) && c.origin.Keys == c.target.Keys && (set k | k in c.keys) == c.target.Keys
  }

  /** JavaScript key order: a key keeps its place when it is assigned again. */
  function AddKey(keys: seq<string>, name: string): seq<string> {
    if name in keys then keys else keys + [name]
  }

  /** The value `origin` records for a name: `getQuat()` for `quat`, else the node's property. */
  function OriginOf(name: string, node: NodeState): Value {
    if name == "quat" then QuatValue(node.quat) else Field(node.fields, name)
  }

  /** One iteration of the start handler's loop. */
  function Record(c: Capture, name: string, p: Param, node: NodeState): Capture {
    var v := Evaluate(p, node);
    var c1 := if name in Excepted then c
              else Capture(c.origin[name := Field(node.fields, name)], c.target[name := v], AddKey(c.keys, name));
    if name == "quat" then Capture(c1.origin[name := QuatValue(node.quat)], c1.target[name := v], AddKey(c1.keys, name))
    else c1
  }

  /** The start handler run over `params`, from dictionaries `c0`. */
  function Captured(c0: Capture, params: Params, node: NodeState): Capture
    decreases |params|
  {
    if params == [] then c0
    else
      var n := |params| - 1;
      Record(Captured(c0, params[..n], node), params[n].0, params[n].1, node)
  }

  // ---------------------------------------------------------------------------
  // The tick handler as a function of the node

  /** What one tick reads besides the node. */
  datatype TickContext = TickContext(origin: map<string, Value>, target: map<string, Value>,
                                     easing: Easing, time: Option<real>, frame: real, elapsed: real,
                                     slerp: (Value, Value, Value) -> Quat)

  /**
   * `node[prop] += (target[prop] - origin[prop]) * ratio`, then the near-zero
   * snap. The result is never `undefined`, so a property once ticked stays
   * defined on the node.
   */
  function ScalarUpdate(v: Value, prop: string, c: TickContext): (r: Value)
    ensures r.Num? || r == NaN
    ensures r.Num? ==> v.Num?
  {
    ClampNearZero(Add(v, MulValue(Sub(Field(c.target, prop), Field(c.origin, prop)),
                                  ScalarRatio(c.easing, c.time, c.frame, c.elapsed))))
  }

  /**
   * One iteration of the tick handler's loop. The handler's `this` is the
   * node, so a non-`quat` key is skipped when the node does not define it.
   */
  function TickOne(s: NodeState, prop: string, c: TickContext): NodeState {
    if prop == "quat" then
      s.(quat := c.slerp(Field(c.origin, prop), Field(c.target, prop), QuatRatio(c.easing, c.time, c.frame)))
    else if Field(s.fields, prop) == Undefined then s
    else s.(fields := s.fields[prop := ScalarUpdate(Field(s.fields, prop), prop, c)])
  }

  /** The tick handler run over the keys of `target`. */
  function Ticked(s: NodeState, keys: seq<string>, c: TickContext): NodeState
    decreases |keys|
  {
    if keys == [] then s
    else
      var n := |keys| - 1;
      TickOne(Ticked(s, keys[..n], c), keys[n], c)
  }

  // ---------------------------------------------------------------------------
  // The tween object

  class Tween {
    const params: Params
    const node: Sprite3D
    const time: Option<real>
    const easing: Easing
    var frame: real
    var origin: map<string, Value>
    var target: map<string, Value>
    var keys: seq<string>
    /** The names of the parameters the start handler has called, in order. */
    ghost var calls: seq<string>

    ghost predicate Valid()
      reads this
    {
      DistinctNames(params) && WellFormed(Capture(origin, target, keys))
    }

    function Recorded(): Capture
      reads this
    {
      Capture(origin, target, keys)
    }

    /** `new Tween(params)`, added to the timeline of `node`. */
    constructor (params: Params, node: Sprite3D)
      requires DistinctNames(params)
      ensures Valid()
      ensures this.params == params && this.node == node && frame == 0.0
      ensures time == TweenTime(params) && easing == TweenEasing(params)
      ensures Recorded() == Capture(map[], map[], []) && calls == []
    {
      this.params := params;
      this.node := node;
      time := TweenTime(params);
      easing := TweenEasing(params);
      frame := 0.0;
      origin, target, keys := map[], map[], [];
      calls := [];
    }

    /**
     * The ACTION_START handler, with a function-valued parameter called only
     * when its name is recorded.
     */
    method Start()
      requires Valid()
      modifies this`origin, this`target, this`keys, this`calls
      ensures Valid()
      ensures Recorded() == Captured(old(Recorded()), params, node.State())
      ensures calls == old(calls) + StartCalls(params)
    {
      var st := node.State();
      ghost var c0 := Recorded();
      ghost var calls0 := calls;
      var i := 0;
      while i < |params|
        invariant 0 <= i <= |params|
        invariant Recorded() == Captured(c0, params[..i], st)
        invariant calls == calls0 + StartCalls(params[..i])
      {
        StartStep(params[i].0, params[i].1, st);
        assert params[..i + 1][..i] == params[..i];
        i := i + 1;
      }
      assert params[..|params|] == params;
      CapturedWellFormed(c0, params, st);
    }

    /** The body of the start handler's loop, for the parameter `name: p`. */
    method StartStep(name: string, p: Param, st: NodeState)
      modifies this`origin, this`target, this`keys, this`calls
      ensures Recorded() == Record(old(Recorded()), name, p, st)
      ensures calls == old(calls) + (if IsCall(p) && name !in Excepted then [name] else [])
    {
      if name !in Excepted {
        var targetVal := Evaluate(p, st);
        if IsCall(p) {
          calls := calls + [name];
        }
        origin := origin[name := Field(st.fields, name)];
        target := target[name := targetVal];
        keys := AddKey(keys, name);
        if name == "quat" {
          origin := origin[name := QuatValue(st.quat)];
          target := target[name := targetVal];
          keys := AddKey(keys, name);
        }
      }
    }

    /**
     * The ACTION_TICK handler for a tick of `elapsed` frames; `slerp` is the
     * host's quaternion interpolation. The host calls the handler
     * with the node as `this`, so a non-`quat` key is skipped when the node
     * does not define it.
     */
    method Tick(elapsed: real, slerp: (Value, Value, Value) -> Quat)
      requires Valid()
      modifies node
      ensures node.State() == Ticked(old(node.State()), keys, Context(elapsed, slerp))
      ensures node.globalCoordCache == old(node.globalCoordCache) && node.screenCoordCache == old(node.screenCoordCache)
    {
      ghost var c := Context(elapsed, slerp);
      ghost var s0 := node.State();
      var i := 0;
      while i < |keys|
        invariant 0 <= i <= |keys|
        invariant node.State() == Ticked(s0, keys[..i], c)
        invariant node.globalCoordCache == old(node.globalCoordCache) && node.screenCoordCache == old(node.screenCoordCache)
      {
        TickProperty(keys[i], elapsed, slerp);
        assert keys[..i + 1][..i] == keys[..i];
        i := i + 1;
      }
      assert keys[..|keys|] == keys;
    }

    /** What a tick of `elapsed` frames reads besides the node. */
    function Context(elapsed: real, slerp: (Value, Value, Value) -> Quat): (c: TickContext)
      reads this
      ensures c.origin == origin && c.target == target && c.frame == frame && c.elapsed == elapsed
    {
      TickContext(origin, target, easing, time, frame, elapsed, slerp)
    }

    /** The body of the tick handler's loop, for the key `prop`. */
    method TickProperty(prop: string, elapsed: real, slerp: (Value, Value, Value) -> Quat)
      modifies node
      ensures node.State() == TickOne(old(node.State()), prop, Context(elapsed, slerp))
      ensures node.globalCoordCache == old(node.globalCoordCache) && node.screenCoordCache == old(node.screenCoordCache)
    {
      if prop == "quat" {
        var ratio := Ease(easing, frame, time);
        if LinearOverZero(easing, time, frame) {
          ratio := Num(1.0);
        } else if ratio.Num? && 1.0 - ratio.n < Epsilon {
          ratio := Num(1.0);
        }
        node.quat := slerp(Field(origin, prop), Field(target, prop), ratio);
      } else if Field(node.fields, prop) != Undefined {
        var ratio := if time == Some(0.0) then Num(1.0)
                     else Sub(Ease(easing, Min(NullAsZero(time), frame + elapsed), time), Ease(easing, frame, time));
        var v := Add(Field(node.fields, prop), MulValue(Sub(Field(target, prop), Field(origin, prop)), ratio));
        if v.Num? && Abs(v.n) < Epsilon {
          v := Num(0.0);
        }
        node.fields := node.fields[prop := v];
      }
    }
  }

  // ---------------------------------------------------------------------------
  // The dictionaries stay well formed

  lemma RecordWellFormed(c: Capture, name: string, p: Param, node: NodeState)
    requires WellFormed(c)
    ensures WellFormed(Record(c, name, p, node))
    ensures Record(c, name, p, node).target.Keys == c.target.Keys + (if name in Excepted then {} else {name})
  {
    var c1 := if name in Excepted then c
              else Capture(c.origin[name := Field(node.fields, name)], c.target[name := Evaluate(p, node)], AddKey(c.keys, name));
    AddKeyFacts(c.keys, name);
    AddKeyFacts(c1.keys, name);
  }

  lemma AddKeyFacts(keys: seq<string>, name: string)
    ensures (set k | k in AddKey(keys, name)) == (set k | k in keys) + {name}
    ensures DistinctKeys(keys) ==> DistinctKeys(AddKey(keys, name))
  {
    var r := AddKey(keys, name);
    assert forall k :: k in r <==> k in keys || k == name;
  }

  /** Starting from well-formed dictionaries, the start handler adds exactly the non-excepted names. */
  lemma {:induction false} CapturedWellFormed(c0: Capture, params: Params, node: NodeState)
    requires WellFormed(c0)
    ensures WellFormed(Captured(c0, params, node))
    ensures Captured(c0, params, node).target.Keys == c0.target.Keys + (Names(params) - (set x | x in Excepted))
    decreases |params|
  {
    if params != [] {
      var n := |params| - 1;
      CapturedWellFormed(c0, params[..n], node);
      RecordWellFormed(Captured(c0, params[..n], node), params[n].0, params[n].1, node);
      NamesOfPrefix(params);
    }
  }

  lemma NamesOfPrefix(params: Params)
    requires params != []
    ensures Names(params) == Names(params[..|params| - 1]) + {params[|params| - 1].0}
  {
    var n := |params| - 1;
    forall x ensures x in Names(params) <==> x in Names(params[..n]) + {params[n].0} {
      if x in Names(params) {
        var i :| 0 <= i < |params| && params[i].0 == x;
        if i < n { assert params[..n][i] == params[i]; }
      }
      if x in Names(params[..n]) {
        var i :| 0 <= i < n && params[..n][i].0 == x;
        assert params[i] == params[..n][i];
      }
    }
  }
}
