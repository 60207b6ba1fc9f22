/**
 * What the tween's two handlers guarantee: which parameters the start
 * handler records and with what values and key order, and how a tick moves
 * the node's properties: once per recorded key, by the eased share of
 * `target - origin`, snapped near zero, with the increments of successive
 * ticks adding up to the growth of the easing curve.
 */
module TweenProps {
  import opened Base
  import opened Sprite
  import opened Tween

  // ---------------------------------------------------------------------------
  // Start

  /** With distinct names, the `time` entry alone decides the duration: its number, or none. */
  lemma {:induction false} TweenTimeOfEntry(params: Params, i: int)
    requires DistinctNames(params) && 0 <= i < |params| && params[i].0 == "time"
    ensures TweenTime(params) == if params[i].1.Literal? && params[i].1.v.Num? then Some(params[i].1.v.n) else None
    decreases |params|
  {
    if i > 0 {
      var rest := params[1..];
      assert params[0].0 != params[i].0;
      assert DistinctNames(rest) by {
        forall a, b | 0 <= a < b < |rest| ensures rest[a].0 != rest[b].0 {
          assert rest[a] == params[a + 1] && rest[b] == params[b + 1];
        }
      }
      assert rest[i - 1] == params[i];
      TweenTimeOfEntry(rest, i - 1);
    }
  }

  /** With distinct names, the `easing` entry alone decides the curve: a given curve, else linear. */
  lemma {:induction false} TweenEasingOfEntry(params: Params, i: int)
    requires DistinctNames(params) && 0 <= i < |params| && params[i].0 == "easing"
    ensures TweenEasing(params) == if params[i].1.EasingParam? then Curve(params[i].1.curve) else Linear
    decreases |params|
  {
    if i > 0 {
      var rest := params[1..];
      assert params[0].0 != params[i].0;
      assert DistinctNames(rest) by {
        forall a, b | 0 <= a < b < |rest| ensures rest[a].0 != rest[b].0 {
          assert rest[a] == params[a + 1] && rest[b] == params[b + 1];
        }
      }
      assert rest[i - 1] == params[i];
      TweenEasingOfEntry(rest, i - 1);
    }
  }

  /** Without an `easing` entry the curve is the linear default. */
  lemma {:induction false} NoEasingEntryIsLinear(params: Params)
    requires forall i :: 0 <= i < |params| ==> params[i].0 != "easing"
    ensures TweenEasing(params) == Linear
    decreases |params|
  {
    if params != [] {
      assert forall i :: 0 <= i < |params[1..]| ==> params[1..][i].0 != "easing" by {
        forall i | 0 <= i < |params[1..]| ensures params[1..][i].0 != "easing" {
          assert params[1..][i] == params[i + 1];
        }
      }
      NoEasingEntryIsLinear(params[1..]);
    }
  }

  /**
   * Every recorded parameter has as target the value the parameter gives
   * against the node (a function parameter called once with the node as
   * `this`) and as origin the node's current value (`getQuat()` for `quat`).
   */
  lemma {:induction false} CapturedValues(c0: Capture, params: Params, node: NodeState, i: int)
    requires DistinctNames(params) && 0 <= i < |params| && params[i].0 !in Excepted
    ensures var r := Captured(c0, params, node);
            params[i].0 in r.target && params[i].0 in r.origin &&
            r.target[params[i].0] == Evaluate(params[i].1, node) &&
            r.origin[params[i].0] == OriginOf(params[i].0, node)
    decreases |params|
  {
    var n := |params| - 1;
    if i < n {
      var pre := params[..n];
      assert pre[i] == params[i];
      assert DistinctNames(pre) by {
        forall a, b | 0 <= a < b < |pre| ensures pre[a].0 != pre[b].0 {
          assert pre[a] == params[a] && pre[b] == params[b];
        }
      }
      CapturedValues(c0, pre, node, i);
      assert params[n].0 != params[i].0;
    }
  }

  /** An excepted name, or one that is not a parameter, keeps whatever the dictionaries held. */
  lemma {:induction false} CapturedLeavesOthers(c0: Capture, params: Params, node: NodeState, name: string)
    requires name in Excepted || name !in Names(params)
    ensures var r := Captured(c0, params, node);
            (name in r.target <==> name in c0.target) && (name in r.origin <==> name in c0.origin) &&
            (name in c0.target ==> r.target[name] == c0.target[name]) &&
            (name in c0.origin ==> r.origin[name] == c0.origin[name])
    decreases |params|
  {
    if params != [] {
      var n := |params| - 1;
      NamesOfPrefix(params);
      CapturedLeavesOthers(c0, params[..n], node, name);
    }
  }

  /**
   * Started from empty dictionaries, the keys of `target` come out in
   * parameter order, excepted names dropped.
   */
  lemma {:induction false} CapturedKeyOrder(c0: Capture, params: Params, node: NodeState)
    requires DistinctNames(params)
    requires forall i :: 0 <= i < |params| ==> params[i].0 !in c0.keys
    ensures Captured(c0, params, node).keys == c0.keys + Recordable(params)
    decreases |params|
  {
    if params != [] {
      var n := |params| - 1;
      var pre := params[..n];
      assert DistinctNames(pre) by {
        forall a, b | 0 <= a < b < |pre| ensures pre[a].0 != pre[b].0 {
          assert pre[a] == params[a] && pre[b] == params[b];
        }
      }
      assert forall i :: 0 <= i < |pre| ==> pre[i].0 !in c0.keys by {
        forall i | 0 <= i < |pre| ensures pre[i].0 !in c0.keys { assert pre[i] == params[i]; }
      }
      CapturedKeyOrder(c0, pre, node);
      RecordableNames(pre);
      forall j | 0 <= j < |pre| ensures pre[j].0 != params[n].0 {
        assert pre[j] == params[j];
      }
      assert params[n].0 !in Recordable(pre);
      RecordKeys(Captured(c0, pre, node), params[n].0, params[n].1, node);
    }
  }

  /** One step of the start handler appends a non-excepted name it has not seen and nothing else. */
  lemma RecordKeys(c: Capture, name: string, p: Param, node: NodeState)
    ensures Record(c, name, p, node).keys == if name in Excepted then c.keys else AddKey(c.keys, name)
  {
  }

  lemma {:induction false} RecordableNames(params: Params)
    ensures forall x :: x in Recordable(params) ==> exists j :: 0 <= j < |params| && params[j].0 == x
    decreases |params|
  {
    if params != [] {
      var n := |params| - 1;
      RecordableNames(params[..n]);
      forall x | x in Recordable(params) ensures exists j :: 0 <= j < |params| && params[j].0 == x {
        if x in Recordable(params[..n]) {
          var j :| 0 <= j < n && params[..n][j].0 == x;
          assert params[j] == params[..n][j];
        } else {
          assert params[n].0 == x;
        }
      }
    }
  }

  /** `easing` is not on the exception list: an `easing` parameter gets an origin and a target. */
  lemma EasingIsRecorded(c0: Capture, params: Params, node: NodeState, i: int)
    requires DistinctNames(params) && 0 <= i < |params| && params[i].0 == "easing"
    ensures "easing" in Captured(c0, params, node).target
    ensures Captured(c0, params, node).target["easing"] == Evaluate(params[i].1, node)
  {
    assert "easing" !in Excepted;
    CapturedValues(c0, params, node, i);
  }

  /**
   * The corrected start calls exactly the function-valued parameters whose
   * names it records.
   */
  lemma {:induction false} StartCallsExactly(params: Params, name: string)
    ensures name in StartCalls(params) <==>
            name !in Excepted && exists i :: 0 <= i < |params| && params[i].0 == name && IsCall(params[i].1)
    decreases |params|
  {
    if params != [] {
      var n := |params| - 1;
      var pre := params[..n];
      StartCallsExactly(pre, name);
      if name in StartCalls(pre) {
        var i :| 0 <= i < |pre| && pre[i].0 == name && IsCall(pre[i].1);
        assert params[i] == pre[i];
      }
      if name !in Excepted && exists i :: 0 <= i < |params| && params[i].0 == name && IsCall(params[i].1) {
        var i :| 0 <= i < |params| && params[i].0 == name && IsCall(params[i].1);
        if i < n {
          assert pre[i] == params[i];
        }
      }
    }
  }

  /** As written, the start calls every function-valued parameter, whatever its name. */
  lemma {:induction false} StartCallsAsWrittenExactly(params: Params, name: string)
    ensures name in StartCallsAsWritten(params) <==>
            exists i :: 0 <= i < |params| && params[i].0 == name && IsCall(params[i].1)
    decreases |params|
  {
    if params != [] {
      var n := |params| - 1;
      var pre := params[..n];
      StartCallsAsWrittenExactly(pre, name);
      if name in StartCallsAsWritten(pre) {
        var i :| 0 <= i < |pre| && pre[i].0 == name && IsCall(pre[i].1);
        assert params[i] == pre[i];
      }
      if exists i :: 0 <= i < |params| && params[i].0 == name && IsCall(params[i].1) {
        var i :| 0 <= i < |params| && params[i].0 == name && IsCall(params[i].1);
        if i < n {
          assert params[..n][i] == params[i];
        }
      }
    }
  }

  /**
   * `tween({x: 1, onactionstart: h})` as written calls `h` at start, with the
   * node as `this`, although the name is excepted; the corrected start
   * calls nothing.
   */
  lemma {:induction false} HandlerCalledAtStartAsWritten(h: NodeState -> Value)
    ensures StartCallsAsWritten([("x", Literal(Num(1.0))), ("onactionstart", Thunk(h))]) == ["onactionstart"]
    ensures StartCalls([("x", Literal(Num(1.0))), ("onactionstart", Thunk(h))]) == []
  {
    var params := [("x", Literal(Num(1.0))), ("onactionstart", Thunk(h))];
    var head := [("x", Literal(Num(1.0)))];
    assert params[..1] == head;
    assert head[..0] == [];
    assert StartCalls(head) == [] && StartCallsAsWritten(head) == [];
    assert "onactionstart" in Excepted && IsCall(params[1].1);
  }

  // ---------------------------------------------------------------------------
  // Tick

  /**
   * A tick changes a node property exactly when it is a recorded key other
   * than `quat` that the node, the handler's `this`, defines; such a property
   * gets ScalarUpdate of its old value, once.
   */
  lemma {:induction false} TickedFields(s: NodeState, keys: seq<string>, c: TickContext, k: string)
    requires DistinctKeys(keys)
    ensures var r := Ticked(s, keys, c);
            (k in keys && k != "quat" && Field(s.fields, k) != Undefined ==>
               k in r.fields && r.fields[k] == ScalarUpdate(Field(s.fields, k), k, c)) &&
            (!(k in keys && k != "quat" && Field(s.fields, k) != Undefined) ==>
               (k in r.fields <==> k in s.fields) && Field(r.fields, k) == Field(s.fields, k))
    decreases |keys|
  {
    if keys != [] {
      var n := |keys| - 1;
      var pre := keys[..n];
      assert DistinctKeys(pre) by {
        forall a, b | 0 <= a < b < |pre| ensures pre[a] != pre[b] {
          assert pre[a] == keys[a] && pre[b] == keys[b];
        }
      }
      TickedFields(s, pre, c, k);
      TickOneFields(Ticked(s, pre, c), keys[n], c, k);
      if keys[n] == k {
        assert k !in pre;
      }
    }
  }

  /** One step of the tick loop changes property `k` only when `k` is the step's property and the node defines it. */
  lemma TickOneFields(s: NodeState, prop: string, c: TickContext, k: string)
    ensures var r := TickOne(s, prop, c);
            (prop == k && k != "quat" && Field(s.fields, k) != Undefined ==>
               k in r.fields && r.fields[k] == ScalarUpdate(Field(s.fields, k), k, c)) &&
            (!(prop == k && k != "quat" && Field(s.fields, k) != Undefined) ==>
               (k in r.fields <==> k in s.fields) && Field(r.fields, k) == Field(s.fields, k))
  {
  }

  /**
   * Ticks never change which properties the node defines: one the node does
   * not define is skipped and stays undefined, whatever its parameter, and
   * one it defines stays a number or NaN.
   */
  lemma UndefinedPropertyStays(s: NodeState, keys: seq<string>, c: TickContext, k: string)
    requires DistinctKeys(keys)
    ensures var r := Ticked(s, keys, c);
            Field(r.fields, k) == Undefined <==> Field(s.fields, k) == Undefined
    ensures Field(s.fields, k) == Undefined ==>
              var r := Ticked(s, keys, c);
              (k in r.fields <==> k in s.fields) && Field(r.fields, k) == Undefined
  {
    TickedFields(s, keys, c, k);
  }

  /**
   * A recorded property the node defines, whose target is not a number (an
   * `undefined` parameter, or a curve called without arguments), becomes NaN
   * on every tick.
   */
  lemma UndefinedTargetBecomesNaN(s: NodeState, keys: seq<string>, c: TickContext, k: string)
    requires DistinctKeys(keys) && k in keys && k != "quat"
    requires Field(s.fields, k) != Undefined && !Field(c.target, k).Num?
    ensures k in Ticked(s, keys, c).fields && Ticked(s, keys, c).fields[k] == NaN
  {
    TickedFields(s, keys, c, k);
  }

  /** The rotation is set from `slerp` when `quat` is a recorded key, and is left alone otherwise. */
  lemma {:induction false} TickedQuat(s: NodeState, keys: seq<string>, c: TickContext)
    ensures Ticked(s, keys, c).quat ==
            if "quat" in keys then c.slerp(Field(c.origin, "quat"), Field(c.target, "quat"), QuatRatio(c.easing, c.time, c.frame))
            else s.quat
    decreases |keys|
  {
    if keys != [] {
      var n := |keys| - 1;
      TickedQuat(s, keys[..n], c);
      assert keys == keys[..n] + [keys[n]];
    }
  }

  /**
   * With no `time` (left `null` by the host) and the linear curve, every tick
   * after the first frame sets the rotation to the target: `frame / null` is
   * +Infinity, which the snap turns into 1.
   */
  lemma MissingTimeSnapsQuat(s: NodeState, keys: seq<string>, c: TickContext)
    requires c.time.None? && c.easing.Linear? && c.frame > 0.0 && "quat" in keys
    ensures Ticked(s, keys, c).quat == c.slerp(Field(c.origin, "quat"), Field(c.target, "quat"), Num(1.0))
  {
    TickedQuat(s, keys, c);
  }

  /** A property the node did not have numerically becomes NaN (`undefined + x`). */
  lemma NonNumberBecomesNaN(v: Value, prop: string, c: TickContext)
    requires !v.Num?
    ensures ScalarUpdate(v, prop, c) == NaN
  {
  }

  /** With `time` 0 a tick moves a numeric property by exactly `target - origin`. */
  lemma ZeroDurationMovesAll(v: real, prop: string, c: TickContext)
    requires c.time == Some(0.0)
    requires Field(c.target, prop).Num? && Field(c.origin, prop).Num?
    ensures ScalarUpdate(Num(v), prop, c)
            == ClampNearZero(Num(v + (Field(c.target, prop).n - Field(c.origin, prop).n)))
  {
  }

  /** For a non-zero duration the ratio is the growth of the curve between the two frames. */
  lemma ScalarRatioIsGrowth(e: Easing, d: real, frame: real, elapsed: real)
    requires d != 0.0
    ensures ScalarRatio(e, Some(d), frame, elapsed) ==
            Num(Eased(e, Min(d, frame + elapsed), d) - Eased(e, frame, d))
  {
  }

  /** Where the host's action moves `frame` after a tick: on by `elapsed`, but never past `time`. */
  function NextFrame(d: real, frame: real, elapsed: real): real {
    Min(d, frame + elapsed)
  }

  /** The frame after a run of ticks. */
  function FinalFrame(d: real, frame: real, elapsed: seq<real>): real
    decreases |elapsed|
  {
    if elapsed == [] then frame else FinalFrame(d, NextFrame(d, frame, elapsed[0]), elapsed[1..])
  }

  /** The sum of the ratios of a run of ticks (non-zero duration). */
  function RatioSum(e: Easing, d: real, frame: real, elapsed: seq<real>): real
    requires d != 0.0
    decreases |elapsed|
  {
    if elapsed == [] then 0.0
    else
      var next := NextFrame(d, frame, elapsed[0]);
      (Eased(e, next, d) - Eased(e, frame, d)) + RatioSum(e, d, next, elapsed[1..])
  }

  /** The ratios of successive ticks telescope: together they are the growth of the curve over the run. */
  lemma {:induction false} RatiosTelescope(e: Easing, d: real, frame: real, elapsed: seq<real>)
    requires d != 0.0
    ensures RatioSum(e, d, frame, elapsed) == Eased(e, FinalFrame(d, frame, elapsed), d) - Eased(e, frame, d)
    decreases |elapsed|
  {
    if elapsed != [] {
      RatiosTelescope(e, d, NextFrame(d, frame, elapsed[0]), elapsed[1..]);
    }
  }

  /** The frame never passes `time`, so the curve is never read past it. */
  lemma {:induction false} FrameNeverPasses(d: real, frame: real, elapsed: seq<real>)
    requires frame <= d
    ensures FinalFrame(d, frame, elapsed) <= d
    decreases |elapsed|
  {
    if elapsed != [] {
      FrameNeverPasses(d, NextFrame(d, frame, elapsed[0]), elapsed[1..]);
    }
  }

  /**
   * With the linear default from frame 0, the ratios of a run sum to the
   * fraction of `time` that has passed: never more than 1, and exactly 1 once
   * the frame has reached `time`.
   */
  lemma LinearRunAddsUpToOne(d: real, elapsed: seq<real>)
    requires d > 0.0
    ensures RatioSum(Linear, d, 0.0, elapsed) == FinalFrame(d, 0.0, elapsed) / d
    ensures RatioSum(Linear, d, 0.0, elapsed) <= 1.0
    ensures FinalFrame(d, 0.0, elapsed) == d ==> RatioSum(Linear, d, 0.0, elapsed) == 1.0
  {
    RatiosTelescope(Linear, d, 0.0, elapsed);
    FrameNeverPasses(d, 0.0, elapsed);
    var f := FinalFrame(d, 0.0, elapsed);
    assert f / d <= d / d;
  }

  /** With the linear default the quaternion reaches its target exactly at the last frame. */
  lemma LinearQuatEndsAtOne(d: real)
    requires d != 0.0
    ensures QuatRatio(Linear, Some(d), d) == Num(1.0)
  {
    assert 1.0 * d / d + 0.0 == 1.0;
  }

  /** The near-zero snap is idempotent. */
  lemma ClampNearZeroIdempotent(v: Value)
    ensures ClampNearZero(ClampNearZero(v)) == ClampNearZero(v)
  {
  }
}
