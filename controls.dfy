/**
 * `enchant.gl.extension.Utils`: the two third-person control schemes
 * (`setControlTPS`, tank style; `setControlTPS2`, robot style) and
 * `normalizeAngle`.
 *
 * Each scheme fills in its options and then, every frame, moves the player
 * from the input. The model keeps the parts that are arithmetic on the
 * player: the vertical jump and gravity step both schemes run, and the
 * bounded yaw turn of TPS2 towards its target while rising. The input flags,
 * the target's direction `td` (from `calcDirectionXZ`, through `atan2`) and
 * the host's `forward`, `sidestep`, `rotateYaw` and camera calls are outside
 * the model: the flags and `td` are parameters, and a turn is returned as the
 * angle passed to `rotateYaw`.
 */
module Controls {
  import opened Base
  import opened Sprite

  // ---------------------------------------------------------------------------
  // Options

  /** The options of a control scheme after the defaults are filled in. */
  datatype ControlOptions = ControlOptions(speed: real, turnSpeed: real, jumpSpeed: real, gravity: real,
                                           cameraPosition: real, cameraSpeed: real)

  /** JavaScript truthiness of an option value that should be a number: NaN and 0 are falsy. */
  predicate Truthy(v: Value) {
    v.Num? && v.n != 0.0
  }

  /** `r` is what `opt.name || d` gives: the option when it is truthy, the default otherwise. */
  predicate Filled(opt: map<string, Value>, name: string, d: real, r: real) {
    (Truthy(Field(opt, name)) ==> r == Field(opt, name).n) && (!Truthy(Field(opt, name)) ==> r == d)
  }

  /**
   * `opt.name || d` for a numeric default: a missing option, NaN and 0 are
   * all falsy and take the default.
   */
  function OrDefault(opt: map<string, Value>, name: string, d: real): (r: real)
    ensures Filled(opt, name, d, r)
  {
    var v := Field(opt, name);
    if v.Num? && v.n != 0.0 then v.n else d
  }

  /** The options object after `opt = opt || {}`. */
  function OptionsObject(opt: Option<map<string, Value>>): map<string, Value> {
    if opt.Some? then opt.value else map[]
  }

  /** `opt = opt || {}`, then the six defaults of a scheme. */
  function FillOptions(opt: Option<map<string, Value>>, defaults: ControlOptions): (o: ControlOptions)
    requires defaults.speed != 0.0 && defaults.turnSpeed != 0.0 && defaults.jumpSpeed != 0.0
    requires defaults.gravity != 0.0 && defaults.cameraPosition != 0.0 && defaults.cameraSpeed != 0.0
    ensures o.speed != 0.0 && o.turnSpeed != 0.0 && o.jumpSpeed != 0.0
    ensures o.gravity != 0.0 && o.cameraPosition != 0.0 && o.cameraSpeed != 0.0
    ensures opt.None? ==> o == defaults
    ensures Filled(OptionsObject(opt), "speed", defaults.speed, o.speed)
    ensures Filled(OptionsObject(opt), "turnSpeed", defaults.turnSpeed, o.turnSpeed)
    ensures Filled(OptionsObject(opt), "jumpSpeed", defaults.jumpSpeed, o.jumpSpeed)
    ensures Filled(OptionsObject(opt), "gravity", defaults.gravity, o.gravity)
    ensures Filled(OptionsObject(opt), "cameraPosition", defaults.cameraPosition, o.cameraPosition)
    ensures Filled(OptionsObject(opt), "cameraSpeed", defaults.cameraSpeed, o.cameraSpeed)
  {
    var m := OptionsObject(opt);
    ControlOptions(OrDefault(m, "speed", defaults.speed), OrDefault(m, "turnSpeed", defaults.turnSpeed),
                   OrDefault(m, "jumpSpeed", defaults.jumpSpeed), OrDefault(m, "gravity", defaults.gravity),
                   OrDefault(m, "cameraPosition", defaults.cameraPosition), OrDefault(m, "cameraSpeed", defaults.cameraSpeed))
  }

  const TPSDefaults := ControlOptions(0.5, 0.1, 0.6, 0.1, -10.0, 8.0)

  const TPS2Defaults := ControlOptions(0.5, 0.1, 2.0, 0.2, -10.0, 8.0)

  /**
   * Called with no options, each scheme runs with its own defaults (both
   * default sets are truthy throughout, so none is replaced).
   */
  lemma {:induction false} NoOptionsGiveDefaults()
    ensures FillOptions(None, TPSDefaults) == TPSDefaults
    ensures FillOptions(None, TPS2Defaults) == TPS2Defaults
    ensures FillOptions(Some(map["jumpSpeed" := Num(0.0), "gravity" := NaN]), TPS2Defaults) == TPS2Defaults
  {
  }

  /** Filling the options in again changes nothing: every filled option is truthy. */
  lemma FillOptionsIdempotent(opt: Option<map<string, Value>>, defaults: ControlOptions)
    requires defaults.speed != 0.0 && defaults.turnSpeed != 0.0 && defaults.jumpSpeed != 0.0
    requires defaults.gravity != 0.0 && defaults.cameraPosition != 0.0 && defaults.cameraSpeed != 0.0
    ensures var o := FillOptions(opt, defaults);
            var m := map["speed" := Num(o.speed), "turnSpeed" := Num(o.turnSpeed), "jumpSpeed" := Num(o.jumpSpeed),
                         "gravity" := Num(o.gravity), "cameraPosition" := Num(o.cameraPosition),
                         "cameraSpeed" := Num(o.cameraSpeed)];
            FillOptions(Some(m), defaults) == o
  {
  }

  // ---------------------------------------------------------------------------
  // The vertical step

  /** The player's height and vertical velocity after one frame. */
  datatype Vertical = Vertical(y: real, velocityY: real)

  /**
   * `y += velocityY`; then a jump when exactly on the ground with the jump
   * key down, a landing (height and velocity 0) at or below the ground, and
   * otherwise gravity.
   */
  function Fall(y: real, velocityY: real, jump: bool, jumpSpeed: real, gravity: real): (r: Vertical)
    ensures r.y >= 0.0
    ensures y + velocityY > 0.0 ==> r == Vertical(y + velocityY, velocityY - gravity)
    ensures y + velocityY <= 0.0 ==> r.y == 0.0
    ensures y + velocityY == 0.0 && jump ==> r == Vertical(0.0, jumpSpeed)
    ensures y + velocityY < 0.0 || (y + velocityY == 0.0 && !jump) ==> r == Vertical(0.0, 0.0)
  {
    var y1 := y + velocityY;
    if y1 == 0.0 && jump then Vertical(y1, jumpSpeed)
    else if y1 <= 0.0 then Vertical(0.0, 0.0)
    else Vertical(y1, velocityY - gravity)
  }

  /** A player at rest on the ground with no jump input stays at rest. */
  lemma AtRestStaysAtRest(jumpSpeed: real, gravity: real)
    ensures Fall(0.0, 0.0, false, jumpSpeed, gravity) == Vertical(0.0, 0.0)
  {
  }

  /**
   * From rest, the jump key gives the jump speed, and a positive jump speed
   * lifts the player off the ground on the next frame, whatever the input.
   */
  lemma {:induction false} JumpLiftsOff(jumpSpeed: real, gravity: real, jumpAgain: bool)
    requires jumpSpeed > 0.0
    ensures Fall(0.0, 0.0, true, jumpSpeed, gravity) == Vertical(0.0, jumpSpeed)
    ensures Fall(0.0, jumpSpeed, jumpAgain, jumpSpeed, gravity) == Vertical(jumpSpeed, jumpSpeed - gravity)
  {
  }

  /** The jump key only acts on the ground: in the air and at a landing it is ignored. */
  lemma JumpOnlyOnGround(y: real, velocityY: real, jumpSpeed: real, gravity: real)
    requires y + velocityY != 0.0
    ensures Fall(y, velocityY, true, jumpSpeed, gravity) == Fall(y, velocityY, false, jumpSpeed, gravity)
  {
  }

  /** The state after a run of frames with the given jump inputs. */
  function Frames(v: Vertical, jumps: seq<bool>, jumpSpeed: real, gravity: real): Vertical
    decreases |jumps|
  {
    if jumps == [] then v
    else Frames(Fall(v.y, v.velocityY, jumps[0], jumpSpeed, gravity), jumps[1..], jumpSpeed, gravity)
  }

  /** Whether every frame of the run ends strictly above the ground. */
  predicate Airborne(v: Vertical, jumps: seq<bool>, jumpSpeed: real, gravity: real)
    decreases |jumps|
  {
    jumps == [] ||
    (var next := Fall(v.y, v.velocityY, jumps[0], jumpSpeed, gravity);
     next.y > 0.0 && Airborne(next, jumps[1..], jumpSpeed, gravity))
  }

  /** In the air, each frame takes `gravity` off the velocity: after k frames it is velocityY - k * gravity. */
  lemma {:induction false} FlightLosesGravity(v: Vertical, jumps: seq<bool>, jumpSpeed: real, gravity: real)
    requires Airborne(v, jumps, jumpSpeed, gravity)
    ensures Frames(v, jumps, jumpSpeed, gravity).velocityY == v.velocityY - (|jumps| as real) * gravity
    ensures Frames(v, jumps, jumpSpeed, gravity).y > 0.0 || jumps == []
    decreases |jumps|
  {
    if jumps != [] {
      FlightLosesGravity(Fall(v.y, v.velocityY, jumps[0], jumpSpeed, gravity), jumps[1..], jumpSpeed, gravity);
    }
  }

  /**
   * A player who starts at or above the ground never ends a run of frames
   * below it, whatever the velocity and the inputs.
   */
  lemma {:induction false} FramesNeverBelowGround(v: Vertical, jumps: seq<bool>, jumpSpeed: real, gravity: real)
    requires v.y >= 0.0
    ensures Frames(v, jumps, jumpSpeed, gravity).y >= 0.0
    decreases |jumps|
  {
    if jumps != [] {
      FramesNeverBelowGround(Fall(v.y, v.velocityY, jumps[0], jumpSpeed, gravity), jumps[1..], jumpSpeed, gravity);
    }
  }

  /**
   * The vertical part of the player's `enterframe` listener, on the node's
   * `y` and `velocityY` (the scheme sets `velocityY` to 0 when installed).
   */
  method VerticalStep(player: Sprite3D, jump: bool, opt: ControlOptions)
    requires Field(player.fields, "y").Num? && Field(player.fields, "velocityY").Num?
    modifies player`fields
    ensures var r := Fall(old(player.fields["y"].n), old(player.fields["velocityY"].n), jump, opt.jumpSpeed, opt.gravity);
            player.fields == old(player.fields)["y" := Num(r.y)]["velocityY" := Num(r.velocityY)]
  {
    var y := player.fields["y"].n + player.fields["velocityY"].n;
    player.fields := player.fields["y" := Num(y)];
    if y == 0.0 && jump {
      player.fields := player.fields["velocityY" := Num(opt.jumpSpeed)];
    } else if y <= 0.0 {
      player.fields := player.fields["velocityY" := Num(0.0)];
      player.fields := player.fields["y" := Num(0.0)];
    } else {
      player.fields := player.fields["velocityY" := Num(player.fields["velocityY"].n - opt.gravity)];
    }
  }

  // ---------------------------------------------------------------------------
  // The TPS2 yaw turn

  /**
   * The yaw turn of TPS2 in a frame: none unless the player has a target and
   * is rising; otherwise `-td` clamped to `[-turnSpeed, turnSpeed]`, where
   * `td` is the target's direction relative to the player's heading.
   */
  function YawTurn(hasTarget: bool, velocityY: real, td: real, turnSpeed: real): Option<real> {
    if !(hasTarget && velocityY > 0.0) then None
    else if td < -turnSpeed then Some(turnSpeed)
    else if -turnSpeed <= td && td <= turnSpeed then Some(-td)
    else if turnSpeed < td then Some(-turnSpeed)
    else None
  }

  /**
   * With a positive turn speed, a rising player with a target always turns,
   * by at most the turn speed, towards the target (the turn has the sign of
   * `-td`), and the direction left over is `|td| - turnSpeed` or 0: a target
   * within the turn speed is faced exactly.
   */
  lemma YawTurnIsBounded(velocityY: real, td: real, turnSpeed: real)
    requires turnSpeed > 0.0 && velocityY > 0.0
    ensures var t := YawTurn(true, velocityY, td, turnSpeed);
            t.Some? && Abs(t.value) <= turnSpeed &&
            (td > 0.0 ==> t.value < 0.0) && (td < 0.0 ==> t.value > 0.0) && (td == 0.0 ==> t.value == 0.0) &&
            Abs(td + t.value) == (if Abs(td) <= turnSpeed then 0.0 else Abs(td) - turnSpeed)
  {
  }

  /** No turn without a target, or while not rising. */
  lemma NoTurnUnlessRising(hasTarget: bool, velocityY: real, td: real, turnSpeed: real)
    requires !hasTarget || velocityY <= 0.0
    ensures YawTurn(hasTarget, velocityY, td, turnSpeed) == None
  {
  }

  /**
   * One frame of TPS2 past the horizontal moves: the vertical step, then the
   * yaw turn decided on the updated velocity. Returns the angle passed to
   * `rotateYaw`, if any.
   */
  method TPS2Step(player: Sprite3D, jump: bool, hasTarget: bool, td: real, opt: ControlOptions) returns (turn: Option<real>)
    requires Field(player.fields, "y").Num? && Field(player.fields, "velocityY").Num?
    modifies player`fields
    ensures var r := Fall(old(player.fields["y"].n), old(player.fields["velocityY"].n), jump, opt.jumpSpeed, opt.gravity);
            player.fields == old(player.fields)["y" := Num(r.y)]["velocityY" := Num(r.velocityY)] &&
            turn == YawTurn(hasTarget, r.velocityY, td, opt.turnSpeed)
  {
    VerticalStep(player, jump, opt);
    var vy := player.fields["velocityY"].n;
    turn := None;
    if hasTarget && vy > 0.0 {
      if td < -opt.turnSpeed {
        turn := Some(opt.turnSpeed);
      } else if -opt.turnSpeed <= td && td <= opt.turnSpeed {
        turn := Some(-td);
      } else if opt.turnSpeed < td {
        turn := Some(-opt.turnSpeed);
      }
    }
  }

  // ---------------------------------------------------------------------------
  // normalizeAngle

  /** `Math.PI` as a double, written out. */
  const Pi: real := 3.141592653589793

  /**
   * Folds an angle into [-π, π] by whole turns: first down while above π,
   * then up while below -π. `turns` counts the turns added.
   */
  method NormalizeAngle(angle: real) returns (rad: real, ghost turns: int)
    ensures -Pi <= rad <= Pi
    ensures rad == angle + (turns as real) * (2.0 * Pi)
    ensures -Pi <= angle <= Pi ==> rad == angle
  {
    rad, turns := angle, 0;
    while Pi < rad
      invariant rad == angle + (turns as real) * (2.0 * Pi)
      invariant angle <= Pi ==> rad == angle
      invariant Pi < angle ==> -Pi < rad
      decreases (rad - Pi).Floor
    {
      rad, turns := rad - Pi * 2.0, turns - 1;
    }
    while rad < -Pi
      invariant rad <= Pi
      invariant rad == angle + (turns as real) * (2.0 * Pi)
      invariant -Pi <= angle <= Pi ==> rad == angle
      decreases (-Pi - rad).Floor
    {
      rad, turns := rad + Pi * 2.0, turns + 1;
    }
  }
}
