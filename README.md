# enchant.gl extension plugin: a verified model

This project models the core of `extension.gl.enchant.js`, the extension
plugin of enchant.js for 3D (enchant.gl). It covers:

- **Collision** (`collision.dfy`, `collision_props.dfy`). This is the extra
  bounding kind `AABB2`, a box with its own half-size on each axis. It comes
  with the kind `NONE`, which should never collide, and the three distance
  helpers `point2AABB2`, `AABB2AABB2` and `AABB22AABB2`. Last is the type-tag
  dispatch `Bounding.prototype.intersect`, together with every `toAABB2`
  override.
- **Coordinate caches** (`sprite.dfy`). `Sprite3D.getWorldCoord` and
  `getScreenCoord` keep one cached answer per game frame on the node.
- **Tween** (`tween.dfy`, `tween_props.dfy`). This action records each
  parameter's start value (`origin`) and goal (`target`) when it starts. Every
  tick, it moves each recorded node property by its eased share of
  `target - origin`.
- **Timeline builders** (`timeline.dfy`, `timeline_props.dfy`). These are
  `moveTo`, `moveZ`, `moveBy`, `scaleTo`, `scaleBy`, `rotateTo`, `rotateBy`
  and the six single-axis rotation builders. Each one builds the parameter
  object for a Tween.
- **Controls** (`controls.dfy`). This covers the option defaults of
  `Utils.setControlTPS` and `setControlTPS2` and the jump and gravity step
  both schemes run. It also covers TPS2's bounded yaw turn towards its target
  and `Utils.normalizeAngle`.

All numbers are Dafny `real`s, and arithmetic on them is exact. A JavaScript
value on a node is a number, NaN, `undefined` or a quaternion object
(`Base.Value`). Arithmetic that involves anything but numbers gives NaN.

Calls into the host library become function parameters. These are the
matrix composition, `toScreenCoord`, `slerp`, `Quat` and `multiply`, and the
`to*` distances of the host's own bounding kinds. The current frame, the
presence of a 3D scene and the input keys are parameters too.

The state the source changes in place is a Dafny class:

- `Sprite3D` holds the node's properties and its two caches.
- `Tween` holds its `origin`/`target` dictionaries and their key order.

The methods that change that state are each proved against a function of
the old state (`WorldLookup`, `ScreenLookup`, `Captured`, `Ticked`, `Fall`).
The lemmas in the `*_props` files state what those functions mean.

Both copies of the plugin follow the same model. In
`de/plugins/extension.gl.enchant.js`, the collision, cache and Tween blocks
are the same text as in `dev/plugins/extension.gl.enchant.js`, and the de
copy has no `Utils`. The table cites the dev copy.

## Model

| member | source | states |
|---|---|---|
| Collision.AxisGap | dev/plugins/extension.gl.enchant.js:554-568 | The squared gap one axis adds is never negative. It is 0 exactly when the coordinate lies in the closed interval. |
| Collision.Point2AABB2 | dev/plugins/extension.gl.enchant.js:543-570 | The result is always a number ≥ 0. For a per-axis box it is 0 exactly when the parent-offset point lies inside the closed box on x, y and z. Without per-axis half-sizes every comparison is false, and the result is 0. |
| Collision.DistanceAsWritten | dev/plugins/extension.gl.enchant.js:624-704 | Each kind's `to*` answer as the code is written, with the host's own distances as a parameter. `IntersectAsWritten` and the as-written lemmas are its partners, and `Distance` agrees with it outside the two corrections. |
| Collision.AABB2AABB2 | dev/plugins/extension.gl.enchant.js:571-588 | The answer is only 0.0 or 1.0. It is 0.0 exactly when the first argument is a cube (has `scale`), the second is a per-axis box, and the two regions overlap on all three axes. |
| Collision.AABB22AABB2 | dev/plugins/extension.gl.enchant.js:589-606 | The answer is only 0.0 or 1.0. It is 0.0 exactly when both arguments are boxes whose closed intervals overlap on every axis. |
| Collision.MethodFor | dev/plugins/extension.gl.enchant.js:609-622 | No method is chosen exactly when the tag is not one of point, BS, AABB, OBB or AABB2. |
| Collision.IntersectAsWritten | dev/plugins/extension.gl.enchant.js:608-623 | The dispatch as written answers false for any unknown tag of the other object. |
| Collision.Distance | dev/plugins/extension.gl.enchant.js:624-704 | The corrected `to*` answers equal the as-written ones except for AABB2's `toAABB` and NONE's `toAABB2`. |
| Collision.Intersect | dev/plugins/extension.gl.enchant.js:608-623 | The corrected dispatch: the answer is false for an unknown tag. Otherwise it is whether the corrected `to*` distance is below `this.threshold`, where a NaN distance compares false. |
| CollisionProps.IntersectAgreesAsWritten | dev/plugins/extension.gl.enchant.js:608-623 | Except for a box asked about an AABB and a NONE asked about an AABB2, the corrected dispatch gives the answer of the code as written. |
| Collision.NewAABB2 | dev/plugins/extension.gl.enchant.js:655-661 | A new AABB2 has type 'AABB2' and half-size 0.5 on every axis. Its position and threshold are the base Bounding's. |
| Collision.NewNone | dev/plugins/extension.gl.enchant.js:688-691 | A new NONE has type 'NONE' and keeps the base Bounding's position and threshold. |
| CollisionProps.AxisGapIsNearest | dev/plugins/extension.gl.enchant.js:554-558 | The per-axis gap is the squared distance to the clamped coordinate, and no point of the interval is nearer. |
| CollisionProps.Point2AABB2IsNearestSquaredDistance | dev/plugins/extension.gl.enchant.js:543-570 | point2AABB2 is the squared Euclidean distance from the point to the nearest point of the box, and every point of the box is at least that far away. |
| CollisionProps.AABB22AABB2Symmetric | dev/plugins/extension.gl.enchant.js:589-606 | AABB22AABB2 gives the same answer with its two arguments swapped. |
| CollisionProps.OverlapIffCommonPoint | dev/plugins/extension.gl.enchant.js:605 | For non-empty regions, the six face comparisons all hold exactly when the regions share a point (both directions). |
| CollisionProps.AABB22AABB2MeansCommonPoint | dev/plugins/extension.gl.enchant.js:589-606 | Two AABB2 boxes give 0.0 exactly when they share a point. |
| CollisionProps.AABB2AABB2MeansCommonPoint | dev/plugins/extension.gl.enchant.js:571-588 | An AABB cube and an AABB2 box give 0.0 exactly when they share a point. |
| CollisionProps.PointHitsBox | dev/plugins/extension.gl.enchant.js:624-626 | A point bounding hits an AABB2 exactly when its point2AABB2 is below its threshold. |
| CollisionProps.PointHitsShapelessBox | dev/plugins/extension.gl.enchant.js:543-570 | A point with a positive threshold hits any object tagged AABB2 that has no per-axis half-sizes, both as written and corrected. |
| CollisionProps.SphereHitsBox | dev/plugins/extension.gl.enchant.js:627-629 | A sphere hits an AABB2 exactly when point2AABB2 is below radius² plus the threshold. |
| CollisionProps.BoxHitsSphere | dev/plugins/extension.gl.enchant.js:665-667 | An AABB2 hits a sphere exactly when point2AABB2 of the sphere is below radius² plus the box's threshold. |
| CollisionProps.OrientedAndBoxAnswerOne | dev/plugins/extension.gl.enchant.js:633-635 | OBB against AABB2, and AABB2 against OBB, both answer distance 1. They collide exactly when the threshold exceeds 1. |
| CollisionProps.NoneAnswersThousand | dev/plugins/extension.gl.enchant.js:692-703 | NONE answers 1000 to every method. It therefore collides only when its threshold exceeds 1000 and the other tag is known. |
| CollisionProps.NothingHitsNone | dev/plugins/extension.gl.enchant.js:608-623 | No object collides with a NONE, because the tag 'NONE' is not in the dispatch. |
| CollisionProps.CubeHitsBox | dev/plugins/extension.gl.enchant.js:630-632 | With a threshold in (0, 1], an AABB hits an AABB2 exactly when their regions overlap. |
| CollisionProps.CubeBoxSymmetric | dev/plugins/extension.gl.enchant.js:668-670 | With the corrected argument order, AABB against AABB2 answers the same from either side. |
| CollisionProps.BoxBoxSymmetric | dev/plugins/extension.gl.enchant.js:671-673 | Two AABB2s with equal thresholds answer the same from either side. |
| CollisionProps.NoneHitsBoxAsWritten | dev/plugins/extension.gl.enchant.js:682-704 | As written, a NONE with a positive threshold placed inside an AABB2 reports a collision. The corrected dispatch reports one only when the threshold exceeds 1000. |
| CollisionProps.BoxNeverHitsCubeAsWritten | dev/plugins/extension.gl.enchant.js:668-670 | As written, an AABB2 never hits an AABB when its threshold is at most 1, whatever the positions. |
| CollisionProps.CubeBoxAsymmetricAsWritten | dev/plugins/extension.gl.enchant.js:668-670 | Two coinciding unit boxes, an AABB and an AABB2: the AABB side sees the collision, the AABB2 side as written does not, and the corrected dispatch does. |
| Sprite.WorldLookupStamped | dev/plugins/extension.gl.enchant.js:168-174 | After `getWorldCoord`, the cache is stamped with the current frame. |
| Sprite.WorldLookupRepeat | dev/plugins/extension.gl.enchant.js:168-169 | A second call in the same frame returns the stored coord, whatever the matrices say by then, and leaves the cache unchanged. |
| Sprite.WorldLookupFresh | dev/plugins/extension.gl.enchant.js:171-179 | The first call in a frame returns and stores the current world position. |
| Sprite.ScreenLookupStamped | dev/plugins/extension.gl.enchant.js:195-201 | After `getScreenCoord`, the screen cache is stamped with the current frame. |
| Sprite.ScreenLookupRepeat | dev/plugins/extension.gl.enchant.js:195-196 | A second call in the same frame changes nothing and answers the same. |
| Sprite.ScreenLookupNoScene | dev/plugins/extension.gl.enchant.js:198-206 | With no scene, the call returns null but has already stamped the cache for this frame, with no coord. The world cache is not touched. |
| Sprite.ScreenLookupProjectsWorld | dev/plugins/extension.gl.enchant.js:203-210 | With a scene, a first call answers the projection of the world coordinate that the world cache holds for this frame. |
| Sprite.WorldLookup | dev/plugins/extension.gl.enchant.js:166-180 | The world-coordinate cache lookup. `WorldLookupStamped`, `WorldLookupRepeat` and `WorldLookupFresh` state its behaviour. |
| Sprite.ScreenLookup | dev/plugins/extension.gl.enchant.js:192-211 | The screen-coordinate cache lookup. `ScreenLookupStamped`, `ScreenLookupRepeat`, `ScreenLookupNoScene` and `ScreenLookupProjectsWorld` state its behaviour. |
| Sprite.Sprite3D.GetWorldCoord | dev/plugins/extension.gl.enchant.js:157-180 | The new cache is the frame-stamped lookup of the old one, and the returned coord is the one it holds. |
| Sprite.Sprite3D.GetScreenCoord | dev/plugins/extension.gl.enchant.js:192-211 | Both new caches are the screen lookup of the old ones, and the result is the stored screen coord. |
| Tween.TweenTime | dev/plugins/extension.gl.enchant.js:234-237 | A duration the tween gets always comes from a numeric `time` entry of the parameter object. |
| Tween.TweenEasing | dev/plugins/extension.gl.enchant.js:239-244 | The curve is a given easing function, else the linear default. `TweenEasingOfEntry` and `NoEasingEntryIsLinear` state which entry decides it. |
| Tween.Ease | dev/plugins/extension.gl.enchant.js:276 | The curve at a frame, called with `tween.time`, where a missing time counts as 0. `ScalarRatioIsGrowth` and `LinearQuatEndsAtOne` state its values. |
| Tween.ScalarRatio | dev/plugins/extension.gl.enchant.js:287 | All of the change with `time` 0, else the curve's growth up to min(time, frame + elapsed). `ScalarRatioIsGrowth`, `RatiosTelescope` and `LinearRunAddsUpToOne` state its meaning. |
| Tween.Evaluate | dev/plugins/extension.gl.enchant.js:251-256 | A parameter's value at start: a given value, or a function's result for the node. `CapturedValues` states that this value is the recorded target. |
| Tween.Record | dev/plugins/extension.gl.enchant.js:258-266 | One start step. `RecordWellFormed` and `RecordKeys` state what it adds. |
| Tween.Captured | dev/plugins/extension.gl.enchant.js:247-269 | The start over all parameters in order. `CapturedValues`, `CapturedLeavesOthers`, `CapturedKeyOrder` and `CapturedWellFormed` state what it records. |
| Tween.StartCallsAsWritten | dev/plugins/extension.gl.enchant.js:251-253 | The parameters the start calls as written. `StartCallsAsWrittenExactly` states that they are every function-valued parameter. |
| Tween.StartCalls | dev/plugins/extension.gl.enchant.js:251-261 | The parameters the corrected start calls. `StartCallsExactly` states that they are the function-valued ones that are not excepted. |
| Tween.ScalarUpdate | dev/plugins/extension.gl.enchant.js:288-291 | One property's `+=` and snap. `NonNumberBecomesNaN` and `ZeroDurationMovesAll` state its results. |
| Tween.TickOne | dev/plugins/extension.gl.enchant.js:275-291 | One tick step. The handler's `this` is the node, so a non-`quat` key the node does not define is skipped. `TickOneFields` states that a step changes only its own property, and only when the node defines it. |
| Tween.Ticked | dev/plugins/extension.gl.enchant.js:271-295 | The tick over all keys in order. `TickedFields`, `TickedQuat` and `MissingTimeSnapsQuat` state what it changes. |
| Tween.QuatRatio | dev/plugins/extension.gl.enchant.js:276-279 | The linear curve at a positive frame with a zero or missing `time` is +Infinity, and the ratio is then 1. Otherwise the ratio is a number exactly when the curve gives one. A numeric ratio is 1 or at least 10e-8 below 1, and it differs from the curve only by snapping to 1. |
| Tween.ClampNearZero | dev/plugins/extension.gl.enchant.js:289-291 | No number strictly between ±10e-8 other than 0 comes out. Larger values and NaN pass unchanged, and smaller ones become 0. |
| Tween.Tween.constructor | dev/plugins/extension.gl.enchant.js:234-245 | A new tween takes `time` and `easing` from its parameters, with linear easing as the default. Its dictionaries start empty at frame 0. |
| Tween.Tween.Start | dev/plugins/extension.gl.enchant.js:247-269 | The start handler's loop leaves the dictionaries equal to the start function run over the parameters in order, and keeps them well formed. It calls the function-valued parameters of the corrected start, in order. |
| Tween.Tween.StartStep | dev/plugins/extension.gl.enchant.js:250-266 | One pass of the loop body equals one start step. It adds the name to the calls exactly when the parameter is function-valued and not excepted. |
| Tween.Tween.Tick | dev/plugins/extension.gl.enchant.js:271-295 | The tick handler's loop leaves the node equal to the tick function run over the recorded keys in order. A non-`quat` key the node does not define is skipped. The node's caches are untouched. |
| Tween.Tween.TickProperty | dev/plugins/extension.gl.enchant.js:273-291 | One pass of the loop body equals one step of the tick function: the rotation for `quat`, nothing for a key undefined on the node, the eased `+=` otherwise. |
| Tween.RecordWellFormed | dev/plugins/extension.gl.enchant.js:256-266 | One start step keeps origin and target on the same key set as the key order, each key listed once. It adds the name unless it is excepted. |
| Tween.CapturedWellFormed | dev/plugins/extension.gl.enchant.js:248-268 | A whole start adds exactly the non-excepted parameter names to the dictionaries and keeps them well formed. |
| TweenProps.TweenTimeOfEntry | dev/plugins/extension.gl.enchant.js:237 | With distinct names, a numeric `time` entry gives exactly that duration. Any other `time` entry gives none. |
| TweenProps.TweenEasingOfEntry | dev/plugins/extension.gl.enchant.js:237-244 | With distinct names, an `easing` entry that is a curve gives that curve. Any other `easing` entry gives the linear default. |
| TweenProps.NoEasingEntryIsLinear | dev/plugins/extension.gl.enchant.js:239-244 | Without an `easing` entry, the curve is the linear default. |
| TweenProps.CapturedValues | dev/plugins/extension.gl.enchant.js:250-266 | Every recorded parameter's target is its value, with a function called once with the node as `this`. Its origin is the node's value, or `getQuat()` for `quat`. |
| TweenProps.CapturedLeavesOthers | dev/plugins/extension.gl.enchant.js:248-262 | Excepted names, and names that are not parameters, are not added or changed. |
| TweenProps.CapturedKeyOrder | dev/plugins/extension.gl.enchant.js:249-263 | The keys come out in parameter order, with excepted names dropped. |
| TweenProps.RecordKeys | dev/plugins/extension.gl.enchant.js:259-266 | One start step appends a new non-excepted name to the key order and nothing else. A `quat` is listed once. |
| TweenProps.EasingIsRecorded | dev/plugins/extension.gl.enchant.js:248 | `easing` is not on the exception list, so it gets an origin and a target. |
| TweenProps.StartCallsExactly | dev/plugins/extension.gl.enchant.js:251-261 | The corrected start handler calls a parameter exactly when it is function-valued and its name is not excepted. |
| TweenProps.StartCallsAsWrittenExactly | dev/plugins/extension.gl.enchant.js:251-253 | As written, the start handler calls every function-valued parameter, whatever its name. |
| TweenProps.HandlerCalledAtStartAsWritten | dev/plugins/extension.gl.enchant.js:248-258 | With `{x: 1, onactionstart: h}`, the code as written calls `h` at start. The corrected start calls nothing. |
| TweenProps.UndefinedPropertyStays | dev/plugins/extension.gl.enchant.js:283-291 | Ticks never change which properties the node defines. A property the node does not define stays undefined whatever its parameter, and a defined one stays defined. |
| TweenProps.UndefinedTargetBecomesNaN | dev/plugins/extension.gl.enchant.js:283-291 | A recorded non-`quat` property that the node defines, with a non-numeric target (an `undefined` parameter, or a curve called without arguments), becomes NaN on every tick. |
| TweenProps.TickOneFields | dev/plugins/extension.gl.enchant.js:275-291 | One loop step changes only the property it is about, and only when the node defines it. |
| TweenProps.TickedFields | dev/plugins/extension.gl.enchant.js:272-291 | A tick changes a property exactly when it is a recorded non-`quat` key that the node, the handler's `this`, defines. Such a property gets the eased update of its old value once, and every other property keeps its value. |
| TweenProps.TickedQuat | dev/plugins/extension.gl.enchant.js:275-281 | The rotation is set from slerp at the snapped ratio exactly when `quat` is recorded. Otherwise it is unchanged. |
| TweenProps.MissingTimeSnapsQuat | dev/plugins/extension.gl.enchant.js:276-281 | With no `time` and the linear curve, every tick after frame 0 sets the rotation to slerp at ratio 1, that is to the target. |
| TweenProps.NonNumberBecomesNaN | dev/plugins/extension.gl.enchant.js:288 | An undefined or NaN property becomes NaN through `+=`. Object-valued properties are listed under Left out. |
| TweenProps.ZeroDurationMovesAll | dev/plugins/extension.gl.enchant.js:287-288 | With `time` 0, a numeric property moves by exactly target - origin, then the snap is applied. |
| TweenProps.ScalarRatioIsGrowth | dev/plugins/extension.gl.enchant.js:287 | With a non-zero `time`, the ratio is the growth of the curve from `frame` to min(time, frame + elapsed). |
| TweenProps.RatiosTelescope | dev/plugins/extension.gl.enchant.js:287-288 | The ratios of successive ticks sum to the curve's growth between the first and last frames. |
| TweenProps.FrameNeverPasses | dev/plugins/extension.gl.enchant.js:287 | The frame the curve is read at never passes `time`. |
| TweenProps.LinearRunAddsUpToOne | dev/plugins/extension.gl.enchant.js:239-243 | With the linear default from frame 0, the ratios sum to the fraction of `time` passed. That sum is never over 1, and it is exactly 1 once `time` is reached. |
| TweenProps.LinearQuatEndsAtOne | dev/plugins/extension.gl.enchant.js:276-279 | With the linear default, the quaternion ratio is exactly 1 at the last frame. |
| TweenProps.ClampNearZeroIdempotent | dev/plugins/extension.gl.enchant.js:289-291 | Applying the near-zero snap twice gives the same result as once. |
| Timeline.MoveTo | dev/plugins/extension.gl.enchant.js:319-327 | `moveTo`'s parameter object. `MoveToRecords` and the `MoveToUndefinedAxis` lemmas state what its tween records and ticks. |
| Timeline.MoveZ | dev/plugins/extension.gl.enchant.js:336-342 | `moveZ`'s parameter object. `MoveZRecords` states what its tween records. |
| Timeline.MoveBy | dev/plugins/extension.gl.enchant.js:354-368 | `moveBy`'s parameter object of offset functions. `MoveByRecordsOffsets` and `MoveByInstantly` state its targets and its one-tick move. |
| Timeline.ScaleTo | dev/plugins/extension.gl.enchant.js:379-396 | `scaleTo`'s parameter object in its uniform and per-axis forms. `ScaleToUniformRecords` and `ScaleToPerAxisRecords` state its targets. |
| Timeline.ScaleByAsWritten | dev/plugins/extension.gl.enchant.js:408-437 | `scaleBy` as written. `ScaleByUniformRecords` and `ScaleByPerAxisAsWrittenIsNaN` state its targets. |
| Timeline.ScaleBy | dev/plugins/extension.gl.enchant.js:408-437 | `scaleBy` with the per-axis factors corrected. `ScaleByPerAxisRecords` states its targets. |
| Timeline.RotateTo | dev/plugins/extension.gl.enchant.js:446-452 | `rotateTo`'s parameter object. `RotateToRecords` states its target. |
| Timeline.RotateBy | dev/plugins/extension.gl.enchant.js:462-470 | `rotateBy`'s parameter object. `RotateByRecords` states its target. |
| Timeline.RotateAxisTo | dev/plugins/extension.gl.enchant.js:479-503 | The three single-axis `rotate*To` builders. `RotateAxisToRecords` states their targets. |
| Timeline.RotateAxisBy | dev/plugins/extension.gl.enchant.js:513-539 | The three single-axis `rotate*By` builders. `RotateAxisByRecords` states their targets. |
| TimelineProps.TimingOfParams | dev/plugins/extension.gl.enchant.js:319-327 | A builder's last two arguments give the tween its duration (present exactly when numeric) and its curve (linear unless a function). |
| TimelineProps.BuilderKeys | dev/plugins/extension.gl.enchant.js:306-308 | A builder's tween keys its dictionaries by the builder's own properties in order, then `easing`. |
| TimelineProps.MoveToRecords | dev/plugins/extension.gl.enchant.js:319-327 | `moveTo`: the targets are the given x, y, z and the origins are the node's. The keys are x, y, z, easing, and the time and easing come from the last two arguments. |
| TimelineProps.MoveToUndefinedAxisRecords | dev/plugins/extension.gl.enchant.js:319-327 | `moveTo(x, undefined, z)` records `y`, with an undefined target, among the keys x, y, z, easing. |
| TimelineProps.MoveToUndefinedAxisBecomesNaN | dev/plugins/extension.gl.enchant.js:319-327 | A tick of `moveTo(x, undefined, z)` writes NaN into the node's `y` when the node defines `y`, as a `Sprite3D` does. A node without `y` keeps it undefined. |
| TimelineProps.BuilderLeavesEasingUndefined | dev/plugins/extension.gl.enchant.js:283-291 | Every builder's tween records `easing`. A node that does not define `easing`, such as a `Sprite3D`, keeps it undefined through every tick. A node that defines it gets NaN unless the curve was given as a number. |
| TimelineProps.MoveZRecords | dev/plugins/extension.gl.enchant.js:336-342 | `moveZ` records only z, with target z. |
| TimelineProps.MoveByRecordsOffsets | dev/plugins/extension.gl.enchant.js:354-368 | `moveBy`: each target is the start value plus the offset, so target - origin is the offset. The keys are x, y, z, easing. |
| TimelineProps.MoveByInstantly | dev/plugins/extension.gl.enchant.js:354-368 | `moveBy` with `time` 0 moves x by exactly the offset on the next tick. |
| TimelineProps.ScaleToUniformRecords | dev/plugins/extension.gl.enchant.js:389-395 | `scaleTo(s, time, easing)` with a non-numeric easing: all three scales target s. |
| TimelineProps.ScaleToPerAxisRecords | dev/plugins/extension.gl.enchant.js:380-387 | `scaleTo(sx, sy, sz, time, easing)`: each axis targets its own argument, and time comes from the fourth argument. |
| TimelineProps.ScaleByUniformRecords | dev/plugins/extension.gl.enchant.js:424-436 | `scaleBy(k, ...)`: each scale targets k times its start value, and this branch agrees with the code as written. |
| TimelineProps.ScaleByPerAxisAsWrittenIsNaN | dev/plugins/extension.gl.enchant.js:409-423 | As written, `scaleBy(kx, ky, kz, ...)` gives every scale a NaN target. |
| TimelineProps.ScaleByPerAxisRecords | dev/plugins/extension.gl.enchant.js:409-423 | Corrected, each scale targets its own factor times its start value. |
| TimelineProps.RotateToRecords | dev/plugins/extension.gl.enchant.js:446-452 | `rotateTo(q)` targets q and starts from the node's `getQuat()`. The keys are quat, easing. |
| TimelineProps.RotateByRecords | dev/plugins/extension.gl.enchant.js:462-470 | `rotateBy(q)` targets the start rotation multiplied by q. |
| TimelineProps.RotateAxisToRecords | dev/plugins/extension.gl.enchant.js:479-503 | `rotatePitchTo`, `rotateYawTo` and `rotateRollTo` target the host quaternion built on the x, y or z axis respectively. |
| TimelineProps.RotateAxisByRecords | dev/plugins/extension.gl.enchant.js:513-539 | `rotatePitchBy`, `rotateYawBy` and `rotateRollBy` target the start rotation times that axis quaternion. |
| Controls.OrDefault | dev/plugins/extension.gl.enchant.js:748-753 | A truthy numeric option is kept. A missing, NaN or zero option takes the default. |
| Controls.FillOptions | dev/plugins/extension.gl.enchant.js:747-753 | Each of the six options is the caller's value when that is truthy, and the scheme's default when it is missing, NaN or 0. So every filled option is truthy, and with no `opt` object the options are the defaults. |
| Controls.NoOptionsGiveDefaults | dev/plugins/extension.gl.enchant.js:794-800 | With no options, TPS2 runs with its defaults, and so does TPS (lines 747-753). Falsy options such as 0 and NaN are replaced as well. |
| Controls.FillOptionsIdempotent | dev/plugins/extension.gl.enchant.js:794-800 | Filling in already-filled options changes nothing. |
| Controls.Fall | dev/plugins/extension.gl.enchant.js:821-829 | After the vertical step the height is ≥ 0. In the air, the player moves by its velocity and loses `gravity`. Landing exactly on 0 with the jump key gives height 0 and the jump speed. Any other landing gives height 0 and velocity 0. |
| Controls.AtRestStaysAtRest | dev/plugins/extension.gl.enchant.js:773-781 | A player at rest with no jump input stays at rest. |
| Controls.JumpLiftsOff | dev/plugins/extension.gl.enchant.js:774-775 | From rest, the jump key sets the jump speed, and the next frame lifts the player to that height. |
| Controls.JumpOnlyOnGround | dev/plugins/extension.gl.enchant.js:774 | The jump key changes nothing unless the new height is exactly 0. |
| Controls.FlightLosesGravity | dev/plugins/extension.gl.enchant.js:779-780 | After k airborne frames, the velocity is the start velocity minus k × gravity. |
| Controls.FramesNeverBelowGround | dev/plugins/extension.gl.enchant.js:773-781 | A player who starts at or above the ground never ends a run of frames below it. |
| Controls.VerticalStep | dev/plugins/extension.gl.enchant.js:773-781 | The listener's writes leave `y` and `velocityY` as the vertical step gives them, and every other property unchanged. |
| Controls.YawTurn | dev/plugins/extension.gl.enchant.js:832-841 | The angle passed to `rotateYaw`. `YawTurnIsBounded` and `NoTurnUnlessRising` state its bounds and its guard. |
| Controls.YawTurnIsBounded | dev/plugins/extension.gl.enchant.js:832-841 | A rising player with a target turns by at most `turnSpeed`, towards the target. The direction left over is max(0, \|td\| - turnSpeed). |
| Controls.NoTurnUnlessRising | dev/plugins/extension.gl.enchant.js:832 | There is no turn without a target or while not rising. |
| Controls.TPS2Step | dev/plugins/extension.gl.enchant.js:821-841 | The vertical step, then the yaw turn decided on the updated velocity. |
| Controls.NormalizeAngle | dev/plugins/extension.gl.enchant.js:867-875 | The result lies in [-π, π] and differs from the input by a whole number of turns. It is the input itself when that is already in range. |

## Left out

- `toScreenCoord` and the matrix composition `baseMatrix` are not modelled. They are perspective and matrix arithmetic in floating point through gl-matrix. They are the parameters `project` and `world`.
- Quaternion maths is not modelled: `getQuat`, `slerp`, `rotationSet`, `Quat.multiply`, the `Quat` constructor, `rotateYaw`, `forward` and `sidestep`. The same goes for `getDirectionXZ`, `calcDirectionXZ` and `calcAltura` (`atan2`, `sqrt`). They are floating point on foreign objects. The model passes slerp, multiply and the quaternion constructor as parameters, and takes the target direction `td` as an input.
- The host Action and Timeline are not modelled: the `frame` advance, callbacks, `Timeline.add`/`tween`, and the event dispatch order. The frame advance min(time, frame + elapsed) appears only in the lemmas about runs of ticks (`NextFrame`).
- The host's Action copies the non-null parameters onto the tween. Only `time` and `easing` are read back, and they are modelled by the tween's fields of those names. A parameter that overwrites another of the tween's fields, such as `node` or `frame`, is not modelled.
- Tween.TickOne: the host's event dispatch, which is not part of this model, calls the tick handler with the node as `this`. The node's `fields` map stands for every property `node[prop]` reads, own or inherited. A name the node inherits from a prototype but that is missing from `fields`, such as a method, counts as undefined in the model and would be ticked in JavaScript.
- Tween.Evaluate: a function-valued parameter is a function of the node's state, with no side effects. In JavaScript it runs with the node as `this` and may change the node. The loop calls the parameters in key order, so such a change would alter the origins read for later keys.
- Tween.Tween.Start: the method follows the corrected start, which calls a function-valued parameter only when its name is recorded. The call as written is `StartCallsAsWritten`, described under Findings.
- Tween.TweenTime: a `time` that is not a number (a string or Infinity) is treated as missing, that is as `null`.
- Tween.Ease: a custom curve receives `null` for a missing `time`. The model passes 0, the value `null` takes in arithmetic, so a curve that tests for `null` is not modelled.
- Tween.TweenEasing: an `easing` argument that is not a function would throw in JavaScript. The model falls back to the linear default instead.
- Tween.TweenEasing: a function of the node (`Thunk`) given as `easing` is treated as the linear default. In JavaScript any function there is the curve.
- Tween.Evaluate: an easing curve given as a parameter is called at start with no arguments. The model gives NaN, which is what the linear curve and any curve that computes on its arguments give. A curve that returns a number without reading its arguments is not modelled.
- Tween.QuatRatio: the model has no infinities. With a zero or missing `time`, the linear curve at a positive frame is +Infinity, which the model snaps to 1 as the source does. A custom curve that returns an infinity, or a negative frame (-Infinity), is not modelled.
- Tween.ScalarUpdate: an object-valued property other than `quat`, such as a `QuatValue` under another name, is not modelled. JavaScript's `+=` turns it into a string, and the model gives NaN.
- Timeline.Offset: `this.x + x` with a non-numeric `x` concatenates strings in JavaScript. The model gives NaN.
- Timeline.RotateAxisTo: the angle is taken to be a number.
- Controls.OrDefault: string and object options are not modelled.
- Controls.FillOptions: the source writes the filled values back into the caller's `opt` object, in place. The model returns them as a new record instead, so a caller that reads its own object afterwards is not modelled.
- The camera, `setShadow`, the shadow texture data, `keybind` and the reading of `game.input` are input and rendering plumbing. The pressed keys are parameters.
- For `setControlTPS2`, `player.target = opt.target` is only a truthiness flag, `hasTarget`.
- `setControlTPS` turns by `rotateYaw(±turnSpeed)`, a host call. Only its vertical step is modelled.
- Controls.NormalizeAngle: the model computes with exact reals. Double rounding of `rad -= 2π`, and NaN or infinite inputs, are not modelled.
- The host's own `to*` distances between point, BS, AABB and OBB are not modelled. They are the parameter `host`. The model assumes these fields: BS has `radius`, AABB has `scale`, and point, Bounding and AABB2 have no `scale`.
- The Sprite3D constructor patch that creates the node's timeline is host wiring.
- The test file only logs two quaternions, and the build file is configuration.

## Findings

| source | as written | input that shows it | evidently intended | confidence | as-written member | corrected member |
|---|---|---|---|---|---|---|
| dev/plugins/extension.gl.enchant.js:682-704 | NONE overrides `toBounding`, `toBS`, `toAABB` and `toOBB`, but not `toAABB2`. It inherits `Bounding.prototype.toAABB2`, a point-in-box test. | A NONE and a new AABB2 at the same position, with the default threshold 0.0001: NONE's `intersect` reports a collision. | NONE is "a Bounding that never collides", so it should answer 1000 to `toAABB2` too. | not executed | CollisionProps.NoneHitsBoxAsWritten | CollisionProps.NoneAnswersThousand |
| dev/plugins/extension.gl.enchant.js:668-670 | AABB2's `toAABB` calls `AABB2AABB2(this, another)`. That passes the AABB2 as the cube, which reads its missing `scale`, so every comparison is NaN and false and the answer is always 1. | Coinciding unit AABB and AABB2 with threshold 0.5: the AABB hits the AABB2, but the AABB2 does not hit the AABB. | `AABB2AABB2(another, this)`, in the order AABB's `toAABB2` uses. | not executed | CollisionProps.CubeBoxAsymmetricAsWritten | CollisionProps.CubeBoxSymmetric |
| dev/plugins/extension.gl.enchant.js:409-423 | In `scaleBy`'s per-axis branch, each inner function reads `arguments[i]` of its own call. The start handler calls it with no arguments, so the factor is `undefined`. | `scaleBy(2, 3, 4, 10)` on any node: all three scale targets are NaN, and the first tick makes the scales NaN. | Each scale targets its start value times the builder's own i-th argument. | not executed | TimelineProps.ScaleByPerAxisAsWrittenIsNaN | TimelineProps.ScaleByPerAxisRecords |
| dev/plugins/extension.gl.enchant.js:251-258 | The start handler calls every function-valued parameter (line 253) before it checks the name against the exception list (line 258). So a `callback`, `onactionstart`, `onactiontick` or `onactionend` handler passed to `tween` also runs once at start, with the node as `this`. | `tween({x: 1, onactionstart: h})`: the start loop calls `h` although it records nothing for that name. | The exception list is checked first, so a handler runs only when the host dispatches its event. | not executed | TweenProps.HandlerCalledAtStartAsWritten | TweenProps.StartCallsExactly |
