# fovr-tutorials, modelled in Dafny

This project models the computational core of a set of browser exercises
about virtual and augmented reality. Most of the repository wires together
three.js, Tone.js, MediaPipe and ecsy. Underneath that glue sit small pieces
of sequential arithmetic and state logic, and those are what is modelled
here, over Dafny's `real`, with 3-vectors as the datatype `Vectors.Vec3`:

- **An entity/component simulation** (`07/components.mjs`, `07/systems.mjs`,
  `07/script_ECS.js`).
  - An entity is a record holding at most one component of each kind.
  - A query keeps the entities that hold every kind it lists.
  - Each of the eight systems is a per-entity step. `Systems.World.ExecuteSystem`
    runs one step over the entity list in place, as the `forEach` does.
  - `Systems.World.Execute` runs the systems in registration order.
  - `EcsDemo.App` holds the concrete scene: two entities, the fixed schedule,
    the start-up `execute(0, 0)` and the frame loop with its `deltaTime > 0`
    guard.
  - Render handles (three.js meshes) are a map from the `Mesh` component's
    reference to the transform the systems write. Two entities that share a
    handle therefore see each other's writes.
- **The object/behaviour variant** (`07/script.js`).
  - `BaseObject` delegates to an optional `SpinBehavior` or `BounceBehavior`.
  - The bounce is a semi-implicit Euler step with a sign flip below the
    floor y = -2.
- **Smoothing filters** (`05/tasks.js`).
  - A sliding-window moving average, held as a buffer in a class field.
  - Single and double exponential smoothing.
  - The `LowPassFilter` class with the `alpha` helper, and the One Euro
    filter built from two low-pass filters.
  - `02/script.js:74-120` repeats the moving average and the two exponential
    filters without change, so the same classes model both copies.
- **Head-coupled stereo** (`02/script.js`).
  - The two-point calibration fit `distance = a / s + b`.
  - The mapping from a face bounding box to tracker coordinates.
  - The camera parameters with the ToeIn/OffAxis toggle, the detection step
    that writes them, and the coefficients `makeFrustum` computes.
- **Spatial audio** (`06/script.js`).
  - The interaural time-delay split and the distance gain rule with one-sided
    head absorption.
  - The WASD key handler, which moves the head; the ears and nose follow
    through `update_ears`.

Library calls are replaced by their vector arithmetic. Transcendental
functions are parameters the caller supplies:

- `Math.sqrt`;
- `Math.sin`;
- `Math.PI`;
- real-exponent `**`;
- `Vector3.length()`.

The clocks (`Date.now()`, `performance.now()`) become parameters too.

Some behaviour of the source that the model makes explicit:

- **Render shows the pre-reset position.** The ECS schedule runs Render
  before FallThrough and Bounce. After a tick, a handle therefore shows the
  position after Gravity and Movement, before FallThrough puts it back in
  range (`EcsDemo.RenderShowsMovedPosition`). The Position component itself
  ends in range (`EcsDemo.TickEndsInRange`).
- **No overshoot is carried.** `putIntoLimits` sends a value below the range
  to the upper bound and one above it to the lower bound.
- **The pulse scale leaves [min, max].** It ranges over
  `[(min + max) / 2, (3 max - min) / 2]` (`Systems.PulseScaleRange`).
- **The double exponential trend only decays.** `lastDEPositionVector` is
  overwritten by the smoothed position before the trend update, so the trend
  is pulled toward a zero difference. Every later call gives
  `trend' = (1 - beta) * trend`, and the measurement never reaches the trend
  (`Filters.DoubleLaterCalls`, `Filters.DoubleTrendIgnoresInput`). The second
  call returns its input exactly.
- **The bounce has no clamp and no dt guard.** It writes the height unclamped
  even below the floor, and the `07/script.js` driver updates with any
  `deltaTime`, zero or negative included (`Behaviours.Demo.Frame`). The ECS
  driver, by contrast, executes only when `deltaTime > 0`
  (`EcsDemo.App.Frame`).
- **The first One Euro call does no smoothing.** It records the clock and
  uses a rate of 60. The change is the zero vector with alpha 0, so the
  measurement is returned unchanged (`Filters.OneEuro.Update`).
- **`makeFrustum` only logs its coefficients.** Its call to `M.set` is
  commented out. `Tracking.MakeFrustum` returns the six coefficients, and
  the lemmas state what they do to the near plane's corners and to the
  depth range.

## Model

| member | source | states |
|---|---|---|
| Vectors.Lerp | 05/tasks.js:30-31 | `lerp` by 0 stays, by 1 reaches the target, and between equal points it is the identity |
| Vectors.LerpInBox | 05/tasks.js:30-31 | with 0 <= alpha <= 1, a lerp between two points of a box stays in the box |
| Vectors.MeanInBox | 05/tasks.js:15-19 | the mean of points from a box lies in the box |
| Vectors.MeanOfConstant | 05/tasks.js:15-19 | averaging n copies of one vector gives that vector back |
| Vectors.SumInScaledBox | 05/tasks.js:15-18 | each axis of the accumulated sum of n vectors from a box lies between n times the box's bounds |
| Components.Get | 07/components.mjs:3-72 | reading the component of a kind yields a component of that kind |
| Components.Attach | 07/script_ECS.js:70-80 | `addComponent` sets the component of its own kind and leaves every other kind as it was |
| Components.BuildHolds | 07/script_ECS.js:68-96 | an entity built by a series of `addComponent` calls holds exactly the listed kinds, each with the value attached last |
| Components.DefaultsOrdered | 07/components.mjs:13-72 | the schema defaults: zero vectors, a [-10, 10] range on every axis, min < max for the range and the pulse, air resistance 0.1 |
| Systems.GravityStep | 07/systems.mjs:16-19 | for a matching entity speed.y drops by exactly 9.8 * delta and nothing else changes; a non-matching entity, or delta 0, is unchanged |
| Systems.MovementStep | 07/systems.mjs:49-55 | position moves by speed * delta on every axis, speed and the kinds are kept, delta 0 changes nothing |
| Systems.PutIntoLimits | 07/systems.mjs:99-107 | below min gives max, above max gives min, in range is unchanged, and with min <= max the result lies in [min, max] |
| Systems.PutIntoLimitsIdempotent | 07/systems.mjs:99-107 | resetting twice equals resetting once, for any bounds |
| Systems.FallThroughStep | 07/systems.mjs:84-88 | each position axis is put into its limits; with an ordered range the result is in range, an in-range entity is unchanged, the speed is untouched |
| Systems.FallThroughIdempotent | 07/systems.mjs:84-88 | applying FallThrough twice equals applying it once |
| Systems.Reflect | 07/systems.mjs:115-123 | a speed axis is negated exactly when its position axis is strictly outside [min, max] |
| Systems.BounceStep | 07/systems.mjs:111-124 | a matching entity gets each speed axis reflected by its own position axis, and its position is never written |
| Systems.BounceKeepsMagnitude | 07/systems.mjs:111-124 | after Bounce every speed axis keeps its magnitude, and an entity inside its range is unchanged |
| Systems.AirResistanceStep | 07/systems.mjs:136-142 | all three speed axes are multiplied by the same factor `(1 - value) ** delta` and nothing else changes |
| Systems.AirResistanceComposes | 07/systems.mjs:136-142 | where the power law splits over exponents, steps of d1 and d2 equal one step of d1 + d2 |
| Systems.AirResistanceAtZero | 07/systems.mjs:136-142 | where `pow(b, 0) == 1`, an AirResistance step with delta 0 leaves the entity unchanged |
| Systems.SpinStep | 07/systems.mjs:30-37 | adds spin * delta to the rotation of the entity's own handle, on all three axes, and leaves every other handle as it was |
| Systems.RenderStep | 07/systems.mjs:67-71 | the entity's handle takes the Position component as its position, and every other handle is kept |
| Systems.PulseScaleRange | 07/systems.mjs:157-158 | with the sine in [-1, 1], the written scale lies in [(min + max) / 2, (3 max - min) / 2] and reaches max + (max - min) / 2 at sine 1 |
| Systems.PulseStep | 07/systems.mjs:154-162 | writes the pulse scale to all three scale axes of the entity's handle and to no other handle |
| Systems.EntityEffect | 07/systems.mjs:14-171 | a system adds and removes no kind, and leaves an entity outside its query, or any entity if it writes only handles, unchanged |
| Systems.EntityEffectFrame | 07/systems.mjs:14-150 | systems write only Speed and Position, and only Movement and FallThrough write Position |
| Systems.MeshEffect | 07/systems.mjs:29-171 | only Spin, Render and Pulse write handles, and only for entities matching their query |
| Systems.MeshEffectFrame | 07/systems.mjs:29-171 | only Render moves a handle, and a system writes only the handle of the entity it visits |
| Systems.Pass | 07/systems.mjs:14-165 | one `execute` keeps the number of entities and the set of handles |
| Systems.PassEntities | 07/systems.mjs:14-165 | a pass applies the system's component effect to every entity in its own place |
| Systems.PassKnown | 07/systems.mjs:14-165 | after a pass every mesh reference still names a known handle |
| Systems.PassKeepsMeshes | 07/systems.mjs:14-150 | a system that writes no handle leaves every handle as it was, and only Render moves one |
| Systems.PassTouchesOnlyMatched | 07/systems.mjs:23-171 | a pass changes only the handles of entities that match its query |
| Systems.RenderPassShowsPositions | 07/systems.mjs:67-71 | with distinct handles, after Render every matching entity's handle shows its position |
| Systems.PulsePassShowsScale | 07/systems.mjs:154-162 | with distinct handles, after Pulse every matching entity's handle has the pulse scale on all axes |
| Systems.NoMatchNoChange | 07/systems.mjs:23-171 | queries are AND filters: if no entity matches, a pass changes nothing at all |
| Systems.Run | 07/script_ECS.js:101-108 | running the first n registered systems keeps the entity count and the handle set, and every reference stays known |
| Systems.RunFrame | 07/script_ECS.js:101-109 | a tick adds and removes no component, keeps every mesh reference and writes only Position and Speed |
| Systems.RunKeepsDistinct | 07/script_ECS.js:101-109 | a tick keeps the entities' handles distinct |
| Systems.PositionKept | 07/script_ECS.js:101-108 | systems other than Movement and FallThrough leave every Position component as they found it |
| Systems.HandlePositionKept | 07/script_ECS.js:101-108 | systems other than Render leave every handle's position as they found it |
| Systems.World.constructor | 07/script_ECS.js:55-65 | a new world has no entities and no systems, beside the given handles |
| Systems.World.CreateEntity | 07/script_ECS.js:68-96 | a created entity is appended after all earlier ones, and the handles and systems are kept |
| Systems.World.RegisterSystem | 07/script_ECS.js:101-108 | appends the system to the execution order and changes nothing else |
| Systems.World.ExecuteSystem | 07/systems.mjs:14-165 | the in-place `forEach` over the query results leaves exactly the functional pass's entities and handles |
| Systems.World.Execute | 07/script_ECS.js:109 | `execute(delta, time)` runs every registered system once, in registration order |
| EcsDemo.FirstEntityBuilt | 07/script_ECS.js:68-80 | the first entity's `addComponent` calls build a box with Position, Speed, Spin, Mesh, PositionRange and Bounce |
| EcsDemo.SecondEntityBuilt | 07/script_ECS.js:82-96 | the second entity's calls build a tetrahedron with Gravity, FallThrough, AirResistance and Pulse and no Bounce |
| EcsDemo.InitialQueries | 07/script_ECS.js:68-96 | the box is visited by Movement, Render, Spin and Bounce only; the tetrahedron by every system but Bounce |
| EcsDemo.InitialStateValid | 07/script_ECS.js:78-91 | the two entities refer to two distinct, known handles |
| EcsDemo.InitialPositionsInRange | 07/script_ECS.js:70-93 | both start positions lie in their ordered ranges, with the tetrahedron's z exactly on its inclusive lower bound |
| EcsDemo.ScheduleHasShape | 07/script_ECS.js:101-108 | the registration order is Gravity, Movement, Render, Spin, FallThrough, Bounce, AirResistance, Pulse |
| EcsDemo.RenderShowsMovedPosition | 07/script_ECS.js:101-106 | after every tick a rendered handle shows the post-Movement position, before any range reset |
| EcsDemo.TickEndsInRange | 07/script_ECS.js:101-108 | after every tick an entity with FallThrough and an ordered range is inside that range |
| EcsDemo.TickShowsPulse | 07/script_ECS.js:101-108 | after every tick a pulsing entity's handle has the pulse scale for the tick's time |
| EcsDemo.SetupShows | 07/script_ECS.js:109 | the start-up `execute(0, 0)` shows both initial positions and, with sin 0 = 0, the tetrahedron at scale 1.5 |
| EcsDemo.NewScene | 07/script_ECS.js:68-96 | the world holds the two entities, in creation order, with their handles |
| EcsDemo.RegisterSchedule | 07/script_ECS.js:101-108 | the eight `registerSystem` calls give the fixed schedule |
| EcsDemo.App.Setup | 07/script_ECS.js:55-111 | after start-up the world holds the result of one tick with delta 0 and time 0, and `lastTime` is the clock reading |
| EcsDemo.App.Frame | 07/script_ECS.js:114-124 | `lastTime` always moves on; the world executes one tick with the elapsed seconds exactly when they are positive |
| Behaviours.Spun | 07/script.js:26-29 | rotation.x rises and rotation.y falls by the same amount, so their sum and z are kept; zero speed or dt changes nothing |
| Behaviours.SpunComposes | 07/script.js:26-29 | updates of dt1 and then dt2 equal one update of dt1 + dt2 |
| Behaviours.Bounced | 07/script.js:39-45 | the height moves by the new velocity times dt, and the velocity is reversed exactly when that height is below -2 |
| Behaviours.BounceKeepsSpeed | 07/script.js:40-44 | a bounce keeps the speed gravity left and chooses only its sign |
| Behaviours.BounceTurnsUp | 07/script.js:42-44 | below the floor and still falling, the reversed velocity points up |
| Behaviours.BounceAtZeroStep | 07/script.js:40-45 | dt 0 keeps the height; the velocity flips exactly when the height is already below -2 |
| Behaviours.BounceGoesBelowFloor | 07/script.js:41-45 | an illustration of the general rule in `Behaviours.Bounced`: a step from -1.9 ends below the floor, unclamped, with the velocity reversed |
| Behaviours.LaunchSpeed | 07/script.js:36 | with a true square root, the start velocity is non-negative and its square is 8 * 9.81 * amplitude / 3 |
| Behaviours.SpinBehavior.Update | 07/script.js:26-29 | turns the mesh by the spin rule and keeps its position |
| Behaviours.BounceBehavior.constructor | 07/script.js:33-37 | stores speed and amplitude and starts at the square root of the launch energy |
| Behaviours.BounceBehavior.Update | 07/script.js:39-47 | the persistent velocity and the mesh height take one bounce step; x, z and the rotation stay |
| Behaviours.BaseObject.constructor | 07/script.js:2-6 | the object has its id, its behaviour and a fresh mesh at the given position |
| Behaviours.BaseObject.Update | 07/script.js:8-12 | without a behaviour nothing changes; otherwise the behaviour's rule is applied to the object's own mesh |
| Behaviours.Demo.Setup | 07/script.js:105-119 | a spinning cube (speed 2) at the origin and a ball bouncing with speed 5 and amplitude 2 at x = 2 |
| Behaviours.Demo.Frame | 07/script.js:121-129 | both objects take one update with the elapsed seconds, whatever their sign; the cube keeps its position and the ball its x, z and rotation |
| Filters.Window | 05/tasks.js:11-14 | the measurement is appended as the last element, and the length grows by one unless that would exceed the window |
| Filters.FeedKeepsLatest | 05/tasks.js:10-14 | from an empty buffer with a fixed window >= 1, the buffer never outgrows the window and holds the most recent inputs in order |
| Filters.WindowKeepsLatest | 05/tasks.js:11-14 | one call keeps the buffer the longest suffix of the inputs that fits the window |
| Filters.MovingAverage.constructor | 05/tasks.js:8 | the buffer starts empty |
| Filters.MovingAverage.Apply | 05/tasks.js:10-21 | the buffer takes the windowed push, and the result is the arithmetic mean of its contents |
| Filters.AverageInBox | 05/tasks.js:10-20 | the moving average of measurements from a box lies in the box |
| Filters.SmoothedCases | 05/tasks.js:25-34 | the first measurement is returned as it is, alpha 1 returns the measurement, alpha 0 keeps the previous value |
| Filters.SmoothedBetween | 05/tasks.js:30-31 | with 0 <= alpha <= 1 a smoothed value lies between the previous value and the measurement on every axis |
| Filters.SmoothAllInBox | 05/tasks.js:25-34 | smoothing a series from a box never leaves the box |
| Filters.SingleExponential.Apply | 05/tasks.js:25-34 | returns the measurement the first time and `prev + alpha (x - prev)` afterwards, and records what it returns |
| Filters.LowPassFilter.Update | 05/tasks.js:93-101 | the same rule; afterwards `prev` equals the value just returned |
| Filters.DoubleFirstCalls | 05/tasks.js:40-49 | the first call returns and records its input; the second starts the trend at `x - prev` and returns its input |
| Filters.DoubleLaterCalls | 05/tasks.js:44-53 | later calls return `prev + trend` lerped toward x by alpha, store it, and shrink the trend to `(1 - beta) trend` |
| Filters.DoubleTrendIgnoresInput | 05/tasks.js:49-53 | once a trend exists, the measurement has no effect on the next trend |
| Filters.DoubleExponential.Apply | 05/tasks.js:39-56 | the two state cells and the result follow the double exponential step |
| Filters.Alpha | 05/tasks.js:81-85 | for positive cutoff and rate, and pi as a positive constant, alpha lies strictly between 0 and 1 |
| Filters.AlphaClosedForm | 05/tasks.js:81-85 | alpha equals c / (c + rate) with c = 2 pi dCutoff |
| Filters.AlphaGrowsWithCutoff | 05/tasks.js:81-85 | a higher cutoff gives a larger alpha, that is less smoothing |
| Filters.Rate | 05/tasks.js:107-125 | the sampling rate is positive: 60 before a first clock reading, one over the elapsed seconds afterwards |
| Filters.ChangeAlpha | 05/tasks.js:115-125 | the change filter's alpha lies in [0, 1), and is 0 on the first call |
| Filters.OneEuro.constructor | 05/tasks.js:79-105 | no clock reading, no change, and two empty, distinct low-pass filters |
| Filters.OneEuro.Update | 05/tasks.js:114-135 | the change is smoothed at the derivative cutoff, and the measurement at `1 + beta * |smoothed change|` at the current rate; the clock is recorded |
| Filters.Cutoff | 05/tasks.js:131-132 | the adaptive cutoff is positive, so alpha is defined |
| Filters.OneEuroBetween | 05/tasks.js:133 | the One Euro output lies between the previous filtered value and the measurement on every axis |
| Filters.Tasks.constructor | 05/tasks.js:8-105 | every filter starts empty |
| Filters.Tasks.UpdateMovingAverage | 05/tasks.js:58-62 | the moving average over `params.Samples` |
| Filters.Tasks.UpdateSingleExponential | 05/tasks.js:65-69 | single exponential smoothing with `params.SEAlpha` |
| Filters.Tasks.UpdateDoubleExponential | 05/tasks.js:71-75 | double exponential smoothing with `params.DEAlpha` and `params.DEBeta` |
| Tracking.FitPassesThrough | 02/script.js:55-58 | the fitted curve `a / s + b` passes exactly through both calibration samples |
| Tracking.CalibrationConstants | 02/script.js:55-58 | the demo's samples give a = 0.135 and b = -0.05 |
| Tracking.DistanceDecreases | 02/script.js:69-70 | with a > 0 a wider face box gives a smaller distance |
| Tracking.TrackerPosition | 02/script.js:63-72 | the tracker z is the fitted distance at the box width over the video width |
| Tracking.TrackerAxisCentred | 02/script.js:67-68 | a centre at the middle of the video maps to 0 |
| Tracking.TrackerPositionCentred | 02/script.js:63-68 | a box centred in the video puts the tracker on the axis |
| Tracking.TrackerAxisRange | 02/script.js:67 | a centre inside the video maps into [-wiggleFactor, wiggleFactor] |
| Tracking.TrackerAxisDecreases | 02/script.js:67 | the tracker coordinate decreases as the centre moves right |
| Tracking.TrackerAtCalibration | 02/script.js:55-70 | a box as wide as a calibration sample gives that sample's distance |
| Tracking.ViewParams.constructor | 02/script.js:272-284 | the initial GUI values, with exactly one convergence mode selected |
| Tracking.ViewParams.UpdateCameraPosition | 02/script.js:122-126 | copies x, y, z into the camera parameters and changes no other parameter |
| Tracking.ViewParams.SetToeIn | 02/script.js:295-297 | afterwards `OffAxis == !ToeIn`, and nothing else changes |
| Tracking.ViewParams.SetOffAxis | 02/script.js:298-300 | afterwards `ToeIn == !OffAxis`, and nothing else changes |
| Tracking.ApplyDetections | 02/script.js:141-149 | the first detected face's tracker position becomes the camera position and no other parameter changes; with no face nothing changes |
| Tracking.FrustumSymmetric | 02/script.js:425-426 | A = 0 when right = -left, B = 0 when top = -bottom |
| Tracking.FrustumScalesPositive | 02/script.js:423-424 | X, Y > 0 for ordered bounds and a positive near plane |
| Tracking.FrustumMapsDepth | 02/script.js:427-428 | the depth terms send the near plane to -1 and the far plane to +1 |
| Tracking.FrustumMapsEdges | 02/script.js:423-426 | the near plane's left and right edges go to -1 and +1 on x, bottom and top to -1 and +1 on y |
| SpatialAudio.DelaySplit | 06/script.js:165-173 | both delays are >= 0, at most one is nonzero, and their difference is `(L - R) (earDistance / 2) / 343` |
| SpatialAudio.NoDelay | 06/script.js:165-173 | equal distances, or an ear distance of 0, give two zero delays |
| SpatialAudio.FartherEarDelayed | 06/script.js:165-173 | with ears apart, exactly the farther ear is delayed |
| SpatialAudio.GainRule | 06/script.js:136-146 | base gain `6.25 / d^2` per ear; a negative head factor attenuates only the left gain by `1 + hf * absorption`, otherwise only the right by `1 - hf * absorption`; absorption 0 keeps both |
| SpatialAudio.HeadFactorSide | 06/script.js:134-136 | the head factor is negative exactly when the right ear is nearer the source |
| SpatialAudio.KeyMoves | 06/script.js:434-445 | W/S move the head by +-0.25 in y, A/D by -+0.25 in x, space resets it, any other key leaves it, and opposite keys cancel |
| SpatialAudio.HeadScene.constructor | 06/script.js:352-358 | the source raised by 10 above the other meshes, the ears placed once, GUI mode, and absorption 0.5 and ear distance 0.2 as the parameters set them |
| SpatialAudio.HeadScene.UpdateEars | 06/script.js:360-369 | ears at `head.x -+ 1` at the head's height, nose at `head.y + 1`, depths and everything else unchanged |
| SpatialAudio.HeadScene.KeyDown | 06/script.js:430-448 | outside WASD mode nothing changes and no sound update is made; in WASD mode the head moves, the ears follow and the sound is recomputed from them |
| SpatialAudio.EarsAroundHead | 06/script.js:360-369 | placed ears are two units apart, level, and centred on the head |

## Left out

- Rendering: scenes, cameras, `renderer.render`, `colorMask`, `lookAt`,
  projection-matrix updates and the resize handler. These are calls into
  three.js and WebGL with no logic of their own. The `Transform` a handle
  holds is the only part of a mesh that is modelled.
- The browser and the webcam are not modelled: MediaPipe face detection,
  `getUserMedia`, the DOM overlays, the dat.GUI wiring, `requestAnimationFrame`,
  and the `lastVideoTime` check in `predictWebcam`. `Tracking.ApplyDetections`
  models only the step after a new video frame.
- Tone.js is not modelled: the node graph, `rampTo`, `gainToDb`, the reverb
  (`updateReverb`) and the FFT analyser. Only the numbers handed to the
  volume and delay nodes are modelled (`SpatialAudio.SoundFor`).
- In `06/script.js`, the GUI control mode (`updateSoundBasedOnGUI` with its
  cosine and sine), the GUI change handlers and the scene-visibility toggle
  are not modelled. The key handler's WASD path is modelled.
- IEEE floating point: rounding, NaN and Infinity. The model works over
  exact reals. A division by zero in the source is a precondition here, for
  example:
  - a window below 1 with an empty buffer;
  - zero vector lengths in `applyVolume`;
  - a zero video size or box width;
  - a zero clock difference in `computeRate`.
- Transcendentals are parameters, never computed: `Math.sqrt`, `Math.sin`,
  `Math.PI`, real-exponent `**`, `Vector3.length()`, and `Math.atan` in the
  stereo field of view. The lemmas that need one of their properties take it
  as a precondition (`Behaviours.LaunchSpeed`, `Systems.AirResistanceComposes`,
  `EcsDemo.SetupShows`).
- The clocks (`Date.now()`, `performance.now()`) are parameters. The
  millisecond readings of `07` are integers, as `Date.now()` returns.
- ecsy internals (component pools, query caching, entity ids) are not
  modelled. A query is a filter over the entity list in creation order.
- The ecsy library itself is not part of this model. The start-up
  `execute(0, 0)` is taken literally, as a tick with delta 0 and time 0,
  although the library may substitute its own clock for a zero delta.
  A second `addComponent` of a kind already held overwrites it here
  (`Components.Attach`), although the library may keep the existing one;
  the demo never attaches a kind twice.
- `console.log` calls are not modelled.
- `01/script.js` holds only a constant rotation and orbit controls.
  `05/script.js` holds only random noise and the filter `switch`. Neither is
  part of this model.
- `cameraSetProjectionMatrix` and the commented-out `M.set` of `makeFrustum`
  are dead code and are not modelled.
- Three.js returns vectors by reference. For example, the single exponential
  filter stores the caller's measurement itself on its first call. Values
  are modelled instead, so any aliasing of a stored vector with a caller's
  vector is not captured. The aliasing of ECS render handles is modelled.
- `BaseObject.update` tests `this.behavior` for truthiness. An absent
  behaviour is modelled as `None`; other falsy values are not.
- `updateOneEuro` takes the whole GUI parameter object. `Filters.OneEuro.Update`
  takes only the one field it reads, `DEBeta`, as `beta`.
- Filters.OneEuro.Update: its precondition asks for a clock reading later
  than the previous one, because a zero difference divides by zero.
- Systems.PulseStep: the sine is an opaque parameter, so the pulse scale is
  proved only relative to the sine's value.
