# Head-coupled parallax: a Dafny model of the tracking state machine

The web page shows a 3D model (a cube with floating satellites, a small
character with stars, or a room) through a camera that follows the
viewer's head. A face detector reports a bounding box per webcam frame.
`onFaceResults` turns the box into mirrored head targets in [-1, 1] and a
clamped depth proxy. Every display frame, `animate` advances a fixed
clock, moves each smoothed head axis 8% of the way toward its target,
places the camera at `(3 * headX, 3 * headY, 10)`, and animates the
children of the model group by their role flags. The model buttons clear
the group and build the chosen model.

This project models that state machine as pure functions over an
immutable `State` with `real` arithmetic:

- `Numerics`: `Math.sin`, `Math.cos` and `Math.sqrt` are function
  parameters. They are read through `Trig` (values in [-1, 1]) and `Sqrt`
  (positive on positive arguments).
- `Smoothing`: one smoothing step and its iterates, with the closed form
  and convergence.
- `Tracking`: the box-to-target mapping and the depth clamp.
- `Scene`: the group's children, the three model builds (only the role
  flags, `baseY`, `angle` and transforms the animation reads), and
  `clearModel`.
- `Animation`: the per-role updates of one frame.
- `Parallax`: the state, the four events (detection result, frame, model
  selection, camera ready) and runs of events.
- `Properties`: lemmas that relate several events.

Two facts of app.js shape the model:

- Roles are independent `userData` flags rather than one enum value. A
  child with both the floating and the character flag gets both updates,
  and the character values win on `position.y` and `rotation.y`.
- The model-select switch has no default case. An unknown name changes
  `currentModel` and keeps the old group.

## Model

| member | source | states |
|---|---|---|
| Smoothing.StepContracts | app.js:611-614 | One smoothing step lands between the old value and the target (no overshoot), leaves exactly 0.92 of the gap, and reaches the target only if it started there |
| Smoothing.SmoothBetween | app.js:611-614 | However many frames pass with the target held, the smoothed value stays between its start and the target |
| Smoothing.SmoothGap | app.js:611-614 | After n frames with the target held, the remaining gap is 0.92^n times the starting gap |
| Smoothing.StrictApproach | app.js:611-614 | From a start off the target, the value never reaches the target and every frame strictly shrinks the gap, moving monotonically toward the target from either side |
| Smoothing.RetainBernoulli | app.js:612 | 0.92^n * (1 + 0.08 n) <= 1, the bound that gives convergence its rate |
| Smoothing.RetainBelow | app.js:612 | For every positive tolerance, some frame count brings the retained fraction 0.92^k below it |
| Smoothing.GapWithin | app.js:611-614 | Once 0.92^n is below a tolerance, the gap after n frames is within that tolerance times the starting gap |
| Smoothing.Converges | app.js:611-614 | For every tolerance, from some frame on, the gap stays within that fraction of the starting gap (convergence to a held target) |
| Smoothing.FiftyFramesWithinTwoPercent | app.js:611-614 | Fifty frames leave less than 2% of the starting gap |
| Tracking.MirrorRoundTrip | app.js:493-494 | The centre-to-target mapping and its inverse undo each other in both directions |
| Tracking.MirrorRange | app.js:493-494 | A centre lies in [0, 1] if and only if its target lies in [-1, 1] |
| Tracking.MirrorReverses | app.js:493-494 | The mapping is mirrored: a larger centre gives a smaller target, and the target is 0 exactly for the centre 0.5 |
| Tracking.Depth | app.js:496-498 | The depth target lies in [0.5, 1.5] for every face area, including the zero area whose unclamped depth is infinite |
| Tracking.DepthIsNearest | app.js:498 | The clamped depth is the point of [0.5, 1.5] nearest the unclamped 0.8 / sqrt(area), and an in-range depth is kept unchanged |
| Tracking.DepthNearZero | app.js:496-498 | Every positive face area whose square root is at most 0.5 already clamps to the far bound, so the zero area (whose 0.8 / 0 is infinite) continues the clamp rather than being a special value |
| Tracking.Targets | app.js:493-498 | The three targets of a box: x and y in [-1, 1] for a centred box, z in [0.5, 1.5], and the box centre recoverable from x and y |
| Scene.Satellite | app.js:106-117 | Satellite cube i is floating, carries angle (i / 6) * 2 * PI, and rests at baseY equal to its starting height, which lies in [-1, 1] |
| Scene.CubeGroup | app.js:65-119 | The cube model has eight children: two main objects, then six floating cubes with their ring angles, each resting at its own baseY in [-1, 1] |
| Scene.CharacterGroup | app.js:121-268 | The character model has six children: the character body at the origin, then five floating stars resting at their baseY; for real random draws each rests in [-1.5, 1.5) with an angle in [0, 2 PI) |
| Scene.RoomGroup | app.js:270-429 | The room model has 22 children, none with a role flag |
| Scene.ClearModel | app.js:50-63 | Clearing empties the group and releases every child exactly once, first to last |
| Animation.AnimateChild | app.js:631-645 | Floating: y within 0.15 of baseY and rotation x, y up by 0.008, 0.012. Character: y and rotation.y within 0.08, and the character update wins on those two fields. No role: unchanged |
| Animation.SpinMain | app.js:650-653 | A main object turns by 0.004 and 0.006 on x and y; any other child is unchanged |
| Animation.AnimateGroup | app.js:631-655 | Per child of the group: roles and userData kept, untagged children unchanged, floating and character bounds, and main objects turned exactly when the model is "cube" |
| Parallax.Init | app.js:18-28 | Page load: head and targets at (0, 0, 1), camera at distance 10, cube model, not tracking; the state satisfies both invariants |
| Parallax.Detect | app.js:493-509 | A detection sets the targets from the box (centre recoverable, depth clamped), sets isTracking whatever it was, and changes nothing else |
| Parallax.Lose | app.js:510-516 | No detection: targets held; isTracking drops exactly when it was set and the camera has started; nothing else changes |
| Parallax.OnFaceResults | app.js:473-517 | Only the first detection is used; with none, the targets are kept; the head, camera and group never change here |
| Parallax.CameraReady | app.js:542 | The camera-started flag becomes true and nothing else changes |
| Parallax.Tick | app.js:606-656 | A frame: clock up by 0.016, each axis between its old value and target with 0.92 of the gap left, camera at (3 headX, 3 headY, 10) from the new values, targets, model and flags kept, children animated at the new clock |
| Parallax.SelectModel | app.js:579-601 | A model button records the name and, for "cube", "character" or "room", replaces the group by that model's build; an unknown name keeps the group; nothing else changes |
| Properties.ApplyKeepsInv | app.js:473-656 | Every event keeps both depths in [0.5, 1.5] and the camera at (3 headX, 3 headY, 10); with a centred detection, targets and head stay in [-1, 1] |
| Properties.RunKeepsInv | app.js:473-656 | Every event sequence keeps the invariant, and keeps targets and head in [-1, 1] while every detection is centred |
| Properties.CameraInView | app.js:620-625 | In a state keeping both invariants the camera lies within [-3, 3] on x and y at distance 10 |
| Properties.CameraStaysInView | app.js:620-625 | From page load onward the camera stays within [-3, 3] on x and y for as long as every detection is centred |
| Properties.FramesClosedForm | app.js:606-614 | n frames in a row: each axis is n smoothing steps toward its unchanged target, the clock is up by 0.016 n, tracking flag and model unchanged |
| Properties.HoldLastTarget | app.js:510-516 | After losing the face, the frames that follow keep approaching the last target rather than the centre |
| Properties.FramesGap | app.js:611-614 | After n frames the gap on each axis is 0.92^n times the gap before them |
| Properties.FirstFramesFromRest | app.js:18-25 | From headX = 0 (page load), a face at the left image edge sets targetHeadX = 1, and the next two frames give headX = 0.08 and 0.1536 |
| Properties.CameraIgnoresTracking | app.js:620-625 | The tracking flag makes no difference to a frame's smoothed values or camera |
| Properties.SpinOnlyInCube | app.js:648-655 | A main object's rotation changes during a frame if and only if the cube model is selected |
| Properties.PlainGroupStill | app.js:631-655 | A frame leaves a group of role-less children unchanged |
| Properties.EmptyGroupFrame | app.js:631-655 | On an empty group a frame changes only the clock, the smoothed values and the camera |
| Properties.RoomStaysStill | app.js:596-597 | Once the room is selected, no child moves however many frames pass |
| Properties.SelectLastWins | app.js:743-768 | Two builds of the same model in a row, whatever their random draws (a fullscreen button also matches the handler at app.js:580-600, so one click runs both), leave the state the second build alone gives |
| Properties.FramesConverge | app.js:611-614 | For every tolerance there is a frame count after which every head axis stays within that fraction of its starting gap |

## Left out

- Rendering: `camera.lookAt`, the projection, lights and `renderer.render` are library calls. The camera is modelled by its position only.
- Geometry, materials, colours and their `dispose` calls: asset data. `Scene.ClearModel` models only the order of release.
- `userData.speed` of the stars: `animate` never reads it.
- MediaPipe set-up, `getUserMedia`, the `Camera` frame loop and the asynchronous `faceDetection.send`: detections arrive as `FaceResults` events.
- Drawing the box on the 2D canvas, the tracking read-outs, status text and button classes: DOM output only.
- Fullscreen enter and exit, the resize handlers and the key listener: they change nothing the model holds (fullscreen flag, body class, mini webcam source, canvas size and camera aspect).
- `requestAnimationFrame` scheduling: one `Frame` event is one call of `animate`.
- IEEE-754 rounding: numbers are exact reals, so the printed values such as 0.1536 are exact.
- `Math.random`: the star draws and the room poses are inputs of the `Select` event. `Scene.Random` states what a real draw satisfies.
- `Math.sin`, `Math.cos` and `Math.sqrt` are not computed. The model uses only that sine values lie in [-1, 1] and that square roots of positive numbers are positive. Cosine values are used only for satellite x, about which nothing is stated.
- Tracking.Targets: requires a non-negative width and height, because a negative area makes `Math.sqrt` return NaN, which is not a real number.
- Scene.CubeGroup: states nothing about the satellites' x and z positions, which depend on the cosine and sine values themselves.
- Scene.RoomGroup: states only the number of pieces and that none has a role; where the pieces stand is an input.
- Parallax.Detect: a detection with a NaN or infinite centre cannot be expressed with reals.
