/** The head-coupled parallax state machine of app.js.

    One immutable `State` holds what the source keeps in module-level
    variables: the smoothed and target head positions, the animation clock,
    the selected model, the two status flags, the camera position and the
    children of the model group.  Four kinds of event change it: a
    detection result (with or without a face), a frame, a model selection
    and the camera becoming ready. */
module Parallax {
  import opened Numerics
  import opened Scene
  import opened Tracking
  import opened Smoothing
  import opened Animation

  /** How far the camera moves per unit of head movement. */
  const ParallaxAmount: real := 3.0

  /** The camera's fixed distance from the scene. */
  const CameraDistance: real := 10.0

  /** The clock advance per frame. */
  const TimeStep: real := 0.016

  datatype State = State(
    head: Vec3,            // headX, headY, headZ (smoothed)
    target: Vec3,          // targetHeadX, targetHeadY, targetHeadZ
    time: real,
    currentModel: string,
    isTracking: bool,
    isCameraStarted: bool,
    camera: Vec3,          // camera.position
    group: seq<Child>)     // modelGroup.children

  /** The camera position for a smoothed head position; it always looks at
      the origin. */
  function CameraFor(head: Vec3): Vec3 {
    Vec3(head.x * 3.0, head.y * 3.0, 10.0)
  }

  /** The facts every reachable state keeps: both depths stay in the clamp
      range and the camera sits where the smoothed head puts it. */
  ghost predicate Inv(s: State) {
    && NearZ <= s.target.z <= FarZ
    && NearZ <= s.head.z <= FarZ
    && s.camera == CameraFor(s.head)
  }

  /** The extra facts that hold while every detection's centre lies inside
      the image: targets and smoothed values in [-1, 1], so the camera
      moves at most `ParallaxAmount` either way. */
  ghost predicate InView(s: State) {
    && -1.0 <= s.target.x <= 1.0 && -1.0 <= s.target.y <= 1.0
    && -1.0 <= s.head.x <= 1.0 && -1.0 <= s.head.y <= 1.0
  }

  /** Page load: head and targets at (0, 0, 1), clock at 0, camera at
      (0, 0, 10), not tracking, camera not started, cube model built. */
  function Init(sin: real -> real, cos: real -> real): (s: State)
    ensures Inv(s) && InView(s)
    ensures s.currentModel == "cube" && !s.isTracking && !s.isCameraStarted
    ensures s.head == s.target && s.camera.z == CameraDistance
    ensures s.head.x == 0.0 && s.head.y == 0.0 && s.head.z == 1.0
  {
    var centre := Vec3(0.0, 0.0, 1.0);
    State(centre, centre, 0.0, "cube", false, false, Vec3(0.0, 0.0, 10.0), CubeGroup(sin, cos))
  }

  /** `onFaceResults` with a face: new targets from the first box, and the
      tracking flag set whatever it was. */
  function Detect(s: State, b: BBox, sqrt: real -> real): (r: State)
    requires Sized(b)
    ensures r.isTracking
    ensures NearZ <= r.target.z <= FarZ
    ensures Centred(b) ==> -1.0 <= r.target.x <= 1.0 && -1.0 <= r.target.y <= 1.0
    ensures Unmirror(r.target.x) == b.xCenter && Unmirror(r.target.y) == b.yCenter
    ensures r.head == s.head && r.camera == s.camera && r.time == s.time
    ensures r.group == s.group && r.currentModel == s.currentModel
    ensures r.isCameraStarted == s.isCameraStarted
  {
    s.(target := Targets(b, sqrt), isTracking := true)
  }

  /** `onFaceResults` without a face: the targets are held, and the flag
      drops only while tracking with the camera started. */
  function Lose(s: State): (r: State)
    ensures r.target == s.target
    ensures r.isTracking <==> s.isTracking && !s.isCameraStarted
    ensures r.(isTracking := s.isTracking) == s
  {
    if s.isTracking && s.isCameraStarted then s.(isTracking := false) else s
  }

  /** `onFaceResults`: only the first detection of a result is used. */
  function OnFaceResults(s: State, detections: seq<BBox>, sqrt: real -> real): (r: State)
    requires |detections| > 0 ==> Sized(detections[0])
    ensures |detections| > 0 ==> r.isTracking && r.target == Targets(detections[0], sqrt)
    ensures |detections| == 0 ==> r.target == s.target
    ensures r.head == s.head && r.camera == s.camera && r.group == s.group
  {
    if |detections| > 0 then Detect(s, detections[0], sqrt) else Lose(s)
  }

  /** The webcam has started (`isCameraStarted = true` once its metadata
      has loaded). */
  function CameraReady(s: State): (r: State)
    ensures r.isCameraStarted
    ensures r.(isCameraStarted := s.isCameraStarted) == s
  {
    s.(isCameraStarted := true)
  }

  /** One call of `animate`: advance the clock, smooth each axis toward its
      target, place the camera from the new smoothed values and animate the
      children.  Nothing here reads `isTracking`. */
  function Tick(s: State, sin: real -> real): (r: State)
    ensures r.time == s.time + 0.016
    ensures Min(s.head.x, s.target.x) <= r.head.x <= Max(s.head.x, s.target.x)
    ensures Min(s.head.y, s.target.y) <= r.head.y <= Max(s.head.y, s.target.y)
    ensures Min(s.head.z, s.target.z) <= r.head.z <= Max(s.head.z, s.target.z)
    ensures s.target.x - r.head.x == 0.92 * (s.target.x - s.head.x)
    ensures s.target.y - r.head.y == 0.92 * (s.target.y - s.head.y)
    ensures s.target.z - r.head.z == 0.92 * (s.target.z - s.head.z)
    ensures r.camera == Vec3(r.head.x * ParallaxAmount, r.head.y * ParallaxAmount, CameraDistance)
    ensures r.target == s.target && r.currentModel == s.currentModel
    ensures r.isTracking == s.isTracking && r.isCameraStarted == s.isCameraStarted
    ensures r.group == AnimateGroup(s.group, r.time, s.currentModel, sin)
  {
    StepContracts(s.head.x, s.target.x);
    StepContracts(s.head.y, s.target.y);
    StepContracts(s.head.z, s.target.z);
    var time := s.time + TimeStep;
    var head := Vec3(Step(s.head.x, s.target.x), Step(s.head.y, s.target.y), Step(s.head.z, s.target.z));
    s.(time := time, head := head, camera := CameraFor(head),
       group := AnimateGroup(s.group, time, s.currentModel, sin))
  }

  /** A model-select button: record the name, then, for a known name,
      clear the group and build that model in its place.  Each build starts
      by clearing the group, and `ClearModel` leaves it empty, so clearing
      and then adding the new children is written here as replacing the
      group by the build.  An unknown name changes `currentModel` only. */
  function SelectModel(s: State, name: string, sin: real -> real, cos: real -> real,
                       stars: seq<StarDraw>, room: seq<(Vec3, Vec3)>): (r: State)
    requires |stars| == Stars && |room| == RoomPieces
    ensures r.currentModel == name
    ensures name == "cube" ==> r.group == CubeGroup(sin, cos)
    ensures name == "character" ==> r.group == CharacterGroup(stars)
    ensures name == "room" ==> r.group == RoomGroup(room)
    ensures name != "cube" && name != "character" && name != "room" ==> r.group == s.group
    ensures r.(currentModel := s.currentModel, group := s.group) == s
  {
    var group :=
      match name
      case "cube" => CubeGroup(sin, cos)
      case "character" => CharacterGroup(stars)
      case "room" => RoomGroup(room)
      case _ => s.group;
    s.(currentModel := name, group := group)
  }

  /** The events the page reacts to.  The random draws and poses a model
      build consumes travel with its selection event. */
  datatype Event =
    | FaceResults(detections: seq<BBox>)
    | Frame
    | Select(name: string, stars: seq<StarDraw>, room: seq<(Vec3, Vec3)>)
    | CameraStart

  /** The stand-ins for `Math.sin`, `Math.cos` and `Math.sqrt`. */
  datatype Maths = Maths(sin: real -> real, cos: real -> real, sqrt: real -> real)

  predicate Admissible(e: Event) {
    match e
    case FaceResults(d) => |d| > 0 ==> Sized(d[0])
    case Select(_, stars, room) => |stars| == Stars && |room| == RoomPieces
    case _ => true
  }

  /** A detection, if the event carries one, is centred inside the image. */
  predicate CentredEvent(e: Event) {
    e.FaceResults? && |e.detections| > 0 ==> Centred(e.detections[0])
  }

  function Apply(s: State, e: Event, m: Maths): State
    requires Admissible(e)
  {
    match e
    case FaceResults(d) => OnFaceResults(s, d, m.sqrt)
    case Frame => Tick(s, m.sin)
    case Select(name, stars, room) => SelectModel(s, name, m.sin, m.cos, stars, room)
    case CameraStart => CameraReady(s)
  }

  function Run(s: State, events: seq<Event>, m: Maths): State
    requires forall i :: 0 <= i < |events| ==> Admissible(events[i])
    decreases |events|
  {
    if |events| == 0 then s else Run(Apply(s, events[0], m), events[1..], m)
  }

  /** `n` frames with no other event in between. */
  function Frames(s: State, n: nat, sin: real -> real): State {
    if n == 0 then s else Tick(Frames(s, n - 1, sin), sin)
  }
}
