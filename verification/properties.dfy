/** Properties of the parallax state machine that relate several events:
    invariants kept by every event sequence, the closed form of repeated
    frames, "hold the last target", and the role-dependent animation. */
module Properties {
  import opened Numerics
  import opened Scene
  import opened Tracking
  import opened Smoothing
  import opened Animation
  import opened Parallax

  /** Every single event keeps the invariant, and keeps the targets and
      smoothed values in [-1, 1] when its detection is centred. */
  lemma ApplyKeepsInv(s: State, e: Event, m: Maths)
    requires Admissible(e) && Inv(s)
    ensures Inv(Apply(s, e, m))
    ensures InView(s) && CentredEvent(e) ==> InView(Apply(s, e, m))
  {
    match e
    case FaceResults(d) =>
    case Frame =>
      var r := Tick(s, m.sin);
      assert r.camera == CameraFor(r.head);
    case Select(name, stars, room) =>
    case CameraStart =>
  }

  /** Every event sequence keeps the invariant: the depth target and the
      smoothed depth stay in [0.5, 1.5] and the camera always sits at
      `(3 * headX, 3 * headY, 10)`.  While every detection is centred the
      camera never leaves [-3, 3] on either axis. */
  lemma {:induction false} RunKeepsInv(s: State, events: seq<Event>, m: Maths)
    requires forall i :: 0 <= i < |events| ==> Admissible(events[i])
    requires Inv(s)
    ensures Inv(Run(s, events, m))
    ensures InView(s) && (forall i :: 0 <= i < |events| ==> CentredEvent(events[i])) ==>
      InView(Run(s, events, m))
    decreases |events|
  {
    if |events| > 0 {
      ApplyKeepsInv(s, events[0], m);
      RunKeepsInv(Apply(s, events[0], m), events[1..], m);
    }
  }

  /** In a state that keeps both invariants the camera stays within
      `ParallaxAmount` of the axis in x and y, at the fixed distance. */
  lemma CameraInView(s: State)
    requires Inv(s) && InView(s)
    ensures -3.0 <= s.camera.x <= 3.0 && -3.0 <= s.camera.y <= 3.0
    ensures s.camera.z == CameraDistance
  {
  }

  /** Starting from a state that keeps both invariants (page load does,
      by `Init`'s contract), the camera stays within [-3, 3] on both axes
      for as long as every detection is centred. */
  lemma CameraStaysInView(s: State, events: seq<Event>, m: Maths)
    requires forall i :: 0 <= i < |events| ==> Admissible(events[i])
    requires forall i :: 0 <= i < |events| ==> CentredEvent(events[i])
    requires Inv(s) && InView(s)
    ensures -3.0 <= Run(s, events, m).camera.x <= 3.0
    ensures -3.0 <= Run(s, events, m).camera.y <= 3.0
  {
    RunKeepsInv(s, events, m);
    CameraInView(Run(s, events, m));
  }

  /** `n` frames in a row: each axis is `n` smoothing steps toward its
      unchanged target, and the clock has advanced by `0.016 * n`. */
  lemma {:induction false} FramesClosedForm(s: State, n: nat, sin: real -> real)
    ensures Frames(s, n, sin).head ==
      Vec3(Smooth(s.head.x, s.target.x, n), Smooth(s.head.y, s.target.y, n), Smooth(s.head.z, s.target.z, n))
    ensures Frames(s, n, sin).target == s.target
    ensures Frames(s, n, sin).time == s.time + 0.016 * n as real
    ensures Frames(s, n, sin).isTracking == s.isTracking
    ensures Frames(s, n, sin).currentModel == s.currentModel
  {
    if n > 0 {
      FramesClosedForm(s, n - 1, sin);
    }
  }

  /** Losing the face holds the last target: the frames that follow keep
      approaching it, never the centre. */
  lemma HoldLastTarget(s: State, n: nat, sin: real -> real)
    ensures Frames(Lose(s), n, sin).target == s.target
    ensures Frames(Lose(s), n, sin).head ==
      Vec3(Smooth(s.head.x, s.target.x, n), Smooth(s.head.y, s.target.y, n), Smooth(s.head.z, s.target.z, n))
  {
    FramesClosedForm(Lose(s), n, sin);
  }

  /** After `n` frames the gap on each axis is `0.92^n` times the gap
      before them. */
  lemma FramesGap(s: State, n: nat, sin: real -> real)
    ensures s.target.x - Frames(s, n, sin).head.x == Pow(Retain, n) * (s.target.x - s.head.x)
    ensures s.target.y - Frames(s, n, sin).head.y == Pow(Retain, n) * (s.target.y - s.head.y)
    ensures s.target.z - Frames(s, n, sin).head.z == Pow(Retain, n) * (s.target.z - s.head.z)
  {
    FramesClosedForm(s, n, sin);
    SmoothGap(s.head.x, s.target.x, n);
    SmoothGap(s.head.y, s.target.y, n);
    SmoothGap(s.head.z, s.target.z, n);
  }

  /** From rest (`headX = 0`, as at page load), a face seen at the left
      edge of the image (`xCenter = 0`, so `targetHeadX = 1`) moves
      `headX` to 0.08 after one frame and to 0.1536 after two. */
  lemma FirstFramesFromRest(s: State, b: BBox, sqrt: real -> real, sin: real -> real)
    requires s.head.x == 0.0 && b.xCenter == 0.0 && Sized(b)
    ensures Detect(s, b, sqrt).target.x == 1.0
    ensures Tick(Detect(s, b, sqrt), sin).head.x == 0.08
    ensures Tick(Tick(Detect(s, b, sqrt), sin), sin).head.x == 0.1536
  {
    var d := Detect(s, b, sqrt);
    var t1 := Tick(d, sin);
    assert d.target.x == 1.0;
    assert t1.head.x == 0.08;
    assert t1.target.x == 1.0;
  }

  /** The camera follows the smoothed head alone: the tracking flag makes
      no difference to a frame's camera or smoothed values. */
  lemma CameraIgnoresTracking(s: State, tracking: bool, sin: real -> real)
    ensures Tick(s.(isTracking := tracking), sin).camera == Tick(s, sin).camera
    ensures Tick(s.(isTracking := tracking), sin).head == Tick(s, sin).head
  {
  }

  /** A main object turns during a frame exactly when the cube model is
      the selected one. */
  lemma SpinOnlyInCube(s: State, i: nat, sin: real -> real)
    requires i < |s.group| && s.group[i].roles == MainObject
    ensures Tick(s, sin).group[i].rotation != s.group[i].rotation <==> s.currentModel == "cube"
  {
  }

  /** A group of plain nodes does not move during a frame. */
  lemma {:induction false} PlainGroupStill(group: seq<Child>, time: real, model: string, sin: real -> real)
    requires forall i :: 0 <= i < |group| ==> group[i].roles == Untagged
    ensures AnimateGroup(group, time, model, sin) == group
  {
    var g := AnimateGroup(group, time, model, sin);
    assert forall i :: 0 <= i < |g| ==> g[i] == group[i];
  }

  /** A frame on an empty group (between a clear and a rebuild) changes
      only the clock, the smoothed values and the camera. */
  lemma EmptyGroupFrame(s: State, sin: real -> real)
    requires s.group == []
    ensures Tick(s, sin).group == []
    ensures Tick(s, sin).(time := s.time, head := s.head, camera := s.camera) == s
  {
  }

  /** Once the room is selected nothing in the group moves, however many
      frames pass. */
  lemma {:induction false} RoomStaysStill(s: State, n: nat, m: Maths, stars: seq<StarDraw>, room: seq<(Vec3, Vec3)>)
    requires |stars| == Stars && |room| == RoomPieces
    ensures Frames(SelectModel(s, "room", m.sin, m.cos, stars, room), n, m.sin).group == RoomGroup(room)
  {
    if n > 0 {
      RoomStaysStill(s, n - 1, m, stars, room);
      var prev := Frames(SelectModel(s, "room", m.sin, m.cos, stars, room), n - 1, m.sin);
      PlainGroupStill(prev.group, prev.time + 0.016, prev.currentModel, m.sin);
    }
  }

  /** A model button inside the fullscreen panel matches both click
      handlers, so one click builds the model twice, each time with fresh
      random draws.  The second build replaces the first entirely: the
      result is what that build alone gives, whatever the first one drew. */
  lemma SelectLastWins(s: State, name: string, m: Maths,
                       stars1: seq<StarDraw>, room1: seq<(Vec3, Vec3)>,
                       stars2: seq<StarDraw>, room2: seq<(Vec3, Vec3)>)
    requires |stars1| == Stars && |room1| == RoomPieces
    requires |stars2| == Stars && |room2| == RoomPieces
    ensures SelectModel(SelectModel(s, name, m.sin, m.cos, stars1, room1), name, m.sin, m.cos, stars2, room2)
      == SelectModel(s, name, m.sin, m.cos, stars2, room2)
  {
  }

  /** The smoothed values converge to a held target: for every tolerance
      there is a frame count after which every axis stays within that
      fraction of its starting gap. */
  lemma FramesConverge(s: State, eps: real, sin: real -> real) returns (k: nat)
    requires 0.0 < eps
    ensures forall n: nat :: k <= n ==> FramesWithin(s, n, sin, eps)
  {
    k := RetainBelow(eps);
    forall n: nat | k <= n
      ensures FramesWithin(s, n, sin, eps)
    {
      PowRetainAntitone(k, n);
      FramesGapWithin(s, n, sin, eps);
    }
  }

  /** After `n` frames every axis is within `eps` times its starting gap. */
  ghost predicate FramesWithin(s: State, n: nat, sin: real -> real, eps: real) {
    HeadWithin(s, Frames(s, n, sin).head, eps)
  }

  /** Every axis of `h` is within `eps` times the gap `s` starts from. */
  ghost predicate HeadWithin(s: State, h: Vec3, eps: real) {
    && AxisWithin(s.head.x, s.target.x, h.x, eps)
    && AxisWithin(s.head.y, s.target.y, h.y, eps)
    && AxisWithin(s.head.z, s.target.z, h.z, eps)
  }

  /** `v` is within `eps` times the gap from `current` to `target`. */
  ghost predicate AxisWithin(current: real, target: real, v: real, eps: real) {
    Abs(target - v) <= eps * Abs(target - current)
  }

  lemma FramesGapWithin(s: State, n: nat, sin: real -> real, eps: real)
    requires Pow(Retain, n) <= eps
    ensures FramesWithin(s, n, sin, eps)
  {
    FramesClosedForm(s, n, sin);
    SmoothWithin(s, n, eps);
  }

  lemma SmoothWithin(s: State, n: nat, eps: real)
    requires Pow(Retain, n) <= eps
    ensures HeadWithin(s, Vec3(Smooth(s.head.x, s.target.x, n), Smooth(s.head.y, s.target.y, n),
                               Smooth(s.head.z, s.target.z, n)), eps)
  {
    SmoothAxisWithin(s.head.x, s.target.x, n, eps);
    SmoothAxisWithin(s.head.y, s.target.y, n, eps);
    SmoothAxisWithin(s.head.z, s.target.z, n, eps);
  }

  lemma SmoothAxisWithin(current: real, target: real, n: nat, eps: real)
    requires Pow(Retain, n) <= eps
    ensures AxisWithin(current, target, Smooth(current, target, n), eps)
  {
    GapWithin(current, target, n, eps);
  }
}
