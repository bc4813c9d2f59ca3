/** The mapping from a detected face box to head-position targets
    (app.js, `onFaceResults`, detection branch).

    The detector reports a bounding box in normalised image coordinates.
    Its centre is mirrored into [-1, 1] (the webcam image is a mirror
    image) and its area gives a depth proxy clamped to [0.5, 1.5]. */
module Tracking {
  import opened Numerics

  /** A normalised face bounding box as the detector reports it. */
  datatype BBox = BBox(xCenter: real, yCenter: real, width: real, height: real)

  /** The box sizes the depth mapping can take: the detector reports sizes
      in [0, 1], and a negative area would make `Math.sqrt` NaN. */
  predicate Sized(b: BBox) {
    0.0 <= b.width && 0.0 <= b.height
  }

  /** A box whose centre lies inside the image. */
  predicate Centred(b: BBox) {
    0.0 <= b.xCenter <= 1.0 && 0.0 <= b.yCenter <= 1.0
  }

  const DepthScale: real := 0.8
  const NearZ: real := 0.5
  const FarZ: real := 1.5

  /** `-(center - 0.5) * 2`: image centre to mirrored head coordinate. */
  function Mirror(center: real): real {
    -(center - 0.5) * 2.0
  }

  /** The inverse of `Mirror`: the image centre a head coordinate came from. */
  function Unmirror(t: real): real {
    0.5 - t / 2.0
  }

  lemma MirrorRoundTrip(center: real, t: real)
    ensures Unmirror(Mirror(center)) == center
    ensures Mirror(Unmirror(t)) == t
  {
  }

  /** A centre inside the image maps into [-1, 1], and only such centres do. */
  lemma MirrorRange(center: real)
    ensures 0.0 <= center <= 1.0 <==> -1.0 <= Mirror(center) <= 1.0
  {
  }

  /** The mapping is mirrored: a centre further right gives a head position
      further left, and the image centre maps to 0. */
  lemma MirrorReverses(c1: real, c2: real)
    ensures c1 < c2 <==> Mirror(c2) < Mirror(c1)
    ensures Mirror(c1) == 0.0 <==> c1 == 0.5
  {
  }

  /** `Math.max(0.5, Math.min(1.5, 0.8 / Math.sqrt(faceSize)))`.  A zero
      area gives `0.8 / 0`, which is +Infinity in JavaScript and clamps to
      the far bound. */
  function Depth(faceSize: real, sqrt: real -> real): (z: real)
    requires 0.0 <= faceSize
    ensures NearZ <= z <= FarZ
  {
    if faceSize == 0.0 then FarZ
    else Max(NearZ, Min(FarZ, DepthScale / Sqrt(sqrt, faceSize)))
  }

  /** The unclamped depth of a positive area. */
  function RawDepth(faceSize: real, sqrt: real -> real): real
    requires 0.0 < faceSize
  {
    DepthScale / Sqrt(sqrt, faceSize)
  }

  /** The clamp returns the point of [0.5, 1.5] nearest the unclamped depth;
      in particular an in-range depth is kept as it is, and a zero area
      (infinitely far) gives the far bound. */
  lemma DepthIsNearest(faceSize: real, sqrt: real -> real, w: real)
    requires 0.0 < faceSize
    requires NearZ <= w <= FarZ
    ensures Abs(Depth(faceSize, sqrt) - RawDepth(faceSize, sqrt)) <= Abs(w - RawDepth(faceSize, sqrt))
    ensures NearZ <= RawDepth(faceSize, sqrt) <= FarZ ==> Depth(faceSize, sqrt) == RawDepth(faceSize, sqrt)
  {
  }

  /** The zero-area value is the limit of the clamp, not an arbitrary
      choice: every positive area whose square root is at most 0.5 (so
      `0.8 / sqrt` is at least 1.6) already clamps to the value a zero
      area gives. */
  lemma DepthNearZero(faceSize: real, sqrt: real -> real)
    requires 0.0 < faceSize && Sqrt(sqrt, faceSize) <= 0.5
    ensures Depth(faceSize, sqrt) == Depth(0.0, sqrt)
  {
    var r := Sqrt(sqrt, faceSize);
    assert 0.8 >= 1.5 * r;
  }

  /** The three targets a detection sets. */
  function Targets(b: BBox, sqrt: real -> real): (t: Vec3)
    requires Sized(b)
    ensures Centred(b) ==> -1.0 <= t.x <= 1.0 && -1.0 <= t.y <= 1.0
    ensures NearZ <= t.z <= FarZ
    ensures Unmirror(t.x) == b.xCenter && Unmirror(t.y) == b.yCenter
  {
    Vec3(Mirror(b.xCenter), Mirror(b.yCenter), Depth(b.width * b.height, sqrt))
  }
}
