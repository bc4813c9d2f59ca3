/** The children of the model group and how each model builds them
    (app.js, `clearModel` and the three `create…Model` functions).

    Only what the animation reads is kept: the role flags, `baseY`, `angle`,
    position and rotation.  Geometry, materials and colours are asset data
    and are not modelled; neither are the Math.random draws themselves,
    which enter as inputs. */
module Scene {
  import opened Numerics

  /** The `userData` role flags.  They are independent: the source tests
      each one separately. */
  datatype Roles = Roles(isMainObject: bool, isFloating: bool, isCharacter: bool)

  const Untagged: Roles := Roles(false, false, false)
  const MainObject: Roles := Roles(true, false, false)
  const Floating: Roles := Roles(false, true, false)
  const CharacterBody: Roles := Roles(false, false, true)

  /** One child of the model group.  `baseY` and `angle` are the optional
      `userData` fields; position and rotation are the node's transform. */
  datatype Child = Child(roles: Roles, baseY: Option<real>, angle: Option<real>,
                         position: Vec3, rotation: Vec3)

  /** A node with no role and no `userData`. */
  function Plain(position: Vec3, rotation: Vec3): Child {
    Child(Untagged, None, None, position, rotation)
  }

  /** Number of floating cubes around the main cube. */
  const CubeSatellites: nat := 6

  /** The angle of floating cube `i`: `(i / 6) * Math.PI * 2`. */
  function SatelliteAngle(i: nat): real {
    (i as real / 6.0) * PI * 2.0
  }

  /** The cube model (`cos` stands for `Math.cos`; nothing about its values
      is needed): the main cube and its wireframe overlay, both
      main objects at the origin, then six floating cubes on a ring whose
      `baseY` is their starting height `sin(2 * angle)`. */
  function CubeGroup(sin: real -> real, cos: real -> real): (g: seq<Child>)
    ensures |g| == 2 + CubeSatellites
    ensures g[0].roles == MainObject && g[1].roles == MainObject
    ensures forall i :: 2 <= i < |g| ==>
      g[i].roles == Floating && g[i].angle == Some(SatelliteAngle(i - 2))
      && g[i].baseY == Some(g[i].position.y) && -1.0 <= g[i].position.y <= 1.0
  {
    var cube := Child(MainObject, None, None, Origin, Origin);
    [cube, cube] + seq(CubeSatellites, i requires 0 <= i < CubeSatellites => Satellite(i, sin, cos))
  }

  /** Floating cube `i`, on a ring of radius 2.5. */
  function Satellite(i: nat, sin: real -> real, cos: real -> real): (c: Child)
    ensures c.roles == Floating && c.angle == Some(SatelliteAngle(i))
    ensures c.baseY == Some(c.position.y) && -1.0 <= c.position.y <= 1.0
  {
    var a := SatelliteAngle(i);
    var y := Trig(sin, a * 2.0);
    Child(Floating, Some(y), Some(a), Vec3(Trig(cos, a) * 2.5, y, Trig(sin, a) * 2.5), Origin)
  }

  /** The five `Math.random()` values one star consumes, in source order:
      three for its position, one for its angle, one for its speed. */
  datatype StarDraw = StarDraw(rx: real, ry: real, rz: real, rAngle: real, rSpeed: real)

  /** A draw `Math.random` can produce: every value in [0, 1). */
  predicate Random(d: StarDraw) {
    && 0.0 <= d.rx < 1.0 && 0.0 <= d.ry < 1.0 && 0.0 <= d.rz < 1.0
    && 0.0 <= d.rAngle < 1.0 && 0.0 <= d.rSpeed < 1.0
  }

  const Stars: nat := 5

  function Star(d: StarDraw): Child {
    var p := Vec3((d.rx - 0.5) * 5.0, (d.ry - 0.5) * 3.0, (d.rz - 0.5) * 3.0 - 1.0);
    Child(Floating, Some(p.y), Some(d.rAngle * PI * 2.0), p, Origin)
  }

  /** The character model: the body group (the one character node) at the
      origin, then one floating star per draw, each resting at its own
      `baseY` within [-1.5, 1.5). */
  function CharacterGroup(draws: seq<StarDraw>): (g: seq<Child>)
    requires |draws| == Stars
    ensures |g| == 1 + Stars
    ensures g[0].roles == CharacterBody && g[0].position == Origin
    ensures forall i :: 1 <= i < |g| ==>
      g[i].roles == Floating && g[i].baseY == Some(g[i].position.y)
    ensures forall i :: 1 <= i < |g| && Random(draws[i - 1]) ==>
      -1.5 <= g[i].position.y < 1.5
      && g[i].angle.Some? && 0.0 <= g[i].angle.value < 2.0 * PI
  {
    [Child(CharacterBody, None, None, Origin, Origin)]
      + seq(Stars, i requires 0 <= i < Stars => Star(draws[i]))
  }

  /** Fourteen fixed pieces, three books, one pot and four leaves. */
  const RoomPieces: nat := 22

  /** The room model: every piece is a plain node.  Where each piece stands
      is asset data (partly random), so the poses are an input. */
  function RoomGroup(poses: seq<(Vec3, Vec3)>): (g: seq<Child>)
    requires |poses| == RoomPieces
    ensures |g| == RoomPieces
    ensures forall i :: 0 <= i < |g| ==> g[i].roles == Untagged
  {
    seq(RoomPieces, i requires 0 <= i < RoomPieces => Plain(poses[i].0, poses[i].1))
  }

  /** `clearModel`: repeatedly detach the first child (disposing its
      geometry and materials) until the group is empty.  `disposed` lists
      the children in the order they were released. */
  method ClearModel(group: seq<Child>) returns (remaining: seq<Child>, disposed: seq<Child>)
    ensures remaining == []
    ensures disposed == group
  {
    remaining := group;
    disposed := [];
    while |remaining| > 0
      invariant disposed + remaining == group
      decreases |remaining|
    {
      var child := remaining[0];
      disposed := disposed + [child];
      remaining := remaining[1..];
    }
  }
}
