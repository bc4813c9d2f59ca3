/** The per-child part of a frame (app.js, `animate`, "Animate objects").

    A first pass gives floating children a bob around their `baseY` and a
    steady tumble, and character children a small bob and yaw wiggle.  A
    second pass, only while the cube model is selected, turns main
    objects.  Children with no role are left alone. */
module Animation {
  import opened Numerics
  import opened Scene

  /** Bob amplitude of floating children. */
  const FloatAmplitude: real := 0.15

  /** Bob and yaw amplitude of the character. */
  const CharacterAmplitude: real := 0.08

  /** `userData.baseY || 0`. */
  function RestY(c: Child): real {
    c.baseY.GetOr(0.0)
  }

  /** The first pass for one child at clock `time`: the floating update,
      then the character update, each applied when its flag is set.  The
      character update writes `position.y` and `rotation.y` outright, so a
      child carrying both flags ends with the character's values there. */
  function AnimateChild(c: Child, time: real, sin: real -> real): (r: Child)
    ensures r.roles == c.roles && r.baseY == c.baseY && r.angle == c.angle
    ensures r.position.x == c.position.x && r.position.z == c.position.z
    ensures r.rotation.z == c.rotation.z
    ensures c.roles.isFloating ==> r.rotation.x == c.rotation.x + 0.008
    ensures !c.roles.isFloating ==> r.rotation.x == c.rotation.x
    ensures c.roles.isFloating && !c.roles.isCharacter ==>
      Abs(r.position.y - RestY(c)) <= FloatAmplitude && r.rotation.y == c.rotation.y + 0.012
    ensures c.roles.isCharacter ==>
      Abs(r.position.y) <= CharacterAmplitude && Abs(r.rotation.y) <= CharacterAmplitude
    ensures !c.roles.isFloating && !c.roles.isCharacter ==> r == c
  {
    var floated :=
      if c.roles.isFloating then
        c.(position := c.position.(y := RestY(c) + Trig(sin, time * 2.0 + c.angle.GetOr(0.0)) * 0.15),
           rotation := c.rotation.(x := c.rotation.x + 0.008, y := c.rotation.y + 0.012))
      else c;
    if c.roles.isCharacter then
      floated.(position := floated.position.(y := Trig(sin, time * 1.5) * 0.08),
               rotation := floated.rotation.(y := Trig(sin, time * 0.5) * 0.08))
    else floated
  }

  /** The second pass for one child while the cube model is selected. */
  function SpinMain(c: Child): (r: Child)
    ensures r.roles == c.roles && r.baseY == c.baseY && r.angle == c.angle
    ensures r.position == c.position && r.rotation.z == c.rotation.z
    ensures c.roles.isMainObject ==>
      r.rotation.x == c.rotation.x + 0.004 && r.rotation.y == c.rotation.y + 0.006
    ensures !c.roles.isMainObject ==> r == c
  {
    if c.roles.isMainObject then
      c.(rotation := c.rotation.(x := c.rotation.x + 0.004, y := c.rotation.y + 0.006))
    else c
  }

  /** Both passes over the whole group at clock `time` with `model` the
      selected model name. */
  function AnimateGroup(group: seq<Child>, time: real, model: string, sin: real -> real): (g: seq<Child>)
    ensures |g| == |group|
    ensures forall i :: 0 <= i < |g| ==>
      g[i].roles == group[i].roles && g[i].baseY == group[i].baseY && g[i].angle == group[i].angle
    ensures forall i :: 0 <= i < |g| ==>
      g[i].position.x == group[i].position.x && g[i].position.z == group[i].position.z
    ensures forall i :: 0 <= i < |g| && group[i].roles == Untagged ==> g[i] == group[i]
    ensures forall i :: 0 <= i < |g| && group[i].roles == Floating ==>
      Abs(g[i].position.y - RestY(group[i])) <= FloatAmplitude
      && g[i].rotation == Vec3(group[i].rotation.x + 0.008, group[i].rotation.y + 0.012, group[i].rotation.z)
    ensures forall i :: 0 <= i < |g| && group[i].roles.isCharacter && !group[i].roles.isMainObject ==>
      Abs(g[i].position.y) <= CharacterAmplitude && Abs(g[i].rotation.y) <= CharacterAmplitude
    ensures forall i :: 0 <= i < |g| && group[i].roles == MainObject ==>
      g[i].position == group[i].position
      && g[i].rotation == (if model == "cube"
                           then Vec3(group[i].rotation.x + 0.004, group[i].rotation.y + 0.006, group[i].rotation.z)
                           else group[i].rotation)
  {
    var moved := seq(|group|, i requires 0 <= i < |group| => AnimateChild(group[i], time, sin));
    if model == "cube" then seq(|moved|, i requires 0 <= i < |moved| => SpinMain(moved[i]))
    else moved
  }
}
