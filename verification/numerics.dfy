/** Real-number helpers shared by the parallax model.

    JavaScript doubles are modelled as Dafny `real`s.  `Math.sin`, `Math.cos`
    and `Math.sqrt` are not computed: they enter the model as function
    parameters, read through `Trig` and `Sqrt`, which guarantee only the
    facts the proofs need. */
module Numerics {

  /** `Math.PI`, as the decimal JavaScript prints for it. */
  const PI: real := 3.141592653589793

  /** The value of `Math.sin` or `Math.cos` at `a`.  The function itself
      is a parameter `f` of the model, read through a clip to [-1, 1]: as
      `f` ranges over all real functions, `a => Trig(f, a)` ranges over
      exactly the real functions bounded by 1, and that bound is all the
      model assumes of the sine and cosine. */
  function Trig(f: real -> real, a: real): (v: real)
    ensures -1.0 <= v <= 1.0
    ensures -1.0 <= f(a) <= 1.0 ==> v == f(a)
  {
    if f(a) < -1.0 then -1.0 else if 1.0 < f(a) then 1.0 else f(a)
  }

  /** The value of `Math.sqrt` at a positive `s`, with the function a
      parameter `f` read so that the result is positive: as `f` ranges over
      all real functions this covers exactly the functions that are
      positive on positive arguments, which is all the model assumes. */
  function Sqrt(f: real -> real, s: real): (v: real)
    requires 0.0 < s
    ensures 0.0 < v
    ensures 0.0 < f(s) ==> v == f(s)
  {
    if 0.0 < f(s) then f(s) else 1.0
  }

  function Abs(x: real): real {
    if x < 0.0 then -x else x
  }

  /** `Math.min` on two ordinary (non-NaN) numbers. */
  function Min(a: real, b: real): real {
    if a <= b then a else b
  }

  /** `Math.max` on two ordinary (non-NaN) numbers. */
  function Max(a: real, b: real): real {
    if a >= b then a else b
  }

  function Pow(b: real, n: nat): real {
    if n == 0 then 1.0 else b * Pow(b, n - 1)
  }

  /** A plain three-component vector, used for positions and Euler angles. */
  datatype Vec3 = Vec3(x: real, y: real, z: real)

  const Origin: Vec3 := Vec3(0.0, 0.0, 0.0)

  /** `userData` fields are optional; `v || 0` in the source reads an absent
      field as 0. */
  datatype Option<T> = None | Some(value: T) {
    function GetOr(default: T): T {
      match this
      case Some(v) => v
      case None => default
    }
  }
}
