/** Numeric helpers shared by the whole model: the optional value used for
    absent or non-numeric inputs, JavaScript's `Math.ceil`, `Math.min`/`Math.max`,
    the `Number(v) || d` coercion idiom and the game's `clamp`. */
module Numeric {

  datatype Option<T> = None | Some(value: T)

  /** A value read from untrusted data: `None` stands for anything that
      `Number(...)` turns into NaN (missing key, `undefined`, a non-numeric string). */
  type RawNum = Option<real>

  function Min(a: real, b: real): real { if a <= b then a else b }
  function Max(a: real, b: real): real { if a >= b then a else b }
  function MinInt(a: int, b: int): int { if a <= b then a else b }
  function MaxInt(a: int, b: int): int { if a >= b then a else b }

  /** `Math.ceil` */
  function Ceil(x: real): (r: int)
    ensures r as real - 1.0 < x <= r as real
  {
    -((-x).Floor)
  }

  lemma FloorMonotone(x: real, y: real)
    requires x <= y
    ensures x.Floor <= y.Floor
  {
  }

  /** Scaling by a non-negative factor keeps order, before and after `Math.floor`. */
  lemma FloorScaleMonotone(b: real, x: real, y: real)
    requires b >= 0.0 && x <= y
    ensures (b * x).Floor <= (b * y).Floor
  {
    ScaleMonotone(b, x, y);
    FloorMonotone(b * x, b * y);
  }

  lemma ScaleMonotone(b: real, x: real, y: real)
    requires b >= 0.0 && x <= y
    ensures b * x <= b * y
  {
    assert b * y - b * x == b * (y - x);
  }

  /** `Number(v) || d`: a NaN or a zero falls back to the default. */
  function OrElse(v: RawNum, d: real): (r: real)
    ensures v.None? ==> r == d
    ensures v.Some? && v.value != 0.0 ==> r == v.value
    ensures v == Some(0.0) ==> r == d
  {
    if v.Some? && v.value != 0.0 then v.value else d
  }

  /** `x || d` on a number that is already numeric (only zero is falsy). */
  function Or(x: real, d: real): (r: real)
    ensures x != 0.0 ==> r == x
    ensures x == 0.0 ==> r == d
  {
    if x != 0.0 then x else d
  }

  function OrInt(x: int, d: int): (r: int)
    ensures x != 0 ==> r == x
    ensures x == 0 ==> r == d
  {
    if x != 0 then x else d
  }

  /** `Math.max(0, Math.floor(Number(v) || 0))`, the codec's coercion for counters. */
  function NonNegFloor(v: RawNum): (r: int)
    ensures r >= 0
    ensures v.Some? && v.value >= 0.0 ==> r == v.value.Floor
    ensures v.Some? && v.value < 0.0 ==> r == 0
  {
    MaxInt(0, OrElse(v, 0.0).Floor)
  }

  /** `clamp(val, min, max)` at assets/js/game.module.js:24: a non-finite input
      yields `min`; otherwise `Math.min(max, Math.max(min, n))`. */
  function Clamp(val: RawNum, lo: real, hi: real): (r: real)
    ensures val.None? ==> r == lo
    ensures lo <= hi ==> lo <= r <= hi
    ensures val.Some? && lo <= val.value <= hi ==> r == val.value
    ensures val.Some? && val.value < lo && lo <= hi ==> r == lo
    ensures val.Some? && hi < val.value ==> r == hi
  {
    if val.None? then lo else Min(hi, Max(lo, val.value))
  }

  /** A three.js `Vector3`, kept only where the model needs positions. */
  datatype Vec3 = Vec3(x: real, y: real, z: real)
  {
    function Add(o: Vec3): Vec3 { Vec3(x + o.x, y + o.y, z + o.z) }
    function Sub(o: Vec3): Vec3 { Vec3(x - o.x, y - o.y, z - o.z) }
    function Scale(k: real): Vec3 { Vec3(k * x, k * y, k * z) }
    /** Squared length; `distanceTo(o) < d` is `Sub(o).Norm2() < d * d` for d >= 0. */
    function Norm2(): real { x * x + y * y + z * z }
  }

  const Zero := Vec3(0.0, 0.0, 0.0)
}
