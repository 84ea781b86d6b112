/**
 * Real-valued helpers shared by both jump-and-run scenes: the `Math.*`
 * functions they use, the platform record and the top-down footprint test.
 */
module Geometry {

  /** `Math.abs` */
  function Abs(v: real): (r: real)
    ensures r >= 0.0 && (r == v || r == -v)
  {
    if v < 0.0 then -v else v
  }

  function Min(a: real, b: real): (r: real)
    ensures r <= a && r <= b && (r == a || r == b)
  {
    if a <= b then a else b
  }

  function Max(a: real, b: real): (r: real)
    ensures r >= a && r >= b && (r == a || r == b)
  {
    if a >= b then a else b
  }

  /** `Math.max(lo, Math.min(hi, v))`, the bounds clamp of the generators. */
  function Clamp(lo: real, hi: real, v: real): (r: real)
    requires lo <= hi
    ensures lo <= r <= hi
    ensures lo <= v <= hi ==> r == v
    ensures v < lo ==> r == lo
    ensures v > hi ==> r == hi
  {
    Max(lo, Min(hi, v))
  }

  /** `Math.sign` */
  function Sign(v: real): (r: real)
    ensures v > 0.0 ==> r == 1.0
    ensures v < 0.0 ==> r == -1.0
    ensures v == 0.0 ==> r == 0.0
  {
    if v > 0.0 then 1.0 else if v < 0.0 then -1.0 else 0.0
  }

  /** `Math.ceil` */
  function Ceil(v: real): (n: int)
    ensures n as real - 1.0 < v <= n as real
  {
    -((-v).Floor)
  }

  datatype Vec3 = Vec3(x: real, y: real, z: real)

  /**
   * A platform as the scenes store it: the mesh centre on X and Z, the
   * footprint width (X) and depth (Z), the height `y` of the TOP face, the
   * palette colour and the ground mark.
   */
  datatype Platform = Platform(x: real, z: real, w: real, d: real, y: real, color: int, isGround: bool)

  /**
   * The top-down rectangle test of `overlapsCandidate`: a candidate footprint
   * centred at (cx, cz) with size w by d comes closer than `gap` to `p` on
   * BOTH axes.
   */
  predicate Clash(cx: real, cz: real, w: real, d: real, p: Platform, gap: real)
  {
    Abs(cx - p.x) - (w / 2.0 + p.w / 2.0) < gap && Abs(cz - p.z) - (d / 2.0 + p.d / 2.0) < gap
  }
}
