/** Points of three-dimensional space with exact real coordinates. */
module Geometry {

  datatype Vec3 = Vec3(x: real, y: real, z: real)

  function Add(a: Vec3, b: Vec3): Vec3 {
    Vec3(a.x + b.x, a.y + b.y, a.z + b.z)
  }

  function Sub(a: Vec3, b: Vec3): Vec3 {
    Vec3(a.x - b.x, a.y - b.y, a.z - b.z)
  }

  function Scale(s: real, a: Vec3): Vec3 {
    Vec3(s * a.x, s * a.y, s * a.z)
  }

  /** A position given in centimetres, in metres (each coordinate divided by 100). */
  function CentimetersToMeters(p: Vec3): (r: Vec3)
    ensures Scale(100.0, r) == p
  {
    Vec3(p.x / 100.0, p.y / 100.0, p.z / 100.0)
  }

  /** The square of the Euclidean distance; the scripts compare the distance itself with 1.0. */
  function SqDist(a: Vec3, b: Vec3): (r: real)
    ensures r >= 0.0
    ensures a == b ==> r == 0.0
  {
    var d := Sub(a, b);
    SquareNonNegative(d.x);
    SquareNonNegative(d.y);
    SquareNonNegative(d.z);
    d.x * d.x + d.y * d.y + d.z * d.z
  }

  lemma SquareNonNegative(r: real)
    ensures r * r >= 0.0
  {
    if r < 0.0 {
      assert r * r == (-r) * (-r);
    }
  }

  /** Scaling distributes over a difference of points. */
  lemma ScaleSub(s: real, a: Vec3, b: Vec3)
    ensures Scale(s, Sub(a, b)) == Sub(Scale(s, a), Scale(s, b))
  {
  }

  /** Two scaled steps a -> b -> c add up to the scaled step a -> c. */
  lemma ScaledStepsTelescope(anchor: Vec3, s: real, a: Vec3, b: Vec3, c: Vec3)
    ensures Add(Add(anchor, Scale(s, Sub(b, a))), Scale(s, Sub(c, b))) == Add(anchor, Scale(s, Sub(c, a)))
  {
    assert s * (b.x - a.x) + s * (c.x - b.x) == s * (c.x - a.x);
    assert s * (b.y - a.y) + s * (c.y - b.y) == s * (c.y - a.y);
    assert s * (b.z - a.z) + s * (c.z - b.z) == s * (c.z - a.z);
  }
}
