/**
 * Planar and spatial vectors of the controllers and loop functions.
 * Square roots are never computed: comparisons of distances against a
 * tolerance are stated on squared distances, and where a length is needed
 * (normalising a vector) it is supplied by a length function constrained
 * by `IsLength`.
 */
module Geometry {
  datatype Vec2 = Vec2(x: real, y: real)
  datatype Vec3 = Vec3(x: real, y: real, z: real)

  const Zero2: Vec2 := Vec2(0.0, 0.0)
  const Zero3: Vec3 := Vec3(0.0, 0.0, 0.0)

  function Add2(a: Vec2, b: Vec2): Vec2 { Vec2(a.x + b.x, a.y + b.y) }
  function Sub2(a: Vec2, b: Vec2): Vec2 { Vec2(a.x - b.x, a.y - b.y) }
  function Scale2(k: real, a: Vec2): Vec2 { Vec2(k * a.x, k * a.y) }
  function SqLen2(a: Vec2): real { a.x * a.x + a.y * a.y }
  function SqDist2(a: Vec2, b: Vec2): real { SqLen2(Sub2(a, b)) }

  function Add3(a: Vec3, b: Vec3): Vec3 { Vec3(a.x + b.x, a.y + b.y, a.z + b.z) }
  function Sub3(a: Vec3, b: Vec3): Vec3 { Vec3(a.x - b.x, a.y - b.y, a.z - b.z) }
  function Scale3(k: real, a: Vec3): Vec3 { Vec3(k * a.x, k * a.y, k * a.z) }
  function SqLen3(a: Vec3): real { a.x * a.x + a.y * a.y + a.z * a.z }
  function SqDist3(a: Vec3, b: Vec3): real { SqLen3(Sub3(a, b)) }
  function XY(a: Vec3): Vec2 { Vec2(a.x, a.y) }

  /** `len` returns the Euclidean length of every vector. */
  ghost predicate IsLength(len: Vec2 -> real) {
    forall v :: len(v) >= 0.0 && len(v) * len(v) == SqLen2(v)
  }

  lemma ScaleSqLen2(k: real, v: Vec2)
    ensures SqLen2(Scale2(k, v)) == k * k * SqLen2(v)
  {
    assert (k * v.x) * (k * v.x) == k * k * (v.x * v.x);
    assert (k * v.y) * (k * v.y) == k * k * (v.y * v.y);
  }

  /**
   * A vector whose length exceeds `max` is scaled to length |max|, along
   * its direction for a non-negative `max` and against it for a negative
   * one; a shorter vector and the zero vector are kept as they are.
   */
  function ClampLength2(v: Vec2, max: real, len: Vec2 -> real): (r: Vec2)
    requires IsLength(len)
    ensures len(v) <= max ==> r == v
    ensures len(v) > max && len(v) > 0.0 ==> r == Scale2(max / len(v), v) && SqLen2(r) == max * max
    ensures len(v) == 0.0 ==> r == v
    ensures SqLen2(r) <= max * max
  {
    if len(v) > max && len(v) > 0.0 then
      var l := len(v);
      var r := Scale2(max / l, v);
      ScaleSqLen2(max / l, v);
      assert (max / l) * (max / l) * (l * l) == max * max;
      r
    else
      assert len(v) * len(v) <= max * max by {
        var l := len(v);
        if l > 0.0 {
          assert l * l <= l * max <= max * max;
        }
      }
      v
  }
}
