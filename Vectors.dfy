// The engine's Vector3 value type, over reals.
module Vectors {
  import opened Numerics

  datatype Vec3 = Vec3(x: real, y: real, z: real)

  /** Vector3.zero */
  const Zero := Vec3(0.0, 0.0, 0.0)

  /** Vector3.up */
  const Up := Vec3(0.0, 1.0, 0.0)

  /** a + b */
  function Add(a: Vec3, b: Vec3): Vec3
  {
    Vec3(a.x + b.x, a.y + b.y, a.z + b.z)
  }

  /** a - b */
  function Sub(a: Vec3, b: Vec3): Vec3
  {
    Vec3(a.x - b.x, a.y - b.y, a.z - b.z)
  }

  /** a * s */
  function Scale(a: Vec3, s: real): Vec3
  {
    Vec3(a.x * s, a.y * s, a.z * s)
  }

  /** Vector3.Dot */
  function Dot(a: Vec3, b: Vec3): real
  {
    a.x * b.x + a.y * b.y + a.z * b.z
  }

  /** The squared length of a vector. */
  function Norm2(a: Vec3): real
  {
    Dot(a, a)
  }

  /** A vector the engine's Normalize may return: the zero vector or one of unit length. */
  ghost predicate UnitOrZero(a: Vec3)
  {
    a == Zero || Norm2(a) == 1.0
  }

  /** Every component lies in [-b, b]. */
  ghost predicate Bounded(a: Vec3, b: real)
  {
    -b <= a.x <= b && -b <= a.y <= b && -b <= a.z <= b
  }

  /** a * (1 - t) + b * t, the blend the resampler applies along one axis. */
  function Lerp(a: Vec3, b: Vec3, t: real): (r: Vec3)
    ensures t == 0.0 ==> r == a
    ensures t == 1.0 ==> r == b
    ensures t == 0.5 ==> r == Scale(Add(a, b), 0.5)
  {
    Add(Scale(a, 1.0 - t), Scale(b, t))
  }

  /** The dot product with the up vector picks out the vertical component. */
  lemma DotUp(a: Vec3)
    ensures Dot(a, Up) == a.y
  {
  }

  /** A unit-or-zero vector has every component in [-1, 1]. */
  lemma {:induction false} UnitOrZeroBounded(a: Vec3)
    requires UnitOrZero(a)
    ensures Bounded(a, 1.0)
  {
    if a != Zero {
      assert 0.0 <= a.x * a.x && 0.0 <= a.y * a.y && 0.0 <= a.z * a.z by {
        SquareBounds(a.x); SquareBounds(a.y); SquareBounds(a.z);
      }
      assert a.x * a.x + a.y * a.y + a.z * a.z == 1.0;
      assert a.z * a.z <= 1.0;
      SquareAtMostOne(a.x);
      SquareAtMostOne(a.y);
      SquareAtMostOne(a.z);
    }
  }

  lemma SquareAtMostOne(c: real)
    requires c * c <= 1.0
    ensures -1.0 <= c <= 1.0
  {
  }
}
