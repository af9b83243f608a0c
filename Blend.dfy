// The per-vertex texture control colour of Chunk.CreateMesh: red marks flat ground (sand),
// green grows with the square of the slope's upward component (gravel), blue and alpha are 0.
module Blend {
  import opened Numerics
  import opened Vectors

  /** The engine's Color(r, g, b, a). */
  datatype Color = Color(r: real, g: real, b: real, a: real)

  /** The threshold on the upward component above which a vertex counts as flat. */
  const FlatThreshold: real := 0.8

  /** The control colour of a vertex with normal n. */
  function Classify(n: Vec3): (c: Color)
    ensures c.r == 0.0 || c.r == 1.0
    ensures c.r == 1.0 <==> Max(0.0, Dot(n, Up)) >= FlatThreshold
    ensures c.g == Dot(n, Up) * Dot(n, Up)
    ensures c.b == 0.0 && c.a == 0.0
  {
    var dpUp := Dot(n, Up);
    var r := if Max(0.0, dpUp) < FlatThreshold then 0.0 else 1.0;
    var g := Square(Abs(dpUp));
    Color(r, g, 0.0, 0.0)
  }

  /** Only the vertical component of the normal matters. */
  lemma ClassifyDependsOnUp(n1: Vec3, n2: Vec3)
    requires n1.y == n2.y
    ensures Classify(n1) == Classify(n2)
  {
    DotUp(n1);
    DotUp(n2);
  }

  /** For a normal whose upward component lies in [-1, 1] (a unit or zero normal, or a blend
      of such), both channels lie in [0, 1], and a flat (red) vertex always carries at least
      0.64 of gravel. */
  lemma ClassifyChannelsInRange(n: Vec3)
    requires -1.0 <= n.y <= 1.0
    ensures 0.0 <= Classify(n).r <= 1.0
    ensures 0.0 <= Classify(n).g <= 1.0
    ensures Classify(n).r == 1.0 ==> Classify(n).g >= 0.64
  {
    DotUp(n);
    var u := n.y;
    assert Classify(n).g == u * u;
    SquareBounds(u);
    if u >= 0.8 {
      assert u * u >= 0.8 * u;
      assert 0.8 * u >= 0.64;
    }
  }

  /** Red is monotone in the upward component: a vertex at least as flat as a red one is red. */
  lemma ClassifyRedMonotone(n1: Vec3, n2: Vec3)
    requires n1.y <= n2.y
    requires Classify(n1).r == 1.0
    ensures Classify(n2).r == 1.0
  {
    DotUp(n1);
    DotUp(n2);
  }

  /** Straight up is red with full gravel, horizontal is black, and an upward component of 0.9
      is red with 0.81 gravel. */
  lemma ClassifyExamples()
    ensures Classify(Up) == Color(1.0, 1.0, 0.0, 0.0)
    ensures Classify(Vec3(1.0, 0.0, 0.0)) == Color(0.0, 0.0, 0.0, 0.0)
    ensures Classify(Vec3(0.0, 0.9, 0.0)).r == 1.0 && Classify(Vec3(0.0, 0.9, 0.0)).g == 0.81
  {
  }
}
