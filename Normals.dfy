// The normal field of a chunk: the central-difference gradient of Chunk.CalculateNormals and
// the trilinear resampling of Chunk.TriLinearInterpNormal.
module Normals {
  import opened Numerics
  import opened Vectors
  import opened Smoothing

  /** Vector3.Normalize, supplied by the engine. */
  type Normalizer = Vec3 -> Vec3

  /** What the model relies on from Normalize: the zero vector maps to itself and every result
      is of unit length or zero. */
  ghost predicate NormalizerContract(normalize: Normalizer)
  {
    && normalize(Zero) == Zero
    && forall v :: UnitOrZero(normalize(v))
  }

  /** Normalize never turns a vector that does not point down into one that does, as scaling
      by the reciprocal length does. */
  ghost predicate NormalizeKeepsUp(normalize: Normalizer)
  {
    forall v: Vec3 :: 0.0 <= v.y ==> 0.0 <= normalize(v).y
  }

  /** The cells the normal loop writes: every index in [2, dim-3]. */
  predicate NormalInterior(g: array3<real>, x: int, y: int, z: int)
  {
    Inner(x, y, z, g.Length0, g.Length1, g.Length2, 2)
  }

  /** The central difference of g at (x, y, z) along the three axes. */
  function Gradient(g: array3<real>, x: int, y: int, z: int): Vec3
    reads g
    requires SmoothInterior(g, x, y, z)
  {
    Vec3(g[x + 1, y, z] - g[x - 1, y, z],
         g[x, y + 1, z] - g[x, y - 1, z],
         g[x, y, z + 1] - g[x, y, z - 1])
  }

  /** Every cell the normal loop writes has all six stencil neighbours inside the grid, and
      inside the region the smoothing loop wrote. */
  lemma NormalStencilInBounds(g: array3<real>, x: int, y: int, z: int)
    requires NormalInterior(g, x, y, z)
    ensures SmoothInterior(g, x, y, z)
    ensures SmoothInterior(g, x + 1, y, z) && SmoothInterior(g, x - 1, y, z)
    ensures SmoothInterior(g, x, y + 1, z) && SmoothInterior(g, x, y - 1, z)
    ensures SmoothInterior(g, x, y, z + 1) && SmoothInterior(g, x, y, z - 1)
  {
  }

  /** Over a field in [-1, 1], each gradient component lies in [-2, 2]. */
  lemma GradientBounded(g: array3<real>, x: int, y: int, z: int)
    requires SmoothInterior(g, x, y, z)
    requires AllInRange(g)
    ensures Bounded(Gradient(g, x, y, z), 2.0)
  {
    assert InGrid(g, x + 1, y, z) && InGrid(g, x - 1, y, z);
    assert InGrid(g, x, y + 1, z) && InGrid(g, x, y - 1, z);
    assert InGrid(g, x, y, z + 1) && InGrid(g, x, y, z - 1);
  }

  /** Where every column is non-decreasing going up, the gradient points upward (towards the
      empty side), which is why the source needs no sign flip. */
  lemma GradientPointsUp(g: array3<real>, x: int, y: int, z: int)
    requires SmoothInterior(g, x, y, z)
    requires g[x, y - 1, z] <= g[x, y, z] <= g[x, y + 1, z]
    ensures 0.0 <= Gradient(g, x, y, z).y
  {
  }

  /** A zero gradient gives the zero normal rather than a failure, given only that Normalize
      maps the zero vector to itself. */
  lemma ZeroGradientZeroNormal(normalize: Normalizer, g: array3<real>, x: int, y: int, z: int)
    requires normalize(Zero) == Zero
    requires SmoothInterior(g, x, y, z)
    requires g[x + 1, y, z] == g[x - 1, y, z]
    requires g[x, y + 1, z] == g[x, y - 1, z]
    requires g[x, y, z + 1] == g[x, y, z - 1]
    ensures normalize(Gradient(g, x, y, z)) == Zero
  {
    assert Gradient(g, x, y, z) == Zero;
  }

  /** A position whose truncated coordinate c and c + 1 both index an axis of length dim. */
  predicate AxisOk(p: real, dim: int)
  {
    0 <= Trunc(p) && Trunc(p) + 1 < dim
  }

  /** The eight cells around p lie in a grid of shape (w, h, l). */
  predicate InCells(p: Vec3, w: int, h: int, l: int)
  {
    AxisOk(p.x, w) && AxisOk(p.y, h) && AxisOk(p.z, l)
  }

  /** The resampler can read all eight corners around p in n. */
  predicate CanResample(n: array3<Vec3>, p: Vec3)
  {
    InCells(p, n.Length0, n.Length1, n.Length2)
  }

  /** The fractional part the resampler blends with: the position minus its truncation. */
  function Frac(v: real): (f: real)
    ensures 0.0 <= v ==> 0.0 <= f < 1.0
    ensures v.Floor as real == v && 0.0 <= v ==> f == 0.0
  {
    v - Trunc(v) as real
  }

  /** The eight cells (x..x+1, y..y+1, z..z+1) lie in n. */
  predicate CornerOk(n: array3<Vec3>, x: int, y: int, z: int)
  {
    0 <= x && x + 1 < n.Length0 && 0 <= y && y + 1 < n.Length1 && 0 <= z && z + 1 < n.Length2
  }

  /** The body of TriLinearInterpNormal once the cell (x, y, z) and the fractions are known:
      blend along x (four edges), then along z (two faces), then along y. */
  function BlendCorners(n: array3<Vec3>, x: int, y: int, z: int, fx: real, fy: real, fz: real): Vec3
    reads n
    requires CornerOk(n, x, y, z)
  {
    var x0 := Lerp(n[x, y, z], n[x + 1, y, z], fx);
    var x1 := Lerp(n[x, y, z + 1], n[x + 1, y, z + 1], fx);
    var x2 := Lerp(n[x, y + 1, z], n[x + 1, y + 1, z], fx);
    var x3 := Lerp(n[x, y + 1, z + 1], n[x + 1, y + 1, z + 1], fx);
    var z0 := Lerp(x0, x1, fz);
    var z1 := Lerp(x2, x3, fz);
    Lerp(z0, z1, fy)
  }

  /** TriLinearInterpNormal: truncate the position to a cell and blend its eight corners. */
  function TriLinear(n: array3<Vec3>, p: Vec3): (r: Vec3)
    reads n
    requires CanResample(n, p)
    ensures var x, y, z, fx, fy, fz := Trunc(p.x), Trunc(p.y), Trunc(p.z), Frac(p.x), Frac(p.y), Frac(p.z);
            forall c :: 0 <= c < 3 ==>
              Comp(r, c) == WeightedSum(fx, fy, fz,
                              Comp(n[x, y, z], c), Comp(n[x + 1, y, z], c), Comp(n[x, y + 1, z], c), Comp(n[x + 1, y + 1, z], c),
                              Comp(n[x, y, z + 1], c), Comp(n[x + 1, y, z + 1], c), Comp(n[x, y + 1, z + 1], c), Comp(n[x + 1, y + 1, z + 1], c))
  {
    var x, y, z, fx, fy, fz := Trunc(p.x), Trunc(p.y), Trunc(p.z), Frac(p.x), Frac(p.y), Frac(p.z);
    BlendIsWeightedSum(n, x, y, z, fx, fy, fz, 0);
    BlendIsWeightedSum(n, x, y, z, fx, fy, fz, 1);
    BlendIsWeightedSum(n, x, y, z, fx, fy, fz, 2);
    BlendCorners(n, x, y, z, fx, fy, fz)
  }

  /** At an integer grid position the resampler returns exactly the stored normal. */
  lemma TriLinearAtGridPoint(n: array3<Vec3>, x: nat, y: nat, z: nat)
    requires x + 1 < n.Length0 && y + 1 < n.Length1 && z + 1 < n.Length2
    ensures CanResample(n, Vec3(x as real, y as real, z as real))
    ensures TriLinear(n, Vec3(x as real, y as real, z as real)) == n[x, y, z]
  {
    var p := Vec3(x as real, y as real, z as real);
    assert Trunc(p.x) == x && Trunc(p.y) == y && Trunc(p.z) == z;
  }

  /** The weight trilinear interpolation gives the corner (i, j, k) of the unit cell. */
  function Weight(fx: real, fy: real, fz: real, i: bool, j: bool, k: bool): real
  {
    (if i then fx else 1.0 - fx) * (if j then fy else 1.0 - fy) * (if k then fz else 1.0 - fz)
  }

  /** Component c (0, 1, 2 for x, y, z) of a vector. */
  function Comp(v: Vec3, c: nat): real
    requires c < 3
  {
    if c == 0 then v.x else if c == 1 then v.y else v.z
  }

  /** The eight corner weights sum to one. */
  lemma WeightsSumToOne(fx: real, fy: real, fz: real)
    ensures Weight(fx, fy, fz, false, false, false) + Weight(fx, fy, fz, true, false, false)
          + Weight(fx, fy, fz, false, true, false) + Weight(fx, fy, fz, true, true, false)
          + Weight(fx, fy, fz, false, false, true) + Weight(fx, fy, fz, true, false, true)
          + Weight(fx, fy, fz, false, true, true) + Weight(fx, fy, fz, true, true, true) == 1.0
  {
    var a, b := (1.0 - fx) * (1.0 - fy), fx * (1.0 - fy);
    var c, d := (1.0 - fx) * fy, fx * fy;
    assert a + b == 1.0 - fy;
    assert c + d == fy;
    assert (a + b + c + d) == 1.0;
    calc {
      a * (1.0 - fz) + b * (1.0 - fz) + c * (1.0 - fz) + d * (1.0 - fz) + a * fz + b * fz + c * fz + d * fz;
      (a + b + c + d) * ((1.0 - fz) + fz);
      1.0;
    }
  }

  /** One blend of two scalars. */
  function Mix(a: real, b: real, t: real): real
  {
    a * (1.0 - t) + b * t
  }

  lemma LerpComp(a: Vec3, b: Vec3, t: real, c: nat)
    requires c < 3
    ensures Comp(Lerp(a, b, t), c) == Mix(Comp(a, c), Comp(b, c), t)
  {
  }

  /** The eight corner values of a unit cell, each scaled by its Weight. */
  function WeightedSum(fx: real, fy: real, fz: real,
                       c000: real, c100: real, c010: real, c110: real,
                       c001: real, c101: real, c011: real, c111: real): real
  {
    Weight(fx, fy, fz, false, false, false) * c000 + Weight(fx, fy, fz, true, false, false) * c100
    + Weight(fx, fy, fz, false, true, false) * c010 + Weight(fx, fy, fz, true, true, false) * c110
    + Weight(fx, fy, fz, false, false, true) * c001 + Weight(fx, fy, fz, true, false, true) * c101
    + Weight(fx, fy, fz, false, true, true) * c011 + Weight(fx, fy, fz, true, true, true) * c111
  }

  /** Three nested blends expand to the eight corners, each times the product of the blend
      factors on its path. */
  lemma MixExpansion(c000: real, c100: real, c010: real, c110: real,
                     c001: real, c101: real, c011: real, c111: real,
                     fx: real, fy: real, fz: real)
    ensures Mix(Mix(Mix(c000, c100, fx), Mix(c001, c101, fx), fz),
                Mix(Mix(c010, c110, fx), Mix(c011, c111, fx), fz), fy)
         == ((1.0 - fx) * ((1.0 - fz) * (1.0 - fy))) * c000 + (fx * ((1.0 - fz) * (1.0 - fy))) * c100
          + ((1.0 - fx) * ((1.0 - fz) * fy)) * c010 + (fx * ((1.0 - fz) * fy)) * c110
          + ((1.0 - fx) * (fz * (1.0 - fy))) * c001 + (fx * (fz * (1.0 - fy))) * c101
          + ((1.0 - fx) * (fz * fy)) * c011 + (fx * (fz * fy)) * c111
  {
    var e0, e1 := Mix(c000, c100, fx), Mix(c001, c101, fx);
    var e2, e3 := Mix(c010, c110, fx), Mix(c011, c111, fx);
    Bilinear(e0, e1, e2, e3, fz, fy);
    ScaledMix(c000, c100, fx, (1.0 - fz) * (1.0 - fy));
    ScaledMix(c001, c101, fx, fz * (1.0 - fy));
    ScaledMix(c010, c110, fx, (1.0 - fz) * fy);
    ScaledMix(c011, c111, fx, fz * fy);
    Regroup(Mix(Mix(e0, e1, fz), Mix(e2, e3, fz), fy),
            (1.0 - fz) * (1.0 - fy), fz * (1.0 - fy), (1.0 - fz) * fy, fz * fy,
            e0, e1, e2, e3, c000, c100, c001, c101, c010, c110, c011, c111, fx);
  }

  /** Three nested blends equal the weighted sum of the eight corners under the trilinear
      weights. */
  lemma MixIsWeightedSum(c000: real, c100: real, c010: real, c110: real,
                     c001: real, c101: real, c011: real, c111: real,
                     fx: real, fy: real, fz: real)
    ensures Mix(Mix(Mix(c000, c100, fx), Mix(c001, c101, fx), fz),
                Mix(Mix(c010, c110, fx), Mix(c011, c111, fx), fz), fy)
         == WeightedSum(fx, fy, fz, c000, c100, c010, c110, c001, c101, c011, c111)
  {
    MixExpansion(c000, c100, c010, c110, c001, c101, c011, c111, fx, fy, fz);
    WeightedSumRegrouped(fx, fy, fz, c000, c100, c010, c110, c001, c101, c011, c111);
    SameValue(Mix(Mix(Mix(c000, c100, fx), Mix(c001, c101, fx), fz),
                Mix(Mix(c010, c110, fx), Mix(c011, c111, fx), fz), fy),
              ((1.0 - fx) * ((1.0 - fz) * (1.0 - fy))) * c000 + (fx * ((1.0 - fz) * (1.0 - fy))) * c100
          + ((1.0 - fx) * ((1.0 - fz) * fy)) * c010 + (fx * ((1.0 - fz) * fy)) * c110
          + ((1.0 - fx) * (fz * (1.0 - fy))) * c001 + (fx * (fz * (1.0 - fy))) * c101
          + ((1.0 - fx) * (fz * fy)) * c011 + (fx * (fz * fy)) * c111,
              WeightedSum(fx, fy, fz, c000, c100, c010, c110, c001, c101, c011, c111));
  }

  /** Two values equal to a third are equal. */
  lemma SameValue(a: real, b: real, c: real)
    requires a == b && c == b
    ensures a == c
  {
  }

  /** Substitutes each edge blend, already expanded, into the bilinear sum. */
  lemma Regroup(lhs: real, w0: real, w1: real, w2: real, w3: real,
                e0: real, e1: real, e2: real, e3: real,
                c000: real, c100: real, c001: real, c101: real,
                c010: real, c110: real, c011: real, c111: real, fx: real)
    requires lhs == w0 * e0 + w1 * e1 + w2 * e2 + w3 * e3
    requires w0 * e0 == ((1.0 - fx) * w0) * c000 + (fx * w0) * c100
    requires w1 * e1 == ((1.0 - fx) * w1) * c001 + (fx * w1) * c101
    requires w2 * e2 == ((1.0 - fx) * w2) * c010 + (fx * w2) * c110
    requires w3 * e3 == ((1.0 - fx) * w3) * c011 + (fx * w3) * c111
    ensures lhs == ((1.0 - fx) * w0) * c000 + (fx * w0) * c100 + ((1.0 - fx) * w2) * c010 + (fx * w2) * c110
                 + ((1.0 - fx) * w1) * c001 + (fx * w1) * c101 + ((1.0 - fx) * w3) * c011 + (fx * w3) * c111
  {
  }

  /** The weighted sum with each weight regrouped as the nested blends produce it. */
  lemma WeightedSumRegrouped(fx: real, fy: real, fz: real,
                             c000: real, c100: real, c010: real, c110: real,
                             c001: real, c101: real, c011: real, c111: real)
    ensures WeightedSum(fx, fy, fz, c000, c100, c010, c110, c001, c101, c011, c111)
         == ((1.0 - fx) * ((1.0 - fz) * (1.0 - fy))) * c000 + (fx * ((1.0 - fz) * (1.0 - fy))) * c100
          + ((1.0 - fx) * ((1.0 - fz) * fy)) * c010 + (fx * ((1.0 - fz) * fy)) * c110
          + ((1.0 - fx) * (fz * (1.0 - fy))) * c001 + (fx * (fz * (1.0 - fy))) * c101
          + ((1.0 - fx) * (fz * fy)) * c011 + (fx * (fz * fy)) * c111
  {
    WeightShape(fx, fy, fz);
  }

  /** Scaling a blend scales both of its terms. */
  lemma ScaledMix(a: real, b: real, t: real, w: real)
    ensures w * Mix(a, b, t) == ((1.0 - t) * w) * a + (t * w) * b
  {
    calc {
      w * Mix(a, b, t);
      w * (a * (1.0 - t)) + w * (b * t);
      ((1.0 - t) * w) * a + (t * w) * b;
    }
  }

  /** Two nested blends are the bilinear weighted sum of the four inputs. */
  lemma Bilinear(e0: real, e1: real, e2: real, e3: real, s: real, t: real)
    ensures Mix(Mix(e0, e1, s), Mix(e2, e3, s), t)
         == ((1.0 - s) * (1.0 - t)) * e0 + (s * (1.0 - t)) * e1 + ((1.0 - s) * t) * e2 + (s * t) * e3
  {
    var u, v := Mix(e0, e1, s), Mix(e2, e3, s);
    assert Mix(u, v, t) == (1.0 - t) * u + t * v;
    ScaledMix(e0, e1, s, 1.0 - t);
    ScaledMix(e2, e3, s, t);
  }

  /** The corner weights regrouped as the nested blends produce them. */
  lemma WeightShape(fx: real, fy: real, fz: real)
    ensures Weight(fx, fy, fz, false, false, false) == (1.0 - fx) * ((1.0 - fz) * (1.0 - fy))
    ensures Weight(fx, fy, fz, true, false, false) == fx * ((1.0 - fz) * (1.0 - fy))
    ensures Weight(fx, fy, fz, false, false, true) == (1.0 - fx) * (fz * (1.0 - fy))
    ensures Weight(fx, fy, fz, true, false, true) == fx * (fz * (1.0 - fy))
    ensures Weight(fx, fy, fz, false, true, false) == (1.0 - fx) * ((1.0 - fz) * fy)
    ensures Weight(fx, fy, fz, true, true, false) == fx * ((1.0 - fz) * fy)
    ensures Weight(fx, fy, fz, false, true, true) == (1.0 - fx) * (fz * fy)
    ensures Weight(fx, fy, fz, true, true, true) == fx * (fz * fy)
  {
  }

  /** Each component of a blend is three nested scalar blends of the corners. */
  lemma BlendComp(n: array3<Vec3>, x: int, y: int, z: int, fx: real, fy: real, fz: real, c: nat)
    requires CornerOk(n, x, y, z) && c < 3
    ensures Comp(BlendCorners(n, x, y, z, fx, fy, fz), c)
            == Mix(Mix(Mix(Comp(n[x, y, z], c), Comp(n[x + 1, y, z], c), fx),
                       Mix(Comp(n[x, y, z + 1], c), Comp(n[x + 1, y, z + 1], c), fx), fz),
                   Mix(Mix(Comp(n[x, y + 1, z], c), Comp(n[x + 1, y + 1, z], c), fx),
                       Mix(Comp(n[x, y + 1, z + 1], c), Comp(n[x + 1, y + 1, z + 1], c), fx), fz), fy)
  {
    var x0 := Lerp(n[x, y, z], n[x + 1, y, z], fx);
    var x1 := Lerp(n[x, y, z + 1], n[x + 1, y, z + 1], fx);
    var x2 := Lerp(n[x, y + 1, z], n[x + 1, y + 1, z], fx);
    var x3 := Lerp(n[x, y + 1, z + 1], n[x + 1, y + 1, z + 1], fx);
    var z0 := Lerp(x0, x1, fz);
    var z1 := Lerp(x2, x3, fz);
    LerpComp(n[x, y, z], n[x + 1, y, z], fx, c);
    LerpComp(n[x, y, z + 1], n[x + 1, y, z + 1], fx, c);
    LerpComp(n[x, y + 1, z], n[x + 1, y + 1, z], fx, c);
    LerpComp(n[x, y + 1, z + 1], n[x + 1, y + 1, z + 1], fx, c);
    LerpComp(x0, x1, fz, c);
    LerpComp(x2, x3, fz, c);
    LerpComp(z0, z1, fy, c);
  }

  /** Each component of a blend is the weighted sum of the eight corners' components, with
      the weights of WeightsSumToOne. */
  lemma BlendIsWeightedSum(n: array3<Vec3>, x: int, y: int, z: int, fx: real, fy: real, fz: real, c: nat)
    requires CornerOk(n, x, y, z) && c < 3
    ensures Comp(BlendCorners(n, x, y, z, fx, fy, fz), c)
         == WeightedSum(fx, fy, fz,
                        Comp(n[x, y, z], c), Comp(n[x + 1, y, z], c), Comp(n[x, y + 1, z], c), Comp(n[x + 1, y + 1, z], c),
                        Comp(n[x, y, z + 1], c), Comp(n[x + 1, y, z + 1], c), Comp(n[x, y + 1, z + 1], c), Comp(n[x + 1, y + 1, z + 1], c))
  {
    BlendComp(n, x, y, z, fx, fy, fz, c);
    MixIsWeightedSum(Comp(n[x, y, z], c), Comp(n[x + 1, y, z], c), Comp(n[x, y + 1, z], c), Comp(n[x + 1, y + 1, z], c),
                 Comp(n[x, y, z + 1], c), Comp(n[x + 1, y, z + 1], c), Comp(n[x, y + 1, z + 1], c), Comp(n[x + 1, y + 1, z + 1], c),
                 fx, fy, fz);
  }

  /** A blend with t in [0, 1] of two values in [lo, hi] stays in [lo, hi]. */
  lemma MixBetween(a: real, b: real, t: real, lo: real, hi: real)
    requires 0.0 <= t <= 1.0
    requires lo <= a <= hi && lo <= b <= hi
    ensures lo <= Mix(a, b, t) <= hi
  {
    var d := b - a;
    assert Mix(a, b, t) == a + d * t;
    if 0.0 <= d {
      assert 0.0 <= d * t <= d * 1.0;
    } else {
      assert d * 1.0 <= d * t <= 0.0;
    }
  }

  /** Componentwise bounds of the eight corners carry over to the resampled normal at any
      position with non-negative coordinates. */
  lemma TriLinearBounded(n: array3<Vec3>, p: Vec3, b: real)
    requires CanResample(n, p)
    requires 0.0 <= p.x && 0.0 <= p.y && 0.0 <= p.z
    requires forall i, j, k :: 0 <= i < n.Length0 && 0 <= j < n.Length1 && 0 <= k < n.Length2 ==> Bounded(n[i, j, k], b)
    ensures Bounded(TriLinear(n, p), b)
  {
    var x, y, z := Trunc(p.x), Trunc(p.y), Trunc(p.z);
    var fx, fy, fz := Frac(p.x), Frac(p.y), Frac(p.z);
    var x0 := Lerp(n[x, y, z], n[x + 1, y, z], fx);
    var x1 := Lerp(n[x, y, z + 1], n[x + 1, y, z + 1], fx);
    var x2 := Lerp(n[x, y + 1, z], n[x + 1, y + 1, z], fx);
    var x3 := Lerp(n[x, y + 1, z + 1], n[x + 1, y + 1, z + 1], fx);
    var z0 := Lerp(x0, x1, fz);
    var z1 := Lerp(x2, x3, fz);
    LerpBounded(n[x, y, z], n[x + 1, y, z], fx, b);
    LerpBounded(n[x, y, z + 1], n[x + 1, y, z + 1], fx, b);
    LerpBounded(n[x, y + 1, z], n[x + 1, y + 1, z], fx, b);
    LerpBounded(n[x, y + 1, z + 1], n[x + 1, y + 1, z + 1], fx, b);
    LerpBounded(x0, x1, fz, b);
    LerpBounded(x2, x3, fz, b);
    LerpBounded(z0, z1, fy, b);
  }

  lemma LerpBounded(a: Vec3, v: Vec3, t: real, b: real)
    requires 0.0 <= t <= 1.0
    requires Bounded(a, b) && Bounded(v, b)
    ensures Bounded(Lerp(a, v, t), b)
  {
    MixBetween(a.x, v.x, t, -b, b);
    MixBetween(a.y, v.y, t, -b, b);
    MixBetween(a.z, v.z, t, -b, b);
  }

  /** At the centre of a cell every corner has weight 1/8: the result is the plain average. */
  lemma TriLinearAtCentre(n: array3<Vec3>, x: nat, y: nat, z: nat, c: nat)
    requires x + 1 < n.Length0 && y + 1 < n.Length1 && z + 1 < n.Length2 && c < 3
    ensures CanResample(n, Vec3(x as real + 0.5, y as real + 0.5, z as real + 0.5))
    ensures Comp(TriLinear(n, Vec3(x as real + 0.5, y as real + 0.5, z as real + 0.5)), c)
            == (Comp(n[x, y, z], c) + Comp(n[x + 1, y, z], c) + Comp(n[x, y + 1, z], c) + Comp(n[x + 1, y + 1, z], c)
              + Comp(n[x, y, z + 1], c) + Comp(n[x + 1, y, z + 1], c) + Comp(n[x, y + 1, z + 1], c)
              + Comp(n[x + 1, y + 1, z + 1], c)) / 8.0
  {
    var p := Vec3(x as real + 0.5, y as real + 0.5, z as real + 0.5);
    assert Trunc(p.x) == x && Trunc(p.y) == y && Trunc(p.z) == z;
    assert Frac(p.x) == 0.5 && Frac(p.y) == 0.5 && Frac(p.z) == 0.5;
    BlendIsWeightedSum(n, x, y, z, 0.5, 0.5, 0.5, c);
  }
}
