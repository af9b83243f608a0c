// One terrain chunk (Chunk.cs): a padded density grid filled from noise, smoothed, turned
// into a normal field, and finally combined with the extracted mesh into per-vertex normals
// and texture control colours.
module Chunks {
  import opened Numerics
  import opened Vectors
  import opened DensityField
  import opened Smoothing
  import opened Normals
  import opened Blend

  /** Extra cells per axis: 1 for a seamless mesh, 2 for the normals' stencils and 2 for the
      smoothing stencil. */
  const Padding: int := 5

  /** The shift of the origin that makes grid index i sit at world coordinate origin + i. */
  const Border: real := 2.0

  datatype Option<T> = None | Some(value: T)

  /** What the marching-cubes plugin hands back for a non-null mesh: its vertex positions in
      grid coordinates, and the normals the engine's RecalculateNormals would give them. */
  datatype MeshData = MeshData(vertices: seq<Vec3>, engineNormals: seq<Vec3>)

  /** The finished mesh as handed to the renderer and collider. */
  datatype MeshOut = MeshOut(vertices: seq<Vec3>, normals: seq<Vec3>, colors: seq<Color>, position: Vec3)

  /** The chunk methods, for recording the order in which they ran. */
  datatype Step = VoxelsCreated | VoxelsSmoothed | NormalsCalculated | MeshCreated

  /** The engine recalculates one normal per vertex of a non-null mesh. */
  predicate EngineNormalsMatch(m: Option<MeshData>)
  {
    m.Some? ==> |m.value.engineNormals| == |m.value.vertices|
  }

  /** A mesh the plugin may return for a grid of shape (w, h, l): one engine normal per vertex
      and every vertex inside the cells the resampler can read. */
  predicate MeshFits(m: Option<MeshData>, w: int, h: int, l: int)
  {
    && EngineNormalsMatch(m)
    && (m.Some? ==> forall i :: 0 <= i < |m.value.vertices| ==> InCells(m.value.vertices[i], w, h, l))
  }

  /** Cell (a, b, c) comes before cell (x, y, z) in the order the nested x, y, z loops visit. */
  predicate Before(a: int, b: int, c: int, x: int, y: int, z: int)
  {
    a < x || (a == x && (b < y || (b == y && c < z)))
  }

  /** The smoothing loop has written every interior cell of sm before (x, y, z) with its
      neighbourhood mean in src, and every other cell is still zero. */
  ghost predicate SmoothedBefore(sm: array3<real>, src: array3<real>, x: int, y: int, z: int)
    reads sm, src
  {
    && sm.Length0 == src.Length0 && sm.Length1 == src.Length1 && sm.Length2 == src.Length2
    && forall a, b, c :: InGrid(sm, a, b, c) ==>
         sm[a, b, c] == if SmoothInterior(src, a, b, c) && Before(a, b, c, x, y, z) then Mean27(src, a, b, c) else 0.0
  }

  /** Every cell the density loop has visited before (x, y, z) holds its density; the loop
      runs x outermost, then z, then y. */
  ghost predicate FilledBefore(g: array3<real>, noise: Noise, origin: Vec3, surfaceLevel: real, x: int, y: int, z: int)
    reads g
  {
    forall a, b, c :: InGrid(g, a, b, c) && (a < x || (a == x && (c < z || (c == z && b < y)))) ==>
      g[a, b, c] == Density(noise, origin, surfaceLevel, a, b, c)
  }

  /** One (x, z) column of the density loop: the column height is sampled once and every row
      of the column receives its clamped density; no other cell changes. */
  method FillColumn(g: array3<real>, noise: Noise, origin: Vec3, surfaceLevel: real, x: int, z: int)
    requires 0 <= x < g.Length0 && 0 <= z < g.Length2
    modifies g
    ensures forall a, b, c :: InGrid(g, a, b, c) ==>
              g[a, b, c] == if a == x && c == z then Density(noise, origin, surfaceLevel, a, b, c)
                            else old(g[a, b, c])
  {
    var worldX := x as real + origin.x;
    var worldZ := z as real + origin.z;
    var groundHt := SampleGround(noise, worldX, worldZ);
    var mountainHt := SampleMountains(noise, worldX, worldZ);
    var ht := mountainHt + groundHt;
    var y := 0;
    while y < g.Length1
      invariant 0 <= y <= g.Length1
      invariant forall a, b, c :: InGrid(g, a, b, c) ==>
                  g[a, b, c] == if a == x && c == z && b < y then Density(noise, origin, surfaceLevel, a, b, c)
                                else old(g[a, b, c])
    {
      var worldY := y as real + origin.y - surfaceLevel;
      g[x, y, z] := Clamp(ht + worldY, -1.0, 1.0);
      g[x, y, z] := Clamp(g[x, y, z], -1.0, 1.0);
      y := y + 1;
    }
  }

  /** The sum the smoothing loop accumulates over a grid filled with Density, written on the
      density field itself: the densities at the first n table offsets around (x, y, z). */
  function DensitySum(noise: Noise, origin: Vec3, surfaceLevel: real, x: int, y: int, z: int, n: nat): real
    requires n <= |Sampler|
  {
    if n == 0 then 0.0
    else DensitySum(noise, origin, surfaceLevel, x, y, z, n - 1) + DensityAt(noise, origin, surfaceLevel, x, y, z, Sampler[n - 1])
  }

  /** The density of the cell at offset o from (x, y, z). */
  function DensityAt(noise: Noise, origin: Vec3, surfaceLevel: real, x: int, y: int, z: int, o: Offset): real
  {
    Density(noise, origin, surfaceLevel, x + o.0, y + o.1, z + o.2)
  }

  /** A partial sum of n densities lies in [-n, n]. */
  lemma {:induction false} DensitySumBounds(noise: Noise, origin: Vec3, surfaceLevel: real, x: int, y: int, z: int, n: nat)
    requires n <= |Sampler|
    ensures -(n as real) <= DensitySum(noise, origin, surfaceLevel, x, y, z, n) <= n as real
  {
    if n > 0 {
      DensitySumBounds(noise, origin, surfaceLevel, x, y, z, n - 1);
    }
  }

  /** What a filled and smoothed chunk holds at an interior cell: the mean of the densities of
      the 27 cells around it. */
  function SmoothedDensity(noise: Noise, origin: Vec3, surfaceLevel: real, x: int, y: int, z: int): (d: real)
    ensures -1.0 <= d <= 1.0
  {
    DensitySumBounds(noise, origin, surfaceLevel, x, y, z, |Sampler|);
    DensitySum(noise, origin, surfaceLevel, x, y, z, |Sampler|) / 27.0
  }

  /** Over a grid that holds the density everywhere, the smoothing loop's running total is the
      sum of the densities at the same offsets. */
  lemma {:induction false} FilledSumIsDensitySum(g: array3<real>, noise: Noise, origin: Vec3, surfaceLevel: real,
                                                 x: int, y: int, z: int, n: nat)
    requires SmoothInterior(g, x, y, z) && n <= |Sampler|
    requires forall a, b, c :: InGrid(g, a, b, c) ==> g[a, b, c] == Density(noise, origin, surfaceLevel, a, b, c)
    ensures SumOffsets(g, x, y, z, n) == DensitySum(noise, origin, surfaceLevel, x, y, z, n)
  {
    if n > 0 {
      FilledSumIsDensitySum(g, noise, origin, surfaceLevel, x, y, z, n - 1);
      var o := Sampler[n - 1];
      assert InGrid(g, x + o.0, y + o.1, z + o.2);
    }
  }

  /** Smoothing a grid filled by CreateVoxels stores SmoothedDensity at every interior cell. */
  lemma FilledMeanIsSmoothedDensity(g: array3<real>, noise: Noise, origin: Vec3, surfaceLevel: real,
                                    x: int, y: int, z: int)
    requires SmoothInterior(g, x, y, z)
    requires forall a, b, c :: InGrid(g, a, b, c) ==> g[a, b, c] == Density(noise, origin, surfaceLevel, a, b, c)
    ensures Mean27(g, x, y, z) == SmoothedDensity(noise, origin, surfaceLevel, x, y, z)
  {
    FilledSumIsDensitySum(g, noise, origin, surfaceLevel, x, y, z, |Sampler|);
  }

  /** Partial density sums around the same world point agree, whichever grid they are taken in. */
  lemma {:induction false} DensitySumDependsOnWorldPosition(noise: Noise, o1: Vec3, o2: Vec3, surfaceLevel: real,
                                                            x1: int, y1: int, z1: int, x2: int, y2: int, z2: int, n: nat)
    requires n <= |Sampler|
    requires x1 as real + o1.x == x2 as real + o2.x
    requires y1 as real + o1.y == y2 as real + o2.y
    requires z1 as real + o1.z == z2 as real + o2.z
    ensures DensitySum(noise, o1, surfaceLevel, x1, y1, z1, n) == DensitySum(noise, o2, surfaceLevel, x2, y2, z2, n)
  {
    if n > 0 {
      DensitySumDependsOnWorldPosition(noise, o1, o2, surfaceLevel, x1, y1, z1, x2, y2, z2, n - 1);
      ShiftedDensitiesAgree(noise, o1, o2, surfaceLevel, x1, y1, z1, x2, y2, z2, Sampler[n - 1]);
    }
  }

  lemma ShiftedDensitiesAgree(noise: Noise, o1: Vec3, o2: Vec3, surfaceLevel: real,
                              x1: int, y1: int, z1: int, x2: int, y2: int, z2: int, o: Offset)
    requires x1 as real + o1.x == x2 as real + o2.x
    requires y1 as real + o1.y == y2 as real + o2.y
    requires z1 as real + o1.z == z2 as real + o2.z
    ensures DensityAt(noise, o1, surfaceLevel, x1, y1, z1, o) == DensityAt(noise, o2, surfaceLevel, x2, y2, z2, o)
  {
    DensityDependsOnWorldPosition(noise, o1, o2, surfaceLevel, x1 + o.0, y1 + o.1, z1 + o.2, x2 + o.0, y2 + o.1, z2 + o.2);
  }

  /** The smoothed density depends only on the world position of the cell. */
  lemma SmoothedDensityDependsOnWorldPosition(noise: Noise, o1: Vec3, o2: Vec3, surfaceLevel: real,
                                              x1: int, y1: int, z1: int, x2: int, y2: int, z2: int)
    requires x1 as real + o1.x == x2 as real + o2.x
    requires y1 as real + o1.y == y2 as real + o2.y
    requires z1 as real + o1.z == z2 as real + o2.z
    ensures SmoothedDensity(noise, o1, surfaceLevel, x1, y1, z1) == SmoothedDensity(noise, o2, surfaceLevel, x2, y2, z2)
  {
    DensitySumDependsOnWorldPosition(noise, o1, o2, surfaceLevel, x1, y1, z1, x2, y2, z2, |Sampler|);
  }

  /** A grid filled by CreateVoxels holds densities in [-1, 1] whose columns never decrease
      going up. */
  lemma FilledGridShape(g: array3<real>, noise: Noise, origin: Vec3, surfaceLevel: real)
    requires forall x, y, z :: InGrid(g, x, y, z) ==> g[x, y, z] == Density(noise, origin, surfaceLevel, x, y, z)
    ensures AllInRange(g) && MonotoneY(g)
  {
    forall x, y, z | InGrid(g, x, y, z) && y + 1 < g.Length1
      ensures g[x, y, z] <= g[x, y + 1, z]
    {
      DensityMonotoneInY(noise, origin, surfaceLevel, x, y, y + 1, z);
    }
    forall x, y, z | InGrid(g, x, y, z)
      ensures -1.0 <= g[x, y, z] <= 1.0
    {
      assert g[x, y, z] == Density(noise, origin, surfaceLevel, x, y, z);
    }
  }

  /** After smoothing a grid whose columns rise, every gradient the normal loop computes has a
      non-negative vertical component: the terrain normals never point into the ground, which
      is why CalculateNormals needs no sign flip. */
  lemma SmoothedGradientPointsUp(src: array3<real>, sm: array3<real>, x: int, y: int, z: int)
    requires sm.Length0 == src.Length0 && sm.Length1 == src.Length1 && sm.Length2 == src.Length2
    requires MonotoneY(src)
    requires forall a, b, c :: InGrid(sm, a, b, c) ==>
               sm[a, b, c] == if SmoothInterior(sm, a, b, c) then Mean27(src, a, b, c) else 0.0
    requires NormalInterior(sm, x, y, z)
    ensures 0.0 <= Gradient(sm, x, y, z).y
  {
    assert InGrid(sm, x, y - 1, z) && InGrid(sm, x, y, z) && InGrid(sm, x, y + 1, z);
    SmoothMonotoneY(src, x, y - 1, z);
    SmoothMonotoneY(src, x, y, z);
    GradientPointsUp(sm, x, y, z);
  }

  /** Smoothing a grid filled by CreateVoxels gives SmoothedDensity at every interior cell and
      zero elsewhere, and every gradient the normal loop then takes points upward. */
  lemma SmoothedFilledGrid(src: array3<real>, sm: array3<real>, noise: Noise, origin: Vec3, surfaceLevel: real)
    requires forall x, y, z :: InGrid(src, x, y, z) ==> src[x, y, z] == Density(noise, origin, surfaceLevel, x, y, z)
    requires sm.Length0 == src.Length0 && sm.Length1 == src.Length1 && sm.Length2 == src.Length2
    requires forall a, b, c :: InGrid(sm, a, b, c) ==>
               sm[a, b, c] == if SmoothInterior(sm, a, b, c) then Mean27(src, a, b, c) else 0.0
    ensures forall a, b, c :: InGrid(sm, a, b, c) ==>
              sm[a, b, c] == if SmoothInterior(sm, a, b, c) then SmoothedDensity(noise, origin, surfaceLevel, a, b, c) else 0.0
    ensures forall a, b, c :: NormalInterior(sm, a, b, c) ==> 0.0 <= Gradient(sm, a, b, c).y
  {
    FilledGridShape(src, noise, origin, surfaceLevel);
    forall a, b, c | NormalInterior(sm, a, b, c)
      ensures 0.0 <= Gradient(sm, a, b, c).y
    {
      SmoothedGradientPointsUp(src, sm, a, b, c);
    }
    forall a, b, c | InGrid(sm, a, b, c) && SmoothInterior(sm, a, b, c)
      ensures sm[a, b, c] == SmoothedDensity(noise, origin, surfaceLevel, a, b, c)
    {
      FilledMeanIsSmoothedDensity(src, noise, origin, surfaceLevel, a, b, c);
    }
  }

  /** With a Normalize that returns unit or zero vectors, every component of a freshly
      allocated normal grid filled by CalculateNormals lies in [-1, 1]. */
  lemma FreshNormalsBounded(normalize: Normalizer, g: array3<real>, n: array3<Vec3>)
    requires NormalizerContract(normalize)
    requires forall x, y, z :: InGrid(n, x, y, z) ==>
               n[x, y, z] == if NormalInterior(g, x, y, z) then normalize(Gradient(g, x, y, z)) else Zero
    ensures forall x, y, z :: InGrid(n, x, y, z) ==> Bounded(n[x, y, z], 1.0)
  {
    forall x, y, z | InGrid(n, x, y, z)
      ensures Bounded(n[x, y, z], 1.0)
    {
      if NormalInterior(g, x, y, z) {
        UnitOrZeroBounded(normalize(Gradient(g, x, y, z)));
      }
    }
  }

  /** Over a normal grid of components in [-1, 1], the control colour of a resampled vertex has
      both channels in [0, 1]. */
  lemma ResampledColorInRange(n: array3<Vec3>, p: Vec3)
    requires forall x, y, z :: InGrid(n, x, y, z) ==> Bounded(n[x, y, z], 1.0)
    requires CanResample(n, p)
    requires 0.0 <= p.x && 0.0 <= p.y && 0.0 <= p.z
    ensures 0.0 <= Classify(TriLinear(n, p)).r <= 1.0
    ensures 0.0 <= Classify(TriLinear(n, p)).g <= 1.0
  {
    TriLinearBounded(n, p, 1.0);
    ClassifyChannelsInRange(TriLinear(n, p));
  }

  /** The accumulation loop of SmoothVoxels: the sum of the 27 table neighbours of an
      interior cell. */
  method NeighbourhoodSum(src: array3<real>, x: int, y: int, z: int) returns (ht: real)
    requires SmoothInterior(src, x, y, z)
    ensures ht == SumOffsets(src, x, y, z, |Sampler|)
  {
    ht := 0.0;
    var i := 0;
    while i < |Sampler|
      invariant 0 <= i <= |Sampler|
      invariant ht == SumOffsets(src, x, y, z, i)
    {
      var o := Sampler[i];
      ht := ht + src[x + o.0, y + o.1, z + o.2];
      i := i + 1;
    }
  }

  /** The innermost loop of SmoothVoxels: every interior cell of the row (x, y, _) of sm
      receives its neighbourhood mean in src; no other cell changes. */
  method SmoothRow(sm: array3<real>, src: array3<real>, x: int, y: int)
    requires sm != src
    requires sm.Length0 == src.Length0 && sm.Length1 == src.Length1 && sm.Length2 == src.Length2
    requires 1 <= x < src.Length0 - 1 && 1 <= y < src.Length1 - 1
    modifies sm
    ensures forall a, b, c :: InGrid(sm, a, b, c) ==>
              sm[a, b, c] == if a == x && b == y && 1 <= c < src.Length2 - 1 then Mean27(src, a, b, c)
                             else old(sm[a, b, c])
  {
    var l := src.Length2;
    var z := 1;
    while z < l - 1
      invariant 1 <= z && (z == 1 || z <= l - 1)
      invariant forall a, b, c :: InGrid(sm, a, b, c) ==>
                  sm[a, b, c] == if a == x && b == y && 1 <= c < z then Mean27(src, a, b, c)
                                 else old(sm[a, b, c])
    {
      var ht := NeighbourhoodSum(src, x, y, z);
      sm[x, y, z] := ht / 27.0;
      z := z + 1;
    }
  }

  /** The cells of n the normal loop has written before (x, y, z) hold the normalized
      gradient of g. */
  ghost predicate NormalsBefore(n: array3<Vec3>, g: array3<real>, normalize: Normalizer, x: int, y: int, z: int)
    reads n, g
  {
    forall a, b, c :: InGrid(n, a, b, c) && NormalInterior(g, a, b, c) && Before(a, b, c, x, y, z) ==>
      n[a, b, c] == normalize(Gradient(g, a, b, c))
  }

  /** The loops of CalculateNormals: every cell with all indices in [2, dim-3] gets the
      normalized central difference of g, and every other cell keeps its value. */
  method FillNormals(n: array3<Vec3>, g: array3<real>, normalize: Normalizer)
    requires n.Length0 == g.Length0 && n.Length1 == g.Length1 && n.Length2 == g.Length2
    modifies n
    ensures forall x, y, z :: InGrid(n, x, y, z) ==>
              n[x, y, z] == if NormalInterior(g, x, y, z) then normalize(Gradient(g, x, y, z)) else old(n[x, y, z])
  {
    var w, h := g.Length0, g.Length1;
    var x := 2;
    while x < w - 2
      invariant 2 <= x && (4 <= w ==> x <= w - 2)
      invariant NormalsBefore(n, g, normalize, x, 2, 2)
      invariant forall a, b, c :: InGrid(n, a, b, c) && !(NormalInterior(g, a, b, c) && Before(a, b, c, x, 2, 2)) ==>
                  n[a, b, c] == old(n[a, b, c])
    {
      var y := 2;
      while y < h - 2
        invariant 2 <= y && (4 <= h ==> y <= h - 2)
        invariant NormalsBefore(n, g, normalize, x, y, 2)
        invariant forall a, b, c :: InGrid(n, a, b, c) && !(NormalInterior(g, a, b, c) && Before(a, b, c, x, y, 2)) ==>
                    n[a, b, c] == old(n[a, b, c])
      {
        FillNormalRow(n, g, normalize, x, y);
        y := y + 1;
      }
      x := x + 1;
    }
  }

  /** The innermost loop of CalculateNormals: the row (x, y, 2..dim-3). */
  method FillNormalRow(n: array3<Vec3>, g: array3<real>, normalize: Normalizer, x: int, y: int)
    requires n.Length0 == g.Length0 && n.Length1 == g.Length1 && n.Length2 == g.Length2
    requires 2 <= x < g.Length0 - 2 && 2 <= y < g.Length1 - 2
    modifies n
    ensures forall a, b, c :: InGrid(n, a, b, c) ==>
              n[a, b, c] == if a == x && b == y && 2 <= c < g.Length2 - 2 then normalize(Gradient(g, a, b, c))
                            else old(n[a, b, c])
  {
    var l := g.Length2;
    var z := 2;
    while z < l - 2
      invariant 2 <= z && (z == 2 || z <= l - 2)
      invariant forall a, b, c :: InGrid(n, a, b, c) ==>
                  n[a, b, c] == if a == x && b == y && 2 <= c < z then normalize(Gradient(g, a, b, c))
                                else old(n[a, b, c])
    {
      var dx := g[x + 1, y, z] - g[x - 1, y, z];
      var dy := g[x, y + 1, z] - g[x, y - 1, z];
      var dz := g[x, y, z + 1] - g[x, y, z - 1];
      n[x, y, z] := normalize(Vec3(dx, dy, dz));
      z := z + 1;
    }
  }

  /** The per-vertex normals of CreateMesh: the trilinear resample of the normal grid at
      each vertex's grid position. */
  method ResampleNormals(n: array3<Vec3>, verts: seq<Vec3>) returns (ns: seq<Vec3>)
    requires forall i :: 0 <= i < |verts| ==> CanResample(n, verts[i])
    ensures |ns| == |verts|
    ensures forall i :: 0 <= i < |verts| ==> ns[i] == TriLinear(n, verts[i])
  {
    var out := new Vec3[|verts|](_ => Zero);
    var i := 0;
    while i < |verts|
      modifies out
      invariant 0 <= i <= |verts|
      invariant forall k :: 0 <= k < i ==> out[k] == TriLinear(n, verts[k])
    {
      out[i] := TriLinear(n, verts[i]);
      i := i + 1;
    }
    ns := out[..];
  }

  /** The texture control map of CreateMesh: one colour per vertex normal. */
  method ControlMap(meshNormals: seq<Vec3>) returns (control: seq<Color>)
    ensures |control| == |meshNormals|
    ensures forall i :: 0 <= i < |meshNormals| ==> control[i] == Classify(meshNormals[i])
  {
    var out := new Color[|meshNormals|](_ => Color(0.0, 0.0, 0.0, 0.0));
    var i := 0;
    while i < |meshNormals|
      modifies out
      invariant 0 <= i <= |meshNormals|
      invariant forall k :: 0 <= k < i ==> out[k] == Classify(meshNormals[k])
    {
      out[i] := Classify(meshNormals[i]);
      i := i + 1;
    }
    control := out[..];
  }

  class Chunk {
    var voxels: array3<real>
    var normals: array3?<Vec3>
    var pos: Vec3
    var surfaceLevel: real
    /** The built mesh; None until CreateMesh received a non-null mesh. */
    var mesh: Option<MeshOut>

    /** The chunk methods that have run, in order. */
    ghost var log: seq<Step>
    /** The objects this chunk owns. */
    ghost var Repr: set<object>

    ghost predicate Valid()
      reads this
    {
      && this in Repr
      && voxels in Repr
      && (normals != null ==>
            && normals in Repr
            && normals.Length0 == voxels.Length0
            && normals.Length1 == voxels.Length1
            && normals.Length2 == voxels.Length2)
    }

    /** Allocates the padded grid, all zero, and shifts the origin by the border. */
    constructor (p: Vec3, width: int, height: int, length: int, surface: real)
      requires 0 <= width + Padding && 0 <= height + Padding && 0 <= length + Padding
      ensures Valid() && fresh(Repr)
      ensures voxels.Length0 == width + Padding
      ensures voxels.Length1 == height + Padding
      ensures voxels.Length2 == length + Padding
      ensures forall x, y, z :: InGrid(voxels, x, y, z) ==> voxels[x, y, z] == 0.0
      ensures pos == Sub(p, Vec3(Border, Border, Border))
      ensures surfaceLevel == surface
      ensures normals == null && mesh == None && log == []
    {
      surfaceLevel := surface;
      voxels := new real[width + Padding, height + Padding, length + Padding]((_, _, _) => 0.0);
      pos := Sub(p, Vec3(Border, Border, Border));
      normals := null;
      mesh := None;
      log := [];
      new;
      Repr := {this, voxels};
    }

    /** Fills every cell with the clamped density of its world position; the column height is
        sampled once per (x, z). */
    method CreateVoxels(noise: Noise)
      requires Valid()
      modifies voxels, this`log
      ensures Valid()
      ensures forall x, y, z :: InGrid(voxels, x, y, z) ==>
                voxels[x, y, z] == Density(noise, pos, surfaceLevel, x, y, z)
      ensures log == old(log) + [VoxelsCreated]
    {
      var w, l := voxels.Length0, voxels.Length2;
      var x := 0;
      while x < w
        modifies voxels
        invariant 0 <= x <= w
        invariant FilledBefore(voxels, noise, pos, surfaceLevel, x, 0, 0)
      {
        var z := 0;
        while z < l
          modifies voxels
          invariant 0 <= z <= l
          invariant FilledBefore(voxels, noise, pos, surfaceLevel, x, 0, z)
        {
          FillColumn(voxels, noise, pos, surfaceLevel, x, z);
          z := z + 1;
        }
        x := x + 1;
      }
      log := log + [VoxelsCreated];
    }

    /** Replaces the grid by a fresh one of the same shape whose interior cells hold the mean
        of their 27-cell neighbourhood in the old grid and whose border cells are zero. */
    method SmoothVoxels()
      requires Valid()
      modifies this`voxels, this`Repr, this`log
      ensures Valid() && fresh(voxels) && Repr == old(Repr) + {voxels}
      ensures voxels.Length0 == old(voxels.Length0)
      ensures voxels.Length1 == old(voxels.Length1)
      ensures voxels.Length2 == old(voxels.Length2)
      ensures forall x, y, z :: InGrid(voxels, x, y, z) ==>
                voxels[x, y, z] == if SmoothInterior(voxels, x, y, z) then old(Mean27(voxels, x, y, z)) else 0.0
      ensures log == old(log) + [VoxelsSmoothed]
    {
      var src := voxels;
      var w, h, l := src.Length0, src.Length1, src.Length2;
      var smoothed := new real[w, h, l]((_, _, _) => 0.0);
      var x := 1;
      while x < w - 1
        modifies smoothed
        invariant 1 <= x && (2 <= w ==> x <= w - 1)
        invariant SmoothedBefore(smoothed, src, x, 1, 1)
      {
        var y := 1;
        while y < h - 1
          modifies smoothed
          invariant 1 <= y && (2 <= h ==> y <= h - 1)
          invariant SmoothedBefore(smoothed, src, x, y, 1)
        {
          SmoothRow(smoothed, src, x, y);
          y := y + 1;
        }
        x := x + 1;
      }
      voxels := smoothed;
      Repr := Repr + {smoothed};
      log := log + [VoxelsSmoothed];
    }

    /** Allocates the normal grid if there is none, then stores at every cell with all indices
        in [2, dim-3] the normalized central-difference gradient of the density grid. */
    method CalculateNormals(normalize: Normalizer)
      requires Valid()
      modifies this`normals, this`Repr, this`log, normals
      ensures Valid() && normals != null && voxels == old(voxels)
      ensures old(normals) == null ==> fresh(normals) && Repr == old(Repr) + {normals}
      ensures old(normals) != null ==> normals == old(normals) && Repr == old(Repr)
      ensures forall x, y, z :: 0 <= x < normals.Length0 && 0 <= y < normals.Length1 && 0 <= z < normals.Length2 ==>
                normals[x, y, z] ==
                  if NormalInterior(voxels, x, y, z) then normalize(Gradient(voxels, x, y, z))
                  else if old(normals) == null then Zero
                  else old(normals[x, y, z])
      ensures log == old(log) + [NormalsCalculated]
    {
      var w, h, l := voxels.Length0, voxels.Length1, voxels.Length2;
      if normals == null {
        normals := new Vec3[w, h, l]((_, _, _) => Zero);
        Repr := Repr + {normals};
      }
      FillNormals(normals, voxels, normalize);
      log := log + [NormalsCalculated];
    }

    /** Takes the marching-cubes result for this chunk's grid (None for a null mesh, which
        leaves the chunk without a mesh). Each vertex gets the trilinear resample of the normal
        grid at its grid position, or the engine's recalculated normal when no normal grid
        exists, and the control colour of that normal; the mesh is placed at the chunk origin. */
    method CreateMesh(m: Option<MeshData>)
      requires Valid()
      requires EngineNormalsMatch(m)
      requires normals != null ==> MeshFits(m, voxels.Length0, voxels.Length1, voxels.Length2)
      modifies this`mesh, this`log
      ensures Valid()
      ensures m.None? ==> mesh == old(mesh)
      ensures m.Some? ==>
                && mesh.Some?
                && mesh.value.vertices == m.value.vertices
                && mesh.value.position == pos
                && |mesh.value.normals| == |m.value.vertices|
                && |mesh.value.colors| == |m.value.vertices|
                && (forall i :: 0 <= i < |m.value.vertices| ==>
                      mesh.value.normals[i] ==
                        if normals != null then TriLinear(normals, m.value.vertices[i])
                        else m.value.engineNormals[i])
                && (forall i :: 0 <= i < |m.value.vertices| ==>
                      mesh.value.colors[i] == Classify(mesh.value.normals[i]))
      ensures log == old(log) + [MeshCreated]
    {
      log := log + [MeshCreated];
      if m.None? {
        return;
      }
      var verts := m.value.vertices;
      var meshNormals: seq<Vec3>;
      if normals != null {
        meshNormals := ResampleNormals(normals, verts);
      } else {
        meshNormals := m.value.engineNormals;
      }
      var control := ControlMap(meshNormals);
      mesh := Some(MeshOut(verts, meshNormals, control, pos));
    }
  }
}
