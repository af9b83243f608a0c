// The terrain driver (Terrain.cs): a lattice of chunks centred on the x and z axes with a
// given number of chunk rows above y = 0, each built by the full chunk pipeline.
module Lattice {
  import opened Vectors
  import opened DensityField
  import opened Smoothing
  import opened Normals
  import opened Blend
  import opened Chunks

  /** The shift that centres the lattice on x and z and puts `above0` chunk rows above y = 0. */
  function LatticeOffset(chunksX: int, chunksY: int, chunksZ: int,
                         width: int, height: int, length: int, above0: int): (o: Vec3)
    ensures o.x + o.x + (chunksX * width) as real == 0.0
    ensures o.z + o.z + (chunksZ * length) as real == 0.0
    ensures o.y + ((chunksY - above0) * height) as real == 0.0
  {
    Vec3((chunksX * width) as real * -0.5,
         (-(chunksY - above0) * height) as real,
         (chunksZ * length) as real * -0.5)
  }

  /** The position Start hands to the chunk at lattice index (i, j, k). */
  function ChunkPosition(chunksX: int, chunksY: int, chunksZ: int,
                         width: int, height: int, length: int, above0: int,
                         i: int, j: int, k: int): (p: Vec3)
    ensures p.x + p.x == ((2 * i - chunksX) * width) as real
    ensures p.y == ((j - (chunksY - above0)) * height) as real
    ensures p.z + p.z == ((2 * k - chunksZ) * length) as real
  {
    assert (2 * i - chunksX) * width == 2 * (i * width) - chunksX * width;
    assert (j - (chunksY - above0)) * height == j * height - (chunksY - above0) * height;
    assert (2 * k - chunksZ) * length == 2 * (k * length) - chunksZ * length;
    Add(Vec3((i * width) as real, (j * height) as real, (k * length) as real),
        LatticeOffset(chunksX, chunksY, chunksZ, width, height, length, above0))
  }

  /** The origin of that chunk's padded grid, as its constructor computes it. */
  function ChunkOrigin(chunksX: int, chunksY: int, chunksZ: int,
                       width: int, height: int, length: int, above0: int,
                       i: int, j: int, k: int): Vec3
  {
    Sub(ChunkPosition(chunksX, chunksY, chunksZ, width, height, length, above0, i, j, k),
        Vec3(Border, Border, Border))
  }

  /** The lattice spans [-X/2, X/2] on x and [-Z/2, Z/2] on z, where X and Z are its total
      extents: the chunk at i and the chunk at chunksX-1-i sit mirror-symmetrically. */
  lemma LatticeCentred(chunksX: int, chunksY: int, chunksZ: int,
                       width: int, height: int, length: int, above0: int, i: int, j: int, k: int)
    ensures var p := ChunkPosition(chunksX, chunksY, chunksZ, width, height, length, above0, i, j, k);
            var q := ChunkPosition(chunksX, chunksY, chunksZ, width, height, length, above0,
                                   chunksX - 1 - i, j, chunksZ - 1 - k);
            && p.x + q.x + width as real == 0.0
            && p.z + q.z + length as real == 0.0
            && p.y == q.y
  {
    var p := ChunkPosition(chunksX, chunksY, chunksZ, width, height, length, above0, i, j, k);
    var q := ChunkPosition(chunksX, chunksY, chunksZ, width, height, length, above0,
                           chunksX - 1 - i, j, chunksZ - 1 - k);
    assert (chunksX - 1 - i) * width + i * width + width == chunksX * width;
    assert (chunksZ - 1 - k) * length + k * length + length == chunksZ * length;
  }

  /** The bottom of chunk row chunksY - above0 sits at y = 0: that row and the above0 - 1 rows
      after it are above ground level, the rows before it below. */
  lemma RowAboveZero(chunksX: int, chunksY: int, chunksZ: int,
                     width: int, height: int, length: int, above0: int, i: int, j: int, k: int)
    requires 0 < height
    ensures var p := ChunkPosition(chunksX, chunksY, chunksZ, width, height, length, above0, i, j, k);
            && (p.y == 0.0 <==> j == chunksY - above0)
            && (p.y < 0.0 <==> j < chunksY - above0)
  {
    var d := j - (chunksY - above0);
    assert j * height + -(chunksY - above0) * height == d * height;
    if d < 0 {
      assert d * height < 0;
    } else if d > 0 {
      assert d * height > 0;
    }
  }

  /** Neighbouring chunks are exactly one chunk extent apart along each axis. */
  lemma NeighbourSpacing(chunksX: int, chunksY: int, chunksZ: int,
                         width: int, height: int, length: int, above0: int, i: int, j: int, k: int)
    ensures ChunkPosition(chunksX, chunksY, chunksZ, width, height, length, above0, i + 1, j, k)
            == Add(ChunkPosition(chunksX, chunksY, chunksZ, width, height, length, above0, i, j, k),
                   Vec3(width as real, 0.0, 0.0))
    ensures ChunkPosition(chunksX, chunksY, chunksZ, width, height, length, above0, i, j + 1, k)
            == Add(ChunkPosition(chunksX, chunksY, chunksZ, width, height, length, above0, i, j, k),
                   Vec3(0.0, height as real, 0.0))
    ensures ChunkPosition(chunksX, chunksY, chunksZ, width, height, length, above0, i, j, k + 1)
            == Add(ChunkPosition(chunksX, chunksY, chunksZ, width, height, length, above0, i, j, k),
                   Vec3(0.0, 0.0, length as real))
  {
    assert (i + 1) * width == i * width + width;
    assert (j + 1) * height == j * height + height;
    assert (k + 1) * length == k * length + length;
  }

  /** With positive chunk extents no two lattice indices share a position. */
  lemma ChunkPositionInjective(chunksX: int, chunksY: int, chunksZ: int,
                               width: int, height: int, length: int, above0: int,
                               i1: int, j1: int, k1: int, i2: int, j2: int, k2: int)
    requires 0 < width && 0 < height && 0 < length
    requires ChunkPosition(chunksX, chunksY, chunksZ, width, height, length, above0, i1, j1, k1)
             == ChunkPosition(chunksX, chunksY, chunksZ, width, height, length, above0, i2, j2, k2)
    ensures i1 == i2 && j1 == j2 && k1 == k2
  {
    CancelExtent(i1, i2, width);
    CancelExtent(j1, j2, height);
    CancelExtent(k1, k2, length);
  }

  lemma CancelExtent(a: int, b: int, e: int)
    requires 0 < e && a * e == b * e
    ensures a == b
  {
  }

  /** The padding makes neighbouring grids overlap: grid cell (a + width, b, c) of chunk
      (i, j, k) and grid cell (a, b, c) of chunk (i + 1, j, k) lie at the same world point and
      so have the same smoothed density (likewise along y and z). */
  lemma SeamsAgree(noise: Noise, surfaceLevel: real,
                   chunksX: int, chunksY: int, chunksZ: int,
                   width: int, height: int, length: int, above0: int,
                   i: int, j: int, k: int, a: int, b: int, c: int)
    ensures var o := ChunkOrigin(chunksX, chunksY, chunksZ, width, height, length, above0, i, j, k);
            SmoothedDensity(noise, o, surfaceLevel, a + width, b, c)
            == SmoothedDensity(noise, ChunkOrigin(chunksX, chunksY, chunksZ, width, height, length, above0, i + 1, j, k),
                               surfaceLevel, a, b, c)
    ensures var o := ChunkOrigin(chunksX, chunksY, chunksZ, width, height, length, above0, i, j, k);
            SmoothedDensity(noise, o, surfaceLevel, a, b + height, c)
            == SmoothedDensity(noise, ChunkOrigin(chunksX, chunksY, chunksZ, width, height, length, above0, i, j + 1, k),
                               surfaceLevel, a, b, c)
    ensures var o := ChunkOrigin(chunksX, chunksY, chunksZ, width, height, length, above0, i, j, k);
            SmoothedDensity(noise, o, surfaceLevel, a, b, c + length)
            == SmoothedDensity(noise, ChunkOrigin(chunksX, chunksY, chunksZ, width, height, length, above0, i, j, k + 1),
                               surfaceLevel, a, b, c)
  {
    NeighbourSpacing(chunksX, chunksY, chunksZ, width, height, length, above0, i, j, k);
    var o := ChunkOrigin(chunksX, chunksY, chunksZ, width, height, length, above0, i, j, k);
    var ox := ChunkOrigin(chunksX, chunksY, chunksZ, width, height, length, above0, i + 1, j, k);
    var oy := ChunkOrigin(chunksX, chunksY, chunksZ, width, height, length, above0, i, j + 1, k);
    var oz := ChunkOrigin(chunksX, chunksY, chunksZ, width, height, length, above0, i, j, k + 1);
    SmoothedDensityDependsOnWorldPosition(noise, o, ox, surfaceLevel, a + width, b, c, a, b, c);
    SmoothedDensityDependsOnWorldPosition(noise, o, oy, surfaceLevel, a, b + height, c, a, b, c);
    SmoothedDensityDependsOnWorldPosition(noise, o, oz, surfaceLevel, a, b, c + length, a, b, c);
  }

  /** A lattice of 3 x 2 x 1 chunks of 10^3 voxels with one row above ground starts at
      (-15, -10, -5), and chunk (1, 1, 0) sits at (-5, 0, -5) with its padded grid starting at
      (-7, -2, -7). */
  lemma LatticeExample()
    ensures LatticeOffset(3, 2, 1, 10, 10, 10, 1) == Vec3(-15.0, -10.0, -5.0)
    ensures ChunkPosition(3, 2, 1, 10, 10, 10, 1, 1, 1, 0) == Vec3(-5.0, 0.0, -5.0)
    ensures ChunkOrigin(3, 2, 1, 10, 10, 10, 1, 1, 1, 0) == Vec3(-7.0, -2.0, -7.0)
  {
  }

  /** The marching-cubes plugin applied to the grid of the chunk at a given position. The grid
      is fixed by the position (given the noise, the sizes and the surface level), so the
      plugin's answer is modelled as a function of the chunk position. */
  type Extractor = Vec3 -> Option<MeshData>

  /** The smoothed grid of the chunk holds, at every interior cell, the mean of the densities
      around it, and zero elsewhere. */
  ghost predicate VoxelsFrom(c: Chunk, noise: Noise)
    reads c, c.voxels
  {
    forall a, b, d :: InGrid(c.voxels, a, b, d) ==>
      c.voxels[a, b, d] == if SmoothInterior(c.voxels, a, b, d) then SmoothedDensity(noise, c.pos, c.surfaceLevel, a, b, d)
                           else 0.0
  }

  /** Every normal of the chunk's fresh normal grid is the normalized gradient of its smoothed
      grid where the stencil fits and zero elsewhere, and that gradient never points down (the
      normal itself only under an assumption on Normalize, see NormalsPointUp). */
  ghost predicate NormalsFromGradient(c: Chunk, normalize: Normalizer)
    reads c, c.voxels, c.normals
  {
    && c.Valid()
    && c.normals != null
    && (forall a, b, d :: InGrid(c.normals, a, b, d) ==>
          c.normals[a, b, d] == if NormalInterior(c.voxels, a, b, d) then normalize(Gradient(c.voxels, a, b, d)) else Zero)
    && (forall a, b, d :: NormalInterior(c.voxels, a, b, d) ==> 0.0 <= Gradient(c.voxels, a, b, d).y)
  }

  /** The chunk's mesh is what CreateMesh makes of the plugin's answer for its position: none
      for a null mesh, otherwise the plugin's vertices, each with the trilinear resample of the
      normal grid and the control colour of that normal, placed at the chunk origin. */
  ghost predicate MeshFrom(c: Chunk, extract: Extractor)
    reads c, c.normals
  {
    match extract(c.pos)
    case None => c.mesh == None
    case Some(m) =>
      && c.normals != null
      && c.mesh.Some?
      && c.mesh.value.vertices == m.vertices
      && c.mesh.value.position == c.pos
      && |c.mesh.value.normals| == |m.vertices|
      && |c.mesh.value.colors| == |m.vertices|
      && forall i :: 0 <= i < |m.vertices| ==>
           && CanResample(c.normals, m.vertices[i])
           && c.mesh.value.normals[i] == TriLinear(c.normals, m.vertices[i])
           && c.mesh.value.colors[i] == Classify(c.mesh.value.normals[i])
  }

  /** With a Normalize that keeps upward vectors upward, no normal of a built chunk points
      down. */
  lemma NormalsPointUp(c: Chunk, normalize: Normalizer)
    requires NormalsFromGradient(c, normalize)
    requires NormalizeKeepsUp(normalize)
    ensures forall a, b, d :: InGrid(c.normals, a, b, d) ==> 0.0 <= c.normals[a, b, d].y
  {
    forall a, b, d | InGrid(c.normals, a, b, d)
      ensures 0.0 <= c.normals[a, b, d].y
    {
      if NormalInterior(c.voxels, a, b, d) {
        assert 0.0 <= Gradient(c.voxels, a, b, d).y;
      }
    }
  }

  /** Two grids of the same shape that agree on every cell interior to both, with g shifted by
      w along x, have the same gradient at (w + 2, b, d) of g and (2, b, d) of h. */
  lemma GradientShiftX(g: array3<real>, h: array3<real>, w: int, b: int, d: int)
    requires g.Length0 == h.Length0 == w + Padding && g.Length1 == h.Length1 && g.Length2 == h.Length2
    requires 0 <= w && NormalInterior(g, w + 2, b, d)
    requires forall a, y, z :: SmoothInterior(g, a + w, y, z) && SmoothInterior(h, a, y, z) ==> g[a + w, y, z] == h[a, y, z]
    ensures NormalInterior(h, 2, b, d)
    ensures Gradient(g, w + 2, b, d) == Gradient(h, 2, b, d)
  {
    assert g[3 + w, b, d] == h[3, b, d] && g[1 + w, b, d] == h[1, b, d];
    assert g[2 + w, b - 1, d] == h[2, b - 1, d] && g[2 + w, b + 1, d] == h[2, b + 1, d];
    assert g[2 + w, b, d - 1] == h[2, b, d - 1] && g[2 + w, b, d + 1] == h[2, b, d + 1];
  }

  /** The same with the shift along y. */
  lemma GradientShiftY(g: array3<real>, h: array3<real>, w: int, a: int, d: int)
    requires g.Length1 == h.Length1 == w + Padding && g.Length0 == h.Length0 && g.Length2 == h.Length2
    requires 0 <= w && NormalInterior(g, a, w + 2, d)
    requires forall x, y, z :: SmoothInterior(g, x, y + w, z) && SmoothInterior(h, x, y, z) ==> g[x, y + w, z] == h[x, y, z]
    ensures NormalInterior(h, a, 2, d)
    ensures Gradient(g, a, w + 2, d) == Gradient(h, a, 2, d)
  {
    assert g[a, 3 + w, d] == h[a, 3, d] && g[a, 1 + w, d] == h[a, 1, d];
    assert g[a - 1, 2 + w, d] == h[a - 1, 2, d] && g[a + 1, 2 + w, d] == h[a + 1, 2, d];
    assert g[a, 2 + w, d - 1] == h[a, 2, d - 1] && g[a, 2 + w, d + 1] == h[a, 2, d + 1];
  }

  /** The same with the shift along z. */
  lemma GradientShiftZ(g: array3<real>, h: array3<real>, w: int, a: int, b: int)
    requires g.Length2 == h.Length2 == w + Padding && g.Length0 == h.Length0 && g.Length1 == h.Length1
    requires 0 <= w && NormalInterior(g, a, b, w + 2)
    requires forall x, y, z :: SmoothInterior(g, x, y, z + w) && SmoothInterior(h, x, y, z) ==> g[x, y, z + w] == h[x, y, z]
    ensures NormalInterior(h, a, b, 2)
    ensures Gradient(g, a, b, w + 2) == Gradient(h, a, b, 2)
  {
    assert g[a, b, 3 + w] == h[a, b, 3] && g[a, b, 1 + w] == h[a, b, 1];
    assert g[a - 1, b, 2 + w] == h[a - 1, b, 2] && g[a + 1, b, 2 + w] == h[a + 1, b, 2];
    assert g[a, b - 1, 2 + w] == h[a, b - 1, 2] && g[a, b + 1, 2 + w] == h[a, b + 1, 2];
  }

  /** Where the stencil fits, the stored normal is the normalized gradient. */
  lemma StoredNormal(c: Chunk, normalize: Normalizer, a: int, b: int, d: int)
    requires NormalsFromGradient(c, normalize)
    requires NormalInterior(c.voxels, a, b, d)
    ensures InGrid(c.normals, a, b, d)
    ensures c.normals[a, b, d] == normalize(Gradient(c.voxels, a, b, d))
  {
  }

  class Terrain {
    var chunksX: int
    var chunksY: int
    var chunksZ: int
    var voxelWidth: int
    var voxelHeight: int
    var voxelLength: int
    var chunksAbove0: int
    var surfaceLevel: real
    /** m_Chunk: null until Start runs. */
    var chunks: array3?<Chunk?>

    /** The inspector defaults: 5 x 2 x 5 chunks of 25^3 voxels, one row above ground, surface
        level 0. */
    constructor ()
      ensures chunksX == 5 && chunksY == 2 && chunksZ == 5
      ensures voxelWidth == 25 && voxelHeight == 25 && voxelLength == 25
      ensures chunksAbove0 == 1 && surfaceLevel == 0.0
      ensures chunks == null
    {
      chunksX, chunksY, chunksZ := 5, 2, 5;
      voxelWidth, voxelHeight, voxelLength := 25, 25, 25;
      chunksAbove0 := 1;
      surfaceLevel := 0.0;
      chunks := null;
    }

    /** The chunk at (i, j, k) has been built: it sits at its lattice position, ran the four
        pipeline steps in order, and owns a padded grid of the configured size. */
    ghost predicate Built(c: Chunk?, i: int, j: int, k: int)
      reads this, c
    {
      && c != null
      && c.Valid()
      && c.pos == Sub(ChunkPosition(chunksX, chunksY, chunksZ, voxelWidth, voxelHeight, voxelLength,
                                    chunksAbove0, i, j, k), Vec3(Border, Border, Border))
      && c.surfaceLevel == surfaceLevel
      && c.log == [VoxelsCreated, VoxelsSmoothed, NormalsCalculated, MeshCreated]
      && c.voxels.Length0 == voxelWidth + Padding
      && c.voxels.Length1 == voxelHeight + Padding
      && c.voxels.Length2 == voxelLength + Padding
      && c.normals != null
    }

    /** The chunk at (i, j, k) has been built from the given noise, Normalize and plugin: its
        smoothed grid, its normal grid and its mesh are what the pipeline computes from them. */
    ghost predicate Finished(c: Chunk?, i: int, j: int, k: int, noise: Noise, normalize: Normalizer, extract: Extractor)
      reads this, c, (if c == null then {} else {c.voxels}), (if c == null || c.normals == null then {} else {c.normals})
    {
      && Built(c, i, j, k)
      && VoxelsFrom(c, noise)
      && NormalsFromGradient(c, normalize)
      && MeshFrom(c, extract)
    }

    /** Where the padded grids of a built chunk and of its neighbour along x overlap, every
        cell that is interior in both grids holds the same smoothed value in both. These are
        the cells width+1..width+3 of chunk i and 1..3 of chunk i+1. */
    lemma GridsAgreeAtSeamX(noise: Noise, c: Chunk, cx: Chunk, i: int, j: int, k: int, a: int, b: int, d: int)
      requires Built(c, i, j, k) && VoxelsFrom(c, noise)
      requires Built(cx, i + 1, j, k) && VoxelsFrom(cx, noise)
      requires SmoothInterior(c.voxels, a + voxelWidth, b, d) && SmoothInterior(cx.voxels, a, b, d)
      ensures c.voxels[a + voxelWidth, b, d] == cx.voxels[a, b, d]
    {
      SeamsAgree(noise, surfaceLevel, chunksX, chunksY, chunksZ, voxelWidth, voxelHeight, voxelLength, chunksAbove0,
                 i, j, k, a, b, d);
      assert InGrid(c.voxels, a + voxelWidth, b, d) && InGrid(cx.voxels, a, b, d);
    }

    /** The same along y, between the chunk at row j and the one above it at row j+1. */
    lemma GridsAgreeAtSeamY(noise: Noise, c: Chunk, cy: Chunk, i: int, j: int, k: int, a: int, b: int, d: int)
      requires Built(c, i, j, k) && VoxelsFrom(c, noise)
      requires Built(cy, i, j + 1, k) && VoxelsFrom(cy, noise)
      requires SmoothInterior(c.voxels, a, b + voxelHeight, d) && SmoothInterior(cy.voxels, a, b, d)
      ensures c.voxels[a, b + voxelHeight, d] == cy.voxels[a, b, d]
    {
      SeamsAgree(noise, surfaceLevel, chunksX, chunksY, chunksZ, voxelWidth, voxelHeight, voxelLength, chunksAbove0,
                 i, j, k, a, b, d);
      assert InGrid(c.voxels, a, b + voxelHeight, d) && InGrid(cy.voxels, a, b, d);
    }

    /** The same along z, between the chunk at column k and the one at column k+1. */
    lemma GridsAgreeAtSeamZ(noise: Noise, c: Chunk, cz: Chunk, i: int, j: int, k: int, a: int, b: int, d: int)
      requires Built(c, i, j, k) && VoxelsFrom(c, noise)
      requires Built(cz, i, j, k + 1) && VoxelsFrom(cz, noise)
      requires SmoothInterior(c.voxels, a, b, d + voxelLength) && SmoothInterior(cz.voxels, a, b, d)
      ensures c.voxels[a, b, d + voxelLength] == cz.voxels[a, b, d]
    {
      SeamsAgree(noise, surfaceLevel, chunksX, chunksY, chunksZ, voxelWidth, voxelHeight, voxelLength, chunksAbove0,
                 i, j, k, a, b, d);
      assert InGrid(c.voxels, a, b, d + voxelLength) && InGrid(cz.voxels, a, b, d);
    }

    /** GridsAgreeAtSeamX for every overlapping cell at once. */
    lemma VoxelSeamX(noise: Noise, c: Chunk, cx: Chunk, i: int, j: int, k: int)
      requires Built(c, i, j, k) && VoxelsFrom(c, noise)
      requires Built(cx, i + 1, j, k) && VoxelsFrom(cx, noise)
      ensures forall a, y, z :: SmoothInterior(c.voxels, a + voxelWidth, y, z) && SmoothInterior(cx.voxels, a, y, z) ==>
                c.voxels[a + voxelWidth, y, z] == cx.voxels[a, y, z]
    {
      forall a, y, z | SmoothInterior(c.voxels, a + voxelWidth, y, z) && SmoothInterior(cx.voxels, a, y, z)
        ensures c.voxels[a + voxelWidth, y, z] == cx.voxels[a, y, z]
      {
        GridsAgreeAtSeamX(noise, c, cx, i, j, k, a, y, z);
      }
    }

    /** Two built neighbours along x have the same gradient on the plane they share: cell
        width+2 of chunk i and cell 2 of chunk i+1, the one x-index at which both normal loops
        write. The six stencil cells agree by the density seam. */
    lemma GradientsAgreeAtSeamX(noise: Noise, c: Chunk, cx: Chunk, i: int, j: int, k: int, b: int, d: int)
      requires Built(c, i, j, k) && VoxelsFrom(c, noise)
      requires Built(cx, i + 1, j, k) && VoxelsFrom(cx, noise)
      requires 0 <= voxelWidth
      requires NormalInterior(c.voxels, voxelWidth + 2, b, d)
      ensures NormalInterior(cx.voxels, 2, b, d)
      ensures Gradient(c.voxels, voxelWidth + 2, b, d) == Gradient(cx.voxels, 2, b, d)
    {
      VoxelSeamX(noise, c, cx, i, j, k);
      GradientShiftX(c.voxels, cx.voxels, voxelWidth, b, d);
    }

    /** GridsAgreeAtSeamY for every overlapping cell at once. */
    lemma VoxelSeamY(noise: Noise, c: Chunk, cy: Chunk, i: int, j: int, k: int)
      requires Built(c, i, j, k) && VoxelsFrom(c, noise)
      requires Built(cy, i, j + 1, k) && VoxelsFrom(cy, noise)
      ensures forall x, y, z :: SmoothInterior(c.voxels, x, y + voxelHeight, z) && SmoothInterior(cy.voxels, x, y, z) ==>
                c.voxels[x, y + voxelHeight, z] == cy.voxels[x, y, z]
    {
      forall x, y, z | SmoothInterior(c.voxels, x, y + voxelHeight, z) && SmoothInterior(cy.voxels, x, y, z)
        ensures c.voxels[x, y + voxelHeight, z] == cy.voxels[x, y, z]
      {
        GridsAgreeAtSeamY(noise, c, cy, i, j, k, x, y, z);
      }
    }

    /** The same along y: cell height+2 of row j and cell 2 of row j+1. */
    lemma GradientsAgreeAtSeamY(noise: Noise, c: Chunk, cy: Chunk, i: int, j: int, k: int, a: int, d: int)
      requires Built(c, i, j, k) && VoxelsFrom(c, noise)
      requires Built(cy, i, j + 1, k) && VoxelsFrom(cy, noise)
      requires 0 <= voxelHeight
      requires NormalInterior(c.voxels, a, voxelHeight + 2, d)
      ensures NormalInterior(cy.voxels, a, 2, d)
      ensures Gradient(c.voxels, a, voxelHeight + 2, d) == Gradient(cy.voxels, a, 2, d)
    {
      VoxelSeamY(noise, c, cy, i, j, k);
      GradientShiftY(c.voxels, cy.voxels, voxelHeight, a, d);
    }

    /** GridsAgreeAtSeamZ for every overlapping cell at once. */
    lemma VoxelSeamZ(noise: Noise, c: Chunk, cz: Chunk, i: int, j: int, k: int)
      requires Built(c, i, j, k) && VoxelsFrom(c, noise)
      requires Built(cz, i, j, k + 1) && VoxelsFrom(cz, noise)
      ensures forall x, y, z :: SmoothInterior(c.voxels, x, y, z + voxelLength) && SmoothInterior(cz.voxels, x, y, z) ==>
                c.voxels[x, y, z + voxelLength] == cz.voxels[x, y, z]
    {
      forall x, y, z | SmoothInterior(c.voxels, x, y, z + voxelLength) && SmoothInterior(cz.voxels, x, y, z)
        ensures c.voxels[x, y, z + voxelLength] == cz.voxels[x, y, z]
      {
        GridsAgreeAtSeamZ(noise, c, cz, i, j, k, x, y, z);
      }
    }

    /** The same along z: cell length+2 of column k and cell 2 of column k+1. */
    lemma GradientsAgreeAtSeamZ(noise: Noise, c: Chunk, cz: Chunk, i: int, j: int, k: int, a: int, b: int)
      requires Built(c, i, j, k) && VoxelsFrom(c, noise)
      requires Built(cz, i, j, k + 1) && VoxelsFrom(cz, noise)
      requires 0 <= voxelLength
      requires NormalInterior(c.voxels, a, b, voxelLength + 2)
      ensures NormalInterior(cz.voxels, a, b, 2)
      ensures Gradient(c.voxels, a, b, voxelLength + 2) == Gradient(cz.voxels, a, b, 2)
    {
      VoxelSeamZ(noise, c, cz, i, j, k);
      GradientShiftZ(c.voxels, cz.voxels, voxelLength, a, b);
    }

    /** Two finished neighbours along x store the same normal on the plane they share, so the
        resampled normals on both sides of the seam are blended from the same values. */
    lemma NormalsAgreeAtSeamX(noise: Noise, normalize: Normalizer, extract: Extractor, c: Chunk, cx: Chunk,
                              i: int, j: int, k: int, b: int, d: int)
      requires Finished(c, i, j, k, noise, normalize, extract)
      requires Finished(cx, i + 1, j, k, noise, normalize, extract)
      requires 0 <= voxelWidth
      requires NormalInterior(c.voxels, voxelWidth + 2, b, d)
      ensures NormalInterior(cx.voxels, 2, b, d)
      ensures c.normals[voxelWidth + 2, b, d] == cx.normals[2, b, d]
    {
      GradientsAgreeAtSeamX(noise, c, cx, i, j, k, b, d);
      StoredNormal(c, normalize, voxelWidth + 2, b, d);
      StoredNormal(cx, normalize, 2, b, d);
    }

    /** The same along y. */
    lemma NormalsAgreeAtSeamY(noise: Noise, normalize: Normalizer, extract: Extractor, c: Chunk, cy: Chunk,
                              i: int, j: int, k: int, a: int, d: int)
      requires Finished(c, i, j, k, noise, normalize, extract)
      requires Finished(cy, i, j + 1, k, noise, normalize, extract)
      requires 0 <= voxelHeight
      requires NormalInterior(c.voxels, a, voxelHeight + 2, d)
      ensures NormalInterior(cy.voxels, a, 2, d)
      ensures c.normals[a, voxelHeight + 2, d] == cy.normals[a, 2, d]
    {
      GradientsAgreeAtSeamY(noise, c, cy, i, j, k, a, d);
      StoredNormal(c, normalize, a, voxelHeight + 2, d);
      StoredNormal(cy, normalize, a, 2, d);
    }

    /** The same along z. */
    lemma NormalsAgreeAtSeamZ(noise: Noise, normalize: Normalizer, extract: Extractor, c: Chunk, cz: Chunk,
                              i: int, j: int, k: int, a: int, b: int)
      requires Finished(c, i, j, k, noise, normalize, extract)
      requires Finished(cz, i, j, k + 1, noise, normalize, extract)
      requires 0 <= voxelLength
      requires NormalInterior(c.voxels, a, b, voxelLength + 2)
      ensures NormalInterior(cz.voxels, a, b, 2)
      ensures c.normals[a, b, voxelLength + 2] == cz.normals[a, b, 2]
    {
      GradientsAgreeAtSeamZ(noise, c, cz, i, j, k, a, b);
      StoredNormal(c, normalize, a, b, voxelLength + 2);
      StoredNormal(cz, normalize, a, b, 2);
    }

    /** The body of Start's loops: the chunk at lattice index (x, y, z), through the whole
        pipeline. */
    method BuildChunk(noise: Noise, normalize: Normalizer, extract: Extractor, offset: Vec3,
                      x: int, y: int, z: int) returns (c: Chunk)
      requires offset == LatticeOffset(chunksX, chunksY, chunksZ, voxelWidth, voxelHeight, voxelLength, chunksAbove0)
      requires 0 <= voxelWidth + Padding && 0 <= voxelHeight + Padding && 0 <= voxelLength + Padding
      requires forall p :: MeshFits(extract(p), voxelWidth + Padding, voxelHeight + Padding, voxelLength + Padding)
      ensures fresh(c) && Finished(c, x, y, z, noise, normalize, extract)
    {
      c := FillChunk(noise, offset, x, y, z);
      c.CalculateNormals(normalize);
      c.CreateMesh(extract(c.pos));
    }

    /** The first half of Start's loop body: the chunk at lattice index (x, y, z), filled from
        the noise and smoothed. */
    method FillChunk(noise: Noise, offset: Vec3, x: int, y: int, z: int) returns (c: Chunk)
      requires offset == LatticeOffset(chunksX, chunksY, chunksZ, voxelWidth, voxelHeight, voxelLength, chunksAbove0)
      requires 0 <= voxelWidth + Padding && 0 <= voxelHeight + Padding && 0 <= voxelLength + Padding
      ensures fresh(c) && c.Valid() && c.normals == null && c.mesh == None
      ensures c.pos == Sub(ChunkPosition(chunksX, chunksY, chunksZ, voxelWidth, voxelHeight, voxelLength,
                                         chunksAbove0, x, y, z), Vec3(Border, Border, Border))
      ensures c.surfaceLevel == surfaceLevel
      ensures c.log == [VoxelsCreated, VoxelsSmoothed]
      ensures c.voxels.Length0 == voxelWidth + Padding
      ensures c.voxels.Length1 == voxelHeight + Padding
      ensures c.voxels.Length2 == voxelLength + Padding
      ensures VoxelsFrom(c, noise)
      ensures forall a, b, d :: NormalInterior(c.voxels, a, b, d) ==> 0.0 <= Gradient(c.voxels, a, b, d).y
    {
      var pos := Vec3((x * voxelWidth) as real, (y * voxelHeight) as real, (z * voxelLength) as real);
      c := new Chunk(Add(pos, offset), voxelWidth, voxelHeight, voxelLength, surfaceLevel);
      c.CreateVoxels(noise);
      var src := c.voxels;
      c.SmoothVoxels();
      SmoothedFilledGrid(src, c.voxels, noise, c.pos, c.surfaceLevel);
    }

    /** The innermost loop of Start: builds the chunks (x, y, 0..chunksZ-1) into cs and
        leaves every other cell of cs as it was. */
    method BuildRow(cs: array3<Chunk?>, noise: Noise, normalize: Normalizer, extract: Extractor, offset: Vec3,
                    x: int, y: int)
      requires cs.Length2 == chunksZ && 0 <= x < cs.Length0 && 0 <= y < cs.Length1
      requires offset == LatticeOffset(chunksX, chunksY, chunksZ, voxelWidth, voxelHeight, voxelLength, chunksAbove0)
      requires 0 <= voxelWidth + Padding && 0 <= voxelHeight + Padding && 0 <= voxelLength + Padding
      requires forall p :: MeshFits(extract(p), voxelWidth + Padding, voxelHeight + Padding, voxelLength + Padding)
      modifies cs
      ensures forall a, b, c :: 0 <= a < cs.Length0 && 0 <= b < cs.Length1 && 0 <= c < cs.Length2 && !(a == x && b == y) ==>
                cs[a, b, c] == old(cs[a, b, c])
      ensures forall c :: 0 <= c < chunksZ ==>
                Finished(cs[x, y, c], x, y, c, noise, normalize, extract) && fresh(cs[x, y, c])
    {
      var z := 0;
      while z < chunksZ
        invariant 0 <= z <= chunksZ
        invariant forall a, b, c :: 0 <= a < cs.Length0 && 0 <= b < cs.Length1 && 0 <= c < cs.Length2 && !(a == x && b == y) ==>
                    cs[a, b, c] == old(cs[a, b, c])
        invariant forall c :: 0 <= c < z ==>
                    Finished(cs[x, y, c], x, y, c, noise, normalize, extract) && fresh(cs[x, y, c])
      {
        var c := BuildChunk(noise, normalize, extract, offset, x, y, z);
        cs[x, y, z] := c;
        z := z + 1;
      }
    }

    /** Allocates the chunk array and builds every chunk in x, y, z order: construct it at its
        lattice position, fill it from the noise, smooth it, compute its normals and build its
        mesh. */
    method Start(noise: Noise, normalize: Normalizer, extract: Extractor)
      requires 0 <= chunksX && 0 <= chunksY && 0 <= chunksZ
      requires 0 <= voxelWidth + Padding && 0 <= voxelHeight + Padding && 0 <= voxelLength + Padding
      requires forall p :: MeshFits(extract(p), voxelWidth + Padding, voxelHeight + Padding, voxelLength + Padding)
      modifies this`chunks
      ensures chunks != null && fresh(chunks)
      ensures chunks.Length0 == chunksX && chunks.Length1 == chunksY && chunks.Length2 == chunksZ
      ensures forall i, j, k :: 0 <= i < chunksX && 0 <= j < chunksY && 0 <= k < chunksZ ==>
                Finished(chunks[i, j, k], i, j, k, noise, normalize, extract) && fresh(chunks[i, j, k])
    {
      var cs := new Chunk?[chunksX, chunksY, chunksZ]((_, _, _) => null);
      chunks := cs;
      var offset := LatticeOffset(chunksX, chunksY, chunksZ, voxelWidth, voxelHeight, voxelLength, chunksAbove0);
      var x := 0;
      while x < chunksX
        modifies cs
        invariant 0 <= x <= chunksX
        invariant forall a, b, c :: 0 <= a < x && 0 <= b < chunksY && 0 <= c < chunksZ ==>
                    Finished(cs[a, b, c], a, b, c, noise, normalize, extract) && fresh(cs[a, b, c])
      {
        var y := 0;
        while y < chunksY
          modifies cs
          invariant 0 <= y <= chunksY
          invariant forall a, b, c :: (0 <= a < chunksX && 0 <= b < chunksY && 0 <= c < chunksZ
                      && (a < x || (a == x && b < y))) ==>
                      Finished(cs[a, b, c], a, b, c, noise, normalize, extract) && fresh(cs[a, b, c])
        {
          BuildRow(cs, noise, normalize, extract, offset, x, y);
          y := y + 1;
        }
        x := x + 1;
      }
    }
  }
}
