# Voxel terrain chunks, modelled in Dafny

This project models the core of a Unity voxel terrain generator. The world is a lattice of
chunks. Each chunk owns a padded 3D density grid and runs a fixed pipeline:

1. fill the grid from fractal noise: a ground layer plus a domain-warped mountain layer,
   clamped to [-1, 1];
2. smooth the grid with a 27-point box filter driven by a fixed offset table;
3. compute a normal field by central differences;
4. give each mesh vertex a normal, trilinearly resampled from that field, and a texture
   control colour chosen by how flat the vertex is.

The driver places the chunks so that the lattice is centred on x and z, with a configurable
number of chunk rows above y = 0.

Modules:

- `Numerics`: the Mathf helpers and the C# `(int)` cast, which is truncation toward zero.
- `Vectors`: Vector3 over reals.
- `DensityField`: the noise layers and the per-cell density, as functions of world position.
- `Smoothing`: the offset table and the neighbourhood mean.
- `Normals`: the gradient stencil and trilinear resampling.
- `Blend`: the control colour.
- `Chunks`: the `Chunk` class and its four pipeline methods, over `array3` grids.
- `Lattice`: the chunk placement arithmetic and the `Terrain` class with `Start`.

Modelling choices:

- Scalars are mathematical reals.
- The noise source is an arbitrary total function, `Noise`.
- `Vector3.Normalize` is a function parameter. Some lemmas add a contract for it: zero maps to
  zero, and every result has unit length or is zero.
- The marching-cubes plugin's answer is a parameter: `None` for a null mesh, otherwise the
  vertex positions plus the normals `RecalculateNormals` would give.
- A ghost `log` in each chunk records the order in which its pipeline methods ran.

## Model

| member | source | states |
|---|---|---|
| Numerics.Clamp | terrain/Scriptsplugin/Chunk.cs:92-102 | The result lies in [lo, hi]. It equals v inside the range, lo at or below it, and hi at or above it. |
| Numerics.ClampIdempotent | terrain/Scriptsplugin/Chunk.cs:102 | The second clamp of CreateVoxels changes nothing. |
| Numerics.ClampMonotone | terrain/Scriptsplugin/Chunk.cs:92 | Clamping preserves the order of its inputs. |
| Numerics.ClampSign | terrain/Scriptsplugin/Chunk.cs:90-92 | Clamping to a range around zero keeps the sign of its input, as an iff for negative, zero and positive. |
| Numerics.Min | terrain/Scriptsplugin/Chunk.cs:49 | The result is one of the arguments and no larger than either. |
| Numerics.Max | terrain/Scriptsplugin/Chunk.cs:238 | The result is one of the arguments and no smaller than either. |
| Numerics.Abs | terrain/Scriptsplugin/Chunk.cs:240 | The result is non-negative and is a or -a. |
| Numerics.Square | terrain/Scriptsplugin/Chunk.cs:240 | Pow(x, 2) is non-negative, and at most 1 for x in [-1, 1]. |
| Numerics.Trunc | terrain/Scriptsplugin/Chunk.cs:179-181 | The (int) cast rounds toward zero: the floor for non-negative values and the ceiling for negative ones. |
| Vectors.Lerp | terrain/Scriptsplugin/Chunk.cs:187-196 | Blending at t = 0 gives a, at t = 1 gives b, and at t = 0.5 gives their midpoint. |
| DensityField.SampleGround | terrain/Scriptsplugin/Chunk.cs:52-58 | The ground layer: four octaves of the fractal noise at frequency 80 and amplitude 8, taken at the world (x, z). Its properties are stated by ColumnHeight and MountainsOnlyRaise. |
| DensityField.SampleMountains | terrain/Scriptsplugin/Chunk.cs:40-50 | The mountain term is at most 0 whatever the noise returns. It equals the warped noise where that noise is non-positive, and 0 otherwise. |
| DensityField.ColumnHeight | terrain/Scriptsplugin/Chunk.cs:80-84 | The column height never exceeds the ground layer alone. |
| DensityField.WorldY | terrain/Scriptsplugin/Chunk.cs:88 | The world y of a grid row, shifted down by the surface level. Its property is stated by DensityMonotoneInY and DensitySign. |
| DensityField.Density | terrain/Scriptsplugin/Chunk.cs:77-102 | The stored density lies in [-1, 1]. It equals height + world y inside that range, -1 below it and 1 above it. |
| DensityField.DensityMonotoneInY | terrain/Scriptsplugin/Chunk.cs:80-92 | The height is shared by a whole column, so density never decreases going up a column. |
| DensityField.DensitySign | terrain/Scriptsplugin/Chunk.cs:88-92 | A cell is solid (negative) exactly when height + world y < 0, and on the surface exactly when that sum is 0. |
| DensityField.MountainsOnlyRaise | terrain/Scriptsplugin/Chunk.cs:40-92 | Mountains only add solid matter: the density is at most the one the ground layer alone gives. |
| DensityField.DensityDependsOnWorldPosition | terrain/Scriptsplugin/Chunk.cs:76-88 | Two cells at the same world point hold the same density, whichever chunk they belong to. |
| DensityField.FlatWorld | terrain/Scriptsplugin/Chunk.cs:77-92 | With zero noise and surface level 0, the density is clamp(world y), a flat surface at y = 0. |
| Smoothing.SamplerIndex | terrain/Scriptsplugin/Chunk.cs:13-18 | The table has 27 rows, and IndexOf inverts it in both directions. |
| Smoothing.SamplerCovers | terrain/Scriptsplugin/Chunk.cs:13-18 | The rows cover {-1,0,1}^3 and are pairwise distinct, so the filter visits each neighbour exactly once. |
| Smoothing.SumOffsets | terrain/Scriptsplugin/Chunk.cs:129-132 | The running total of the accumulation loop after its first n table rows. Its properties are stated by SumOffsetsBounds, SumOffsetsConstant and SumOffsetsMonotoneY. |
| Smoothing.Mean27 | terrain/Scriptsplugin/Chunk.cs:129-134 | The value the smoothing loop stores in an interior cell: the 27-row total divided by 27. Its properties are stated by SmoothInRange, SmoothConstant and SmoothMonotoneY. |
| Smoothing.SumOffsetsBounds | terrain/Scriptsplugin/Chunk.cs:129-132 | After n rows of in-range inputs, the running total lies in [-n, n]. |
| Smoothing.SmoothInRange | terrain/Scriptsplugin/Chunk.cs:129-134 | The mean of a neighbourhood in [-1, 1] lies in [-1, 1]. |
| Smoothing.SumOffsetsConstant | terrain/Scriptsplugin/Chunk.cs:129-132 | When every table neighbour holds c, the running total after n rows is n * c. |
| Smoothing.SmoothConstant | terrain/Scriptsplugin/Chunk.cs:115-134 | The filter leaves a locally constant field unchanged, so it is a true mean. |
| Smoothing.SumOffsetsMonotoneY | terrain/Scriptsplugin/Chunk.cs:129-132 | On rising columns, the running total around a cell is at most the total around the cell above it. |
| Smoothing.SmoothMonotoneY | terrain/Scriptsplugin/Chunk.cs:123-134 | Smoothing keeps columns non-decreasing between interior cells. |
| Normals.Gradient | terrain/Scriptsplugin/Chunk.cs:164-166 | The central differences along x, y and z. Its properties are stated by GradientBounded and GradientPointsUp. |
| Normals.NormalStencilInBounds | terrain/Scriptsplugin/Chunk.cs:158-166 | Every cell the normal loop writes has its six stencil neighbours inside the region the smoothing loop wrote. |
| Normals.GradientBounded | terrain/Scriptsplugin/Chunk.cs:164-166 | Over a field in [-1, 1], each difference lies in [-2, 2]. |
| Normals.GradientPointsUp | terrain/Scriptsplugin/Chunk.cs:148-166 | Where a column rises, the vertical component of the gradient is non-negative, so no sign flip is needed. |
| Normals.ZeroGradientZeroNormal | terrain/Scriptsplugin/Chunk.cs:164-168 | A zero gradient gives the zero normal, given only that Normalize maps zero to zero. |
| Normals.Frac | terrain/Scriptsplugin/Chunk.cs:183-185 | The fraction lies in [0, 1) for a non-negative position, and is 0 at an integer one. |
| Normals.BlendCorners | terrain/Scriptsplugin/Chunk.cs:187-196 | The four blends along x, two along z and one along y of TriLinearInterpNormal. Its meaning is stated by BlendIsWeightedSum. |
| Normals.TriLinear | terrain/Scriptsplugin/Chunk.cs:177-197 | Each component of the resampled normal is the weighted sum of the eight corner cells around the truncated position, with the trilinear weights of the fractional parts. |
| Normals.TriLinearAtGridPoint | terrain/Scriptsplugin/Chunk.cs:177-197 | At an integer position the resampler returns exactly the stored normal. |
| Normals.WeightsSumToOne | terrain/Scriptsplugin/Chunk.cs:183-196 | The eight trilinear weights sum to 1. |
| Normals.LerpComp | terrain/Scriptsplugin/Chunk.cs:187 | A vector blend blends each component separately. |
| Normals.MixExpansion | terrain/Scriptsplugin/Chunk.cs:187-196 | Three nested scalar blends expand to the eight corners, each times the product of the blend factors on its path. |
| Normals.MixIsWeightedSum | terrain/Scriptsplugin/Chunk.cs:187-196 | Three nested scalar blends equal the weighted sum of the eight corners under the trilinear weights. |
| Normals.BlendIsWeightedSum | terrain/Scriptsplugin/Chunk.cs:187-196 | The x-then-z-then-y blend equals the weighted sum of the eight corners under the trilinear weights. |
| Normals.MixBetween | terrain/Scriptsplugin/Chunk.cs:187-196 | Blending with t in [0, 1] stays between the bounds of its two inputs. |
| Normals.LerpBounded | terrain/Scriptsplugin/Chunk.cs:187-196 | Blending with t in [0, 1] keeps each component within [-b, b]. |
| Normals.TriLinearBounded | terrain/Scriptsplugin/Chunk.cs:177-197 | At non-negative positions, the resampled normal stays within the bound of the grid's normals. |
| Normals.TriLinearAtCentre | terrain/Scriptsplugin/Chunk.cs:177-197 | At a cell centre each component is the mean of the eight corner components. |
| Blend.Classify | terrain/Scriptsplugin/Chunk.cs:235-244 | R is 0 or 1, with R = 1 iff max(0, up component) >= 0.8. G is the square of the up component. B and A are 0. |
| Blend.ClassifyDependsOnUp | terrain/Scriptsplugin/Chunk.cs:235 | The colour depends only on the normal's vertical component. |
| Blend.ClassifyChannelsInRange | terrain/Scriptsplugin/Chunk.cs:235-244 | For an up component in [-1, 1], R and G lie in [0, 1], and a red vertex has G >= 0.64. |
| Blend.ClassifyRedMonotone | terrain/Scriptsplugin/Chunk.cs:238 | Any normal at least as upright as a red one is red. |
| Blend.ClassifyExamples | terrain/Scriptsplugin/Chunk.cs:235-244 | Straight up gives (1,1,0,0), horizontal gives (0,0,0,0), and an up component of 0.9 gives R = 1, G = 0.81. |
| Chunks.FilledGridShape | terrain/Scriptsplugin/Chunk.cs:72-103 | A grid filled by CreateVoxels lies in [-1, 1] and its columns never decrease going up. |
| Chunks.SmoothedGradientPointsUp | terrain/Scriptsplugin/Chunk.cs:117-168 | After smoothing a grid whose columns rise, every gradient the normal loop computes points up or sideways, never down. |
| Chunks.FreshNormalsBounded | terrain/Scriptsplugin/Chunk.cs:156-168 | With a Normalize that returns unit or zero vectors, a freshly allocated normal grid has every component in [-1, 1]. |
| Chunks.ResampledColorInRange | terrain/Scriptsplugin/Chunk.cs:218-240 | Over such a grid, the control colour of a resampled vertex at a non-negative position has R and G in [0, 1]. |
| Chunks.DensitySum | terrain/Scriptsplugin/Chunk.cs:129-132 | The accumulation loop's running total written on the density field: the densities at the first n table offsets. Its properties are stated by DensitySumBounds and FilledSumIsDensitySum. |
| Chunks.DensitySumBounds | terrain/Scriptsplugin/Chunk.cs:129-132 | After n rows, the running total of densities lies in [-n, n]. |
| Chunks.SmoothedDensity | terrain/Scriptsplugin/Chunk.cs:129-134 | The value of an interior cell of a filled and smoothed chunk lies in [-1, 1]. |
| Chunks.FilledSumIsDensitySum | terrain/Scriptsplugin/Chunk.cs:77-132 | Over a grid that CreateVoxels filled, the smoothing loop's running total equals the sum of the densities at the same offsets. |
| Chunks.FilledMeanIsSmoothedDensity | terrain/Scriptsplugin/Chunk.cs:77-134 | Smoothing a filled grid stores SmoothedDensity at every interior cell. |
| Chunks.DensitySumDependsOnWorldPosition | terrain/Scriptsplugin/Chunk.cs:76-132 | Running totals of densities taken around the same world point agree, whichever grid they are taken in. |
| Chunks.SmoothedDensityDependsOnWorldPosition | terrain/Scriptsplugin/Chunk.cs:76-134 | Two interior cells at the same world point get the same smoothed value, whichever chunk they belong to. |
| Chunks.SmoothedFilledGrid | terrain/Scriptsplugin/Chunk.cs:60-168 | After CreateVoxels and SmoothVoxels, interior cells hold SmoothedDensity and all other cells hold 0. Every gradient the normal loop then takes points up or sideways. |
| Chunks.FillColumn | terrain/Scriptsplugin/Chunk.cs:77-103 | One (x, z) column: every row of the column receives the clamped density of its world position, and every other cell is unchanged. |
| Chunks.SmoothRow | terrain/Scriptsplugin/Chunk.cs:127-135 | The innermost smoothing loop writes the neighbourhood mean of the source grid into exactly the interior cells (x, y, 1..dim-2) of its row, and leaves every other cell unchanged. |
| Chunks.NeighbourhoodSum | terrain/Scriptsplugin/Chunk.cs:129-132 | The accumulation loop returns the sum of the 27 table neighbours of the cell. |
| Chunks.FillNormals | terrain/Scriptsplugin/Chunk.cs:158-171 | Every cell with all indices in [2, dim-3] gets the normalized gradient. Every other cell keeps its value. |
| Chunks.FillNormalRow | terrain/Scriptsplugin/Chunk.cs:162-169 | The innermost loop writes exactly the cells (x, y, 2..dim-3) of its row, and leaves every other cell unchanged. |
| Chunks.ResampleNormals | terrain/Scriptsplugin/Chunk.cs:206-221 | One normal per vertex, each the trilinear resample of the normal grid at that vertex. |
| Chunks.ControlMap | terrain/Scriptsplugin/Chunk.cs:228-245 | One control colour per vertex normal, each that normal's classification. |
| Chunks.Chunk.constructor | terrain/Scriptsplugin/Chunk.cs:20-31 | The grid has shape (width+5, height+5, length+5) and is all zero. The origin is the given position minus (2,2,2). There are no normals and no mesh yet. |
| Chunks.Chunk.CreateVoxels | terrain/Scriptsplugin/Chunk.cs:60-109 | Every cell ends up holding the clamped density of its world position. The grid object and its shape are kept. |
| Chunks.Chunk.SmoothVoxels | terrain/Scriptsplugin/Chunk.cs:111-142 | The grid is replaced by a fresh one of the same shape. Cells with every index in [1, dim-2] hold the mean of their 27 neighbours in the old grid. All other cells are 0. |
| Chunks.Chunk.CalculateNormals | terrain/Scriptsplugin/Chunk.cs:144-175 | Allocates the normal grid only if there is none. Cells with every index in [2, dim-3] get the normalized gradient. All other cells keep their value, or are zero on first allocation. The density grid is unchanged. |
| Chunks.Chunk.CreateMesh | terrain/Scriptsplugin/Chunk.cs:199-248 | A null mesh leaves the chunk's mesh unchanged. Otherwise each vertex gets the resampled normal, or the engine normal if there is no normal grid, and the classification of that normal as its colour. The mesh sits at the chunk origin. |
| Lattice.LatticeOffset | terrain/Scripts/Terrain.cs:31-33 | The offset is minus half the total extent on x and z, and minus the height of the chunk rows below ground on y. |
| Lattice.ChunkPosition | terrain/Scripts/Terrain.cs:42-44 | Chunk (i, j, k) sits (2i - chunksX) half-widths from the centre on x, and likewise on z. It sits (j - (chunksY - chunksAbove0)) chunk heights above y = 0. |
| Lattice.ChunkOrigin | terrain/Scriptsplugin/Chunk.cs:30 | The grid origin of the chunk at a lattice index: its position minus the (2, 2, 2) border. Its properties are stated by SeamsAgree and LatticeExample. |
| Lattice.LatticeExample | terrain/Scripts/Terrain.cs:33-44 | For 3x2x1 chunks of 10^3 voxels with one row above ground: offset (-15,-10,-5), chunk (1,1,0) at (-5,0,-5), its grid origin at (-7,-2,-7). |
| Lattice.LatticeCentred | terrain/Scripts/Terrain.cs:31-33 | The lattice is centred on x and z: chunks i and chunksX-1-i sit mirror-symmetrically about 0, and likewise on z. |
| Lattice.RowAboveZero | terrain/Scripts/Terrain.cs:31-33 | Chunk row j starts at y = 0 iff j = chunksY - chunksAbove0, and below 0 iff j is smaller. |
| Lattice.NeighbourSpacing | terrain/Scripts/Terrain.cs:42 | Neighbouring chunks are one chunk extent apart along each axis. |
| Lattice.ChunkPositionInjective | terrain/Scripts/Terrain.cs:35-44 | With positive extents, distinct lattice indices get distinct positions. |
| Lattice.SeamsAgree | terrain/Scriptsplugin/Chunk.cs:23-30 | Grid cell (a + width, b, c) of a chunk and grid cell (a, b, c) of its neighbour along x lie at the same world point, so the smoothed density function gives them the same value. Likewise along y and z. |
| Lattice.Terrain.constructor | terrain/Scripts/Terrain.cs:11-15 | The inspector defaults: 5x2x5 chunks of 25^3 voxels, one row above ground, surface level 0. |
| Lattice.NormalsPointUp | terrain/Scriptsplugin/Chunk.cs:148-168 | With a Normalize that keeps upward vectors upward, no normal of a built chunk points down. |
| Lattice.Terrain.GridsAgreeAtSeamX | terrain/Scriptsplugin/Chunk.cs:23-30 | Where the grids of a built chunk and its built neighbour along x overlap, every cell that is interior in both holds the same smoothed value. |
| Lattice.Terrain.GridsAgreeAtSeamY | terrain/Scriptsplugin/Chunk.cs:23-30 | The same for a built chunk and its built neighbour along y. |
| Lattice.Terrain.GridsAgreeAtSeamZ | terrain/Scriptsplugin/Chunk.cs:23-30 | The same for a built chunk and its built neighbour along z. |
| Lattice.Terrain.GradientsAgreeAtSeamX | terrain/Scriptsplugin/Chunk.cs:23-26 | Two built neighbours along x have the same density gradient on the plane they share (cell width+2 of one, cell 2 of the next), and that plane is inside both normal loops. |
| Lattice.Terrain.GradientsAgreeAtSeamY | terrain/Scriptsplugin/Chunk.cs:23-26 | The same for neighbours along y (cell height+2 and cell 2). |
| Lattice.Terrain.GradientsAgreeAtSeamZ | terrain/Scriptsplugin/Chunk.cs:23-26 | The same for neighbours along z (cell length+2 and cell 2). |
| Lattice.Terrain.NormalsAgreeAtSeamX | terrain/Scriptsplugin/Chunk.cs:23-26 | Two finished neighbours along x store the same normal on the plane they share, without either reading the other's grid. |
| Lattice.Terrain.NormalsAgreeAtSeamY | terrain/Scriptsplugin/Chunk.cs:23-26 | The same for finished neighbours along y. |
| Lattice.Terrain.NormalsAgreeAtSeamZ | terrain/Scriptsplugin/Chunk.cs:23-26 | The same for finished neighbours along z. |
| Lattice.Terrain.BuildChunk | terrain/Scripts/Terrain.cs:41-54 | A fresh chunk at its lattice position runs the four steps in order. Its interior cells hold the smoothed density of the given noise, and its border cells hold 0. Its normal grid holds the normalized gradient inside [2, dim-3] and zero elsewhere; the gradients (not the normals themselves, see NormalsPointUp) never point down. Its mesh is the plugin's vertices with the resampled normals and their control colours, or absent for a null mesh. |
| Lattice.Terrain.FillChunk | terrain/Scripts/Terrain.cs:42-49 | A fresh chunk at its lattice position has run CreateVoxels then SmoothVoxels. Its interior cells hold the smoothed density of the given noise, its border cells hold 0, and every gradient the normal loop will take points up or sideways. It has no normals and no mesh yet. |
| Lattice.Terrain.BuildRow | terrain/Scripts/Terrain.cs:39-55 | Every chunk of the row (x, y, 0..chunksZ-1) is fresh and finished at its index, as BuildChunk states: grid, normals and mesh. Every other cell of the array is untouched. |
| Lattice.Terrain.Start | terrain/Scripts/Terrain.cs:17-60 | A fresh array of shape chunksX x chunksY x chunksZ. Every cell holds a fresh chunk built at that index's lattice position, having run CreateVoxels, SmoothVoxels, CalculateNormals and CreateMesh in that order. Its grid, normals and mesh are as BuildChunk states: the smoothed density of the given noise, normals that are the normalized gradients, where those gradients never point down, and the resampled mesh. |

## Left out

- `MarchingCubes.CreateMesh` and its `Set*` configuration (Chunk.cs:203, Terrain.cs:24-26) are
  a foreign plugin. Their result is an input: a parameter of `CreateMesh`, and a function of
  the chunk position in `Start`. The grid a chunk holds is determined by that position.
- `PerlinNoise.FractalNoise2D` is external. It is an arbitrary total function, and the seeds
  (Terrain.cs:11, 20) are folded into it.
- `Vector3.Normalize` and `Mesh.RecalculateNormals` are engine routines. Normalize is a
  function parameter. Only the lemmas that need it assume that zero maps to zero and that
  results have unit length or are zero. `Mathf.Pow(x, 2)` is modelled as x * x.
- The Unity object graph is left out: GameObject, MeshFilter, MeshRenderer, MeshCollider,
  material and transform (Chunk.cs:250-258). The built mesh is kept as a value in the
  chunk's `mesh` field, positioned at the chunk origin.
- The unused cave code is left out: the `fade` value and the commented cave term
  (Chunk.cs:96-100), and the cave noise object (Terrain.cs:21). None of them affects a result.
- terrain/Scripts/Cam.cs is keyboard and camera handling.
- IEEE single-precision rounding is not modelled. Every equality holds over reals, not floats.
- Chunks.Chunk.constructor and Lattice.Terrain.Start: negative array sizes would throw in C#.
  The model requires non-negative sizes instead of modelling the exception.
- LatticeOffset and ChunkPosition: C# `int` products such as chunksX * voxelWidth would wrap
  on 32-bit overflow. The model uses unbounded integers.
- Chunks.Chunk.CreateMesh: reading `mesh.vertices` and `mesh.normals` in C# makes copies.
  The model works on sequences, so there is no aliasing to capture.
- Smoothing: `m_sampler` is a per-object field in C#. It is never changed, so the model makes
  it a module constant.
- Smoothing: no lemma states that the mean equals a plain 3x3x3 box sum written as a nested
  sum. The filter's meaning rests on two facts instead: the table covers each neighbour
  exactly once (SamplerCovers), and a constant field is a fixed point (SmoothConstant).
- Chunks.Chunk.CreateMesh: when a normal grid exists, every plugin vertex must lie where the
  resampler can read its eight corner cells. In C# a vertex outside them would throw
  IndexOutOfRangeException in TriLinearInterpNormal (Chunk.cs:187-191); the model assumes the
  plugin never returns one instead of modelling the exception. It also assumes one engine
  normal per vertex.
- Lattice.Terrain.Start, Lattice.Terrain.BuildRow and Lattice.Terrain.BuildChunk: the same
  assumption on the plugin, for every chunk position.
- Lattice.NormalsPointUp assumes that Normalize keeps vectors with a non-negative y component
  upward. Scaling by the reciprocal length does this, but Normalize is not modelled.
- Normals.TriLinearBounded and Chunks.ResampledColorInRange need non-negative positions. At a
  position in (-1, 0) the C# truncation gives cell 0 with a negative fraction, which
  extrapolates. The model still computes that value, but proves no bound for it or for the
  control colour derived from it.
