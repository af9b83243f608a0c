// Density-field synthesis of a chunk (Chunk.SampleGround, Chunk.SampleMountains and the
// per-cell formula written by Chunk.CreateVoxels), as pure functions of world coordinates.
module DensityField {
  import opened Numerics
  import opened Vectors

  /** The external fractal noise source, PerlinNoise.FractalNoise2D(x, z, octaves, frequency,
      amplitude): an arbitrary total, deterministic function. */
  type Noise = (real, real, int, real, real) -> real

  /** Ground height: four octaves, frequency 80, amplitude 8. */
  function SampleGround(noise: Noise, x: real, z: real): real
  {
    noise(x, z, 4, 80.0, 8.0)
  }

  /** The domain-warp offset of the mountain layer: three octaves, frequency 120, amplitude 32. */
  function Warp(noise: Noise, x: real, z: real): real
  {
    noise(x, z, 3, 120.0, 32.0)
  }

  /** The six-octave mountain noise sampled at the warped position. */
  function RawMountains(noise: Noise, x: real, z: real): real
  {
    var w := Warp(noise, x, z);
    noise(x + w, z + w, 6, 120.0, 32.0)
  }

  /** Mountain height: the warped noise capped at zero, whatever the noise returns. */
  function SampleMountains(noise: Noise, x: real, z: real): (r: real)
    ensures r <= 0.0
    ensures RawMountains(noise, x, z) <= 0.0 ==> r == RawMountains(noise, x, z)
    ensures 0.0 <= RawMountains(noise, x, z) ==> r == 0.0
  {
    var w := Warp(noise, x, z);
    Min(0.0, noise(x + w, z + w, 6, 120.0, 32.0))
  }

  /** The height of the column at world (x, z): mountains plus ground. */
  function ColumnHeight(noise: Noise, x: real, z: real): (h: real)
    ensures h <= SampleGround(noise, x, z)
  {
    SampleMountains(noise, x, z) + SampleGround(noise, x, z)
  }

  /** The world y of grid row y, shifted by the surface level. */
  function WorldY(origin: Vec3, surfaceLevel: real, y: int): real
  {
    y as real + origin.y - surfaceLevel
  }

  /** The density the chunk at `origin` stores at grid cell (x, y, z): the column height plus
      the row's world y, saturated to [-1, 1]. */
  function Density(noise: Noise, origin: Vec3, surfaceLevel: real, x: int, y: int, z: int): (d: real)
    ensures var v := ColumnHeight(noise, x as real + origin.x, z as real + origin.z) + WorldY(origin, surfaceLevel, y);
            && -1.0 <= d <= 1.0
            && (-1.0 <= v <= 1.0 ==> d == v)
            && (v < -1.0 ==> d == -1.0)
            && (1.0 < v ==> d == 1.0)
  {
    Clamp(ColumnHeight(noise, x as real + origin.x, z as real + origin.z) + WorldY(origin, surfaceLevel, y), -1.0, 1.0)
  }

  /** Along one column the density never decreases going up: the column's height is shared
      by every row and only the row's world y changes. */
  lemma DensityMonotoneInY(noise: Noise, origin: Vec3, surfaceLevel: real, x: int, y1: int, y2: int, z: int)
    requires y1 <= y2
    ensures Density(noise, origin, surfaceLevel, x, y1, z) <= Density(noise, origin, surfaceLevel, x, y2, z)
  {
    var h := ColumnHeight(noise, x as real + origin.x, z as real + origin.z);
    ClampMonotone(h + WorldY(origin, surfaceLevel, y1), h + WorldY(origin, surfaceLevel, y2), -1.0, 1.0);
  }

  /** A cell is solid (negative) exactly when the column height plus the world y is negative,
      and lies on the surface (zero) exactly when that sum is zero. */
  lemma DensitySign(noise: Noise, origin: Vec3, surfaceLevel: real, x: int, y: int, z: int)
    ensures var v := ColumnHeight(noise, x as real + origin.x, z as real + origin.z) + WorldY(origin, surfaceLevel, y);
            && (Density(noise, origin, surfaceLevel, x, y, z) < 0.0 <==> v < 0.0)
            && (Density(noise, origin, surfaceLevel, x, y, z) == 0.0 <==> v == 0.0)
  {
    var v := ColumnHeight(noise, x as real + origin.x, z as real + origin.z) + WorldY(origin, surfaceLevel, y);
    ClampSign(v, -1.0, 1.0);
  }

  /** Mountains only ever add solid matter: the density never exceeds what the ground layer
      alone would give. */
  lemma MountainsOnlyRaise(noise: Noise, origin: Vec3, surfaceLevel: real, x: int, y: int, z: int)
    ensures var wx, wz := x as real + origin.x, z as real + origin.z;
            Density(noise, origin, surfaceLevel, x, y, z)
            <= Clamp(SampleGround(noise, wx, wz) + WorldY(origin, surfaceLevel, y), -1.0, 1.0)
  {
    var wx, wz := x as real + origin.x, z as real + origin.z;
    var wy := WorldY(origin, surfaceLevel, y);
    ClampMonotone(ColumnHeight(noise, wx, wz) + wy, SampleGround(noise, wx, wz) + wy, -1.0, 1.0);
  }

  /** The density depends only on the world position of the cell, so two chunks whose padded
      grids overlap store the same density at the shared world points. */
  lemma DensityDependsOnWorldPosition(noise: Noise, o1: Vec3, o2: Vec3, surfaceLevel: real,
                                      x1: int, y1: int, z1: int, x2: int, y2: int, z2: int)
    requires x1 as real + o1.x == x2 as real + o2.x
    requires y1 as real + o1.y == y2 as real + o2.y
    requires z1 as real + o1.z == z2 as real + o2.z
    ensures Density(noise, o1, surfaceLevel, x1, y1, z1) == Density(noise, o2, surfaceLevel, x2, y2, z2)
  {
  }

  /** With noise that is zero everywhere and surface level zero, the field is a flat
      horizontal surface at world y = 0, independent of x and z. */
  lemma FlatWorld(noise: Noise, origin: Vec3, x: int, y: int, z: int)
    requires forall a, b, o, f, amp :: noise(a, b, o, f, amp) == 0.0
    ensures Density(noise, origin, 0.0, x, y, z) == Clamp(y as real + origin.y, -1.0, 1.0)
  {
    var wx, wz := x as real + origin.x, z as real + origin.z;
    assert SampleGround(noise, wx, wz) == 0.0;
    assert Warp(noise, wx, wz) == 0.0;
    assert RawMountains(noise, wx, wz) == 0.0;
  }
}
