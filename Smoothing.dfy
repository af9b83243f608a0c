// The 27-point box filter of Chunk.SmoothVoxels: its offset table (m_sampler), the
// accumulation it performs per cell, and the facts that make it a neighbourhood mean.
module Smoothing {

  /** One component of a stencil offset. */
  type Unit = d: int | -1 <= d <= 1

  type Offset = (Unit, Unit, Unit)

  /** m_sampler, row by row in the order the smoothing loop visits it: the layer dy = -1, then
      dy = 0, then dy = 1; within a layer eight cells around the centre, then the centre. */
  const Sampler: seq<Offset> := [
    (1,-1,0), (1,-1,1), (0,-1,1), (-1,-1,1), (-1,-1,0), (-1,-1,-1), (0,-1,-1), (1,-1,-1), (0,-1,0),
    (1,0,0), (1,0,1), (0,0,1), (-1,0,1), (-1,0,0), (-1,0,-1), (0,0,-1), (1,0,-1), (0,0,0),
    (1,1,0), (1,1,1), (0,1,1), (-1,1,1), (-1,1,0), (-1,1,-1), (0,1,-1), (1,1,-1), (0,1,0)
  ]

  /** The position within a layer of the table of the horizontal offset (dx, dz). */
  function RingIndex(dx: Unit, dz: Unit): (i: nat)
    ensures i < 9
  {
    if dx == 1 && dz == 0 then 0
    else if dx == 1 && dz == 1 then 1
    else if dx == 0 && dz == 1 then 2
    else if dx == -1 && dz == 1 then 3
    else if dx == -1 && dz == 0 then 4
    else if dx == -1 && dz == -1 then 5
    else if dx == 0 && dz == -1 then 6
    else if dx == 1 && dz == -1 then 7
    else 8
  }

  /** The row of the table that holds offset o. */
  function IndexOf(o: Offset): (i: nat)
    ensures i < 27
  {
    9 * (o.1 + 1) + RingIndex(o.0, o.2)
  }

  /** IndexOf inverts the table in both directions: every offset in {-1,0,1}^3 is some row, and
      no two rows are equal. */
  lemma SamplerIndex()
    ensures |Sampler| == 27
    ensures forall o: Offset :: Sampler[IndexOf(o)] == o
    ensures forall i :: 0 <= i < |Sampler| ==> IndexOf(Sampler[i]) == i
  {
    SamplerRowOf();
    RowOfSampler();
  }

  /** IndexOf finds each offset in the table. */
  lemma SamplerRowOf()
    ensures forall o: Offset :: Sampler[IndexOf(o)] == o
  {
  }

  /** Each row of the table is where IndexOf looks for it. */
  lemma RowOfSampler()
    ensures forall i :: 0 <= i < |Sampler| ==> IndexOf(Sampler[i]) == i
  {
  }

  /** The table covers {-1,0,1}^3 exactly once. */
  lemma SamplerCovers()
    ensures |Sampler| == 27
    ensures forall o: Offset :: o in Sampler
    ensures forall i, j :: 0 <= i < j < |Sampler| ==> Sampler[i] != Sampler[j]
  {
    SamplerIndex();
    forall o: Offset ensures o in Sampler {
      assert Sampler[IndexOf(o)] == o;
    }
    forall i, j | 0 <= i < j < |Sampler| ensures Sampler[i] != Sampler[j] {
      assert IndexOf(Sampler[i]) == i && IndexOf(Sampler[j]) == j;
    }
  }

  /** (x, y, z) is a cell of g. */
  predicate InGrid<T>(g: array3<T>, x: int, y: int, z: int)
  {
    0 <= x < g.Length0 && 0 <= y < g.Length1 && 0 <= z < g.Length2
  }

  /** (x, y, z) is at least k cells away from every face of the grid. */
  predicate Inner(x: int, y: int, z: int, w: int, h: int, l: int, k: int)
  {
    k <= x < w - k && k <= y < h - k && k <= z < l - k
  }

  /** The cells the smoothing loop writes: every index in [1, dim-2]. */
  predicate SmoothInterior(g: array3<real>, x: int, y: int, z: int)
  {
    Inner(x, y, z, g.Length0, g.Length1, g.Length2, 1)
  }

  /** The value in g at (x, y, z) displaced by offset o. */
  function At(g: array3<real>, x: int, y: int, z: int, o: Offset): real
    reads g
    requires SmoothInterior(g, x, y, z)
  {
    g[x + o.0, y + o.1, z + o.2]
  }

  /** The running total of the smoothing loop after its first n table rows. */
  function SumOffsets(g: array3<real>, x: int, y: int, z: int, n: nat): real
    reads g
    requires SmoothInterior(g, x, y, z)
    requires n <= |Sampler|
  {
    if n == 0 then 0.0 else SumOffsets(g, x, y, z, n - 1) + At(g, x, y, z, Sampler[n - 1])
  }

  /** What the smoothing loop stores in an interior cell. */
  function Mean27(g: array3<real>, x: int, y: int, z: int): real
    reads g
    requires SmoothInterior(g, x, y, z)
  {
    SumOffsets(g, x, y, z, |Sampler|) / 27.0
  }

  /** Every value of g lies in [-1, 1]. */
  ghost predicate AllInRange(g: array3<real>)
    reads g
  {
    forall x, y, z :: InGrid(g, x, y, z) ==> -1.0 <= g[x, y, z] <= 1.0
  }

  /** Every column of g is non-decreasing going up. */
  ghost predicate MonotoneY(g: array3<real>)
    reads g
  {
    forall x, y, z :: InGrid(g, x, y, z) && y + 1 < g.Length1 ==> g[x, y, z] <= g[x, y + 1, z]
  }

  /** A partial sum of n values from [-1, 1] lies in [-n, n]. */
  lemma {:induction false} SumOffsetsBounds(g: array3<real>, x: int, y: int, z: int, n: nat)
    requires SmoothInterior(g, x, y, z) && n <= |Sampler|
    requires AllInRange(g)
    ensures -(n as real) <= SumOffsets(g, x, y, z, n) <= n as real
  {
    if n > 0 {
      SumOffsetsBounds(g, x, y, z, n - 1);
      var o := Sampler[n - 1];
      assert InGrid(g, x + o.0, y + o.1, z + o.2);
    }
  }

  /** The mean of values in [-1, 1] stays in [-1, 1]. */
  lemma SmoothInRange(g: array3<real>, x: int, y: int, z: int)
    requires SmoothInterior(g, x, y, z)
    requires AllInRange(g)
    ensures -1.0 <= Mean27(g, x, y, z) <= 1.0
  {
    SumOffsetsBounds(g, x, y, z, |Sampler|);
  }

  /** Where every table neighbour holds c, the partial sum of n rows is n * c. */
  lemma {:induction false} SumOffsetsConstant(g: array3<real>, x: int, y: int, z: int, n: nat, c: real)
    requires SmoothInterior(g, x, y, z) && n <= |Sampler|
    requires forall o: Offset :: At(g, x, y, z, o) == c
    ensures SumOffsets(g, x, y, z, n) == (n as real) * c
  {
    if n > 0 {
      SumOffsetsConstant(g, x, y, z, n - 1, c);
      Distribute(n - 1, c);
    }
  }

  lemma Distribute(m: nat, c: real)
    ensures (m as real) * c + c == ((m + 1) as real) * c
  {
  }

  /** Smoothing leaves a locally constant field unchanged. */
  lemma SmoothConstant(g: array3<real>, x: int, y: int, z: int, c: real)
    requires SmoothInterior(g, x, y, z)
    requires forall o: Offset :: At(g, x, y, z, o) == c
    ensures Mean27(g, x, y, z) == c
  {
    SumOffsetsConstant(g, x, y, z, |Sampler|, c);
  }

  /** Summing over the neighbourhood of the cell above gives at least as much when every
      column of g is non-decreasing. */
  lemma {:induction false} SumOffsetsMonotoneY(g: array3<real>, x: int, y: int, z: int, n: nat)
    requires SmoothInterior(g, x, y, z) && SmoothInterior(g, x, y + 1, z) && n <= |Sampler|
    requires MonotoneY(g)
    ensures SumOffsets(g, x, y, z, n) <= SumOffsets(g, x, y + 1, z, n)
  {
    if n > 0 {
      SumOffsetsMonotoneY(g, x, y, z, n - 1);
      var o := Sampler[n - 1];
      assert InGrid(g, x + o.0, y + o.1, z + o.2);
    }
  }

  /** Smoothing keeps columns non-decreasing between vertically adjacent interior cells. */
  lemma SmoothMonotoneY(g: array3<real>, x: int, y: int, z: int)
    requires SmoothInterior(g, x, y, z) && SmoothInterior(g, x, y + 1, z)
    requires MonotoneY(g)
    ensures Mean27(g, x, y, z) <= Mean27(g, x, y + 1, z)
  {
    SumOffsetsMonotoneY(g, x, y, z, |Sampler|);
  }
}
