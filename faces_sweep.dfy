/**
 * The geometry shared by the six face sweeps of the merger. Every sweep runs
 * three nested loops over a layer l (outer), a row j (middle) and a column i
 * (inner), each from 0 to SIZE-1; each side maps these sweep coordinates to
 * voxel positions so that the inner loop is the direction a face grows in
 * first and the middle loop the direction it grows in second.
 */
module SweepGeometry {
  import opened Voxel
  import opened Vec3Math
  import opened ChunkDims
  import opened ChunkBuffers
  import opened VoxRefs
  import opened MeshBuilders

  /** mergedSides holds one byte per (voxel, side). */
  const SIDE_COUNT: int := 6
  const CELLS: int := SIZE * SIZE * SIZE
  const SLOTS: int := CELLS * SIDE_COUNT

  /** A cell in sweep coordinates: layer, row, column. */
  datatype Cell = Cell(l: int, j: int, i: int)

  predicate InGrid(c: Cell) {
    0 <= c.l < SIZE && 0 <= c.j < SIZE && 0 <= c.i < SIZE
  }

  /** The position of a cell in the sweep's visiting order. */
  function Lin(c: Cell): int {
    c.l * 256 + c.j * 16 + c.i
  }

  /**
   * The voxel a sweep visits at (l, j, i):
   * FRONT  z = l,      y = j,      x = i
   * BACK   z = l,      y = j,      x = 15 - i
   * TOP    y = 15 - l, z = 15 - j, x = i
   * DOWN   y = l,      z = j,      x = i
   * RIGHT  x = 15 - l, y = j,      z = 15 - i
   * LEFT   x = l,      y = j,      z = i
   */
  function ToPos(side: Side, c: Cell): (p: Vec3)
    ensures InGrid(c) ==> InChunk(p)
  {
    if side == FRONT then Vec3(c.i, c.j, c.l)
    else if side == BACK then Vec3(SIZE - 1 - c.i, c.j, c.l)
    else if side == TOP then Vec3(c.i, SIZE - 1 - c.l, SIZE - 1 - c.j)
    else if side == DOWN then Vec3(c.i, c.l, c.j)
    else if side == Voxel.RIGHT then Vec3(SIZE - 1 - c.l, c.j, SIZE - 1 - c.i)
    else Vec3(c.l, c.j, c.i)
  }

  /** The sweep coordinates of a voxel. */
  function ToCell(side: Side, p: Vec3): Cell {
    if side == FRONT then Cell(p.z, p.y, p.x)
    else if side == BACK then Cell(p.z, p.y, SIZE - 1 - p.x)
    else if side == TOP then Cell(SIZE - 1 - p.y, SIZE - 1 - p.z, p.x)
    else if side == DOWN then Cell(p.y, p.z, p.x)
    else if side == Voxel.RIGHT then Cell(SIZE - 1 - p.x, p.y, SIZE - 1 - p.z)
    else Cell(p.x, p.y, p.z)
  }

  /** Each sweep visits every voxel of the chunk exactly once. */
  lemma SweepIsBijection(side: Side, c: Cell, p: Vec3)
    ensures InGrid(c) ==> ToCell(side, ToPos(side, c)) == c
    ensures InChunk(p) ==> InGrid(ToCell(side, p)) && ToPos(side, ToCell(side, p)) == p
  {
  }

  /** The mergedSides byte of voxel p on a side: its offset times SIDE_COUNT (6), plus the side. */
  function SlotOf(p: Vec3, side: Side): (k: int)
    requires InChunk(p)
    ensures 0 <= k < SLOTS && k % SIDE_COUNT == side
  {
    VoxelIndex(p) * 6 + side
  }

  /** The mergedSides byte of a cell on a side. */
  function Slot(side: Side, c: Cell): (k: int)
    requires InGrid(c)
    ensures 0 <= k < SLOTS && k % SIDE_COUNT == side
  {
    SlotOf(ToPos(side, c), side)
  }

  /** Distinct cells own distinct mergedSides bytes. */
  lemma SlotInjective(side: Side, a: Cell, b: Cell)
    requires InGrid(a) && InGrid(b) && Slot(side, a) == Slot(side, b)
    ensures a == b
  {
    VoxelIndexInjective(ToPos(side, a), ToPos(side, b));
    SweepIsBijection(side, a, ToPos(side, a));
    SweepIsBijection(side, b, ToPos(side, b));
  }

  /** The visiting order is lexicographic in (l, j, i). */
  lemma LinOrder(a: Cell, b: Cell)
    requires InGrid(a) && InGrid(b)
    ensures Lin(a) < Lin(b) <==> a.l < b.l || (a.l == b.l && (a.j < b.j || (a.j == b.j && a.i < b.i)))
    ensures Lin(a) == Lin(b) <==> a == b
  {
  }

  // ---- what a sweep reads from the chunk buffer ----

  /** A face that must be drawn: a non-empty voxel whose side is visible. */
  predicate Eligible(s: seq<bv8>, side: Side, c: Cell)
    requires |s| == BUFFER_SIZE && InGrid(c)
  {
    !IsEmptyAt(s, ToPos(side, c)) && IsVisibleAt(s, ToPos(side, c), side)
  }

  /** A cell a growing face of type t may take: unmerged, visible on the side, of type t. */
  predicate Joinable(s: seq<bv8>, m: seq<bv8>, side: Side, c: Cell, t: bv16)
    requires |s| == BUFFER_SIZE && |m| == SLOTS && InGrid(c)
  {
    m[Slot(side, c)] != 1 && IsVisibleAt(s, ToPos(side, c), side) && TypeAt(s, ToPos(side, c)) == t
  }

  predicate RowJoinable(s: seq<bv8>, m: seq<bv8>, side: Side, l: int, j: int, i0: int, i1: int, t: bv16)
    requires |s| == BUFFER_SIZE && |m| == SLOTS && 0 <= l < SIZE && 0 <= j < SIZE && 0 <= i0 && i1 < SIZE
  {
    forall k :: i0 <= k <= i1 ==> Joinable(s, m, side, Cell(l, j, k), t)
  }

  /** A joinable row stays joinable when the next cell is joinable. */
  lemma RowJoinableExtend(s: seq<bv8>, m: seq<bv8>, side: Side, l: int, j: int, i0: int, i1: int, t: bv16)
    requires |s| == BUFFER_SIZE && |m| == SLOTS && 0 <= l < SIZE && 0 <= j < SIZE && 0 <= i0 <= i1 + 1 < SIZE
    requires RowJoinable(s, m, side, l, j, i0, i1, t) && Joinable(s, m, side, Cell(l, j, i1 + 1), t)
    ensures RowJoinable(s, m, side, l, j, i0, i1 + 1, t)
  {
  }

  // ---- merged faces ----

  /** A merged face: columns i0..i1 of rows j0..j1 of layer l, all of one voxel type. */
  datatype Quad = Quad(side: Side, l: int, j0: int, j1: int, i0: int, i1: int, voxelType: bv16)

  predicate WellFormed(q: Quad) {
    0 <= q.l < SIZE && 0 <= q.j0 <= q.j1 < SIZE && 0 <= q.i0 <= q.i1 < SIZE
  }

  predicate InQuad(c: Cell, q: Quad) {
    c.l == q.l && q.j0 <= c.j <= q.j1 && q.i0 <= c.i <= q.i1
  }

  /** The number of voxel faces a quad stands for. */
  function Area(q: Quad): int {
    (q.j1 - q.j0 + 1) * (q.i1 - q.i0 + 1)
  }

  predicate DisjointQuads(a: Quad, b: Quad) {
    a.l != b.l || a.j1 < b.j0 || b.j1 < a.j0 || a.i1 < b.i0 || b.i1 < a.i0
  }

  /** Some quad of qs contains c. */
  predicate Covered(qs: seq<Quad>, c: Cell) {
    |qs| > 0 && (InQuad(c, qs[|qs| - 1]) || Covered(qs[..|qs| - 1], c))
  }

  lemma {:induction false} CoveredByMember(qs: seq<Quad>, k: int, c: Cell)
    requires 0 <= k < |qs| && InQuad(c, qs[k])
    ensures Covered(qs, c)
    decreases |qs|
  {
    if k < |qs| - 1 {
      assert qs[..|qs| - 1][k] == qs[k];
      CoveredByMember(qs[..|qs| - 1], k, c);
    }
  }

  lemma {:induction false} CoveredHasMember(qs: seq<Quad>, c: Cell) returns (k: int)
    requires Covered(qs, c)
    ensures 0 <= k < |qs| && InQuad(c, qs[k])
    decreases |qs|
  {
    if InQuad(c, qs[|qs| - 1]) {
      k := |qs| - 1;
    } else {
      k := CoveredHasMember(qs[..|qs| - 1], c);
    }
  }

  /**
   * Two rectangles of the same layer that are not disjoint share a cell, so
   * a rectangle that avoids every cell of another is disjoint from it.
   */
  lemma OverlapWitness(a: Quad, b: Quad)
    requires WellFormed(a) && WellFormed(b) && !DisjointQuads(a, b)
    ensures var w := Cell(a.l, if a.j0 < b.j0 then b.j0 else a.j0, if a.i0 < b.i0 then b.i0 else a.i0);
      InGrid(w) && InQuad(w, a) && InQuad(w, b)
  {
  }

  // ---- the vertices emitted for a quad ----

  /**
   * The cube corners (V0..V7) each side takes its four vertices from, in
   * emission order: the start voxel's corner, the corner at the end of the
   * first direction, the far corner, and the corner at the end of the second.
   */
  const CORNER_IDS: seq<seq<int>> := [[0, 1, 2, 3], [1, 5, 6, 2], [5, 4, 7, 6], [4, 0, 3, 7], [3, 2, 6, 7], [4, 5, 1, 0]]

  function Corner(k: int, p: Vec3): (r: seq<int>)
    requires 0 <= k < 8
    ensures r == Corners(p.x, p.y, p.z)[k]
  {
    if k == 0 then V0At(p.x, p.y, p.z)
    else if k == 1 then V1At(p.x, p.y, p.z)
    else if k == 2 then V2At(p.x, p.y, p.z)
    else if k == 3 then V3At(p.x, p.y, p.z)
    else if k == 4 then V4At(p.x, p.y, p.z)
    else if k == 5 then V5At(p.x, p.y, p.z)
    else if k == 6 then V6At(p.x, p.y, p.z)
    else V7At(p.x, p.y, p.z)
  }

  /** The 12 numbers handed to the mesh builder for one quad. */
  function QuadVertices(q: Quad): (r: seq<int>)
    ensures |r| == 12
  {
    var ids := CORNER_IDS[q.side];
    Corner(ids[0], ToPos(q.side, Cell(q.l, q.j0, q.i0))) +
    Corner(ids[1], ToPos(q.side, Cell(q.l, q.j0, q.i1))) +
    Corner(ids[2], ToPos(q.side, Cell(q.l, q.j1, q.i1))) +
    Corner(ids[3], ToPos(q.side, Cell(q.l, q.j1, q.i0)))
  }

  function Vertex(r: seq<int>, k: int): Vec3
    requires 0 <= k < 4 && |r| == 12
  {
    Vec3(r[3 * k], r[3 * k + 1], r[3 * k + 2])
  }

  lemma VertexIndices(r: seq<int>)
    requires |r| == 12
    ensures Vertex(r, 0) == Vec3(r[0], r[1], r[2]) && Vertex(r, 1) == Vec3(r[3], r[4], r[5])
    ensures Vertex(r, 2) == Vec3(r[6], r[7], r[8]) && Vertex(r, 3) == Vec3(r[9], r[10], r[11])
  {
  }

  /** The coordinate of v along the axis of a side's normal. */
  function AxisCoord(side: Side, v: Vec3): int {
    if side == FRONT || side == BACK then v.z else if side == TOP || side == DOWN then v.y else v.x
  }

  /** 1 for the sides that face a growing coordinate (FRONT, TOP, RIGHT), else 0. */
  function Outward(side: Side): int {
    if side == FRONT || side == TOP || side == Voxel.RIGHT then 1 else 0
  }

  /** The four vertices of a quad lie on the outward face plane of its voxels. */
  lemma QuadOnFacePlane(q: Quad)
    requires WellFormed(q)
    ensures forall k :: 0 <= k < 4 ==>
      AxisCoord(q.side, Vertex(QuadVertices(q), k)) == AxisCoord(q.side, ToPos(q.side, Cell(q.l, q.j0, q.i0))) + Outward(q.side)
  {
    QuadVerticesExplicit(q);
    ExplicitOnFacePlane(q);
  }

  lemma ExplicitOnFacePlane(q: Quad)
    requires WellFormed(q)
    ensures forall k :: 0 <= k < 4 ==>
      AxisCoord(q.side, Vertex(ExplicitVertices(q), k)) == AxisCoord(q.side, ToPos(q.side, Cell(q.l, q.j0, q.i0))) + Outward(q.side)
  {
    var r := ExplicitVertices(q);
    var plane := AxisCoord(q.side, ToPos(q.side, Cell(q.l, q.j0, q.i0))) + Outward(q.side);
    VertexIndices(r);
    assert plane == (if q.side == TOP || q.side == Voxel.RIGHT then SIZE - 1 - q.l else q.l) + Outward(q.side);
    assert AxisCoord(q.side, Vertex(r, 0)) == plane;
    assert AxisCoord(q.side, Vertex(r, 1)) == plane;
    assert AxisCoord(q.side, Vertex(r, 2)) == plane;
    assert AxisCoord(q.side, Vertex(r, 3)) == plane;
  }

  /**
   * The edges v0-v1 and v0-v3 of a quad measure (L1) its width and height in
   * voxels, so the mesh builder's UVs tile the texture once per voxel face.
   */
  lemma QuadExtents(q: Quad)
    requires WellFormed(q)
    ensures L1(Vertex(QuadVertices(q), 0), Vertex(QuadVertices(q), 1)) == q.i1 - q.i0 + 1
    ensures L1(Vertex(QuadVertices(q), 0), Vertex(QuadVertices(q), 3)) == q.j1 - q.j0 + 1
  {
    QuadVerticesExplicit(q);
    ExplicitExtents(q);
  }

  lemma ExplicitExtents(q: Quad)
    requires WellFormed(q)
    ensures L1(Vertex(ExplicitVertices(q), 0), Vertex(ExplicitVertices(q), 1)) == q.i1 - q.i0 + 1
    ensures L1(Vertex(ExplicitVertices(q), 0), Vertex(ExplicitVertices(q), 3)) == q.j1 - q.j0 + 1
  {
    var r := ExplicitVertices(q);
    VertexIndices(r);
  }

  /** The quad's vertices written out side by side. */
  function ExplicitVertices(q: Quad): seq<int> {
    var l, j0, j1, i0, i1 := q.l, q.j0, q.j1, q.i0, q.i1;
    if q.side == FRONT then [i0, j0, l + 1, i1 + 1, j0, l + 1, i1 + 1, j1 + 1, l + 1, i0, j1 + 1, l + 1]
    else if q.side == BACK then [16 - i0, j0, l, 15 - i1, j0, l, 15 - i1, j1 + 1, l, 16 - i0, j1 + 1, l]
    else if q.side == TOP then [i0, 16 - l, 16 - j0, i1 + 1, 16 - l, 16 - j0, i1 + 1, 16 - l, 15 - j1, i0, 16 - l, 15 - j1]
    else if q.side == DOWN then [i0, l, j0, i1 + 1, l, j0, i1 + 1, l, j1 + 1, i0, l, j1 + 1]
    else if q.side == Voxel.RIGHT then [16 - l, j0, 16 - i0, 16 - l, j0, 15 - i1, 16 - l, j1 + 1, 15 - i1, 16 - l, j1 + 1, 16 - i0]
    else [l, j0, i0, l, j0, i1 + 1, l, j1 + 1, i1 + 1, l, j1 + 1, i0]
  }

  lemma QuadVerticesExplicit(q: Quad)
    ensures QuadVertices(q) == ExplicitVertices(q)
  {
    if q.side == FRONT {
      QuadVerticesFront(q);
    } else if q.side == BACK {
      QuadVerticesBack(q);
    } else if q.side == TOP {
      QuadVerticesTop(q);
    } else if q.side == DOWN {
      QuadVerticesDown(q);
    } else if q.side == Voxel.RIGHT {
      QuadVerticesRight(q);
    } else {
      QuadVerticesLeft(q);
    }
  }

  lemma QuadVerticesFront(q: Quad)
    requires q.side == FRONT
    ensures QuadVertices(q) == ExplicitVertices(q)
  {
    var p0, p1 := ToPos(q.side, Cell(q.l, q.j0, q.i0)), ToPos(q.side, Cell(q.l, q.j0, q.i1));
    var p2, p3 := ToPos(q.side, Cell(q.l, q.j1, q.i1)), ToPos(q.side, Cell(q.l, q.j1, q.i0));
    var ids := CORNER_IDS[q.side];
    assert QuadVertices(q) == Corner(ids[0], p0) + Corner(ids[1], p1) + Corner(ids[2], p2) + Corner(ids[3], p3);
  }

  lemma QuadVerticesBack(q: Quad)
    requires q.side == BACK
    ensures QuadVertices(q) == ExplicitVertices(q)
  {
    var p0, p1 := ToPos(q.side, Cell(q.l, q.j0, q.i0)), ToPos(q.side, Cell(q.l, q.j0, q.i1));
    var p2, p3 := ToPos(q.side, Cell(q.l, q.j1, q.i1)), ToPos(q.side, Cell(q.l, q.j1, q.i0));
    var ids := CORNER_IDS[q.side];
    assert QuadVertices(q) == Corner(ids[0], p0) + Corner(ids[1], p1) + Corner(ids[2], p2) + Corner(ids[3], p3);
  }

  lemma QuadVerticesTop(q: Quad)
    requires q.side == TOP
    ensures QuadVertices(q) == ExplicitVertices(q)
  {
    var p0, p1 := ToPos(q.side, Cell(q.l, q.j0, q.i0)), ToPos(q.side, Cell(q.l, q.j0, q.i1));
    var p2, p3 := ToPos(q.side, Cell(q.l, q.j1, q.i1)), ToPos(q.side, Cell(q.l, q.j1, q.i0));
    var ids := CORNER_IDS[q.side];
    assert QuadVertices(q) == Corner(ids[0], p0) + Corner(ids[1], p1) + Corner(ids[2], p2) + Corner(ids[3], p3);
  }

  lemma QuadVerticesDown(q: Quad)
    requires q.side == DOWN
    ensures QuadVertices(q) == ExplicitVertices(q)
  {
    var p0, p1 := ToPos(q.side, Cell(q.l, q.j0, q.i0)), ToPos(q.side, Cell(q.l, q.j0, q.i1));
    var p2, p3 := ToPos(q.side, Cell(q.l, q.j1, q.i1)), ToPos(q.side, Cell(q.l, q.j1, q.i0));
    var ids := CORNER_IDS[q.side];
    assert QuadVertices(q) == Corner(ids[0], p0) + Corner(ids[1], p1) + Corner(ids[2], p2) + Corner(ids[3], p3);
  }

  lemma QuadVerticesRight(q: Quad)
    requires q.side == Voxel.RIGHT
    ensures QuadVertices(q) == ExplicitVertices(q)
  {
    var p0, p1 := ToPos(q.side, Cell(q.l, q.j0, q.i0)), ToPos(q.side, Cell(q.l, q.j0, q.i1));
    var p2, p3 := ToPos(q.side, Cell(q.l, q.j1, q.i1)), ToPos(q.side, Cell(q.l, q.j1, q.i0));
    var ids := CORNER_IDS[q.side];
    assert QuadVertices(q) == Corner(ids[0], p0) + Corner(ids[1], p1) + Corner(ids[2], p2) + Corner(ids[3], p3);
  }

  lemma QuadVerticesLeft(q: Quad)
    requires q.side == Voxel.LEFT
    ensures QuadVertices(q) == ExplicitVertices(q)
  {
    var p0, p1 := ToPos(q.side, Cell(q.l, q.j0, q.i0)), ToPos(q.side, Cell(q.l, q.j0, q.i1));
    var p2, p3 := ToPos(q.side, Cell(q.l, q.j1, q.i1)), ToPos(q.side, Cell(q.l, q.j1, q.i0));
    var ids := CORNER_IDS[q.side];
    assert QuadVertices(q) == Corner(ids[0], p0) + Corner(ids[1], p1) + Corner(ids[2], p2) + Corner(ids[3], p3);
  }

  lemma UVsOfVertices(r: seq<int>, w: int, h: int)
    requires |r| == 12 && L1(Vertex(r, 0), Vertex(r, 1)) == w && L1(Vertex(r, 0), Vertex(r, 3)) == h
    ensures QuadUVs(r, 0) == [UV(w, 0), UV(0, 0), UV(0, h), UV(w, h)]
  {
    VertexIndices(r);
  }

  /** The UVs the mesh builder derives from a quad are (w, 0), (0, 0), (0, h), (w, h). */
  lemma QuadUVsAreExtents(q: Quad)
    requires WellFormed(q)
    ensures QuadUVs(QuadVertices(q), 0) ==
      [UV(q.i1 - q.i0 + 1, 0), UV(0, 0), UV(0, q.j1 - q.j0 + 1), UV(q.i1 - q.i0 + 1, q.j1 - q.j0 + 1)]
  {
    QuadVerticesExplicit(q);
    ExplicitUVs(q);
  }

  lemma ExplicitUVs(q: Quad)
    requires WellFormed(q)
    ensures QuadUVs(ExplicitVertices(q), 0) ==
      [UV(q.i1 - q.i0 + 1, 0), UV(0, 0), UV(0, q.j1 - q.j0 + 1), UV(q.i1 - q.i0 + 1, q.j1 - q.j0 + 1)]
  {
    ExplicitExtents(q);
    UVsOfVertices(ExplicitVertices(q), q.i1 - q.i0 + 1, q.j1 - q.j0 + 1);
  }
}
