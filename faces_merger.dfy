/**
 * Greedy meshing: six sweeps over the chunk, one per side, each growing
 * rectangles of same-type visible faces, marking them in mergedSides and
 * handing their vertices to the mesh builder.
 */
module FacesMergers {
  import opened Wrappers
  import opened Voxel
  import opened ChunkDims
  import opened ChunkBuffers
  import opened VoxRefs
  import opened MeshBuilders
  import opened SweepGeometry
  import Vec3Math
  import opened FacesSpec

  /**
   * The BACK sweep's test of the next voxel as written (FacesMerger.cs:229).
   * It moves the sweep's own cursor to x - 1 but then reads the other
   * cursor, nv, which holds the position the last growth along y gave it,
   * or none at all before the first such growth, where the source
   * dereferences null (None here).
   */
  function BackTestAsWritten(s: seq<bv8>, m: seq<bv8>, nv: Option<Vec3Math.Vec3>, t: bv16): (r: Option<bool>)
    requires |s| == BUFFER_SIZE && |m| == SLOTS && (nv.Some? ==> InChunk(nv.value))
    ensures r.None? <==> nv.None?
  {
    if nv.None? then None
    else Some(m[SlotOf(nv.value, BACK)] != 1 && IsVisibleAt(s, nv.value, BACK) && TypeAt(s, nv.value) == t)
  }

  /**
   * The test as written misfires. On the first BACK face of a sweep with
   * x > 0, nv has no position and the merge throws; later, nv is a voxel
   * left over from an earlier growth, so a merged leftover stops a face the
   * next cell would have joined. Only with nv at x - 1, the next cell of
   * the sweep, would it agree with the test MergeSide applies.
   */
  lemma BackTestAsWrittenMisfires(s: seq<bv8>, m: seq<bv8>, c: Cell, p: Vec3Math.Vec3, t: bv16)
    requires |s| == BUFFER_SIZE && |m| == SLOTS && InGrid(c) && c.i < SIZE - 1 && InChunk(p)
    ensures ToPos(BACK, c).x > 0 && ToPos(BACK, Cell(c.l, c.j, c.i + 1)) == Vec3Math.Vec3(ToPos(BACK, c).x - 1, c.j, c.l)
    ensures BackTestAsWritten(s, m, None, t).None?
    ensures p != ToPos(BACK, Cell(c.l, c.j, c.i + 1)) && m[SlotOf(p, BACK)] == 1 && Joinable(s, m, BACK, Cell(c.l, c.j, c.i + 1), t) ==>
      BackTestAsWritten(s, m, Some(p), t) == Some(false)
    ensures BackTestAsWritten(s, m, Some(ToPos(BACK, Cell(c.l, c.j, c.i + 1))), t) == Some(Joinable(s, m, BACK, Cell(c.l, c.j, c.i + 1), t))
  {
  }

  class FacesMerger {
    const buffer: ChunkBuffer
    const mergedSides: array<bv8>
    const builder: MeshBuilder
    /** The quads emitted so far, in emission order. */
    ghost var quads: seq<Quad>

    ghost predicate Valid()
      reads buffer
    {
      mergedSides.Length == SLOTS && buffer.Allocated() && buffer.voxels != mergedSides
    }

    function Grid(): seq<bv8>
      reads buffer, buffer.voxels
      requires Valid()
    {
      buffer.voxels[..]
    }

    constructor (buffer: ChunkBuffer)
      ensures this.buffer == buffer && fresh(mergedSides) && fresh(builder)
      ensures mergedSides.Length == SLOTS && forall k :: 0 <= k < SLOTS ==> mergedSides[k] == 0
      ensures builder.dataList == [] && quads == []
    {
      this.buffer := buffer;
      mergedSides := new bv8[SLOTS](_ => 0);
      builder := new MeshBuilder();
      quads := [];
    }

    method IsSideMerged(p: Vec3Math.Vec3, side: Side) returns (merged: bool)
      requires mergedSides.Length == SLOTS && InChunk(p)
      ensures merged <==> mergedSides[SlotOf(p, side)] == 1
    {
      VoxelIndexIsOffset(p);
      var offset := Vec3Math.ToVoxelOffset(p) * SIDE_COUNT;
      merged := mergedSides[offset + side] == 1;
    }

    method SetSideMerged(p: Vec3Math.Vec3, side: Side)
      requires mergedSides.Length == SLOTS && InChunk(p)
      modifies mergedSides
      ensures mergedSides[..] == old(mergedSides[..])[SlotOf(p, side) := 1]
    {
      VoxelIndexIsOffset(p);
      var offset := Vec3Math.ToVoxelOffset(p) * SIDE_COUNT;
      mergedSides[offset + side] := 1;
    }

    /** The test a growing face applies to the next cell. */
    method IsJoinable(side: Side, c: Cell, t: bv16, ghost g: seq<bv8>, ghost m: seq<bv8>) returns (ok: bool)
      requires Valid() && g == Grid() && m == mergedSides[..] && InGrid(c)
      ensures ok <==> Joinable(g, m, side, c, t)
    {
      var p := ToPos(side, c);
      var merged := IsSideMerged(p, side);
      ok := !merged && IsVisibleAt(buffer.voxels[..], p, side) && TypeAt(buffer.voxels[..], p) == t;
    }

    method RowIsJoinable(side: Side, l: int, j: int, i0: int, i1: int, t: bv16, ghost g: seq<bv8>, ghost m: seq<bv8>) returns (ok: bool)
      requires Valid() && g == Grid() && m == mergedSides[..]
      requires 0 <= l < SIZE && 0 <= j < SIZE && 0 <= i0 <= i1 < SIZE
      ensures ok <==> RowJoinable(g, m, side, l, j, i0, i1, t)
    {
      ok := true;
      var k := i0;
      while k <= i1
        invariant i0 <= k <= i1 + 1
        invariant RowJoinable(g, m, side, l, j, i0, k - 1, t)
      {
        var cellOk := IsJoinable(side, Cell(l, j, k), t, g, m);
        if !cellOk {
          ok := false;
          break;
        }
        RowJoinableExtend(g, m, side, l, j, i0, k - 1, t);
        k := k + 1;
      }
    }

    /** Grows a face along the first direction as far as cells are joinable. */
    method ExtendFirst(side: Side, c0: Cell, t: bv16, ghost g: seq<bv8>, ghost m: seq<bv8>) returns (i1: int)
      requires Valid() && g == Grid() && m == mergedSides[..] && InGrid(c0)
      ensures c0.i <= i1 < SIZE
      ensures RowJoinable(g, m, side, c0.l, c0.j, c0.i + 1, i1, t)
      ensures i1 == SIZE - 1 || !Joinable(g, m, side, Cell(c0.l, c0.j, i1 + 1), t)
    {
      var x := c0.i;
      while true
        invariant c0.i <= x < SIZE
        invariant RowJoinable(g, m, side, c0.l, c0.j, c0.i + 1, x, t)
        decreases SIZE - x
      {
        if x == SIZE - 1 {
          break;
        }
        var ok := IsJoinable(side, Cell(c0.l, c0.j, x + 1), t, g, m);
        if !ok {
          break;
        }
        RowJoinableExtend(g, m, side, c0.l, c0.j, c0.i + 1, x, t);
        x := x + 1;
      }
      i1 := x;
    }

    /** Grows a face along the second direction while whole rows are joinable. */
    method ExtendSecond(side: Side, l: int, j0: int, i0: int, i1: int, t: bv16, ghost g: seq<bv8>, ghost m: seq<bv8>) returns (j1: int)
      requires Valid() && g == Grid() && m == mergedSides[..]
      requires 0 <= l < SIZE && 0 <= j0 < SIZE && 0 <= i0 <= i1 < SIZE
      ensures j0 <= j1 < SIZE
      ensures forall j :: j0 < j <= j1 ==> RowJoinable(g, m, side, l, j, i0, i1, t)
      ensures j1 == SIZE - 1 || !RowJoinable(g, m, side, l, j1 + 1, i0, i1, t)
    {
      var y := j0;
      var done := false;
      while !done
        invariant j0 <= y < SIZE
        invariant forall j :: j0 < j <= y ==> RowJoinable(g, m, side, l, j, i0, i1, t)
        invariant done ==> y + 1 < SIZE && !RowJoinable(g, m, side, l, y + 1, i0, i1, t)
        decreases SIZE - y, if done then 0 else 1
      {
        if y == SIZE - 1 {
          break;
        }
        y := y + 1;
        var ok := RowIsJoinable(side, l, y, i0, i1, t, g, m);
        if !ok {
          y := y - 1;
          done := true;
        }
      }
      j1 := y;
    }

    /** Marks column a, rows j0..j1 of layer l, as merged on the side. */
    method MarkColumn(side: Side, l: int, a: int, j0: int, j1: int)
      requires mergedSides.Length == SLOTS && 0 <= l < SIZE && 0 <= a < SIZE && 0 <= j0 <= j1 < SIZE
      modifies mergedSides
      ensures forall c :: InGrid(c) ==>
        mergedSides[Slot(side, c)] == if c.l == l && c.i == a && j0 <= c.j <= j1 then 1 else old(mergedSides[Slot(side, c)])
      ensures forall k :: 0 <= k < SLOTS && k % SIDE_COUNT != side ==> mergedSides[k] == old(mergedSides[k])
    {
      var b := j0;
      while b <= j1
        invariant j0 <= b <= j1 + 1
        invariant forall c :: InGrid(c) ==>
          mergedSides[Slot(side, c)] == if c.l == l && c.i == a && j0 <= c.j < b then 1 else old(mergedSides[Slot(side, c)])
        invariant forall k :: 0 <= k < SLOTS && k % SIDE_COUNT != side ==> mergedSides[k] == old(mergedSides[k])
      {
        var c := Cell(l, b, a);
        SetSideMerged(ToPos(side, c), side);
        forall c' | InGrid(c') && Slot(side, c') == Slot(side, c)
          ensures c' == c
        {
          SlotInjective(side, c', c);
        }
        b := b + 1;
      }
    }

    /** Marks every cell of q as merged on the side, and nothing else. */
    method MarkRect(side: Side, q: Quad, ghost m: seq<bv8>)
      requires mergedSides.Length == SLOTS && m == mergedSides[..] && WellFormed(q)
      modifies mergedSides
      ensures forall c :: InGrid(c) ==>
        mergedSides[Slot(side, c)] == if InQuad(c, q) then 1 else m[Slot(side, c)]
      ensures forall k :: 0 <= k < SLOTS && k % SIDE_COUNT != side ==> mergedSides[k] == m[k]
    {
      var a := q.i0;
      while a <= q.i1
        invariant q.i0 <= a <= q.i1 + 1
        invariant forall c :: InGrid(c) ==>
          mergedSides[Slot(side, c)] == if c.l == q.l && q.i0 <= c.i < a && q.j0 <= c.j <= q.j1 then 1 else m[Slot(side, c)]
        invariant forall k :: 0 <= k < SLOTS && k % SIDE_COUNT != side ==> mergedSides[k] == m[k]
      {
        MarkColumn(side, q.l, a, q.j0, q.j1);
        a := a + 1;
      }
    }

    /**
     * Grows the quad that starts at c0: every cell it covers is joinable,
     * and it is the greedy one (its first row cannot grow further, and
     * neither can its rows).
     */
    method Grow(side: Side, c0: Cell, t: bv16, ghost g: seq<bv8>, ghost m: seq<bv8>) returns (q: Quad)
      requires Valid() && g == Grid() && m == mergedSides[..]
      requires InGrid(c0) && Joinable(g, m, side, c0, t)
      ensures q == Quad(side, c0.l, c0.j, q.j1, c0.i, q.i1, t) && WellFormed(q)
      ensures forall c :: InGrid(c) && InQuad(c, q) ==> Joinable(g, m, side, c, t)
      ensures q.i1 == SIZE - 1 || !Joinable(g, m, side, Cell(c0.l, c0.j, q.i1 + 1), t)
      ensures q.j1 == SIZE - 1 || !RowJoinable(g, m, side, c0.l, q.j1 + 1, c0.i, q.i1, t)
    {
      var i1 := ExtendFirst(side, c0, t, g, m);
      var j1 := ExtendSecond(side, c0.l, c0.j, c0.i, i1, t, g, m);
      q := Quad(side, c0.l, c0.j, j1, c0.i, i1, t);
      RectJoinable(g, m, side, q);
      assert Cell(c0.l, c0.j, q.i1 + 1) == Cell(c0.l, c0.j, i1 + 1);
    }

    /**
     * Grows, marks and emits the quad that starts at c0: exactly its cells
     * become merged, and its four corners go to the builder under
     * (t, side). Returns the column where its first row ends, after which
     * the sweep resumes.
     */
    method Emit(side: Side, c0: Cell, t: bv16, ghost g: seq<bv8>, ghost m: seq<bv8>) returns (i1: int, q: Quad)
      requires Valid() && g == Grid() && m == mergedSides[..]
      requires InGrid(c0) && Joinable(g, m, side, c0, t)
      modifies mergedSides, builder, this
      ensures q == Quad(side, c0.l, c0.j, q.j1, c0.i, i1, t) && WellFormed(q)
      ensures forall c :: InGrid(c) && InQuad(c, q) ==> Joinable(g, m, side, c, t)
      ensures forall c :: InGrid(c) ==>
        mergedSides[Slot(side, c)] == if InQuad(c, q) then 1 else m[Slot(side, c)]
      ensures forall k :: 0 <= k < SLOTS && k % SIDE_COUNT != side ==> mergedSides[k] == m[k]
      ensures quads == old(quads) + [q]
      ensures builder.dataList == Added(old(builder.dataList), t, side, QuadVertices(q))
      ensures Valid() && Grid() == g
    {
      q := Grow(side, c0, t, g, m);
      i1 := q.i1;
      builder.Add(t, side, QuadVertices(q));
      quads := quads + [q];
      MarkRect(side, q, m);
    }

    /**
     * Visits the cell c: a face that must be drawn and is not merged yet
     * starts a new quad; anything else is passed over. Returns the column
     * where the visit ended.
     */
    method Visit(side: Side, c: Cell, ghost m0: seq<bv8>, ghost list0: seq<Group>, ghost base: nat) returns (i1: int)
      requires Valid() && InGrid(c)
      requires base <= |quads| && |m0| == SLOTS && SideFrame(m0, mergedSides[..], side)
      requires SweepInv(Grid(), m0, mergedSides[..], side, quads[base..], Lin(c))
      requires builder.dataList == AddQuads(list0, quads[base..])
      modifies mergedSides, builder, this
      ensures c.i <= i1 < SIZE
      ensures Valid() && base <= |quads| && quads[..base] == old(quads[..base])
      ensures SideFrame(m0, mergedSides[..], side)
      ensures SweepInv(Grid(), m0, mergedSides[..], side, quads[base..], Lin(Cell(c.l, c.j, i1)) + 1)
      ensures builder.dataList == AddQuads(list0, quads[base..])
    {
      var p := ToPos(side, c);
      var currentType := TypeAt(buffer.voxels[..], p);
      var merged := IsSideMerged(p, side);
      if currentType == VT_EMPTY || merged || !IsVisibleAt(buffer.voxels[..], p, side) {
        SkipPreserves(Grid(), m0, mergedSides[..], side, quads[base..], c);
        i1 := c.i;
      } else {
        i1 := EmitAt(side, c, currentType, Grid(), mergedSides[..], m0, list0, base);
      }
    }

    /** The visit of a cell that starts a new quad, as an invariant-preserving step of the sweep. */
    method EmitAt(side: Side, c: Cell, t: bv16, ghost g: seq<bv8>, ghost m: seq<bv8>,
                  ghost m0: seq<bv8>, ghost list0: seq<Group>, ghost base: nat) returns (i1: int)
      requires Valid() && g == Grid() && m == mergedSides[..] && InGrid(c)
      requires Joinable(g, m, side, c, t) && t != VT_EMPTY
      requires base <= |quads| && |m0| == SLOTS && SideFrame(m0, m, side)
      requires SweepInv(g, m0, m, side, quads[base..], Lin(c))
      requires builder.dataList == AddQuads(list0, quads[base..])
      modifies mergedSides, builder, this
      ensures c.i <= i1 < SIZE
      ensures Valid() && base <= |quads| && quads[..base] == old(quads[..base])
      ensures SideFrame(m0, mergedSides[..], side)
      ensures SweepInv(Grid(), m0, mergedSides[..], side, quads[base..], Lin(Cell(c.l, c.j, i1)) + 1)
      ensures builder.dataList == AddQuads(list0, quads[base..])
    {
      ghost var q0 := quads;
      ghost var nq := quads[base..];
      ghost var dl := builder.dataList;
      var q;
      i1, q := Emit(side, c, t, g, m);
      AppendSlices(q0, q, base);
      EmitStep(g, m0, m, mergedSides[..], side, nq, q, quads[base..], Lin(Cell(c.l, c.j, i1)) + 1,
               list0, dl, builder.dataList);
      assert Grid() == g;
    }

    /** Visits row j of layer l, column by column. */
    method SweepRow(side: Side, l: int, j: int, ghost m0: seq<bv8>, ghost list0: seq<Group>, ghost base: nat)
      requires Valid() && 0 <= l < SIZE && 0 <= j < SIZE
      requires base <= |quads| && |m0| == SLOTS && SideFrame(m0, mergedSides[..], side)
      requires SweepInv(Grid(), m0, mergedSides[..], side, quads[base..], Lin(Cell(l, j, 0)))
      requires builder.dataList == AddQuads(list0, quads[base..])
      modifies mergedSides, builder, this
      ensures Valid() && base <= |quads| && quads[..base] == old(quads[..base])
      ensures SideFrame(m0, mergedSides[..], side)
      ensures SweepInv(Grid(), m0, mergedSides[..], side, quads[base..], Lin(Cell(l, j, 0)) + SIZE)
      ensures builder.dataList == AddQuads(list0, quads[base..])
    {
      var x := 0;
      while x < SIZE
        invariant 0 <= x <= SIZE
        invariant Valid() && base <= |quads| && quads[..base] == old(quads[..base])
        invariant SideFrame(m0, mergedSides[..], side)
        invariant SweepInv(Grid(), m0, mergedSides[..], side, quads[base..], Lin(Cell(l, j, x)))
        invariant builder.dataList == AddQuads(list0, quads[base..])
      {
        x := Visit(side, Cell(l, j, x), m0, list0, base);
        x := x + 1;
      }
    }

    /** Visits layer l, row by row. */
    method SweepLayer(side: Side, l: int, ghost m0: seq<bv8>, ghost list0: seq<Group>, ghost base: nat)
      requires Valid() && 0 <= l < SIZE
      requires base <= |quads| && |m0| == SLOTS && SideFrame(m0, mergedSides[..], side)
      requires SweepInv(Grid(), m0, mergedSides[..], side, quads[base..], Lin(Cell(l, 0, 0)))
      requires builder.dataList == AddQuads(list0, quads[base..])
      modifies mergedSides, builder, this
      ensures Valid()
      ensures base <= |quads| && quads[..base] == old(quads[..base])
      ensures SideFrame(m0, mergedSides[..], side)
      ensures SweepInv(Grid(), m0, mergedSides[..], side, quads[base..], Lin(Cell(l + 1, 0, 0)))
      ensures builder.dataList == AddQuads(list0, quads[base..])
    {
      var y := 0;
      while y < SIZE
        invariant 0 <= y <= SIZE
        invariant base <= |quads| && quads[..base] == old(quads[..base])
        invariant SideFrame(m0, mergedSides[..], side)
        invariant SweepInv(Grid(), m0, mergedSides[..], side, quads[base..], Lin(Cell(l, y, 0)))
        invariant builder.dataList == AddQuads(list0, quads[base..])
      {
        SweepRow(side, l, y, m0, list0, base);
        y := y + 1;
      }
    }

    /** Visits the layers from z0 on. */
    method SweepLayers(side: Side, z0: int, ghost m0: seq<bv8>, ghost list0: seq<Group>, ghost base: nat)
      requires Valid() && 0 <= z0 <= SIZE
      requires base <= |quads| && |m0| == SLOTS && SideFrame(m0, mergedSides[..], side)
      requires SweepInv(Grid(), m0, mergedSides[..], side, quads[base..], z0 * 256)
      requires builder.dataList == AddQuads(list0, quads[base..])
      modifies mergedSides, builder, this
      ensures base <= |quads| && quads[..base] == old(quads[..base])
      ensures SideFrame(m0, mergedSides[..], side)
      ensures SweepInv(Grid(), m0, mergedSides[..], side, quads[base..], CELLS)
      ensures builder.dataList == AddQuads(list0, quads[base..])
    {
      var z := z0;
      assert Lin(Cell(z0, 0, 0)) == z0 * 256;
      while z < SIZE
        invariant z0 <= z <= SIZE
        invariant Valid()
        invariant base <= |quads| && quads[..base] == old(quads[..base])
        invariant SideFrame(m0, mergedSides[..], side)
        invariant SweepInv(Grid(), m0, mergedSides[..], side, quads[base..], Lin(Cell(z, 0, 0)))
        invariant builder.dataList == AddQuads(list0, quads[base..])
      {
        SweepLayer(side, z, m0, list0, base);
        z := z + 1;
      }
      assert Lin(Cell(z, 0, 0)) == CELLS;
    }

    /**
     * One sweep (MergeFrontFaces, MergeBackFaces, ... in sweep coordinates):
     * the quads it appends tile exactly the faces of the side that must be
     * drawn and were not merged before, and it touches no other side's bytes.
     * For BACK, growing along x tests the voxel at x - 1, the next cell of
     * the sweep; at FacesMerger.cs:229 the source tests the other cursor
     * instead, which has no position before the sweep's first growth along
     * y (BackTestAsWrittenMisfires).
     */
    method MergeSide(side: Side)
      requires Valid()
      modifies mergedSides, builder, this
      ensures |old(quads)| <= |quads| && quads[..|old(quads)|] == old(quads)
      ensures Tiling(Grid(), old(mergedSides[..]), mergedSides[..], side, quads[|old(quads)|..])
      ensures SideFrame(old(mergedSides[..]), mergedSides[..], side)
      ensures builder.dataList == AddQuads(old(builder.dataList), quads[|old(quads)|..])
    {
      ghost var m0 := mergedSides[..];
      ghost var list0 := builder.dataList;
      ghost var base := |quads|;
      assert quads[base..] == [];
      assert quads[..base] == quads;
      SweepStart(Grid(), m0, side);
      SweepLayers(side, 0, m0, list0, base);
      ghost var nq := quads[base..];
      SweepEnd(Grid(), m0, mergedSides[..], side, nq);
    }
  
    /**
     * The k-th sweep of Merge, on the grid g and the merged-side bytes m: its
     * side is added to those already swept, and m' is the new bytes.
     */
    method MergeNext(k: int, ghost g: seq<bv8>, ghost m: seq<bv8>, ghost per: seq<seq<Quad>>,
                     ghost m0: seq<bv8>, ghost q0: seq<Quad>, ghost d0: seq<Group>)
      returns (ghost m': seq<bv8>, ghost per': seq<seq<Quad>>)
      requires Valid() && g == Grid() && m == mergedSides[..] && 0 <= k < |MERGE_ORDER|
      requires MergedSoFar(g, m0, m, MERGE_ORDER[..k], per)
      requires quads == q0 + Flatten(per) && builder.dataList == AddQuads(d0, Flatten(per))
      modifies mergedSides, builder, this
      ensures Valid() && g == Grid() && m' == mergedSides[..]
      ensures MergedSoFar(g, m0, m', MERGE_ORDER[..k + 1], per')
      ensures quads == q0 + Flatten(per') && builder.dataList == AddQuads(d0, Flatten(per'))
    {
      ghost var before := quads;
      ghost var dl := builder.dataList;
      MergeSide(MERGE_ORDER[k]);
      m' := mergedSides[..];
      per' := per + [quads[|before|..]];
      MergedOrderStep(g, m0, m, m', k, per, quads[|before|..]);
      MergeQuadsStep(per, q0, before, quads, per');
      MergeGroupsStep(per, quads[|before|..], d0, dl, builder.dataList);
    }

    /**
     * Runs the FRONT, BACK, TOP, DOWN, RIGHT and LEFT sweeps once each, in
     * that order, and returns the builder: the k-th run of new quads tiles the
     * faces of side MERGE_ORDER[k] that must be drawn and were not merged.
     * The six calls are written as one loop over MERGE_ORDER.
     */
    method Merge() returns (b: MeshBuilder, ghost per: seq<seq<Quad>>)
      requires Valid()
      modifies mergedSides, builder, this
      ensures b == builder && Valid()
      ensures MergedSoFar(Grid(), old(mergedSides[..]), mergedSides[..], MERGE_ORDER, per)
      ensures quads == old(quads) + Flatten(per)
      ensures builder.dataList == AddQuads(old(builder.dataList), Flatten(per))
    {
      ghost var g := Grid();
      ghost var m0 := mergedSides[..];
      ghost var q0 := quads;
      ghost var d0 := builder.dataList;
      ghost var m := m0;
      per := [];
      for k := 0 to |MERGE_ORDER|
        invariant Valid() && g == Grid() && m == mergedSides[..]
        invariant MergedSoFar(g, m0, m, MERGE_ORDER[..k], per)
        invariant quads == q0 + Flatten(per) && builder.dataList == AddQuads(d0, Flatten(per))
      {
        m, per := MergeNext(k, g, m, per, m0, q0, d0);
      }
      assert MERGE_ORDER[..|MERGE_ORDER|] == MERGE_ORDER;
      b := builder;
    }
  }
}
