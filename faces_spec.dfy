/**
 * What a sweep of the greedy mesher promises: the quads it emits are valid,
 * pairwise disjoint and cover exactly the faces that must be drawn, and the
 * merged-side bytes record exactly what was covered.
 */
module FacesSpec {
  import opened Voxel
  import opened ChunkDims
  import opened ChunkBuffers
  import opened VoxRefs
  import opened MeshBuilders
  import opened SweepGeometry

  /** The groups after adding every quad's vertices, in order. */
  function AddQuads(gs: seq<Group>, qs: seq<Quad>): seq<Group> {
    if |qs| == 0 then gs
    else
      var q := qs[|qs| - 1];
      Added(AddQuads(gs, qs[..|qs| - 1]), q.voxelType, q.side, QuadVertices(q))
  }

  /**
   * A quad emitted by the sweep of one side: in the grid, of a non-empty type,
   * and made only of faces that must be drawn, of that type, not merged before
   * the sweep.
   */
  ghost predicate QuadValid(s: seq<bv8>, m0: seq<bv8>, side: Side, q: Quad)
    requires |s| == BUFFER_SIZE && |m0| == SLOTS
  {
    q.side == side && WellFormed(q) && q.voxelType != VT_EMPTY &&
    forall c :: InGrid(c) && InQuad(c, q) ==>
      Eligible(s, side, c) && TypeAt(s, ToPos(side, c)) == q.voxelType && m0[Slot(side, c)] != 1
  }

  /** Only the bytes of one side may differ. */
  ghost predicate SideFrame(m0: seq<bv8>, m: seq<bv8>, side: Side) {
    |m0| == SLOTS && |m| == SLOTS &&
    forall k :: 0 <= k < SLOTS && k % SIDE_COUNT != side ==> m[k] == m0[k]
  }

  /**
   * The state of a sweep before it visits the cell at position n: the quads
   * so far are valid and disjoint, a cell is marked exactly when it was
   * marked before the sweep or lies in a quad, and every face that must be
   * drawn among the visited cells is marked.
   */
  ghost predicate SweepInv(s: seq<bv8>, m0: seq<bv8>, m: seq<bv8>, side: Side, nq: seq<Quad>, n: int)
    requires |s| == BUFFER_SIZE && |m0| == SLOTS && |m| == SLOTS
  {
    (forall q :: 0 <= q < |nq| ==> QuadValid(s, m0, side, nq[q])) &&
    (forall a, b :: 0 <= a < b < |nq| ==> DisjointQuads(nq[a], nq[b])) &&
    (forall c :: InGrid(c) ==> (m[Slot(side, c)] == 1 <==> m0[Slot(side, c)] == 1 || Covered(nq, c))) &&
    (forall c :: InGrid(c) && Covered(nq, c) ==> Eligible(s, side, c) && m0[Slot(side, c)] != 1) &&
    (forall c :: InGrid(c) && Lin(c) < n && Eligible(s, side, c) ==> m[Slot(side, c)] == 1)
  }

  /**
   * The outcome of a sweep: valid, pairwise disjoint quads that cover exactly
   * the faces that must be drawn and were not merged before; afterwards a
   * face is marked exactly when it was marked before or must be drawn.
   */
  ghost predicate Tiling(s: seq<bv8>, m0: seq<bv8>, m: seq<bv8>, side: Side, nq: seq<Quad>)
    requires |s| == BUFFER_SIZE && |m0| == SLOTS && |m| == SLOTS
  {
    (forall q :: 0 <= q < |nq| ==> QuadValid(s, m0, side, nq[q])) &&
    (forall a, b :: 0 <= a < b < |nq| ==> DisjointQuads(nq[a], nq[b])) &&
    (forall c :: InGrid(c) ==> (Covered(nq, c) <==> Eligible(s, side, c) && m0[Slot(side, c)] != 1)) &&
    (forall c :: InGrid(c) ==> (m[Slot(side, c)] == 1 <==> m0[Slot(side, c)] == 1 || Eligible(s, side, c)))
  }

  lemma SweepStart(s: seq<bv8>, m: seq<bv8>, side: Side)
    requires |s| == BUFFER_SIZE && |m| == SLOTS
    ensures SweepInv(s, m, m, side, [], 0)
  {
  }

  /** Passing over a cell that starts no quad keeps the sweep state. */
  lemma SkipPreserves(s: seq<bv8>, m0: seq<bv8>, m: seq<bv8>, side: Side, nq: seq<Quad>, c: Cell)
    requires |s| == BUFFER_SIZE && |m0| == SLOTS && |m| == SLOTS && InGrid(c)
    requires SweepInv(s, m0, m, side, nq, Lin(c))
    requires !(Eligible(s, side, c) && m[Slot(side, c)] != 1)
    ensures SweepInv(s, m0, m, side, nq, Lin(c) + 1)
  {
    forall c' | InGrid(c') && Lin(c') < Lin(c) + 1 && Eligible(s, side, c')
      ensures m[Slot(side, c')] == 1
    {
      LinOrder(c', c);
    }
  }

  /**
   * Emitting a quad whose cells are all joinable, starting at the cell being
   * visited, and marking exactly its cells keeps the sweep state, with the
   * visit resuming after the end of the quad's first row.
   */
  lemma EmitPreserves(s: seq<bv8>, m0: seq<bv8>, m: seq<bv8>, m': seq<bv8>, side: Side, nq: seq<Quad>, q: Quad)
    requires |s| == BUFFER_SIZE && |m0| == SLOTS && |m| == SLOTS && |m'| == SLOTS
    requires WellFormed(q) && q.side == side && q.voxelType != VT_EMPTY
    requires SweepInv(s, m0, m, side, nq, Lin(Cell(q.l, q.j0, q.i0)))
    requires forall c :: InGrid(c) && InQuad(c, q) ==> Joinable(s, m, side, c, q.voxelType)
    requires forall c :: InGrid(c) ==> m'[Slot(side, c)] == if InQuad(c, q) then 1 else m[Slot(side, c)]
    ensures SweepInv(s, m0, m', side, nq + [q], Lin(Cell(q.l, q.j0, q.i1)) + 1)
  {
    var nq' := nq + [q];
    assert nq'[..|nq|] == nq;
    assert forall c :: Covered(nq', c) <==> InQuad(c, q) || Covered(nq, c);
    NewQuadDisjoint(m, side, nq, q);
    NewQuadVisited(s, m, m', side, q);
  }

  /** A quad of unmarked cells overlaps none of the quads whose cells are marked. */
  lemma NewQuadDisjoint(m: seq<bv8>, side: Side, nq: seq<Quad>, q: Quad)
    requires |m| == SLOTS && WellFormed(q) && forall a :: 0 <= a < |nq| ==> WellFormed(nq[a])
    requires forall c :: InGrid(c) && Covered(nq, c) ==> m[Slot(side, c)] == 1
    requires forall c :: InGrid(c) && InQuad(c, q) ==> m[Slot(side, c)] != 1
    ensures forall a :: 0 <= a < |nq| ==> DisjointQuads(nq[a], q)
  {
    forall a | 0 <= a < |nq|
      ensures DisjointQuads(nq[a], q)
    {
      if !DisjointQuads(nq[a], q) {
        OverlapWitness(nq[a], q);
        var w := Cell(q.l, if nq[a].j0 < q.j0 then q.j0 else nq[a].j0, if nq[a].i0 < q.i0 then q.i0 else nq[a].i0);
        CoveredByMember(nq, a, w);
        assert false;
      }
    }
  }

  /**
   * Once a quad starting at the current cell is marked, every face up to the
   * end of its first row that must be drawn is marked.
   */
  lemma NewQuadVisited(s: seq<bv8>, m: seq<bv8>, m': seq<bv8>, side: Side, q: Quad)
    requires |s| == BUFFER_SIZE && |m| == SLOTS && |m'| == SLOTS && WellFormed(q)
    requires forall c :: InGrid(c) && Lin(c) < Lin(Cell(q.l, q.j0, q.i0)) && Eligible(s, side, c) ==> m[Slot(side, c)] == 1
    requires forall c :: InGrid(c) ==> m'[Slot(side, c)] == if InQuad(c, q) then 1 else m[Slot(side, c)]
    ensures forall c :: InGrid(c) && Lin(c) < Lin(Cell(q.l, q.j0, q.i1)) + 1 && Eligible(s, side, c) ==> m'[Slot(side, c)] == 1
  {
    forall c' | InGrid(c') && Lin(c') < Lin(Cell(q.l, q.j0, q.i1)) + 1 && Eligible(s, side, c')
      ensures m'[Slot(side, c')] == 1
    {
      LinOrder(c', Cell(q.l, q.j0, q.i0));
      LinOrder(c', Cell(q.l, q.j0, q.i1));
    }
  }

  /**
   * A rectangle grown from a joinable start cell, first along its row and
   * then row by row, is joinable throughout.
   */
  lemma RectJoinable(s: seq<bv8>, m: seq<bv8>, side: Side, q: Quad)
    requires |s| == BUFFER_SIZE && |m| == SLOTS && WellFormed(q)
    requires Joinable(s, m, side, Cell(q.l, q.j0, q.i0), q.voxelType)
    requires RowJoinable(s, m, side, q.l, q.j0, q.i0 + 1, q.i1, q.voxelType)
    requires forall j :: q.j0 < j <= q.j1 ==> RowJoinable(s, m, side, q.l, j, q.i0, q.i1, q.voxelType)
    ensures forall c :: InGrid(c) && InQuad(c, q) ==> Joinable(s, m, side, c, q.voxelType)
  {
    forall c | InGrid(c) && InQuad(c, q)
      ensures Joinable(s, m, side, c, q.voxelType)
    {
      if c.j == q.j0 && c.i != q.i0 {
        assert RowJoinable(s, m, side, q.l, q.j0, q.i0 + 1, q.i1, q.voxelType);
      } else if c.j != q.j0 {
        assert RowJoinable(s, m, side, q.l, c.j, q.i0, q.i1, q.voxelType);
      }
    }
  }

  lemma AppendSlices(a: seq<Quad>, x: Quad, b: nat)
    requires b <= |a|
    ensures (a + [x])[b..] == a[b..] + [x] && (a + [x])[..b] == a[..b]
  {
  }

  /**
   * The whole bookkeeping of one emitted quad: the sweep state, the side
   * frame and the builder's groups all move on by that quad.
   */
  lemma EmitStep(s: seq<bv8>, m0: seq<bv8>, m: seq<bv8>, m': seq<bv8>, side: Side, nq: seq<Quad>, q: Quad,
                 nq': seq<Quad>, n': int, list0: seq<Group>, dl: seq<Group>, dl': seq<Group>)
    requires |s| == BUFFER_SIZE && |m0| == SLOTS && |m| == SLOTS && |m'| == SLOTS
    requires WellFormed(q) && q.side == side && q.voxelType != VT_EMPTY
    requires SideFrame(m0, m, side)
    requires SweepInv(s, m0, m, side, nq, Lin(Cell(q.l, q.j0, q.i0)))
    requires forall c :: InGrid(c) && InQuad(c, q) ==> Joinable(s, m, side, c, q.voxelType)
    requires forall c :: InGrid(c) ==> m'[Slot(side, c)] == if InQuad(c, q) then 1 else m[Slot(side, c)]
    requires forall k :: 0 <= k < SLOTS && k % SIDE_COUNT != side ==> m'[k] == m[k]
    requires nq' == nq + [q] && n' == Lin(Cell(q.l, q.j0, q.i1)) + 1
    requires dl == AddQuads(list0, nq) && dl' == Added(dl, q.voxelType, side, QuadVertices(q))
    ensures SideFrame(m0, m', side)
    ensures SweepInv(s, m0, m', side, nq', n')
    ensures dl' == AddQuads(list0, nq')
  {
    EmitPreserves(s, m0, m, m', side, nq, q);
    assert nq'[..|nq|] == nq;
  }

  /** A sweep that has visited every cell has produced a tiling. */
  lemma SweepEnd(s: seq<bv8>, m0: seq<bv8>, m: seq<bv8>, side: Side, nq: seq<Quad>)
    requires |s| == BUFFER_SIZE && |m0| == SLOTS && |m| == SLOTS
    requires SweepInv(s, m0, m, side, nq, CELLS)
    ensures Tiling(s, m0, m, side, nq)
  {
  }

  // ---- Merge: the six sweeps in a row ----

  /** The order in which Merge runs the sweeps. */
  const MERGE_ORDER: seq<Side> := [FRONT, BACK, TOP, DOWN, Voxel.RIGHT, Voxel.LEFT]

  /** Merge sweeps every side exactly once. */
  lemma MergeOrderCoversSides()
    ensures |MERGE_ORDER| == 6
    ensures forall s: Side :: multiset(MERGE_ORDER)[s] == 1
  {
  }

  /** No side comes up twice in MERGE_ORDER. */
  lemma MergeOrderDistinct(k: int)
    requires 0 <= k < |MERGE_ORDER|
    ensures MERGE_ORDER[k] !in MERGE_ORDER[..k]
  {
  }

  /** The quads of several sweeps, one after the other. */
  function Flatten(per: seq<seq<Quad>>): seq<Quad> {
    if |per| == 0 then [] else Flatten(per[..|per| - 1]) + per[|per| - 1]
  }

  lemma FlattenAppend(per: seq<seq<Quad>>, x: seq<Quad>)
    ensures Flatten(per + [x]) == Flatten(per) + x
  {
    assert (per + [x])[..|per|] == per;
  }

  /** Adding two runs of quads one after the other is adding their concatenation. */
  lemma {:induction false} AddQuadsConcat(gs: seq<Group>, a: seq<Quad>, b: seq<Quad>)
    ensures AddQuads(AddQuads(gs, a), b) == AddQuads(gs, a + b)
    decreases |b|
  {
    if |b| > 0 {
      var b' := b[..|b| - 1];
      assert (a + b)[..|a + b| - 1] == a + b';
      assert (a + b)[|a + b| - 1] == b[|b| - 1];
      AddQuadsConcat(gs, a, b');
    } else {
      assert a + b == a;
    }
  }

  /** Two byte tables agree on every cell of one side. */
  ghost predicate SameOnSide(m: seq<bv8>, m': seq<bv8>, side: Side)
    requires |m| == SLOTS && |m'| == SLOTS
  {
    forall c :: InGrid(c) ==> m[Slot(side, c)] == m'[Slot(side, c)]
  }

  /** A tiling only depends on the side's own bytes, before and after. */
  lemma TilingTransfer(s: seq<bv8>, m0: seq<bv8>, m: seq<bv8>, m0': seq<bv8>, m': seq<bv8>, side: Side, nq: seq<Quad>)
    requires |s| == BUFFER_SIZE && |m0| == SLOTS && |m| == SLOTS && |m0'| == SLOTS && |m'| == SLOTS
    requires Tiling(s, m0, m, side, nq)
    requires SameOnSide(m0, m0', side) && SameOnSide(m, m', side)
    ensures Tiling(s, m0', m', side, nq)
  {
    forall q | 0 <= q < |nq|
      ensures QuadValid(s, m0', side, nq[q])
    {
      assert QuadValid(s, m0, side, nq[q]);
    }
  }

  /** A frame for another side keeps every byte of this side. */
  lemma OtherFrameSameOnSide(m: seq<bv8>, m': seq<bv8>, other: Side, side: Side)
    requires SideFrame(m, m', other) && other != side
    ensures SameOnSide(m, m', side)
  {
    forall c | InGrid(c)
      ensures m[Slot(side, c)] == m'[Slot(side, c)]
    {
      var k := Slot(side, c);
      assert k % SIDE_COUNT == side;
    }
  }

  /** The quads of the k-th sweep tile side sides[k] against m0, for every k. */
  ghost predicate Tilings(s: seq<bv8>, m0: seq<bv8>, m: seq<bv8>, sides: seq<Side>, per: seq<seq<Quad>>)
    requires |s| == BUFFER_SIZE && |m0| == SLOTS && |m| == SLOTS
    decreases |sides|
  {
    |per| == |sides| &&
    (|sides| > 0 ==>
      Tilings(s, m0, m, sides[..|sides| - 1], per[..|per| - 1]) &&
      Tiling(s, m0, m, sides[|sides| - 1], per[|per| - 1]))
  }

  lemma {:induction false} TilingsEach(s: seq<bv8>, m0: seq<bv8>, m: seq<bv8>, sides: seq<Side>, per: seq<seq<Quad>>)
    requires |s| == BUFFER_SIZE && |m0| == SLOTS && |m| == SLOTS
    requires Tilings(s, m0, m, sides, per)
    ensures |per| == |sides| && forall k :: 0 <= k < |sides| ==> Tiling(s, m0, m, sides[k], per[k])
    decreases |sides|
  {
    if |sides| > 0 {
      var n := |sides| - 1;
      TilingsEach(s, m0, m, sides[..n], per[..n]);
      assert forall k :: 0 <= k < n ==> sides[..n][k] == sides[k] && per[..n][k] == per[k];
    }
  }

  /** The tilings of sweeps of other sides survive a sweep of `side`. */
  lemma {:induction false} TilingsKept(s: seq<bv8>, m0: seq<bv8>, m: seq<bv8>, m': seq<bv8>,
                                       sides: seq<Side>, per: seq<seq<Quad>>, side: Side)
    requires |s| == BUFFER_SIZE && |m0| == SLOTS
    requires SideFrame(m, m', side) && side !in sides
    requires Tilings(s, m0, m, sides, per)
    ensures Tilings(s, m0, m', sides, per)
    decreases |sides|
  {
    if |sides| > 0 {
      var n := |sides| - 1;
      assert sides[n] in sides;
      assert forall x :: x in sides[..n] ==> x in sides;
      TilingsKept(s, m0, m, m', sides[..n], per[..n], side);
      OtherFrameSameOnSide(m, m', side, sides[n]);
      TilingTransfer(s, m0, m, m0, m', sides[n], per[n]);
    }
  }

  /**
   * The state of Merge after the sweeps of `sides`, started on the bytes m0:
   * the quads of the k-th sweep tile side sides[k] against m0, and the bytes
   * of every side not swept yet are those of m0.
   */
  ghost predicate MergedSoFar(s: seq<bv8>, m0: seq<bv8>, m: seq<bv8>, sides: seq<Side>, per: seq<seq<Quad>>)
    requires |s| == BUFFER_SIZE
  {
    |m0| == SLOTS && |m| == SLOTS &&
    (forall k :: 0 <= k < SLOTS && (k % SIDE_COUNT) !in sides ==> m[k] == m0[k]) &&
    Tilings(s, m0, m, sides, per)
  }

  /**
   * A sweep of a side not swept yet keeps the tilings of the earlier sweeps,
   * and tiles its own side against the bytes Merge started from.
   */
  lemma MergedStep(s: seq<bv8>, m0: seq<bv8>, m: seq<bv8>, m': seq<bv8>, sides: seq<Side>,
                   per: seq<seq<Quad>>, side: Side, nq: seq<Quad>)
    requires |s| == BUFFER_SIZE
    requires MergedSoFar(s, m0, m, sides, per) && side !in sides
    requires SideFrame(m, m', side) && Tiling(s, m, m', side, nq)
    ensures MergedSoFar(s, m0, m', sides + [side], per + [nq])
  {
    TilingsKept(s, m0, m, m', sides, per, side);
    forall c | InGrid(c)
      ensures m[Slot(side, c)] == m0[Slot(side, c)]
    {
      var j := Slot(side, c);
      assert j % SIDE_COUNT == side;
    }
    TilingTransfer(s, m, m', m0, m', side, nq);
    assert (sides + [side])[..|sides|] == sides && (per + [nq])[..|per|] == per;
  }

  /** MergedStep for the k-th sweep of Merge. */
  lemma MergedOrderStep(s: seq<bv8>, m0: seq<bv8>, m: seq<bv8>, m': seq<bv8>, k: int,
                        per: seq<seq<Quad>>, nq: seq<Quad>)
    requires |s| == BUFFER_SIZE && 0 <= k < |MERGE_ORDER|
    requires MergedSoFar(s, m0, m, MERGE_ORDER[..k], per)
    requires SideFrame(m, m', MERGE_ORDER[k]) && Tiling(s, m, m', MERGE_ORDER[k], nq)
    ensures MergedSoFar(s, m0, m', MERGE_ORDER[..k + 1], per + [nq])
  {
    MergeOrderDistinct(k);
    MergedStep(s, m0, m, m', MERGE_ORDER[..k], per, MERGE_ORDER[k], nq);
    assert MERGE_ORDER[..k] + [MERGE_ORDER[k]] == MERGE_ORDER[..k + 1];
  }

  /** The quads of Merge after one more sweep. */
  lemma MergeQuadsStep(per: seq<seq<Quad>>, q0: seq<Quad>, before: seq<Quad>, after: seq<Quad>, per': seq<seq<Quad>>)
    requires before == q0 + Flatten(per)
    requires |before| <= |after| && after[..|before|] == before
    requires per' == per + [after[|before|..]]
    ensures after == q0 + Flatten(per')
  {
    var nq := after[|before|..];
    FlattenAppend(per, nq);
    assert after == before + nq;
  }

  /** The groups of Merge after one more sweep. */
  lemma MergeGroupsStep(per: seq<seq<Quad>>, nq: seq<Quad>, d0: seq<Group>, dl: seq<Group>, dl': seq<Group>)
    requires dl == AddQuads(d0, Flatten(per)) && dl' == AddQuads(dl, nq)
    ensures dl' == AddQuads(d0, Flatten(per + [nq]))
  {
    FlattenAppend(per, nq);
    AddQuadsConcat(d0, Flatten(per), nq);
  }
}
