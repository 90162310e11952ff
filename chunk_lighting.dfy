/**
 * Smooth lighting: the ambient-occlusion rule that turns the light around a
 * face into one value per vertex, the corner tables that say which samples
 * meet at each vertex, and the older lighting table that applies the rule
 * to a whole chunk.
 */
module ChunkLight {
  import opened Wrappers
  import opened Voxel
  import opened Vec3Math
  import opened ChunkDims
  import opened ChunkBuffers
  import opened VoxRefs

  /** The light byte of a sample that carries no light value: a hidden side or a missing neighbour. */
  const INVALID_LIGHTING: bv8 := 255

  // ---- the ambient-occlusion rule ----

  /** The value a sample contributes: an invalid sample counts as dark. */
  function ParseValue(b: bv8): int
  {
    if b == INVALID_LIGHTING then 0 else b as int
  }

  /**
   * The light of one vertex of a face: the face's own light, the two edge
   * samples and the corner sample averaged, with the corner counted as dark
   * when both edges are dark, because they block the light coming from it.
   */
  function AmbientOcclusion(sideLighting: int, side1: bv8, side2: bv8, corner: bv8): real
  {
    var e1 := ParseValue(side1);
    var e2 := ParseValue(side2);
    var c := if e1 == 0 && e2 == 0 then 0 else ParseValue(corner);
    (sideLighting + e1 + e2 + c) as real / 4.0
  }

  /** A parsed sample is a light value below the invalid marker. */
  lemma ParseValueRange(b: bv8)
    ensures 0 <= ParseValue(b) < INVALID_LIGHTING as int
    ensures ParseValue(b) == 0 <==> b == 0 || b == INVALID_LIGHTING
  {
  }

  /** A quarter of a sum of four values no larger than m is no larger than m. */
  lemma QuarterOfSum(n: int, m: int)
    requires 0 <= n <= 4 * m
    ensures 0.0 <= n as real / 4.0 <= m as real
  {
  }

  /** The vertex light is never negative and never brighter than a bound on all four of its parsed inputs. */
  lemma AmbientOcclusionBounds(sideLighting: int, side1: bv8, side2: bv8, corner: bv8, bound: int)
    requires 0 <= sideLighting <= bound
    requires ParseValue(side1) <= bound && ParseValue(side2) <= bound && ParseValue(corner) <= bound
    ensures 0.0 <= AmbientOcclusion(sideLighting, side1, side2, corner) <= bound as real
  {
    ParseValueRange(side1);
    ParseValueRange(side2);
    ParseValueRange(corner);
    var e1 := ParseValue(side1);
    var e2 := ParseValue(side2);
    var c := if e1 == 0 && e2 == 0 then 0 else ParseValue(corner);
    QuarterOfSum(sideLighting + e1 + e2 + c, bound);
  }

  /** A face lit evenly from every direction keeps its light, and an invalid sample weighs like a dark one. */
  lemma AmbientOcclusionCalibrated(light: bv8, sideLighting: int, side1: bv8, side2: bv8, corner: bv8)
    ensures light != INVALID_LIGHTING ==> AmbientOcclusion(light as int, light, light, light) == light as int as real
    ensures AmbientOcclusion(sideLighting, INVALID_LIGHTING, side2, corner) == AmbientOcclusion(sideLighting, 0, side2, corner)
    ensures AmbientOcclusion(sideLighting, side1, INVALID_LIGHTING, corner) == AmbientOcclusion(sideLighting, side1, 0, corner)
    ensures AmbientOcclusion(sideLighting, side1, side2, INVALID_LIGHTING) == AmbientOcclusion(sideLighting, side1, side2, 0)
  {
  }

  /**
   * The two edges play the same part, and when both are dark the corner does
   * not matter: the vertex gets a quarter of the face's own light.
   */
  lemma AmbientOcclusionEdges(sideLighting: int, side1: bv8, side2: bv8, corner: bv8, other: bv8)
    ensures AmbientOcclusion(sideLighting, side1, side2, corner) == AmbientOcclusion(sideLighting, side2, side1, corner)
    ensures ParseValue(side1) == 0 && ParseValue(side2) == 0 ==>
      AmbientOcclusion(sideLighting, side1, side2, corner) == sideLighting as real / 4.0 &&
      AmbientOcclusion(sideLighting, side1, side2, corner) == AmbientOcclusion(sideLighting, side1, side2, other)
  {
  }

  // ---- the two light samples ----

  /** The sample a voxel of this chunk gives: its light byte for a visible side, otherwise invalid. */
  function LocalSample(s: seq<bv8>, v: Vec3, visible: bool): bv8
    requires |s| == BUFFER_SIZE && InChunk(v)
  {
    if visible then LightAt(s, v) else INVALID_LIGHTING
  }

  /**
   * The sample an answer from another chunk gives: the snapshot's light for a
   * visible side, full sunlight when there is no snapshot, otherwise invalid.
   */
  function SnapshotSample(snap: Option<VoxSnap>, visible: bool): bv8
  {
    if !visible then INVALID_LIGHTING
    else if snap.Some? then snap.value.light
    else SUNLIGHT_MAX_VALUE
  }

  /** `Calc` on a voxel: reads the light byte under the cursor when the side is visible. */
  method CalcVoxel(vox: VoxRef, visible: bool) returns (r: bv8)
    requires vox.buffer.Allocated() && vox.Targeted()
    ensures r == LocalSample(vox.buffer.voxels[..], vox.pos.value, visible)
  {
    if visible {
      r := vox.GetLight();
    } else {
      r := INVALID_LIGHTING;
    }
  }

  /**
   * A voxel's snapshot, as a neighbouring chunk answers it, samples like the
   * voxel itself; a hidden side is invalid either way, and a missing voxel
   * counts as open sky.
   */
  lemma SamplesAgree(s: seq<bv8>, v: Vec3, visible: bool)
    requires |s| == BUFFER_SIZE && InChunk(v)
    ensures SnapshotSample(Some(VoxSnap(TypeAt(s, v), LightAt(s, v))), visible) == LocalSample(s, v, visible)
    ensures !visible ==> SnapshotSample(None, visible) == INVALID_LIGHTING && LocalSample(s, v, visible) == INVALID_LIGHTING
    ensures visible ==> SnapshotSample(None, visible) == SUNLIGHT_MAX_VALUE
  {
  }

  // ---- the corner tables ----

  /**
   * The 20 offsets of the edge and corner neighbours of a voxel: layer y = 1,
   * then y = 0, then y = -1, each with x and z running from 1 down to -1 and
   * the face neighbours left out.
   */
  const CORNERS_DIR: seq<Vec3> := [
    Vec3(1, 1, 1), Vec3(1, 1, 0), Vec3(1, 1, -1),
    Vec3(0, 1, 1), Vec3(0, 1, -1),
    Vec3(-1, 1, 1), Vec3(-1, 1, 0), Vec3(-1, 1, -1),
    Vec3(1, 0, 1), Vec3(1, 0, -1),
    Vec3(-1, 0, 1), Vec3(-1, 0, -1),
    Vec3(1, -1, 1), Vec3(1, -1, 0), Vec3(1, -1, -1),
    Vec3(0, -1, 1), Vec3(0, -1, -1),
    Vec3(-1, -1, 1), Vec3(-1, -1, 0), Vec3(-1, -1, -1)
  ]

  /**
   * For each side and each of its four vertices, the CORNERS_DIR indices of
   * the two edge samples and the corner sample that meet at that vertex.
   */
  const CORNERS: seq<seq<seq<int>>> := [
    [[15, 10, 17], [15, 8, 12], [3, 8, 0], [3, 10, 5]],
    [[13, 8, 12], [13, 9, 14], [1, 9, 2], [1, 8, 0]],
    [[16, 9, 14], [16, 11, 19], [4, 11, 7], [4, 9, 2]],
    [[18, 11, 19], [18, 10, 17], [6, 10, 5], [6, 11, 7]],
    [[3, 6, 5], [3, 1, 0], [4, 1, 2], [4, 6, 7]],
    [[16, 18, 19], [16, 13, 14], [15, 13, 12], [15, 18, 17]]
  ]

  /** The number of non-zero components of an offset: 1 for a face, 2 for an edge, 3 for a corner neighbour. */
  function Reach(v: Vec3): nat
  {
    (if v.x != 0 then 1 else 0) + (if v.y != 0 then 1 else 0) + (if v.z != 0 then 1 else 0)
  }

  /** Among the neighbour offsets, the face directions are exactly those of reach 1. */
  lemma FacesHaveReachOne(v: Vec3)
    requires IsNeighbourOffset(v)
    ensures 1 <= Reach(v) <= 3
    ensures IsUnit(v) <==> Reach(v) == 1
  {
  }

  /** The position of an edge or corner offset in CORNERS_DIR: its ALL_DIRS index less the face directions before it. */
  function CornerIndex(v: Vec3): int
  {
    var n := NeighbourIndex(v);
    n - (if n > 4 then 1 else 0) - (if n > 10 then 1 else 0) - (if n > 12 then 1 else 0)
      - (if n > 13 then 1 else 0) - (if n > 15 then 1 else 0) - (if n > 21 then 1 else 0)
  }

  /** Every entry of CORNERS_DIR is an edge or corner neighbour offset. */
  lemma CornersDirAreEdgesAndCorners()
    ensures |CORNERS_DIR| == 20
    ensures forall k :: 0 <= k < 20 ==> IsNeighbourOffset(CORNERS_DIR[k])
    ensures forall k :: 0 <= k < 20 ==> Reach(CORNERS_DIR[k]) >= 2
  {
  }

  /** Entry k of CORNERS_DIR has CornerIndex k, so no offset appears twice. */
  lemma CornersDirIndexed()
    ensures |CORNERS_DIR| == 20
    ensures forall k :: 0 <= k < 20 ==> CornerIndex(CORNERS_DIR[k]) == k
  {
  }

  /** Every edge and corner neighbour offset appears in CORNERS_DIR, at its CornerIndex. */
  lemma CornersDirCover()
    ensures forall v :: IsNeighbourOffset(v) && Reach(v) >= 2 ==> 0 <= CornerIndex(v) < 20 && CORNERS_DIR[CornerIndex(v)] == v
  {
  }

  /** CORNERS_DIR keeps the order of ALL_DIRS: its entries' ALL_DIRS indices rise. */
  lemma CornersDirKeepsOrder()
    ensures forall k :: 0 <= k < 19 ==> NeighbourIndex(CORNERS_DIR[k]) < NeighbourIndex(CORNERS_DIR[k + 1])
  {
  }

  /** Entry j (edge, edge, corner) of vertex i of a side in CORNERS: always an index into CORNERS_DIR. */
  function CornerAt(side: Side, i: int, j: int): (r: int)
    requires 0 <= i < 4 && 0 <= j < 3
    ensures 0 <= r < 20
  {
    CORNERS[side][i][j]
  }

  /** The component of v along the axis of the face direction d. */
  function OnAxis(v: Vec3, d: Vec3): int { if d.x != 0 then v.x else if d.y != 0 then v.y else v.z }

  /** At vertex i of a side, the three samples lie in the layer in front of that side. */
  lemma CornerSamplesInFront(side: Side, i: int)
    requires 0 <= i < 4
    ensures OnAxis(CORNERS_DIR[CORNERS[side][i][0]], ALL_DIRECTIONS[side]) == OnAxis(ALL_DIRECTIONS[side], ALL_DIRECTIONS[side])
    ensures OnAxis(CORNERS_DIR[CORNERS[side][i][1]], ALL_DIRECTIONS[side]) == OnAxis(ALL_DIRECTIONS[side], ALL_DIRECTIONS[side])
    ensures OnAxis(CORNERS_DIR[CORNERS[side][i][2]], ALL_DIRECTIONS[side]) == OnAxis(ALL_DIRECTIONS[side], ALL_DIRECTIONS[side])
  {
    if side == 0 {
      if i == 0 {
      } else if i == 1 {
      } else if i == 2 {
      } else {
      }
    } else if side == 1 {
      if i == 0 {
      } else if i == 1 {
      } else if i == 2 {
      } else {
      }
    } else if side == 2 {
      if i == 0 {
      } else if i == 1 {
      } else if i == 2 {
      } else {
      }
    } else if side == 3 {
      if i == 0 {
      } else if i == 1 {
      } else if i == 2 {
      } else {
      }
    } else if side == 4 {
      if i == 0 {
      } else if i == 1 {
      } else if i == 2 {
      } else {
      }
    } else {
      if i == 0 {
      } else if i == 1 {
      } else if i == 2 {
      } else {
      }
    }
  }

  /** c is a + b - n, component by component. */
  predicate IsEdgeSum(a: Vec3, b: Vec3, c: Vec3, n: Vec3)
  {
    c.x == a.x + b.x - n.x && c.y == a.y + b.y - n.y && c.z == a.z + b.z - n.z
  }

  /**
   * At vertex i of a side, the corner sample is the two edge samples'
   * offsets added, less the side's own direction: the three samples and the
   * face neighbour surround the vertex.
   */
  lemma CornerIsEdgeSum(side: Side, i: int)
    requires 0 <= i < 4
    ensures IsEdgeSum(CORNERS_DIR[CORNERS[side][i][0]], CORNERS_DIR[CORNERS[side][i][1]], CORNERS_DIR[CORNERS[side][i][2]], ALL_DIRECTIONS[side])
  {
    if side == 0 {
      if i == 0 {
      } else if i == 1 {
      } else if i == 2 {
      } else {
      }
    } else if side == 1 {
      if i == 0 {
      } else if i == 1 {
      } else if i == 2 {
      } else {
      }
    } else if side == 2 {
      if i == 0 {
      } else if i == 1 {
      } else if i == 2 {
      } else {
      }
    } else if side == 3 {
      if i == 0 {
      } else if i == 1 {
      } else if i == 2 {
      } else {
      }
    } else if side == 4 {
      if i == 0 {
      } else if i == 1 {
      } else if i == 2 {
      } else {
      }
    } else {
      if i == 0 {
      } else if i == 1 {
      } else if i == 2 {
      } else {
      }
    }
  }

  // ---- the older lighting table ----

  /**
   * What the table holds for one voxel: the light of its six sides, the 20
   * edge and corner samples, and, once smoothed, four vertex lights per lit
   * side. The inputs are cleared once the result is there.
   */
  datatype VertexLighting = VertexLighting(
    sidesLighting: Option<seq<bv8>>,
    neighborLighting: Option<seq<bv8>>,
    lighting: Option<seq<Option<seq<real>>>>)

  /** A cell the smoothing can read: six side values, and the 20 samples wherever a side is lit. */
  predicate Ready(c: VertexLighting)
  {
    c.sidesLighting.Some? && |c.sidesLighting.value| >= 6 &&
    forall side :: 0 <= side < 6 && c.sidesLighting.value[side] != INVALID_LIGHTING ==>
      c.neighborLighting.Some? && |c.neighborLighting.value| >= 20
  }

  /** The light of vertex i of a side, from the side's light and the three samples CORNERS names for it. */
  function Vertex(sides: seq<bv8>, nb: seq<bv8>, side: Side, i: int): real
    requires |sides| >= 6 && |nb| >= 20 && 0 <= i < 4
  {
    AmbientOcclusion(sides[side] as int, nb[CornerAt(side, i, 0)], nb[CornerAt(side, i, 1)], nb[CornerAt(side, i, 2)])
  }

  /** The four vertex lights of a lit side, in the vertex order of CORNERS. */
  function SideVertices(sides: seq<bv8>, nb: seq<bv8>, side: Side): (r: seq<real>)
    requires |sides| >= 6 && |nb| >= 20
  {
    seq(4, i requires 0 <= i < 4 => Vertex(sides, nb, side, i))
  }

  /** A side's entry of the result: nothing for an invalid side, its four vertex lights otherwise. */
  function SideResult(c: VertexLighting, side: Side): Option<seq<real>>
    requires Ready(c)
  {
    if c.sidesLighting.value[side] == INVALID_LIGHTING then None
    else Some(SideVertices(c.sidesLighting.value, c.neighborLighting.value, side))
  }

  /** A cell once smoothed: the result for each side, the inputs cleared. */
  function Smoothed(c: VertexLighting): VertexLighting
    requires Ready(c)
  {
    VertexLighting(None, None, Some(seq(6, side requires 0 <= side < 6 => SideResult(c, side))))
  }

  /**
   * Smoothing leaves nothing of the inputs, gives each of the six sides a
   * result exactly when its light is valid, four vertex lights per result,
   * each within the byte range of light values.
   */
  lemma SmoothedCell(c: VertexLighting)
    requires Ready(c)
    ensures Smoothed(c).sidesLighting.None? && Smoothed(c).neighborLighting.None?
    ensures Smoothed(c).lighting.Some? && |Smoothed(c).lighting.value| == 6
    ensures forall side: Side :: (Smoothed(c).lighting.value[side].Some? <==> c.sidesLighting.value[side] != INVALID_LIGHTING)
    ensures forall side: Side, i :: Smoothed(c).lighting.value[side].Some? && 0 <= i < 4 ==>
      |Smoothed(c).lighting.value[side].value| == 4 && 0.0 <= Smoothed(c).lighting.value[side].value[i] <= 254.0
  {
    forall side: Side, i | Smoothed(c).lighting.value[side].Some? && 0 <= i < 4
      ensures |Smoothed(c).lighting.value[side].value| == 4 && 0.0 <= Smoothed(c).lighting.value[side].value[i] <= 254.0
    {
      var sides := c.sidesLighting.value;
      var nb := c.neighborLighting.value;
      ParseValueRange(sides[side]);
      ParseValueRange(nb[CornerAt(side, i, 0)]);
      ParseValueRange(nb[CornerAt(side, i, 1)]);
      ParseValueRange(nb[CornerAt(side, i, 2)]);
      AmbientOcclusionBounds(sides[side] as int, nb[CornerAt(side, i, 0)], nb[CornerAt(side, i, 1)], nb[CornerAt(side, i, 2)], 254);
    }
  }

  /**
   * The first set cell the smoothing cannot read, where the source
   * dereferences a null array (a cell never completed, or one already
   * smoothed, whose inputs were dropped); |cells| when there is none.
   */
  function FirstUnready(cells: seq<Option<VertexLighting>>): (f: int)
    ensures 0 <= f <= |cells|
    ensures forall o :: 0 <= o < f && cells[o].Some? ==> Ready(cells[o].value)
    ensures f < |cells| ==> cells[f].Some? && !Ready(cells[f].value)
  {
    if cells == [] then 0
    else if cells[0].Some? && !Ready(cells[0].value) then 0
    else 1 + FirstUnready(cells[1..])
  }

  /** The lighting of one chunk, one cell per voxel in voxel-offset order, empty until a voxel's sides are set. */
  class ChunkLighting {
    var cells: seq<Option<VertexLighting>>

    constructor ()
      ensures |cells| == SIZE * SIZE * SIZE && forall o :: 0 <= o < |cells| ==> cells[o].None?
    {
      cells := seq(SIZE * SIZE * SIZE, _ => None);
    }

    /** Starts the cell of (x, y, z) afresh with the light of its six sides. */
    method SetSidesLightign(x: int, y: int, z: int, data: seq<bv8>)
      requires InChunk(Vec3(x, y, z)) && |cells| == SIZE * SIZE * SIZE
      modifies this
      ensures cells == old(cells)[VoxelIndex(Vec3(x, y, z)) := Some(VertexLighting(Some(data), None, None))]
    {
      cells := cells[VoxelIndex(Vec3(x, y, z)) := Some(VertexLighting(Some(data), None, None))];
    }

    /**
     * Adds the edge and corner samples to a cell whose sides were set
     * before. On a cell that was never set the source dereferences null:
     * `ok` is false and nothing changes.
     */
    method SetNeighborLighting(x: int, y: int, z: int, neighborLighting: seq<bv8>) returns (ok: bool)
      requires InChunk(Vec3(x, y, z)) && |cells| == SIZE * SIZE * SIZE
      modifies this
      ensures ok <==> old(cells)[VoxelIndex(Vec3(x, y, z))].Some?
      ensures ok ==> cells == old(cells)[VoxelIndex(Vec3(x, y, z)) :=
        Some(old(cells)[VoxelIndex(Vec3(x, y, z))].value.(neighborLighting := Some(neighborLighting)))]
      ensures !ok ==> cells == old(cells)
    {
      var o := VoxelIndex(Vec3(x, y, z));
      ok := cells[o].Some?;
      if ok {
        cells := cells[o := Some(cells[o].value.(neighborLighting := Some(neighborLighting)))];
      }
    }

    /** The four vertex lights of one lit side, vertex by vertex. */
    static method SmoothSide(sides: seq<bv8>, nb: seq<bv8>, side: Side) returns (vertices: seq<real>)
      requires |sides| >= 6 && |nb| >= 20
      ensures vertices == SideVertices(sides, nb, side)
    {
      vertices := [];
      var i := 0;
      while i < 4
        invariant 0 <= i <= 4 && |vertices| == i
        invariant forall k :: 0 <= k < i ==> vertices[k] == Vertex(sides, nb, side, k)
      {
        vertices := vertices + [AmbientOcclusion(sides[side] as int, nb[CornerAt(side, i, 0)], nb[CornerAt(side, i, 1)], nb[CornerAt(side, i, 2)])];
        i := i + 1;
      }
    }

    /** One cell: a result for every side whose light is valid, then the inputs dropped. */
    static method SmoothCell(c: VertexLighting) returns (r: VertexLighting)
      requires Ready(c)
      ensures r == Smoothed(c)
    {
      var lighting: seq<Option<seq<real>>> := [];
      var side := 0;
      while side < 6
        invariant 0 <= side <= 6 && |lighting| == side
        invariant forall k :: 0 <= k < side ==> lighting[k] == SideResult(c, k)
      {
        if c.sidesLighting.value[side] == INVALID_LIGHTING {
          lighting := lighting + [None];
        } else {
          var vertices := SmoothSide(c.sidesLighting.value, c.neighborLighting.value, side);
          lighting := lighting + [Some(vertices)];
        }
        side := side + 1;
      }
      assert lighting == seq(6, side requires 0 <= side < 6 => SideResult(c, side));
      r := VertexLighting(None, None, Some(lighting));
    }

    /**
     * Smooths every cell that was set, in x, y, z order, and leaves the
     * empty cells alone. The three nested loops over the grid are one loop
     * over the voxel offset here, which visits the cells in the same order.
     */
    method ComputeSmoothLighting() returns (ok: bool)
      requires |cells| == SIZE * SIZE * SIZE
      modifies this
      ensures |cells| == SIZE * SIZE * SIZE
      ensures ok <==> FirstUnready(old(cells)) == SIZE * SIZE * SIZE
      ensures ok ==> forall o :: 0 <= o < |cells| ==>
        cells[o] == if old(cells)[o].Some? then Some(Smoothed(old(cells)[o].value)) else None
      ensures !ok ==> forall o :: 0 <= o < |cells| && o != FirstUnready(old(cells)) ==>
        cells[o] == if o < FirstUnready(old(cells)) && old(cells)[o].Some? then Some(Smoothed(old(cells)[o].value)) else old(cells)[o]
    {
      var o := 0;
      while o < SIZE * SIZE * SIZE
        invariant 0 <= o <= SIZE * SIZE * SIZE && |cells| == SIZE * SIZE * SIZE
        invariant o <= FirstUnready(old(cells))
        invariant forall k :: 0 <= k < |cells| ==>
          cells[k] == if k < o && old(cells)[k].Some? then Some(Smoothed(old(cells)[k].value)) else old(cells)[k]
      {
        if cells[o].Some? {
          if !Ready(cells[o].value) {
            return false;
          }
          var lit := SmoothCell(cells[o].value);
          cells := cells[o := Some(lit)];
        }
        o := o + 1;
      }
      return true;
    }
  }
}
