/**
 * The lighting stage: for every non-empty voxel it samples the light of its
 * 26 neighbours, asks the neighbouring chunks for the samples that fall
 * outside the chunk, and once every answer is in turns the samples into
 * four vertex lights per lit face.
 */
module LightingStages {
  import opened Wrappers
  import opened Voxel
  import opened Vec3Math
  import opened ChunkDims
  import opened ChunkBuffers
  import opened VoxRefs
  import opened Messages
  import opened StageCommon
  import opened NeighbourAddress
  import StageTags
  import ChunkLight

  // ---- the sample tables ----

  /** For each side, the ALL_DIRS slot of its face neighbour. */
  const SIDES: seq<int> := [12, 10, 13, 15, 4, 21]

  /**
   * For each side and each of its four vertices, the ALL_DIRS slots of the
   * two edge samples and the corner sample that meet at that vertex.
   */
  const CORNERS: seq<seq<seq<int>>> := [
    [[20, 14, 23], [20, 9, 17], [3, 9, 0], [3, 14, 6]],
    [[18, 9, 17], [18, 11, 19], [1, 11, 2], [1, 9, 0]],
    [[22, 11, 19], [22, 16, 25], [5, 16, 8], [5, 11, 2]],
    [[24, 16, 25], [24, 14, 23], [7, 14, 6], [7, 16, 8]],
    [[3, 7, 6], [3, 1, 0], [5, 1, 2], [5, 7, 8]],
    [[22, 24, 25], [22, 18, 19], [20, 18, 17], [20, 24, 23]]
  ]

  /** `Array.IndexOf`: the first position of x in a, or -1 when x is absent. */
  function IndexOf(a: seq<int>, x: int): (r: int)
    ensures -1 <= r < |a|
    ensures r >= 0 ==> a[r] == x && forall j :: 0 <= j < r ==> a[j] != x
    ensures r == -1 <==> x !in a
  {
    if a == [] then -1
    else if a[0] == x then 0
    else var k := IndexOf(a[1..], x); if k == -1 then -1 else k + 1
  }

  /** The slot of a side's face neighbour. */
  function SideSlot(side: Side): (r: int)
    ensures 0 <= r < 26
  {
    SIDES[side]
  }

  /** Entry j (edge, edge, corner) of vertex i of a side: always one of the 26 slots. */
  function CornerSlot(side: Side, i: int, j: int): (r: int)
    requires 0 <= i < 4 && 0 <= j < 3
    ensures 0 <= r < 26
  {
    CORNERS[side][i][j]
  }

  /** SIDES names, for each side, the slot whose direction is that side's, and IndexOf finds the side back. */
  lemma SidesAreFaceSlots()
    ensures |SIDES| == 6 && |ALL_DIRS| == 26
    ensures forall side: Side :: ALL_DIRS[SideSlot(side)] == ALL_DIRECTIONS[side]
    ensures forall side: Side :: IndexOf(SIDES, SideSlot(side)) == side
  {
    forall side: Side
      ensures ALL_DIRS[SideSlot(side)] == ALL_DIRECTIONS[side] && IndexOf(SIDES, SideSlot(side)) == side
    {
      SideSlotDirection(side);
      SideSlotIndex(side);
    }
  }

  /** The direction of a side's face slot is that side's direction. */
  lemma SideSlotDirection(side: Side)
    ensures ALL_DIRS[SideSlot(side)] == ALL_DIRECTIONS[side]
  {
    if side == 0 {
    } else if side == 1 {
    } else if side == 2 {
    } else if side == 3 {
    } else if side == 4 {
    } else {
    }
  }

  /** IndexOf finds each side back from its face slot. */
  lemma SideSlotIndex(side: Side)
    ensures IndexOf(SIDES, SideSlot(side)) == side
  {
    if side == 0 {
      assert IndexOf(SIDES, 12) == 0;
    } else if side == 1 {
      assert IndexOf(SIDES, 10) == 1;
    } else if side == 2 {
      assert IndexOf(SIDES, 13) == 2;
    } else if side == 3 {
      assert IndexOf(SIDES, 15) == 3;
    } else if side == 4 {
      assert IndexOf(SIDES, 4) == 4;
    } else {
      assert IndexOf(SIDES, 21) == 5;
    }
  }

  /** The face slots are exactly those SIDES lists: a slot's direction is a unit one iff it is in SIDES. */
  lemma FaceSlotsAreSides()
    ensures forall i :: 0 <= i < 26 ==> (IsUnit(ALL_DIRS[i]) <==> i in SIDES)
  {
  }

  /** The slot of an edge or corner offset of the older table. */
  function CornerDirSlot(k: int): (r: int)
    requires 0 <= k < 20
    ensures 0 <= r < 26 && ALL_DIRS[r] == ChunkLight.CORNERS_DIR[k]
  {
    ChunkLight.CornersDirAreEdgesAndCorners();
    AllDirsCover();
    NeighbourIndex(ChunkLight.CORNERS_DIR[k])
  }

  /**
   * The stage's corner table names the same neighbours as the older one:
   * each entry is the slot of the offset the older table names, so the
   * older table's geometry (the samples lie in front of the side and the
   * corner is the edges' sum less the side direction) holds for this one.
   */
  lemma TablesAgree(side: Side, i: int, j: int)
    requires 0 <= i < 4 && 0 <= j < 3
    ensures CornerDirSlot(ChunkLight.CornerAt(side, i, j)) == CornerSlot(side, i, j)
  {
    if side == 0 {
    } else if side == 1 {
    } else if side == 2 {
    } else if side == 3 {
    } else if side == 4 {
    } else {
    }
  }

  // ---- the vertex lights ----

  /** What the stage hands on for one voxel: its position and, per side, the four vertex lights or nothing. */
  datatype ChunkLightData = ChunkLightData(voxel: Vec3, vertexLight: seq<Option<seq<real>>>)

  /** The light of vertex i of a side, from the side's face sample and the three samples CORNERS names. */
  function VertexLight(slots: seq<bv8>, side: Side, i: int): real
    requires |slots| == 26 && 0 <= i < 4
  {
    ChunkLight.AmbientOcclusion(slots[SideSlot(side)] as int,
      slots[CornerSlot(side, i, 0)], slots[CornerSlot(side, i, 1)], slots[CornerSlot(side, i, 2)])
  }

  /** A side's lights: nothing when its face sample is invalid, its four vertex lights otherwise. */
  function SideLights(slots: seq<bv8>, side: Side): Option<seq<real>>
    requires |slots| == 26
  {
    if slots[SideSlot(side)] == ChunkLight.INVALID_LIGHTING then None
    else Some(seq(4, i requires 0 <= i < 4 => VertexLight(slots, side, i)))
  }

  /** The six sides' lights of one voxel. */
  function LightSides(slots: seq<bv8>): seq<Option<seq<real>>>
    requires |slots| == 26
  {
    seq(6, side requires 0 <= side < 6 => SideLights(slots, side))
  }

  /**
   * A voxel's lights have one entry per side, a side has lights exactly
   * when its face sample is valid, and then four of them, each within the
   * range of light bytes.
   */
  lemma LightSidesShape(slots: seq<bv8>)
    requires |slots| == 26
    ensures |LightSides(slots)| == 6
    ensures forall side: Side :: LightSides(slots)[side].Some? <==> slots[SideSlot(side)] != ChunkLight.INVALID_LIGHTING
    ensures forall side: Side, i :: LightSides(slots)[side].Some? && 0 <= i < 4 ==>
      |LightSides(slots)[side].value| == 4 && 0.0 <= LightSides(slots)[side].value[i] <= 254.0
  {
    forall side: Side, i | LightSides(slots)[side].Some? && 0 <= i < 4
      ensures |LightSides(slots)[side].value| == 4 && 0.0 <= LightSides(slots)[side].value[i] <= 254.0
    {
      var a := slots[SideSlot(side)];
      var e1 := slots[CornerSlot(side, i, 0)];
      var e2 := slots[CornerSlot(side, i, 1)];
      var c := slots[CornerSlot(side, i, 2)];
      ChunkLight.ParseValueRange(a);
      ChunkLight.ParseValueRange(e1);
      ChunkLight.ParseValueRange(e2);
      ChunkLight.ParseValueRange(c);
      ChunkLight.AmbientOcclusionBounds(a as int, e1, e2, c, 254);
    }
  }

  /** The face samples of a voxel, side by side, as the older table keeps them. */
  function SidesOf(slots: seq<bv8>): seq<bv8>
    requires |slots| == 26
  {
    seq(6, side requires 0 <= side < 6 => slots[SideSlot(side)])
  }

  /** The edge and corner samples of a voxel, in the older table's order. */
  function CornersOf(slots: seq<bv8>): seq<bv8>
    requires |slots| == 26
  {
    seq(20, k requires 0 <= k < 20 => slots[CornerDirSlot(k)])
  }

  /**
   * The stage computes the same vertex lights as the older lighting table
   * fed with the same samples: the two are independent definitions of the
   * smoothing, over different tables.
   */
  lemma LightSidesMatchTable(slots: seq<bv8>)
    requires |slots| == 26
    ensures ChunkLight.Ready(ChunkLight.VertexLighting(Some(SidesOf(slots)), Some(CornersOf(slots)), None))
    ensures ChunkLight.Smoothed(ChunkLight.VertexLighting(Some(SidesOf(slots)), Some(CornersOf(slots)), None)).lighting
      == Some(LightSides(slots))
  {
    var c := ChunkLight.VertexLighting(Some(SidesOf(slots)), Some(CornersOf(slots)), None);
    forall side: Side | true
      ensures ChunkLight.SideResult(c, side) == SideLights(slots, side)
    {
      if slots[SideSlot(side)] != ChunkLight.INVALID_LIGHTING {
        forall i | 0 <= i < 4
          ensures ChunkLight.Vertex(SidesOf(slots), CornersOf(slots), side, i) == VertexLight(slots, side, i)
        {
          TablesAgree(side, i, 0);
          TablesAgree(side, i, 1);
          TablesAgree(side, i, 2);
        }
        assert ChunkLight.SideVertices(SidesOf(slots), CornersOf(slots), side) == seq(4, i requires 0 <= i < 4 => VertexLight(slots, side, i));
      }
    }
    assert ChunkLight.Smoothed(c).lighting.value == LightSides(slots);
  }

  // ---- the scan ----

  /** The position slot i of voxel v samples, in this chunk's coordinates. */
  function Target(v: Vec3, i: int): Vec3
    requires 0 <= i < 26
  {
    Add(v, ALL_DIRS[i])
  }

  /** The side whose face slot i is, or -1 when slot i is an edge or a corner (its direction is not a unit one). */
  function FaceSide(i: int): (r: int)
    requires 0 <= i < 26
    ensures r == -1 <==> !IsUnit(ALL_DIRS[i])
    ensures r != -1 ==> 0 <= r < 6 && SideSlot(r) == i
  {
    FaceSlotsAreSides();
    IndexOf(SIDES, i)
  }

  /** Slot i is the face of a hidden side: it is invalid and nothing is sampled. */
  predicate Hidden(s: seq<bv8>, v: Vec3, i: int)
    requires |s| == BUFFER_SIZE && InChunk(v) && 0 <= i < 26
  {
    FaceSide(i) != -1 && !IsVisibleAt(s, v, FaceSide(i))
  }

  /** Slot i has to be asked of another chunk: it is sampled and its position is outside this chunk. */
  predicate Pending(s: seq<bv8>, v: Vec3, i: int)
    requires |s| == BUFFER_SIZE && InChunk(v) && 0 <= i < 26
  {
    !Hidden(s, v, i) && !InChunk(Target(v, i))
  }

  /**
   * The byte the scan leaves in slot i: invalid for a hidden face or an
   * empty neighbour, the neighbour's light when it is in the chunk, and 0
   * (the array's initial value) while the answer is pending.
   */
  function ScanSample(s: seq<bv8>, v: Vec3, i: int): bv8
    requires |s| == BUFFER_SIZE && InChunk(v) && 0 <= i < 26
  {
    if Hidden(s, v, i) then ChunkLight.INVALID_LIGHTING
    else if InChunk(Target(v, i)) then
      (if IsEmptyAt(s, Target(v, i)) then ChunkLight.INVALID_LIGHTING else LightAt(s, Target(v, i)))
    else 0
  }

  /** The 26 samples of voxel v after the scan. */
  function ScanSamples(s: seq<bv8>, v: Vec3): (r: seq<bv8>)
    requires |s| == BUFFER_SIZE && InChunk(v)
    ensures |r| == 26
  {
    seq(26, i requires 0 <= i < 26 => ScanSample(s, v, i))
  }

  /** The cells after the whole scan: the samples of every non-empty voxel, none for the empty ones. */
  function ScannedCells(s: seq<bv8>): (r: seq<Option<seq<bv8>>>)
    requires |s| == BUFFER_SIZE
    ensures |r| == SIZE * SIZE * SIZE && Shaped(r)
  {
    seq(4096, k requires 0 <= k < 4096 => if IsEmptyAt(s, VoxelAt(k)) then None else Some(ScanSamples(s, VoxelAt(k))))
  }

  /**
   * A sample waiting for an answer: the cell (voxel offset) whose sample it
   * is, the coordinate to ask for inside the other chunk, and the slot.
   */
  datatype LightReq = LightReq(cell: int, neighbour: Vec3, slot: int)

  /** The coordinate, inside its own chunk, of the position slot i of the voxel at offset o samples. */
  function Coord(o: int, i: int): Vec3
    requires 0 <= o < 4096 && 0 <= i < 26
  {
    NeighbourCoord(Target(VoxelAt(o), i))
  }

  /** The request for slot i of the voxel at offset o. */
  function RequestFor(o: int, i: int): LightReq
    requires 0 <= o < 4096 && 0 <= i < 26
  {
    LightReq(o, Coord(o, i), i)
  }

  /** The chunk that holds the position slot i of the voxel at offset o samples. */
  function KeyFor(pos: Vec3, o: int, i: int): Vec3
    requires 0 <= o < 4096 && 0 <= i < 26
  {
    NeighbourChunk(pos, Target(VoxelAt(o), i))
  }

  /** A request the scan can file: in range, and naming the coordinate its slot samples. */
  predicate WellFormed(r: LightReq)
  {
    0 <= r.cell < 4096 && 0 <= r.slot < 26 && r == RequestFor(r.cell, r.slot)
  }

  /** Every list has a request, each well formed and filed under the chunk that holds its sample. */
  ghost predicate Filed(pos: Vec3, requests: map<Vec3, seq<LightReq>>)
  {
    (forall key :: key in requests ==> |requests[key]| > 0) &&
    forall key, n :: key in requests && 0 <= n < |requests[key]| ==>
      WellFormed(requests[key][n]) && key == KeyFor(pos, requests[key][n].cell, requests[key][n].slot)
  }

  /** One cell per voxel offset, and every cell that is there has 26 slots. */
  ghost predicate Shaped(cells: seq<Option<seq<bv8>>>)
  {
    |cells| == 4096 && forall k :: 0 <= k < 4096 && cells[k].Some? ==> |cells[k].value| == 26
  }

  /** Every request's cell is there, so that its answer has a slot to fill. */
  ghost predicate Backed(cells: seq<Option<seq<bv8>>>, requests: map<Vec3, seq<LightReq>>)
  {
    forall key, n :: key in requests && 0 <= n < |requests[key]| ==>
      0 <= requests[key][n].cell < |cells| && cells[requests[key][n].cell].Some?
  }

  /** The cells of the voxels before offset o hold their scanned samples, the others none. */
  ghost predicate CellsUpTo(s: seq<bv8>, cells: seq<Option<seq<bv8>>>, o: int)
    requires |s| == BUFFER_SIZE
  {
    |cells| == 4096 &&
    forall k :: 0 <= k < 4096 ==>
      cells[k] == if k < o && !IsEmptyAt(s, VoxelAt(k)) then Some(ScanSamples(s, VoxelAt(k))) else None
  }

  /** Every filed request is for a pending slot of a non-empty voxel before offset o. */
  ghost predicate FiledBefore(s: seq<bv8>, requests: map<Vec3, seq<LightReq>>, o: int)
    requires |s| == BUFFER_SIZE
  {
    forall key, n :: key in requests && 0 <= n < |requests[key]| ==>
      0 <= requests[key][n].cell < o && requests[key][n].cell < 4096 && 0 <= requests[key][n].slot < 26 &&
      !IsEmptyAt(s, VoxelAt(requests[key][n].cell)) && Pending(s, VoxelAt(requests[key][n].cell), requests[key][n].slot)
  }

  /** Every pending slot of a non-empty voxel before offset o is filed under its chunk. */
  ghost predicate Covered(s: seq<bv8>, pos: Vec3, requests: map<Vec3, seq<LightReq>>, o: int)
    requires |s| == BUFFER_SIZE
  {
    forall k, i :: 0 <= k < o && k < 4096 && 0 <= i < 26 && !IsEmptyAt(s, VoxelAt(k)) && Pending(s, VoxelAt(k), i) ==>
      KeyFor(pos, k, i) in requests && RequestFor(k, i) in requests[KeyFor(pos, k, i)]
  }

  /** While the voxel at offset o is scanned: its slots before i hold their samples, the rest 0. */
  ghost predicate SamplesUpTo(s: seq<bv8>, o: int, slots: seq<bv8>, i: int)
    requires |s| == BUFFER_SIZE && 0 <= o < 4096
  {
    |slots| == 26 && forall j :: 0 <= j < 26 ==> slots[j] == if j < i then ScanSample(s, VoxelAt(o), j) else 0
  }

  /** While the voxel at offset o is scanned: what is filed is from earlier voxels or from its slots before i. */
  ghost predicate FiledUpTo(s: seq<bv8>, requests: map<Vec3, seq<LightReq>>, o: int, i: int)
    requires |s| == BUFFER_SIZE
  {
    forall key, n :: key in requests && 0 <= n < |requests[key]| ==>
      0 <= requests[key][n].cell < 4096 && 0 <= requests[key][n].slot < 26 &&
      (requests[key][n].cell < o || (requests[key][n].cell == o && requests[key][n].slot < i)) &&
      !IsEmptyAt(s, VoxelAt(requests[key][n].cell)) && Pending(s, VoxelAt(requests[key][n].cell), requests[key][n].slot)
  }

  /** While the voxel at offset o is scanned: its pending slots before i are filed. */
  ghost predicate SlotsFiled(s: seq<bv8>, pos: Vec3, requests: map<Vec3, seq<LightReq>>, o: int, i: int)
    requires |s| == BUFFER_SIZE && 0 <= o < 4096
  {
    forall j :: 0 <= j < i && j < 26 && Pending(s, VoxelAt(o), j) ==>
      KeyFor(pos, o, j) in requests && RequestFor(o, j) in requests[KeyFor(pos, o, j)]
  }

  /** The state of the table while slot i of the voxel at offset o is due. */
  ghost predicate Sampling(s: seq<bv8>, pos: Vec3, requests: map<Vec3, seq<LightReq>>, o: int, i: int)
    requires |s| == BUFFER_SIZE && 0 <= o < 4096
  {
    FiledUpTo(s, requests, o, i) && SlotsFiled(s, pos, requests, o, i) && Covered(s, pos, requests, o) &&
    (QuietUpTo(s, o, i) ==> requests == map[])
  }

  /** Starting on the voxel at offset o: nothing of it is filed yet. */
  lemma BeginVoxel(s: seq<bv8>, pos: Vec3, requests: map<Vec3, seq<LightReq>>, o: int)
    requires |s| == BUFFER_SIZE && 0 <= o < 4096 && FiledBefore(s, requests, o) && Covered(s, pos, requests, o)
    requires QuietUpTo(s, o, 0) ==> requests == map[]
    ensures Sampling(s, pos, requests, o, 0)
  {
  }

  /** Ending the voxel at offset o: its cell holds its samples, and its pending slots are filed. */
  lemma EndVoxel(s: seq<bv8>, pos: Vec3, requests: map<Vec3, seq<LightReq>>, cells: seq<Option<seq<bv8>>>, o: int, slots: seq<bv8>)
    requires |s| == BUFFER_SIZE && 0 <= o < 4096 && !IsEmptyAt(s, VoxelAt(o))
    requires CellsUpTo(s, cells, o) && SamplesUpTo(s, o, slots, 26) && Sampling(s, pos, requests, o, 26)
    ensures CellsUpTo(s, cells[o := Some(slots)], o + 1)
    ensures FiledBefore(s, requests, o + 1) && Covered(s, pos, requests, o + 1)
    ensures QuietUpTo(s, o + 1, 0) ==> requests == map[]
  {
    assert slots == ScanSamples(s, VoxelAt(o));
  }

  /** An empty voxel is skipped: no cell, no request. */
  lemma SkipVoxel(s: seq<bv8>, pos: Vec3, requests: map<Vec3, seq<LightReq>>, cells: seq<Option<seq<bv8>>>, o: int)
    requires |s| == BUFFER_SIZE && 0 <= o < 4096 && IsEmptyAt(s, VoxelAt(o))
    requires CellsUpTo(s, cells, o) && FiledBefore(s, requests, o) && Covered(s, pos, requests, o)
    ensures CellsUpTo(s, cells, o + 1) && FiledBefore(s, requests, o + 1) && Covered(s, pos, requests, o + 1)
  {
  }

  /** A slot decided without asking: what is filed stays as it is. */
  lemma PassSlot(s: seq<bv8>, pos: Vec3, requests: map<Vec3, seq<LightReq>>, o: int, i: int)
    requires |s| == BUFFER_SIZE && 0 <= o < 4096 && 0 <= i < 26 && !Pending(s, VoxelAt(o), i)
    requires Sampling(s, pos, requests, o, i)
    ensures Sampling(s, pos, requests, o, i + 1)
  {
  }

  /** Filing slot i of the voxel at offset o keeps the table well formed and its keys listed. */
  lemma FilingKeepsTable(pos: Vec3, requests: map<Vec3, seq<LightReq>>, order: seq<Vec3>, o: int, i: int)
    requires 0 <= o < 4096 && 0 <= i < 26
    requires Filed(pos, requests) && KeysListed(requests, order)
    ensures Filed(pos, Filing(requests, KeyFor(pos, o, i), RequestFor(o, i)))
    ensures KeysListed(Filing(requests, KeyFor(pos, o, i), RequestFor(o, i)), Enlisted(requests, order, KeyFor(pos, o, i)))
  {
    var key := KeyFor(pos, o, i);
    var l := if key in requests then requests[key] else [];
    var l' := l + [RequestFor(o, i)];
    assert Filing(requests, key, RequestFor(o, i)) == requests[key := l'];
    forall n | 0 <= n < |l'|
      ensures n < |l| ==> l'[n] == l[n]
      ensures n == |l| ==> l'[n] == RequestFor(o, i)
    {
    }
  }

  /** Filing pending slot i of the voxel at offset o advances the scan's record of what is filed. */
  lemma FilingAdvances(s: seq<bv8>, pos: Vec3, requests: map<Vec3, seq<LightReq>>, o: int, i: int)
    requires |s| == BUFFER_SIZE && 0 <= o < 4096 && 0 <= i < 26
    requires !IsEmptyAt(s, VoxelAt(o)) && Pending(s, VoxelAt(o), i)
    requires Sampling(s, pos, requests, o, i)
    ensures Sampling(s, pos, Filing(requests, KeyFor(pos, o, i), RequestFor(o, i)), o, i + 1)
  {
    var key := KeyFor(pos, o, i);
    var l := if key in requests then requests[key] else [];
    var l' := l + [RequestFor(o, i)];
    var r' := requests[key := l'];
    assert Filing(requests, key, RequestFor(o, i)) == r';
    FilingKeepsFiled(requests, key, RequestFor(o, i));
    assert FiledUpTo(s, r', o, i + 1) by {
      forall k, n | k in r' && 0 <= n < |r'[k]|
        ensures r'[k][n] == (if k == key && n == |l| then RequestFor(o, i) else requests[k][n])
      {
      }
    }
  }

  /** Filing keeps every request filed before: a list only grows at its end. */
  lemma FilingKeepsFiled(requests: map<Vec3, seq<LightReq>>, key: Vec3, req: LightReq)
    ensures forall k, r :: k in requests && r in requests[k] ==> k in Filing(requests, key, req) && r in Filing(requests, key, req)[k]
    ensures key in Filing(requests, key, req) && req in Filing(requests, key, req)[key]
  {
  }

  /** After the scan every request's cell is there: requests come from non-empty voxels only. */
  lemma ScanBacksRequests(s: seq<bv8>, cells: seq<Option<seq<bv8>>>, requests: map<Vec3, seq<LightReq>>)
    requires |s| == BUFFER_SIZE && CellsUpTo(s, cells, 4096) && FiledBefore(s, requests, 4096)
    ensures Shaped(cells) && Backed(cells, requests) && cells == ScannedCells(s)
  {
  }

  /** The coordinates a request message lists for one chunk, in filing order. */
  function Coordinates(reqs: seq<LightReq>): (r: seq<Vec3>)
    ensures |r| == |reqs| && forall n :: 0 <= n < |reqs| ==> r[n] == reqs[n].neighbour
  {
    if reqs == [] then [] else [reqs[0].neighbour] + Coordinates(reqs[1..])
  }

  /** The request messages of a table: one per key, in enumeration order. */
  function RequestMessages(pos: Vec3, requests: map<Vec3, seq<LightReq>>, order: seq<Vec3>): (r: seq<Message>)
    requires forall k :: k in order ==> k in requests
    ensures |r| == |order|
    ensures forall n :: 0 <= n < |order| ==> r[n] == ReqVox(pos, order[n], Coordinates(requests[order[n]]))
  {
    if order == [] then [] else [ReqVox(pos, order[0], Coordinates(requests[order[0]]))] + RequestMessages(pos, requests, order[1..])
  }

  // ---- answers ----

  /** Two cell lists of the same length with cells at the same offsets. */
  ghost predicate SamePattern(a: seq<Option<seq<bv8>>>, b: seq<Option<seq<bv8>>>)
  {
    |a| == |b| && forall k :: 0 <= k < |a| ==> a[k].Some? == b[k].Some?
  }

  /** Every request of a list is well formed and has its cell. */
  ghost predicate Fillable(cells: seq<Option<seq<bv8>>>, reqs: seq<LightReq>)
  {
    Shaped(cells) && forall n :: 0 <= n < |reqs| ==> WellFormed(reqs[n]) && cells[reqs[n].cell].Some?
  }

  /** The light an answer entry gives: the snapshot's light, invalid when there is no snapshot. */
  function SnapLight(snap: Option<VoxSnap>): bv8
  {
    if snap.None? then ChunkLight.INVALID_LIGHTING else snap.value.light
  }

  /** The cells with the slot of request r set to value. */
  function FillSlot(cells: seq<Option<seq<bv8>>>, r: LightReq, value: bv8): (c: seq<Option<seq<bv8>>>)
    requires Shaped(cells) && WellFormed(r) && cells[r.cell].Some?
    ensures Shaped(c) && SamePattern(cells, c)
  {
    cells[r.cell := Some(cells[r.cell].value[r.slot := value])]
  }

  /** The cells after a missing neighbour's answer: every slot of the list set to value, in list order. */
  function FillAll(cells: seq<Option<seq<bv8>>>, reqs: seq<LightReq>, value: bv8): (c: seq<Option<seq<bv8>>>)
    requires Fillable(cells, reqs)
    ensures Shaped(c) && SamePattern(cells, c)
  {
    if reqs == [] then cells
    else FillSlot(FillAll(cells, reqs[..|reqs| - 1], value), reqs[|reqs| - 1], value)
  }

  /** The cells after one answer entry: the slot of every request asking for coordinate c set to value. */
  function FillMatching(cells: seq<Option<seq<bv8>>>, reqs: seq<LightReq>, c: Vec3, value: bv8): (r: seq<Option<seq<bv8>>>)
    requires Fillable(cells, reqs)
    ensures Shaped(r) && SamePattern(cells, r)
  {
    if reqs == [] then cells
    else
      var rest := FillMatching(cells, reqs[..|reqs| - 1], c, value);
      if reqs[|reqs| - 1].neighbour == c then FillSlot(rest, reqs[|reqs| - 1], value) else rest
  }

  /** The cells after an answer list: its entries, in order, each filling the requests asking for its coordinate. */
  function ApplyEntries(cells: seq<Option<seq<bv8>>>, reqs: seq<LightReq>, entries: seq<VoxEntry>): (r: seq<Option<seq<bv8>>>)
    requires Fillable(cells, reqs)
    ensures Shaped(r) && SamePattern(cells, r)
  {
    if entries == [] then cells
    else
      var e := entries[|entries| - 1];
      FillMatching(ApplyEntries(cells, reqs, entries[..|entries| - 1]), reqs, e.vox, SnapLight(e.snap))
  }

  /** The cells after the answer of a chunk: all slots invalid when it sent no list, its entries otherwise. */
  function Answered(cells: seq<Option<seq<bv8>>>, reqs: seq<LightReq>, list: Option<seq<VoxEntry>>): (r: seq<Option<seq<bv8>>>)
    requires Fillable(cells, reqs)
    ensures Shaped(r) && SamePattern(cells, r)
  {
    if list.None? then FillAll(cells, reqs, ChunkLight.INVALID_LIGHTING) else ApplyEntries(cells, reqs, list.value)
  }

  /** Slot j of the cell at offset k is one a request of the list fills. */
  ghost predicate Asked(reqs: seq<LightReq>, k: int, j: int)
  {
    exists n :: 0 <= n < |reqs| && reqs[n].cell == k && reqs[n].slot == j
  }

  /** Coordinate c has an entry in the list. */
  ghost predicate Listed(entries: seq<VoxEntry>, c: Vec3)
  {
    exists i :: 0 <= i < |entries| && entries[i].vox == c
  }

  /** The slots asked by a list are those asked by its front part and the one its last request asks. */
  lemma AskedSplit(reqs: seq<LightReq>, k: int, j: int)
    requires reqs != []
    ensures Asked(reqs, k, j) <==>
      Asked(reqs[..|reqs| - 1], k, j) || (reqs[|reqs| - 1].cell == k && reqs[|reqs| - 1].slot == j)
  {
    var init := reqs[..|reqs| - 1];
    if Asked(init, k, j) {
      var n :| 0 <= n < |init| && init[n].cell == k && init[n].slot == j;
      assert reqs[n] == init[n];
    }
    if Asked(reqs, k, j) && !(reqs[|reqs| - 1].cell == k && reqs[|reqs| - 1].slot == j) {
      var n :| 0 <= n < |reqs| && reqs[n].cell == k && reqs[n].slot == j;
      assert init[n] == reqs[n];
    }
  }

  /** Filling one slot changes that slot and no other. */
  lemma FillSlotFrame(cells: seq<Option<seq<bv8>>>, r: LightReq, value: bv8, k: int, j: int)
    requires Shaped(cells) && WellFormed(r) && cells[r.cell].Some?
    requires 0 <= k < 4096 && 0 <= j < 26 && cells[k].Some?
    ensures FillSlot(cells, r, value)[k].value[j] == if r.cell == k && r.slot == j then value else cells[k].value[j]
  {
  }

  /** A missing neighbour sets every slot the list asks to invalid and leaves every other slot as it was. */
  lemma {:induction false} FillAllSettles(cells: seq<Option<seq<bv8>>>, reqs: seq<LightReq>, value: bv8, k: int, j: int)
    requires Fillable(cells, reqs) && 0 <= k < 4096 && 0 <= j < 26 && cells[k].Some?
    ensures FillAll(cells, reqs, value)[k].value[j] == if Asked(reqs, k, j) then value else cells[k].value[j]
  {
    if reqs != [] {
      var init := reqs[..|reqs| - 1];
      FillAllSettles(cells, init, value, k, j);
      FillSlotFrame(FillAll(cells, init, value), reqs[|reqs| - 1], value, k, j);
      AskedSplit(reqs, k, j);
    }
  }

  /**
   * One answer entry sets every slot of the list that samples coordinate c
   * (a request names the coordinate its slot samples) and no other slot.
   */
  lemma {:induction false} FillMatchingSettles(cells: seq<Option<seq<bv8>>>, reqs: seq<LightReq>, c: Vec3, value: bv8, k: int, j: int)
    requires Fillable(cells, reqs) && 0 <= k < 4096 && 0 <= j < 26 && cells[k].Some?
    ensures FillMatching(cells, reqs, c, value)[k].value[j] ==
      if Asked(reqs, k, j) && Coord(k, j) == c then value else cells[k].value[j]
  {
    if reqs != [] {
      var init := reqs[..|reqs| - 1];
      var last := reqs[|reqs| - 1];
      FillMatchingSettles(cells, init, c, value, k, j);
      if last.neighbour == c {
        FillSlotFrame(FillMatching(cells, init, c, value), last, value, k, j);
      }
      AskedSplit(reqs, k, j);
    }
  }

  /**
   * Entries that report a neighbour buffer s' (each coordinate with its
   * snapshot) set every asked slot whose coordinate they list to the
   * light of that coordinate in s', and leave every other slot as it was.
   */
  lemma {:induction false} ApplyEntriesSettles(cells: seq<Option<seq<bv8>>>, reqs: seq<LightReq>, entries: seq<VoxEntry>, s': seq<bv8>, k: int, j: int)
    requires Fillable(cells, reqs) && |s'| == BUFFER_SIZE
    requires forall i :: 0 <= i < |entries| ==> entries[i] == EntryFor(s', entries[i].vox)
    requires 0 <= k < 4096 && 0 <= j < 26 && cells[k].Some?
    ensures ApplyEntries(cells, reqs, entries)[k].value[j] ==
      if Asked(reqs, k, j) && Listed(entries, Coord(k, j)) then LightAt(s', Coord(k, j)) else cells[k].value[j]
  {
    if entries != [] {
      var init := entries[..|entries| - 1];
      var e := entries[|entries| - 1];
      ApplyEntriesSettles(cells, reqs, init, s', k, j);
      FillMatchingSettles(ApplyEntries(cells, reqs, init), reqs, e.vox, SnapLight(e.snap), k, j);
      if Listed(entries, Coord(k, j)) && !Listed(init, Coord(k, j)) {
        var i :| 0 <= i < |entries| && entries[i].vox == Coord(k, j);
        if i < |entries| - 1 {
          assert init[i] == entries[i];
        }
      }
      if Listed(init, Coord(k, j)) {
        var i :| 0 <= i < |init| && init[i].vox == Coord(k, j);
        assert entries[i] == init[i];
      }
    }
  }

  /**
   * The answer a chunk gives to the list it was sent (its entries for the
   * list's coordinates, or none when it holds no voxel) sets every slot the
   * list asks: invalid without a list, the light of the sampled voxel in
   * that chunk otherwise. Every other slot keeps its byte.
   */
  lemma AnswerSettlesRequests(cells: seq<Option<seq<bv8>>>, reqs: seq<LightReq>, s': seq<bv8>, voxelCount: int, k: int, j: int)
    requires Fillable(cells, reqs) && |s'| == BUFFER_SIZE
    requires 0 <= k < 4096 && 0 <= j < 26 && cells[k].Some?
    ensures Answered(cells, reqs, AnswerFor(s', voxelCount, Coordinates(reqs)))[k].value[j] ==
      if !Asked(reqs, k, j) then cells[k].value[j]
      else if voxelCount == 0 then ChunkLight.INVALID_LIGHTING
      else LightAt(s', Coord(k, j))
  {
    if voxelCount == 0 {
      FillAllSettles(cells, reqs, ChunkLight.INVALID_LIGHTING, k, j);
    } else {
      var entries := EntriesFor(s', Coordinates(reqs));
      ApplyEntriesSettles(cells, reqs, entries, s', k, j);
      AskedIsListed(cells, reqs, s', k, j);
    }
  }

  /** A slot a list asks has its coordinate in the entries a chunk answers for that list. */
  lemma AskedIsListed(cells: seq<Option<seq<bv8>>>, reqs: seq<LightReq>, s': seq<bv8>, k: int, j: int)
    requires Fillable(cells, reqs) && |s'| == BUFFER_SIZE && 0 <= k < 4096 && 0 <= j < 26
    ensures Asked(reqs, k, j) ==> Listed(EntriesFor(s', Coordinates(reqs)), Coord(k, j))
  {
    if Asked(reqs, k, j) {
      var n :| 0 <= n < |reqs| && reqs[n].cell == k && reqs[n].slot == j;
      assert WellFormed(reqs[n]);
      var entries := EntriesFor(s', Coordinates(reqs));
      assert entries[n] == EntryFor(s', Coordinates(reqs)[n]);
      assert entries[n].vox == Coord(k, j);
    }
  }

  /** Every coordinate of a chunk's answer was asked for: each entry finds its request. */
  lemma AnswerListsAskedCoordinates(reqs: seq<LightReq>, s': seq<bv8>, voxelCount: int)
    requires |s'| == BUFFER_SIZE && voxelCount != 0
    ensures forall i :: 0 <= i < |AnswerFor(s', voxelCount, Coordinates(reqs)).value| ==>
      AnswerFor(s', voxelCount, Coordinates(reqs)).value[i].vox in Coordinates(reqs)
  {
  }

  // ---- the output ----

  /** Output entry d describes a cell that is there, with the lights of its samples. */
  ghost predicate Describes(cells: seq<Option<seq<bv8>>>, d: ChunkLightData)
    requires Shaped(cells)
  {
    InChunk(d.voxel) && cells[VoxelIndex(d.voxel)].Some? && d.vertexLight == LightSides(cells[VoxelIndex(d.voxel)].value)
  }

  /** The output for the cells before offset o: an entry per cell that is there, in offset order. */
  function SmoothUpTo(cells: seq<Option<seq<bv8>>>, o: int): seq<ChunkLightData>
    requires Shaped(cells) && 0 <= o <= 4096
  {
    if o == 0 then []
    else
      var last := if cells[o - 1].Some? then [ChunkLightData(VoxelAt(o - 1), LightSides(cells[o - 1].value))] else [];
      SmoothUpTo(cells, o - 1) + last
  }

  /** Each output entry describes a cell before offset o, with the lights its samples give. */
  lemma {:induction false} SmoothDescribesCells(cells: seq<Option<seq<bv8>>>, o: int)
    requires Shaped(cells) && 0 <= o <= 4096
    ensures forall n :: 0 <= n < |SmoothUpTo(cells, o)| ==>
      Describes(cells, SmoothUpTo(cells, o)[n]) && VoxelIndex(SmoothUpTo(cells, o)[n].voxel) < o
  {
    if o > 0 {
      SmoothDescribesCells(cells, o - 1);
      var r0 := SmoothUpTo(cells, o - 1);
      var r := SmoothUpTo(cells, o);
      forall n | 0 <= n < |r|
        ensures Describes(cells, r[n]) && VoxelIndex(r[n].voxel) < o
      {
        if n < |r0| {
          assert r[n] == r0[n];
        }
      }
    }
  }

  /** The output is in offset order, so no cell is listed twice. */
  lemma {:induction false} SmoothInOffsetOrder(cells: seq<Option<seq<bv8>>>, o: int)
    requires Shaped(cells) && 0 <= o <= 4096
    ensures forall n :: 0 <= n < |SmoothUpTo(cells, o)| ==> InChunk(SmoothUpTo(cells, o)[n].voxel)
    ensures forall n, m :: 0 <= n < m < |SmoothUpTo(cells, o)| ==>
      VoxelIndex(SmoothUpTo(cells, o)[n].voxel) < VoxelIndex(SmoothUpTo(cells, o)[m].voxel)
  {
    if o > 0 {
      SmoothInOffsetOrder(cells, o - 1);
      SmoothDescribesCells(cells, o - 1);
      var r0 := SmoothUpTo(cells, o - 1);
      var r := SmoothUpTo(cells, o);
      forall n, m | 0 <= n < m < |r|
        ensures VoxelIndex(r[n].voxel) < VoxelIndex(r[m].voxel)
      {
        assert r[n] == r0[n];
        if m < |r0| {
          assert r[m] == r0[m];
        }
      }
    }
  }

  /** The output has an entry for the voxel at v. */
  ghost predicate HasEntry(r: seq<ChunkLightData>, v: Vec3)
  {
    exists n :: 0 <= n < |r| && r[n].voxel == v
  }

  /** Every cell before offset o that is there has its entry in the output. */
  lemma {:induction false} SmoothListsEveryCell(cells: seq<Option<seq<bv8>>>, o: int)
    requires Shaped(cells) && 0 <= o <= 4096
    ensures forall k :: 0 <= k < o && cells[k].Some? ==> HasEntry(SmoothUpTo(cells, o), VoxelAt(k))
  {
    if o > 0 {
      SmoothListsEveryCell(cells, o - 1);
      var r0 := SmoothUpTo(cells, o - 1);
      var last := if cells[o - 1].Some? then [ChunkLightData(VoxelAt(o - 1), LightSides(cells[o - 1].value))] else [];
      assert SmoothUpTo(cells, o) == r0 + last;
      forall k | 0 <= k < o && cells[k].Some?
        ensures HasEntry(r0 + last, VoxelAt(k))
      {
        if k < o - 1 {
          var n :| 0 <= n < |r0| && r0[n].voxel == VoxelAt(k);
          assert (r0 + last)[n] == r0[n];
        } else {
          assert (r0 + last)[|r0|].voxel == VoxelAt(k);
        }
      }
    }
  }

  /** No slot before slot i of the voxel at offset o, in scan order, has to be asked of another chunk. */
  ghost predicate QuietUpTo(s: seq<bv8>, o: int, i: int)
    requires |s| == BUFFER_SIZE
  {
    forall k, j :: 0 <= k < 4096 && 0 <= j < 26 && (k < o || (k == o && j < i)) && !IsEmptyAt(s, VoxelAt(k)) ==>
      !Pending(s, VoxelAt(k), j)
  }

  /** A chunk whose non-empty voxels all lie away from its border has no slot to ask of another chunk. */
  lemma InteriorChunkIsQuiet(s: seq<bv8>)
    requires |s| == BUFFER_SIZE
    requires forall k :: 0 <= k < 4096 && !IsEmptyAt(s, VoxelAt(k)) ==>
      0 < VoxelAt(k).x < 15 && 0 < VoxelAt(k).y < 15 && 0 < VoxelAt(k).z < 15
    ensures QuietUpTo(s, 4096, 0)
  {
    forall k, i | 0 <= k < 4096 && 0 <= i < 26 && !IsEmptyAt(s, VoxelAt(k))
      ensures !Pending(s, VoxelAt(k), i)
    {
      InteriorSamplesInside(VoxelAt(k), i);
    }
  }

  /** Every sample of a voxel away from the chunk's border lies in the chunk. */
  lemma InteriorSamplesInside(v: Vec3, i: int)
    requires 0 < v.x < 15 && 0 < v.y < 15 && 0 < v.z < 15 && 0 <= i < 26
    ensures InChunk(Target(v, i))
  {
    AllDirsEnumeratesNeighbours();
  }

  class ChunkLightingStage {
    const base: BaseStage
    /** The samples of each voxel, by voxel offset: the `_verticesLightings` grid. */
    var cells: seq<Option<seq<bv8>>>
    var requests: map<Vec3, seq<LightReq>>
    var order: seq<Vec3>
    /** The stage's output: the vertex lights of every non-empty voxel, once smoothed. */
    var output: Option<seq<ChunkLightData>>

    /** The stage's own state: its tag, a cell grid, and a well-formed request table. */
    ghost predicate Valid()
      reads this
    {
      base.stage == StageTags.LIGHTING && Shaped(cells) &&
      Filed(base.shared.pos, requests) && KeysListed(requests, order)
    }

    constructor (shared: SharedData)
      ensures Valid() && fresh(base) && base.shared == shared
      ensures !base.finished && !base.done && requests == map[] && order == [] && output == None
      ensures cells == seq(4096, k => None)
    {
      base := new BaseStage(StageTags.LIGHTING, shared);
      cells := seq(4096, k => None);
      requests := map[];
      order := [];
      output := None;
    }

    /** Files a request under its target chunk, adding the chunk to the table (last) when it is new. */
    method AddRequestChunkVoxel(targetChunk: Vec3, req: LightReq)
      modifies this
      ensures requests == Filing(old(requests), targetChunk, req)
      ensures order == Enlisted(old(requests), old(order), targetChunk)
      ensures cells == old(cells) && output == old(output)
    {
      var list := if targetChunk in requests then requests[targetChunk] else [];
      if targetChunk !in requests {
        order := order + [targetChunk];
      }
      requests := requests[targetChunk := list + [req]];
    }

    /** Posts one request per target chunk, in enumeration order, listing its coordinates in filing order. */
    method SendRequest()
      requires KeysListed(requests, order)
      modifies base.shared
      ensures base.shared.outbox == old(base.shared.outbox) + RequestMessages(base.shared.pos, requests, order)
      ensures base.shared.voxelCount == old(base.shared.voxelCount) && base.shared.errors == old(base.shared.errors)
    {
      var shared := base.shared;
      ghost var msgs := RequestMessages(shared.pos, requests, order);
      var i := 0;
      while i < |order|
        invariant 0 <= i <= |order|
        invariant shared.outbox == old(shared.outbox) + msgs[..i]
        invariant shared.voxelCount == old(shared.voxelCount) && shared.errors == old(shared.errors)
      {
        shared.Post(ReqVox(shared.pos, order[i], Coordinates(requests[order[i]])));
        assert msgs[..i + 1] == msgs[..i] + [msgs[i]];
        i := i + 1;
      }
      assert msgs[..i] == msgs;
    }

    /**
     * Slot i of the voxel at offset o, under `cur`: invalid for a hidden
     * face; for a neighbour in the chunk, invalid when it is empty and its
     * light otherwise; for a neighbour outside, a request to the chunk
     * that holds it, and 0 until the answer comes.
     */
    method ScanSlot(cur: VoxRef, nb: VoxRef, o: int, i: int) returns (b: bv8)
      requires Valid() && base.shared.buffer.Allocated()
      requires cur.buffer == base.shared.buffer && nb.buffer == base.shared.buffer && cur != nb
      requires 0 <= o < 4096 && 0 <= i < 26 && cur.Targeted() && cur.pos == Some(VoxelAt(o))
      requires !IsEmptyAt(base.shared.buffer.voxels[..], VoxelAt(o))
      requires Sampling(base.shared.buffer.voxels[..], base.shared.pos, requests, o, i)
      modifies this, nb
      ensures Valid() && nb.buffer == old(nb.buffer) && cells == old(cells) && output == old(output)
      ensures b == ScanSample(base.shared.buffer.voxels[..], VoxelAt(o), i)
      ensures Sampling(base.shared.buffer.voxels[..], base.shared.pos, requests, o, i + 1)
    {
      ghost var s := base.shared.buffer.voxels[..];
      var v := VoxelAt(o);
      var dir := ALL_DIRS[i];
      if IsUnit(dir) {
        var side := FaceSide(i);
        var visible := cur.IsVisible(side);
        if !visible {
          PassSlot(s, base.shared.pos, requests, o, i);
          return ChunkLight.INVALID_LIGHTING;
        }
      }
      var n := Add(v, dir);
      var inside := nb.TryTarget(n.x, n.y, n.z);
      if inside {
        PassSlot(s, base.shared.pos, requests, o, i);
        var empty := nb.IsEmpty();
        if empty {
          b := ChunkLight.INVALID_LIGHTING;
        } else {
          b := nb.GetLight();
        }
      } else {
        FilingKeepsTable(base.shared.pos, requests, order, o, i);
        FilingAdvances(s, base.shared.pos, requests, o, i);
        AddRequestChunkVoxel(NeighbourChunk(base.shared.pos, n), LightReq(o, NeighbourCoord(n), i));
        b := 0;
      }
    }

    /** The 26 samples of one non-empty voxel, in slot order, filing those to ask of other chunks. */
    method SampleVoxel(cur: VoxRef, nb: VoxRef, o: int) returns (slots: seq<bv8>)
      requires Valid() && base.shared.buffer.Allocated()
      requires cur.buffer == base.shared.buffer && nb.buffer == base.shared.buffer && cur != nb
      requires 0 <= o < 4096 && cur.Targeted() && cur.pos == Some(VoxelAt(o))
      requires !IsEmptyAt(base.shared.buffer.voxels[..], VoxelAt(o))
      requires Sampling(base.shared.buffer.voxels[..], base.shared.pos, requests, o, 0)
      modifies this, nb
      ensures Valid() && nb.buffer == old(nb.buffer) && cells == old(cells) && output == old(output)
      ensures SamplesUpTo(base.shared.buffer.voxels[..], o, slots, 26)
      ensures Sampling(base.shared.buffer.voxels[..], base.shared.pos, requests, o, 26)
    {
      ghost var s := base.shared.buffer.voxels[..];
      slots := seq(26, j => 0);
      var i := 0;
      while i < 26
        invariant 0 <= i <= 26
        invariant Valid() && nb.buffer == base.shared.buffer && cells == old(cells) && output == old(output)
        invariant SamplesUpTo(s, o, slots, i)
        invariant Sampling(s, base.shared.pos, requests, o, i)
      {
        var b := ScanSlot(cur, nb, o, i);
        slots := slots[i := b];
        i := i + 1;
      }
    }

    /** One non-empty voxel: its samples are taken, then its cell is stored. */
    method ScanVoxel(cur: VoxRef, nb: VoxRef, o: int)
      requires Valid() && base.shared.buffer.Allocated()
      requires cur.buffer == base.shared.buffer && nb.buffer == base.shared.buffer && cur != nb
      requires 0 <= o < 4096 && cur.Targeted() && cur.pos == Some(VoxelAt(o))
      requires !IsEmptyAt(base.shared.buffer.voxels[..], VoxelAt(o))
      requires CellsUpTo(base.shared.buffer.voxels[..], cells, o)
      requires FiledBefore(base.shared.buffer.voxels[..], requests, o)
      requires Covered(base.shared.buffer.voxels[..], base.shared.pos, requests, o)
      requires QuietUpTo(base.shared.buffer.voxels[..], o, 0) ==> requests == map[]
      modifies this, nb
      ensures Valid() && nb.buffer == old(nb.buffer) && output == old(output)
      ensures QuietUpTo(base.shared.buffer.voxels[..], o + 1, 0) ==> requests == map[]
      ensures CellsUpTo(base.shared.buffer.voxels[..], cells, o + 1)
      ensures FiledBefore(base.shared.buffer.voxels[..], requests, o + 1)
      ensures Covered(base.shared.buffer.voxels[..], base.shared.pos, requests, o + 1)
    {
      ghost var s := base.shared.buffer.voxels[..];
      BeginVoxel(s, base.shared.pos, requests, o);
      var slots := SampleVoxel(cur, nb, o);
      EndVoxel(s, base.shared.pos, requests, cells, o, slots);
      cells := cells[o := Some(slots)];
    }

    /** The voxel at offset o: skipped when empty, sampled otherwise. */
    method ScanAt(cur: VoxRef, nb: VoxRef, o: int)
      requires Valid() && base.shared.buffer.Allocated()
      requires cur.buffer == base.shared.buffer && nb.buffer == base.shared.buffer && cur != nb
      requires 0 <= o < 4096
      requires CellsUpTo(base.shared.buffer.voxels[..], cells, o)
      requires FiledBefore(base.shared.buffer.voxels[..], requests, o)
      requires Covered(base.shared.buffer.voxels[..], base.shared.pos, requests, o)
      requires QuietUpTo(base.shared.buffer.voxels[..], o, 0) ==> requests == map[]
      modifies this, cur, nb
      ensures Valid() && cur.buffer == old(cur.buffer) && nb.buffer == old(nb.buffer) && output == old(output)
      ensures CellsUpTo(base.shared.buffer.voxels[..], cells, o + 1)
      ensures FiledBefore(base.shared.buffer.voxels[..], requests, o + 1)
      ensures Covered(base.shared.buffer.voxels[..], base.shared.pos, requests, o + 1)
      ensures QuietUpTo(base.shared.buffer.voxels[..], o + 1, 0) ==> requests == map[]
    {
      var v := VoxelAt(o);
      cur.Target(v.x, v.y, v.z);
      var empty := cur.IsEmpty();
      if !empty {
        ScanVoxel(cur, nb, o);
      } else {
        SkipVoxel(base.shared.buffer.voxels[..], base.shared.pos, requests, cells, o);
      }
    }

    /** The scan over every voxel of the chunk, in offset order. */
    method Scan()
      requires Valid() && base.shared.buffer.Allocated()
      requires cells == seq(4096, k => None) && requests == map[] && order == []
      modifies this
      ensures Valid() && output == old(output)
      ensures cells == ScannedCells(base.shared.buffer.voxels[..]) && Backed(cells, requests)
      ensures FiledBefore(base.shared.buffer.voxels[..], requests, 4096)
      ensures Covered(base.shared.buffer.voxels[..], base.shared.pos, requests, 4096)
      ensures QuietUpTo(base.shared.buffer.voxels[..], 4096, 0) ==> requests == map[]
    {
      var buffer := base.shared.buffer;
      var cur := new VoxRef(buffer);
      var nb := new VoxRef(buffer);
      var o := 0;
      while o < 4096
        invariant 0 <= o <= 4096
        invariant Valid() && output == old(output)
        invariant cur.buffer == buffer && nb.buffer == buffer
        invariant CellsUpTo(buffer.voxels[..], cells, o)
        invariant FiledBefore(buffer.voxels[..], requests, o)
        invariant Covered(buffer.voxels[..], base.shared.pos, requests, o)
        invariant QuietUpTo(buffer.voxels[..], o, 0) ==> requests == map[]
      {
        ScanAt(cur, nb, o);
        o := o + 1;
      }
      ScanBacksRequests(buffer.voxels[..], cells, requests);
    }
  
    /** The four vertex lights of one side: the loop over a side's vertices. */
    static method SideVertices(slots: seq<bv8>, side: Side) returns (vertices: seq<real>)
      requires |slots| == 26
      ensures vertices == seq(4, i requires 0 <= i < 4 => VertexLight(slots, side, i))
    {
      vertices := [];
      var i := 0;
      while i < 4
        invariant 0 <= i <= 4 && |vertices| == i
        invariant forall j :: 0 <= j < i ==> vertices[j] == VertexLight(slots, side, j)
      {
        var sideIdx := SIDES[side];
        vertices := vertices + [ChunkLight.AmbientOcclusion(slots[sideIdx] as int,
          slots[CORNERS[side][i][0]], slots[CORNERS[side][i][1]], slots[CORNERS[side][i][2]])];
        i := i + 1;
      }
    }

    /** The lights of one voxel, side by side: nothing for a side whose face sample is invalid. */
    static method VoxelLights(slots: seq<bv8>) returns (lights: seq<Option<seq<real>>>)
      requires |slots| == 26
      ensures lights == LightSides(slots)
    {
      lights := [];
      var side := 0;
      while side < 6
        invariant 0 <= side <= 6 && |lights| == side
        invariant forall j :: 0 <= j < side ==> lights[j] == SideLights(slots, j)
      {
        if slots[SIDES[side]] == ChunkLight.INVALID_LIGHTING {
          lights := lights + [None];
        } else {
          var vertices := SideVertices(slots, side);
          lights := lights + [Some(vertices)];
        }
        side := side + 1;
      }
    }

    /**
     * Turns every cell into its voxel's lights, in offset order, clearing
     * the cell as it goes; the list becomes the stage's output.
     */
    method ComputeSmoothLighting()
      requires Valid()
      modifies this
      ensures Valid()
      ensures output == Some(SmoothUpTo(old(cells), 4096)) && cells == seq(4096, k => None)
      ensures requests == old(requests) && order == old(order)
    {
      var vertLights: seq<ChunkLightData> := [];
      var o := 0;
      while o < 4096
        invariant 0 <= o <= 4096 && |cells| == 4096
        invariant forall k :: 0 <= k < 4096 ==> cells[k] == if k < o then None else old(cells)[k]
        invariant vertLights == SmoothUpTo(old(cells), o)
        invariant requests == old(requests) && order == old(order) && Shaped(cells)
      {
        if cells[o].Some? {
          var lights := VoxelLights(cells[o].value);
          vertLights := vertLights + [ChunkLightData(VoxelAt(o), lights)];
          cells := cells[o := None];
        }
        o := o + 1;
      }
      output := Some(vertLights);
    }

    /** A missing neighbour: every slot of the list becomes invalid, in list order. */
    method FillInvalid(reqs: seq<LightReq>)
      requires Fillable(cells, reqs)
      modifies this
      ensures cells == FillAll(old(cells), reqs, ChunkLight.INVALID_LIGHTING)
      ensures requests == old(requests) && order == old(order) && output == old(output)
    {
      var i := 0;
      while i < |reqs|
        invariant 0 <= i <= |reqs|
        invariant Fillable(old(cells), reqs[..i])
        invariant cells == FillAll(old(cells), reqs[..i], ChunkLight.INVALID_LIGHTING)
        invariant requests == old(requests) && order == old(order) && output == old(output)
      {
        var r := reqs[i];
        assert reqs[..i + 1][..i] == reqs[..i];
        cells := cells[r.cell := Some(cells[r.cell].value[r.slot := ChunkLight.INVALID_LIGHTING])];
        i := i + 1;
      }
      assert reqs[..i] == reqs;
    }

    /** One answer entry: the slot of every request asking for coordinate c becomes value. */
    method FillMatchingSlots(reqs: seq<LightReq>, c: Vec3, value: bv8)
      requires Fillable(cells, reqs)
      modifies this
      ensures cells == FillMatching(old(cells), reqs, c, value)
      ensures requests == old(requests) && order == old(order) && output == old(output)
    {
      var i := 0;
      while i < |reqs|
        invariant 0 <= i <= |reqs|
        invariant Fillable(old(cells), reqs[..i])
        invariant cells == FillMatching(old(cells), reqs[..i], c, value)
        invariant requests == old(requests) && order == old(order) && output == old(output)
      {
        var r := reqs[i];
        assert reqs[..i + 1][..i] == reqs[..i];
        if r.neighbour == c {
          cells := cells[r.cell := Some(cells[r.cell].value[r.slot := value])];
        }
        i := i + 1;
      }
      assert reqs[..i] == reqs;
    }

    /** An answer list: its entries, in order, each filling the requests asking for its coordinate. */
    method SettleAnswers(reqs: seq<LightReq>, entries: seq<VoxEntry>)
      requires Fillable(cells, reqs)
      modifies this
      ensures cells == ApplyEntries(old(cells), reqs, entries)
      ensures requests == old(requests) && order == old(order) && output == old(output)
    {
      var i := 0;
      while i < |entries|
        invariant 0 <= i <= |entries|
        invariant cells == ApplyEntries(old(cells), reqs, entries[..i])
        invariant requests == old(requests) && order == old(order) && output == old(output)
      {
        var e := entries[i];
        var value := if e.snap.None? then ChunkLight.INVALID_LIGHTING else e.snap.value.light;
        assert entries[..i + 1][..i] == entries[..i];
        FillMatchingSlots(reqs, e.vox, value);
        i := i + 1;
      }
      assert entries[..i] == entries;
    }

    /**
     * The answer of chunk respPos. An answer nobody asked for is only
     * noted (not as an error). Otherwise the request list is dropped, its
     * slots are filled (all invalid when there is no list, from the
     * entries otherwise), and with the last answer the cells are smoothed
     * into the output and the stage finishes.
     */
    method ChunkVoxelRes(respPos: Vec3, list: Option<seq<VoxEntry>>)
      requires Valid() && Backed(cells, requests)
      requires respPos in requests && list.Some? ==>
        forall n :: 0 <= n < |list.value| ==> list.value[n].vox in Coordinates(requests[respPos])
      modifies this, base, base.shared
      ensures Valid() && Backed(cells, requests) && base.done == old(base.done)
      ensures base.shared.voxelCount == old(base.shared.voxelCount) && base.shared.outbox == old(base.shared.outbox)
      ensures respPos !in old(requests) ==>
        requests == old(requests) && order == old(order) && cells == old(cells) && output == old(output) &&
        base.finished == old(base.finished) && base.shared.errors == old(base.shared.errors)
      ensures respPos in old(requests) ==>
        requests == old(requests) - {respPos} && order == Without(old(order), respPos) &&
        base.finished == (old(base.finished) || requests == map[]) &&
        base.shared.errors == old(base.shared.errors) + (if old(base.finished) && requests == map[] then 1 else 0)
      ensures respPos in old(requests) && requests != map[] ==>
        Fillable(old(cells), old(requests)[respPos]) &&
        cells == Answered(old(cells), old(requests)[respPos], list) && output == old(output)
      ensures respPos in old(requests) && requests == map[] ==>
        Fillable(old(cells), old(requests)[respPos]) &&
        output == Some(SmoothUpTo(Answered(old(cells), old(requests)[respPos], list), 4096)) &&
        cells == seq(4096, k => None)
    {
      if respPos !in requests {
        return;
      }
      var reqs := TakeRequests(respPos);
      Settle(reqs, list);
      if requests == map[] {
        ComputeSmoothLighting();
        base.Finish();
      }
    }

    /** Drops the list of chunk key from the table and returns it; its slots can be filled. */
    method TakeRequests(key: Vec3) returns (reqs: seq<LightReq>)
      requires Valid() && Backed(cells, requests) && key in requests
      modifies this
      ensures Valid() && Backed(cells, requests) && Fillable(cells, reqs) && reqs == old(requests)[key]
      ensures requests == old(requests) - {key} && order == Without(old(order), key)
      ensures cells == old(cells) && output == old(output)
    {
      reqs := requests[key];
      WithoutDistinct(order, key);
      requests := requests - {key};
      order := Without(order, key);
    }

    /** Fills the slots of a list from its answer: all invalid when there is no list, from the entries otherwise. */
    method Settle(reqs: seq<LightReq>, list: Option<seq<VoxEntry>>)
      requires Valid() && Backed(cells, requests) && Fillable(cells, reqs)
      modifies this
      ensures Valid() && Backed(cells, requests)
      ensures cells == Answered(old(cells), reqs, list)
      ensures requests == old(requests) && order == old(order) && output == old(output)
    {
      if list.None? {
        FillInvalid(reqs);
      } else {
        SettleAnswers(reqs, list.value);
      }
    }

    /**
     * What handling msg did, from the state before it to the state now: an
     * answer for a tracked chunk drops the chunk from the table and fills
     * its slots (255 everywhere for a null list, each answered light
     * otherwise); with the last answer the cells are smoothed into the
     * output, cleared, and the stage finishes. An answer for an untracked
     * chunk changes nothing; any other message is logged and changes
     * nothing else.
     */
    twostate predicate Handled(msg: Message)
      reads this, base, base.shared`errors
    {
      if msg.ResVox? && msg.pos in old(requests) then
        var reqs := old(requests)[msg.pos];
        Fillable(old(cells), reqs) &&
        requests == old(requests) - {msg.pos} && order == Without(old(order), msg.pos) &&
        base.finished == (old(base.finished) || requests == map[]) &&
        base.shared.errors == old(base.shared.errors) + (if old(base.finished) && requests == map[] then 1 else 0) &&
        if requests == map[] then
          output == Some(SmoothUpTo(Answered(old(cells), reqs, msg.list), 4096)) && cells == seq(4096, k => None)
        else
          cells == Answered(old(cells), reqs, msg.list) && output == old(output)
      else
        requests == old(requests) && order == old(order) && cells == old(cells) && output == old(output) &&
        base.finished == old(base.finished) &&
        base.shared.errors == old(base.shared.errors) + (if msg.ResVox? then 0 else 1)
    }

    /** The stage expects only answers; any other message is logged and changes nothing else. */
    method Dispatch(msg: Message)
      requires Valid() && Backed(cells, requests) && WellTyped(msg)
      requires msg.ResVox? && msg.pos in requests && msg.list.Some? ==>
        forall n :: 0 <= n < |msg.list.value| ==> msg.list.value[n].vox in Coordinates(requests[msg.pos])
      modifies this, base, base.shared
      ensures Valid() && Backed(cells, requests) && base.done == old(base.done)
      ensures base.shared.voxelCount == old(base.shared.voxelCount) && base.shared.outbox == old(base.shared.outbox)
      ensures Handled(msg)
    {
      ActionsOfKinds(msg);
      if msg.Action() == RES_VOX {
        ChunkVoxelRes(msg.pos, msg.list);
      } else {
        base.Unexpected(msg);
      }
    }

    /**
     * Starts the stage: every non-empty voxel is sampled, and the requests
     * for neighbours outside the chunk are posted. A chunk that needs no
     * answer smooths its cells at once and finishes with its output.
     */
    method OnStart()
      requires Valid() && base.shared.buffer.Allocated() && !base.finished && !base.done
      requires cells == seq(4096, k => None) && requests == map[] && order == []
      modifies this, base, base.shared
      ensures Valid() && Backed(cells, requests) && !base.done
      ensures base.shared.voxelCount == old(base.shared.voxelCount) && base.shared.errors == old(base.shared.errors)
      ensures QuietUpTo(base.shared.buffer.voxels[..], 4096, 0) ==> requests == map[]
      ensures requests == map[] ==>
        base.finished && base.shared.outbox == old(base.shared.outbox) &&
        output == Some(SmoothUpTo(ScannedCells(base.shared.buffer.voxels[..]), 4096))
      ensures requests != map[] ==>
        !base.finished && output == old(output) &&
        cells == ScannedCells(base.shared.buffer.voxels[..]) &&
        FiledBefore(base.shared.buffer.voxels[..], requests, 4096) &&
        Covered(base.shared.buffer.voxels[..], base.shared.pos, requests, 4096) &&
        base.shared.outbox == old(base.shared.outbox) + RequestMessages(base.shared.pos, requests, order)
    {
      Scan();
      if requests != map[] {
        SendRequest();
      } else {
        ComputeSmoothLighting();
        base.Finish();
      }
    }

    /**
     * The start as the source writes it: a chunk that needs no answer
     * finishes without smoothing its cells, so its output stays unset.
     */
    method OnStartAsWritten()
      requires Valid() && base.shared.buffer.Allocated() && !base.finished && !base.done
      requires cells == seq(4096, k => None) && requests == map[] && order == []
      modifies this, base, base.shared
      ensures Valid() && !base.done
      ensures QuietUpTo(base.shared.buffer.voxels[..], 4096, 0) ==> requests == map[]
      ensures requests == map[] ==> base.finished && output == old(output)
      ensures requests != map[] ==>
        !base.finished && output == old(output) &&
        base.shared.outbox == old(base.shared.outbox) + RequestMessages(base.shared.pos, requests, order)
    {
      Scan();
      if requests != map[] {
        SendRequest();
      } else {
        base.Finish();
      }
    }
  }

  /**
   * A chunk whose non-empty voxels all lie inside it, away from its
   * border, needs no answer; yet every one of its non-empty voxels has
   * lights in the smoothed output. The start as written finishes such a
   * chunk with no output at all.
   */
  lemma InteriorChunkHasLights(s: seq<bv8>, k: int)
    requires |s| == BUFFER_SIZE && 0 <= k < 4096 && !IsEmptyAt(s, VoxelAt(k))
    requires forall o :: 0 <= o < 4096 && !IsEmptyAt(s, VoxelAt(o)) ==>
      0 < VoxelAt(o).x < 15 && 0 < VoxelAt(o).y < 15 && 0 < VoxelAt(o).z < 15
    ensures QuietUpTo(s, 4096, 0)
    ensures HasEntry(SmoothUpTo(ScannedCells(s), 4096), VoxelAt(k))
  {
    InteriorChunkIsQuiet(s);
    SmoothListsEveryCell(ScannedCells(s), 4096);
  }
}
