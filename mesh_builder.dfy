/**
 * The mesh builder: quads grouped by (voxel type, side), and the vertex
 * streams (positions, normals, indices, UVs, tile UVs, colours) derived from
 * the groups. Vertex coordinates are integer-valued, so floats become ints.
 */
module MeshBuilders {
  import opened Wrappers
  import opened Vec3Math

  /** The outward normal of each side, indexed FRONT, RIGHT, BACK, LEFT, TOP, DOWN. */
  const NORMALS: seq<Vec3> := [Vec3(0, 0, 1), Vec3(1, 0, 0), Vec3(0, 0, -1), Vec3(-1, 0, 0), Vec3(0, 1, 0), Vec3(0, -1, 0)]

  /** The per-quad index pattern: triangles (0, 1, 2) and (2, 3, 0). */
  const QUAD_PATTERN: seq<int> := [0, 1, 2, 2, 3, 0]

  datatype UV = UV(u: int, v: int)
  datatype Color = Color(r: int, g: int, b: int, a: int)

  const TILE_UV: UV := UV(0, 1)
  const WHITE: Color := Color(1, 1, 1, 1)

  /** The numbers emitted for every face of one side and one voxel type. */
  datatype Group = Group(side: int, voxelType: bv16, buffer: seq<int>)

  predicate HasKey(g: Group, voxelType: bv16, side: int) {
    g.voxelType == voxelType && g.side == side
  }

  /** At most one group per (type, side). */
  predicate DistinctKeys(gs: seq<Group>) {
    forall i, j :: 0 <= i < j < |gs| ==> !HasKey(gs[j], gs[i].voxelType, gs[i].side)
  }

  /** The first group with the given key, if any. */
  function Find(gs: seq<Group>, voxelType: bv16, side: int): (r: Option<nat>)
    ensures r.Some? ==>
      (r.value < |gs| && HasKey(gs[r.value], voxelType, side) &&
       forall j :: 0 <= j < r.value ==> !HasKey(gs[j], voxelType, side))
    ensures r.None? ==> forall j :: 0 <= j < |gs| ==> !HasKey(gs[j], voxelType, side)
    decreases |gs|
  {
    if |gs| == 0 then None
    else if HasKey(gs[0], voxelType, side) then Some(0)
    else match Find(gs[1..], voxelType, side)
      case None => None
      case Some(i) => Some(i + 1)
  }

  /** The groups after appending buf to the (type, side) group, created at the end when missing. */
  function Added(gs: seq<Group>, voxelType: bv16, side: int, buf: seq<int>): seq<Group> {
    match Find(gs, voxelType, side)
      case Some(i) => gs[i := gs[i].(buffer := gs[i].buffer + buf)]
      case None => gs + [Group(side, voxelType, buf)]
  }

  // ---- the derived streams, each a function of the groups ----

  function Total(gs: seq<Group>): nat {
    if |gs| == 0 then 0 else Total(gs[..|gs| - 1]) + |gs[|gs| - 1].buffer|
  }

  predicate AllTriples(gs: seq<Group>) {
    forall i :: 0 <= i < |gs| ==> |gs[i].buffer| % 3 == 0
  }

  predicate AllQuads(gs: seq<Group>) {
    forall i :: 0 <= i < |gs| ==> |gs[i].buffer| % 12 == 0
  }

  predicate ValidSides(gs: seq<Group>) {
    forall i :: 0 <= i < |gs| ==> 0 <= gs[i].side < 6
  }

  /** Consecutive number triples as vertices. */
  function Triples(b: seq<int>): (r: seq<Vec3>)
    requires |b| % 3 == 0
    ensures |r| == |b| / 3
    ensures forall k :: 0 <= k < |r| ==> r[k] == Vec3(b[3 * k], b[3 * k + 1], b[3 * k + 2])
  {
    if |b| == 0 then [] else Triples(b[..|b| - 3]) + [Vec3(b[|b| - 3], b[|b| - 2], b[|b| - 1])]
  }

  function Positions(gs: seq<Group>): seq<Vec3>
    requires AllTriples(gs)
  {
    if |gs| == 0 then [] else Positions(gs[..|gs| - 1]) + Triples(gs[|gs| - 1].buffer)
  }

  lemma AppendAssoc<T>(a: seq<T>, b: seq<T>, c: seq<T>)
    ensures (a + b) + c == a + (b + c)
  {
  }

  lemma TriplesStep(b: seq<int>, i: nat)
    requires i % 3 == 0 && i + 3 <= |b|
    ensures Triples(b[..i + 3]) == Triples(b[..i]) + [Vec3(b[i], b[i + 1], b[i + 2])]
  {
    assert b[..i + 3][..i] == b[..i];
  }

  lemma PositionsStep(gs: seq<Group>, g: nat)
    requires AllTriples(gs) && g < |gs|
    ensures AllTriples(gs[..g]) && AllTriples(gs[..g + 1])
    ensures Positions(gs[..g + 1]) == Positions(gs[..g]) + Triples(gs[g].buffer)
  {
    assert gs[..g + 1][..g] == gs[..g];
  }

  /** The number of steps of 3 needed to pass n: the C# loops step i by 3 while i < n. */
  function Steps3(n: nat): nat { (n + 2) / 3 }

  function Normals(gs: seq<Group>): seq<Vec3>
    requires ValidSides(gs)
  {
    if |gs| == 0 then []
    else Normals(gs[..|gs| - 1]) + seq(Steps3(|gs[|gs| - 1].buffer|), _ => NORMALS[gs[|gs| - 1].side])
  }

  /** The L1 distance between two vertices, as the UV extent of a quad edge. */
  function L1(a: Vec3, b: Vec3): nat {
    Abs(a.x - b.x) + Abs(a.y - b.y) + Abs(a.z - b.z)
  }

  /** The four UVs of the quad stored at b[q..q+12]: its v0-v1 and v0-v3 extents. */
  function QuadUVs(b: seq<int>, q: nat): (r: seq<UV>)
    requires q + 12 <= |b|
    ensures |r| == 4
  {
    var v1 := Vec3(b[q], b[q + 1], b[q + 2]);
    var v2 := Vec3(b[q + 3], b[q + 4], b[q + 5]);
    var v4 := Vec3(b[q + 9], b[q + 10], b[q + 11]);
    var w := L1(v1, v2);
    var h := L1(v1, v4);
    [UV(w, 0), UV(0, 0), UV(0, h), UV(w, h)]
  }

  function BufferUVs(b: seq<int>, n: nat): (r: seq<UV>)
    requires n % 12 == 0 && n <= |b|
    ensures |r| == n / 3
  {
    if n == 0 then [] else BufferUVs(b, n - 12) + QuadUVs(b, n - 12)
  }

  function UVs(gs: seq<Group>): seq<UV>
    requires AllQuads(gs)
  {
    if |gs| == 0 then [] else UVs(gs[..|gs| - 1]) + BufferUVs(gs[|gs| - 1].buffer, |gs[|gs| - 1].buffer|)
  }

  function TileUVs(gs: seq<Group>): seq<UV> {
    if |gs| == 0 then [] else TileUVs(gs[..|gs| - 1]) + seq(Steps3(|gs[|gs| - 1].buffer|), _ => TILE_UV)
  }

  function Colors(gs: seq<Group>): seq<Color> {
    if |gs| == 0 then [] else Colors(gs[..|gs| - 1]) + seq(Steps3(|gs[|gs| - 1].buffer|), _ => WHITE)
  }

  /** The k-th index: block k / 6 addresses the four vertices of quad k / 6. */
  function IndexAt(k: nat): int {
    4 * (k / 6) + QUAD_PATTERN[k % 6]
  }

  /** The inner loop of GetPositions: one vertex per number triple of a group. */
  method AppendTriples(result: seq<Vec3>, b: seq<int>) returns (r: seq<Vec3>)
    requires |b| % 3 == 0
    ensures r == result + Triples(b)
  {
    r := result;
    var i := 0;
    while i < |b|
      invariant 0 <= i <= |b| && i % 3 == 0
      invariant r == result + Triples(b[..i])
    {
      TriplesStep(b, i);
      AppendAssoc(result, Triples(b[..i]), [Vec3(b[i], b[i + 1], b[i + 2])]);
      r := r + [Vec3(b[i], b[i + 1], b[i + 2])];
      i := i + 3;
    }
    assert b[..i] == b;
  }

  /** The inner loop of GetUVs: four UVs per 12-number quad of a group. */
  method AppendQuadUVs(result: seq<UV>, b: seq<int>) returns (r: seq<UV>)
    requires |b| % 12 == 0
    ensures r == result + BufferUVs(b, |b|)
  {
    r := result;
    var i := 0;
    while i < |b|
      invariant 0 <= i <= |b| && i % 12 == 0
      invariant r == result + BufferUVs(b, i)
    {
      var x1, y1, z1 := b[i], b[i + 1], b[i + 2];
      var x2, y2, z2 := b[i + 3], b[i + 4], b[i + 5];
      var x4, y4, z4 := b[i + 9], b[i + 10], b[i + 11];
      var xTile := Abs(x1 - x2) + Abs(y1 - y2) + Abs(z1 - z2);
      var yTile := Abs(x1 - x4) + Abs(y1 - y4) + Abs(z1 - z4);
      assert QuadUVs(b, i) == [UV(xTile, 0), UV(0, 0), UV(0, yTile), UV(xTile, yTile)];
      AppendAssoc(result, BufferUVs(b, i), QuadUVs(b, i));
      r := r + [UV(xTile, 0), UV(0, 0), UV(0, yTile), UV(xTile, yTile)];
      i := i + 12;
    }
  }

  class MeshBuilder {
    var dataList: seq<Group>

    constructor ()
      ensures dataList == []
    {
      dataList := [];
    }

    /** The index of the (type, side) group, appended empty when missing. */
    method SafeGet(voxelType: bv16, side: int) returns (i: nat)
      modifies this
      ensures i < |dataList| && HasKey(dataList[i], voxelType, side)
      ensures Find(old(dataList), voxelType, side).Some? ==>
        dataList == old(dataList) && Some(i) == Find(old(dataList), voxelType, side)
      ensures Find(old(dataList), voxelType, side).None? ==>
        dataList == old(dataList) + [Group(side, voxelType, [])] && i == |old(dataList)|
    {
      var found := Find(dataList, voxelType, side);
      if found.Some? {
        i := found.value;
      } else {
        dataList := dataList + [Group(side, voxelType, [])];
        i := |dataList| - 1;
      }
    }

    method Add(voxelType: bv16, side: int, buffer: seq<int>)
      modifies this
      ensures dataList == Added(old(dataList), voxelType, side, buffer)
    {
      var i := SafeGet(voxelType, side);
      assert [] + buffer == buffer;
      dataList := dataList[i := dataList[i].(buffer := dataList[i].buffer + buffer)];
    }

    method GetPositionFloatCount() returns (cnt: nat)
      ensures cnt == Total(dataList)
    {
      cnt := 0;
      var i := 0;
      while i < |dataList|
        invariant 0 <= i <= |dataList|
        invariant cnt == Total(dataList[..i])
      {
        assert dataList[..i + 1][..i] == dataList[..i];
        cnt := cnt + |dataList[i].buffer|;
        i := i + 1;
      }
      assert dataList[..i] == dataList;
    }

    method GetPositionCount() returns (cnt: nat)
      ensures cnt == Total(dataList) / 3
    {
      cnt := GetPositionFloatCount();
      cnt := cnt / 3;
    }

    method GetPositions() returns (result: seq<Vec3>)
      requires AllTriples(dataList)
      ensures result == Positions(dataList)
    {
      result := [];
      var g := 0;
      while g < |dataList|
        invariant 0 <= g <= |dataList|
        invariant result == Positions(dataList[..g])
      {
        PositionsStep(dataList, g);
        result := AppendTriples(result, dataList[g].buffer);
        g := g + 1;
      }
      assert dataList[..g] == dataList;
    }

    method GetNormals() returns (result: seq<Vec3>)
      requires ValidSides(dataList)
      ensures result == Normals(dataList)
    {
      result := [];
      var g := 0;
      while g < |dataList|
        invariant 0 <= g <= |dataList|
        invariant result == Normals(dataList[..g])
      {
        assert dataList[..g + 1][..g] == dataList[..g];
        var d := dataList[g];
        var i := 0;
        while i < |d.buffer|
          invariant 0 <= i <= |d.buffer| + 2 && i % 3 == 0
          invariant result == Normals(dataList[..g]) + seq(i / 3, _ => NORMALS[d.side])
        {
          result := result + [NORMALS[d.side]];
          i := i + 3;
        }
        g := g + 1;
      }
      assert dataList[..g] == dataList;
    }

    /** Two triangles per quad of four vertices; a trailing partial block would overrun the array. */
    method GetIndices() returns (result: array<int>)
      requires (Total(dataList) / 2) % 6 == 0
      ensures fresh(result) && result.Length == Total(dataList) / 2
      ensures forall k :: 0 <= k < result.Length ==> result[k] == IndexAt(k)
    {
      var total := GetPositionFloatCount();
      var indexCount := total / 2;
      result := new int[indexCount];
      var n := 0;
      var i := 0;
      while i < indexCount
        invariant 0 <= i <= indexCount && i % 6 == 0 && n == 4 * (i / 6)
        invariant forall k :: 0 <= k < i ==> result[k] == IndexAt(k)
      {
        IndexBlock(i, indexCount);
        WriteBlock(result, i, n);
        n := n + 4;
        i := i + 6;
      }
    }

    /** The body of GetIndices' loop: the two triangles (n, n+1, n+2) and (n+2, n+3, n) of one quad. */
    static method WriteBlock(result: array<int>, i: int, n: int)
      requires 0 <= i && i + 6 <= result.Length
      modifies result
      ensures forall k :: i <= k < i + 6 ==> result[k] == n + QUAD_PATTERN[k - i]
      ensures forall k :: 0 <= k < result.Length && !(i <= k < i + 6) ==> result[k] == old(result[k])
    {
      result[i] := n;
      result[i + 1] := n + 1;
      result[i + 2] := n + 2;
      result[i + 3] := n + 2;
      result[i + 4] := n + 3;
      result[i + 5] := n;
    }

    method GetUVs() returns (result: seq<UV>)
      requires AllQuads(dataList)
      ensures result == UVs(dataList)
    {
      result := [];
      var g := 0;
      while g < |dataList|
        invariant 0 <= g <= |dataList|
        invariant result == UVs(dataList[..g])
      {
        assert dataList[..g + 1][..g] == dataList[..g];
        result := AppendQuadUVs(result, dataList[g].buffer);
        g := g + 1;
      }
      assert dataList[..g] == dataList;
    }

    method GetTileUVs() returns (result: seq<UV>)
      ensures result == TileUVs(dataList)
    {
      result := [];
      var g := 0;
      while g < |dataList|
        invariant 0 <= g <= |dataList|
        invariant result == TileUVs(dataList[..g])
      {
        assert dataList[..g + 1][..g] == dataList[..g];
        var size := |dataList[g].buffer|;
        var i := 0;
        while i < size
          invariant 0 <= i <= size + 2 && i % 3 == 0
          invariant result == TileUVs(dataList[..g]) + seq(i / 3, _ => TILE_UV)
        {
          result := result + [TILE_UV];
          i := i + 3;
        }
        g := g + 1;
      }
      assert dataList[..g] == dataList;
    }

    method GetColors() returns (result: seq<Color>)
      ensures result == Colors(dataList)
    {
      result := [];
      var g := 0;
      while g < |dataList|
        invariant 0 <= g <= |dataList|
        invariant result == Colors(dataList[..g])
      {
        assert dataList[..g + 1][..g] == dataList[..g];
        var size := |dataList[g].buffer|;
        var i := 0;
        while i < size
          invariant 0 <= i <= size + 2 && i % 3 == 0
          invariant result == Colors(dataList[..g]) + seq(i / 3, _ => WHITE)
        {
          result := result + [WHITE];
          i := i + 3;
        }
        g := g + 1;
      }
      assert dataList[..g] == dataList;
    }
  }

  /** A block of six indices starting at a multiple of six fits and holds one quad's two triangles. */
  lemma IndexBlock(i: nat, count: nat)
    requires i % 6 == 0 && count % 6 == 0 && i < count
    ensures i + 6 <= count && (i + 6) % 6 == 0 && (i + 6) / 6 == i / 6 + 1
    ensures forall k :: i <= k < i + 6 ==> IndexAt(k) == 4 * (i / 6) + QUAD_PATTERN[k - i]
  {
    forall k | i <= k < i + 6
      ensures IndexAt(k) == 4 * (i / 6) + QUAD_PATTERN[k - i]
    {
      assert k / 6 == i / 6 && k % 6 == k - i;
    }
  }

  // ---- properties of grouping ----

  /**
   * Adding never duplicates a key; the (type, side) group gains exactly buf at
   * its end, every other group is unchanged and keeps its place, and a group
   * is created (at the end) only for a new key.
   */
  lemma {:induction false} AddedGroups(gs: seq<Group>, voxelType: bv16, side: int, buf: seq<int>)
    requires DistinctKeys(gs)
    ensures var r := Added(gs, voxelType, side, buf);
      DistinctKeys(r) &&
      |r| == |gs| + (if Find(gs, voxelType, side).Some? then 0 else 1) &&
      Find(r, voxelType, side).Some? &&
      r[Find(r, voxelType, side).value].buffer ==
        (if Find(gs, voxelType, side).Some? then gs[Find(gs, voxelType, side).value].buffer else []) + buf &&
      forall j :: 0 <= j < |gs| && !HasKey(gs[j], voxelType, side) ==> r[j] == gs[j]
  {
    var r := Added(gs, voxelType, side, buf);
    match Find(gs, voxelType, side)
    case Some(i) =>
      assert Find(r, voxelType, side) == Some(i) by {
        assert HasKey(r[i], voxelType, side);
        assert forall j :: 0 <= j < i ==> r[j] == gs[j];
        FindIsFirst(r, voxelType, side, i);
      }
    case None =>
      FindIsFirst(r, voxelType, side, |gs|);
  }

  /** The first matching index is what Find returns. */
  lemma {:induction false} FindIsFirst(gs: seq<Group>, voxelType: bv16, side: int, i: nat)
    requires i < |gs| && HasKey(gs[i], voxelType, side)
    requires forall j :: 0 <= j < i ==> !HasKey(gs[j], voxelType, side)
    ensures Find(gs, voxelType, side) == Some(i)
  {
  }

  /** Adding grows the number total by exactly |buf|. */
  lemma {:induction false} AddedTotal(gs: seq<Group>, voxelType: bv16, side: int, buf: seq<int>)
    ensures Total(Added(gs, voxelType, side, buf)) == Total(gs) + |buf|
  {
    match Find(gs, voxelType, side)
    case Some(i) =>
      TotalUpdate(gs, i, gs[i].(buffer := gs[i].buffer + buf));
    case None =>
      assert (gs + [Group(side, voxelType, buf)])[..|gs|] == gs;
  }

  lemma {:induction false} TotalUpdate(gs: seq<Group>, i: nat, g: Group)
    requires i < |gs|
    ensures Total(gs[i := g]) + |gs[i].buffer| == Total(gs) + |g.buffer|
    decreases |gs|
  {
    var n := |gs| - 1;
    if i == n {
      assert gs[i := g][..n] == gs[..n];
    } else {
      assert gs[i := g][..n] == gs[..n][i := g];
      TotalUpdate(gs[..n], i, g);
    }
  }

  /** One position per three numbers. */
  lemma {:induction false} PositionsCount(gs: seq<Group>)
    requires AllTriples(gs)
    ensures |Positions(gs)| == Total(gs) / 3 && Total(gs) % 3 == 0
  {
    if |gs| > 0 {
      PositionsCount(gs[..|gs| - 1]);
    }
  }

  /** One normal per position. */
  lemma {:induction false} NormalsMatchPositions(gs: seq<Group>)
    requires AllTriples(gs) && ValidSides(gs)
    ensures |Normals(gs)| == |Positions(gs)|
  {
    if |gs| > 0 {
      NormalsMatchPositions(gs[..|gs| - 1]);
    }
  }

  /** Tile UVs and colours also have one entry per position. */
  lemma {:induction false} PerVertexStreams(gs: seq<Group>)
    requires AllTriples(gs)
    ensures |TileUVs(gs)| == |Positions(gs)| && |Colors(gs)| == |Positions(gs)|
  {
    if |gs| > 0 {
      PerVertexStreams(gs[..|gs| - 1]);
    }
  }

  /** UVs also have one entry per position when every group holds whole quads. */
  lemma {:induction false} UVsCount(gs: seq<Group>)
    requires AllQuads(gs)
    ensures AllTriples(gs) && |UVs(gs)| == |Positions(gs)|
  {
    assert AllTriples(gs) by {
      forall i | 0 <= i < |gs|
        ensures |gs[i].buffer| % 3 == 0
      {
        assert |gs[i].buffer| % 12 == 0;
      }
    }
    if |gs| > 0 {
      var front, b := gs[..|gs| - 1], gs[|gs| - 1].buffer;
      assert AllQuads(front) by {
        forall i | 0 <= i < |front|
          ensures |front[i].buffer| % 12 == 0
        {
          assert front[i] == gs[i];
        }
      }
      UVsCount(front);
      assert |UVs(gs)| == |UVs(front)| + |b| / 3;
      assert |Positions(gs)| == |Positions(front)| + |b| / 3;
    }
  }

  /**
   * Every index addresses an existing vertex, and block q of six draws the
   * triangles (4q, 4q+1, 4q+2) and (4q+2, 4q+3, 4q) of quad q.
   */
  lemma IndicesAddressQuads(total: nat, k: nat)
    requires total % 12 == 0 && k < total / 2
    ensures 0 <= IndexAt(k) < total / 3
    ensures 4 * (k / 6) <= IndexAt(k) <= 4 * (k / 6) + 3
  {
    var q := k / 6;
    assert q < total / 12;
  }

  /** The normal table agrees with the face directions: NORMALS[s] is the outward direction of side s. */
  lemma NormalsAreFaceDirections()
    ensures NORMALS == ALL_DIRECTIONS
  {
  }
}
