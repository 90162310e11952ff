/**
 * The visibility stage: a face of a non-empty voxel is visible exactly when
 * the voxel across it is empty. Neighbours inside the chunk are read
 * directly; faces on the chunk's border are filed as requests to the
 * neighbouring chunk and settled when its answer comes back.
 */
module VisibilityStages {
  import opened Wrappers
  import opened Voxel
  import opened Vec3Math
  import opened ChunkDims
  import opened ChunkBuffers
  import opened VoxRefs
  import opened Messages
  import opened StageCommon
  import opened NeighbourAddress
  import StageTags

  /** A border face waiting for an answer: the voxel (its own copy of the position; see AliasedAsWritten), its neighbour's coordinate in the other chunk, the side. */
  datatype NeighbourReq = NeighbourReq(vox: Vec3, neighbour: Vec3, side: Side)

  /** The position across a side of v, in this chunk's coordinates. */
  function SideNeighbour(v: Vec3, side: Side): Vec3
  {
    Add(v, ALL_UNIT_DIRS[side])
  }

  /** A face whose neighbour lies in another chunk. */
  predicate Border(v: Vec3, side: Side)
  {
    !InChunk(SideNeighbour(v, side))
  }

  /** The chunk the requests for one side go to: the neighbour one chunk along that side. */
  function KeyOf(pos: Vec3, side: Side): Vec3
  {
    Add(pos, Scale(ALL_UNIT_DIRS[side], SIZE))
  }

  /** The request for a border face, naming the neighbour by its coordinate inside its own chunk. */
  function RequestFor(v: Vec3, side: Side): NeighbourReq
  {
    NeighbourReq(v, NeighbourCoord(SideNeighbour(v, side)), side)
  }

  /** The visibility the scan gives a face: decided by an in-chunk neighbour, otherwise left for the answer. */
  predicate ScannedVisible(s: seq<bv8>, v: Vec3, side: Side)
    requires |s| == BUFFER_SIZE && InChunk(v)
  {
    if !IsEmptyAt(s, v) && InChunk(SideNeighbour(v, side)) then IsEmptyAt(s, SideNeighbour(v, side))
    else IsVisibleAt(s, v, side)
  }

  /** Every filed request is for a border face of a voxel in the chunk, filed under its side's chunk. */
  ghost predicate Filed(pos: Vec3, requests: map<Vec3, seq<NeighbourReq>>)
  {
    forall k, i :: k in requests && 0 <= i < |requests[k]| ==>
      InChunk(requests[k][i].vox) && Border(requests[k][i].vox, requests[k][i].side) &&
      requests[k][i] == RequestFor(requests[k][i].vox, requests[k][i].side) &&
      k == KeyOf(pos, requests[k][i].side)
  }

  /** Each list is in scan order, one request per voxel. */
  ghost predicate InScanOrder(pos: Vec3, requests: map<Vec3, seq<NeighbourReq>>)
    requires Filed(pos, requests)
  {
    forall k, i, j :: k in requests && 0 <= i < j < |requests[k]| ==>
      VoxelIndex(requests[k][i].vox) < VoxelIndex(requests[k][j].vox)
  }

  /** Every border face of a non-empty voxel before offset o has its request filed. */
  ghost predicate Covered(s: seq<bv8>, pos: Vec3, requests: map<Vec3, seq<NeighbourReq>>, o: int)
    requires |s| == BUFFER_SIZE
  {
    forall v, side: Side :: InChunk(v) && VoxelIndex(v) < o && !IsEmptyAt(s, v) && Border(v, side) ==>
      KeyOf(pos, side) in requests && RequestFor(v, side) in requests[KeyOf(pos, side)]
  }

  /** The faces of the voxels before offset o are as the scan leaves them, the others as they were. */
  ghost predicate ScannedUpTo(s0: seq<bv8>, s: seq<bv8>, o: int)
    requires |s0| == BUFFER_SIZE && |s| == BUFFER_SIZE
  {
    forall v, side: Side :: InChunk(v) ==>
      IsVisibleAt(s, v, side) == (if VoxelIndex(v) < o then ScannedVisible(s0, v, side) else IsVisibleAt(s0, v, side))
  }

  /** Types and light bytes agree: the stage only writes visibility bits. */
  ghost predicate SameContents(s0: seq<bv8>, s: seq<bv8>)
    requires |s0| == BUFFER_SIZE && |s| == BUFFER_SIZE
  {
    forall v :: InChunk(v) ==> TypeAt(s, v) == TypeAt(s0, v) && LightAt(s, v) == LightAt(s0, v)
  }

  /** The coordinates a request message lists for one chunk, in filing order. */
  function Coordinates(reqs: seq<NeighbourReq>): (r: seq<Vec3>)
    ensures |r| == |reqs| && forall i :: 0 <= i < |reqs| ==> r[i] == reqs[i].neighbour
  {
    if reqs == [] then [] else [reqs[0].neighbour] + Coordinates(reqs[1..])
  }

  /** The request messages of a table: one per key, in enumeration order. */
  function RequestMessages(pos: Vec3, requests: map<Vec3, seq<NeighbourReq>>, order: seq<Vec3>): (r: seq<Message>)
    requires forall k :: k in order ==> k in requests
    ensures |r| == |order|
    ensures forall i :: 0 <= i < |order| ==> r[i] == ReqVox(pos, order[i], Coordinates(requests[order[i]]))
  {
    if order == [] then [] else [ReqVox(pos, order[0], Coordinates(requests[order[0]]))] + RequestMessages(pos, requests, order[1..])
  }

  /** The six sides address six different chunks. */
  lemma KeysDistinct(pos: Vec3, a: Side, b: Side)
    ensures KeyOf(pos, a) == KeyOf(pos, b) <==> a == b
  {
  }

  /** Setting one face's bit keeps every type, every light byte and every other face. */
  lemma WithVisibleKeeps(s: seq<bv8>, v: Vec3, side: Side, visible: bool)
    requires |s| == BUFFER_SIZE && InChunk(v)
    ensures forall q :: InChunk(q) ==> TypeAt(WithVisible(s, v, side, visible), q) == TypeAt(s, q) && LightAt(WithVisible(s, v, side, visible), q) == LightAt(s, q)
    ensures forall q, side': Side :: InChunk(q) ==> IsVisibleAt(WithVisible(s, v, side, visible), q, side') == if q == v && side' == side then visible else IsVisibleAt(s, q, side')
  {
    forall q, side': Side | InChunk(q)
      ensures TypeAt(WithVisible(s, v, side, visible), q) == TypeAt(s, q) && LightAt(WithVisible(s, v, side, visible), q) == LightAt(s, q)
      ensures IsVisibleAt(WithVisible(s, v, side, visible), q, side') == if q == v && side' == side then visible else IsVisibleAt(s, q, side')
    {
      WithVisibleFrame(s, v, side, visible, q, side');
    }
  }

  /** Every filed request belongs to a non-empty voxel whose offset is before o. */
  ghost predicate FiledBefore(s: seq<bv8>, pos: Vec3, requests: map<Vec3, seq<NeighbourReq>>, o: int)
    requires |s| == BUFFER_SIZE && Filed(pos, requests)
  {
    forall k, i :: k in requests && 0 <= i < |requests[k]| ==>
      VoxelIndex(requests[k][i].vox) < o && !IsEmptyAt(s, requests[k][i].vox)
  }

  /** While v is scanned: its faces before side k are settled, the voxels before it fully. */
  ghost predicate FacesUpTo(s0: seq<bv8>, s: seq<bv8>, v: Vec3, k: int)
    requires |s0| == BUFFER_SIZE && |s| == BUFFER_SIZE && InChunk(v)
  {
    forall u, side: Side :: InChunk(u) ==>
      IsVisibleAt(s, u, side) ==
        (if VoxelIndex(u) < VoxelIndex(v) || (u == v && side < k) then ScannedVisible(s0, u, side) else IsVisibleAt(s0, u, side))
  }

  /** While v is scanned: what is filed comes from non-empty earlier voxels or from v's sides before k. */
  ghost predicate FiledUpTo(s0: seq<bv8>, requests: map<Vec3, seq<NeighbourReq>>, v: Vec3, k: int)
    requires |s0| == BUFFER_SIZE && InChunk(v)
  {
    forall key, i :: key in requests && 0 <= i < |requests[key]| ==>
      InChunk(requests[key][i].vox) &&
      (VoxelIndex(requests[key][i].vox) < VoxelIndex(v) || (requests[key][i].vox == v && requests[key][i].side < k)) &&
      !IsEmptyAt(s0, requests[key][i].vox)
  }

  /** While v is scanned: its border faces before side k are filed. */
  ghost predicate SidesFiled(pos: Vec3, requests: map<Vec3, seq<NeighbourReq>>, v: Vec3, k: int)
  {
    forall side: Side :: side < k && Border(v, side) ==>
      KeyOf(pos, side) in requests && RequestFor(v, side) in requests[KeyOf(pos, side)]
  }

  /** Starting on v: the invariants of the voxel scan follow from those of the chunk scan. */
  lemma BeginVoxel(s0: seq<bv8>, s: seq<bv8>, pos: Vec3, requests: map<Vec3, seq<NeighbourReq>>, v: Vec3)
    requires |s0| == BUFFER_SIZE && |s| == BUFFER_SIZE && InChunk(v) && Filed(pos, requests)
    requires ScannedUpTo(s0, s, VoxelIndex(v)) && FiledBefore(s0, pos, requests, VoxelIndex(v))
    ensures FacesUpTo(s0, s, v, 0) && FiledUpTo(s0, requests, v, 0) && SidesFiled(pos, requests, v, 0)
  {
  }

  /** Ending v: every voxel up to and including v is scanned, and its border faces are filed. */
  lemma EndVoxel(s0: seq<bv8>, s: seq<bv8>, pos: Vec3, requests: map<Vec3, seq<NeighbourReq>>, v: Vec3)
    requires |s0| == BUFFER_SIZE && |s| == BUFFER_SIZE && InChunk(v) && Filed(pos, requests) && !IsEmptyAt(s0, v)
    requires FacesUpTo(s0, s, v, 6) && FiledUpTo(s0, requests, v, 6)
    requires SidesFiled(pos, requests, v, 6) && Covered(s0, pos, requests, VoxelIndex(v))
    ensures ScannedUpTo(s0, s, VoxelIndex(v) + 1) && FiledBefore(s0, pos, requests, VoxelIndex(v) + 1)
    ensures Covered(s0, pos, requests, VoxelIndex(v) + 1)
  {
    forall u | InChunk(u) && VoxelIndex(u) == VoxelIndex(v)
      ensures u == v
    {
      VoxelIndexInjective(u, v);
    }
  }

  /** An empty voxel is skipped: its faces keep their bits, and it files nothing. */
  lemma SkipVoxel(s0: seq<bv8>, s: seq<bv8>, pos: Vec3, requests: map<Vec3, seq<NeighbourReq>>, v: Vec3)
    requires |s0| == BUFFER_SIZE && |s| == BUFFER_SIZE && InChunk(v) && Filed(pos, requests) && IsEmptyAt(s0, v)
    requires ScannedUpTo(s0, s, VoxelIndex(v)) && FiledBefore(s0, pos, requests, VoxelIndex(v))
    requires Covered(s0, pos, requests, VoxelIndex(v))
    ensures ScannedUpTo(s0, s, VoxelIndex(v) + 1) && FiledBefore(s0, pos, requests, VoxelIndex(v) + 1)
    ensures Covered(s0, pos, requests, VoxelIndex(v) + 1)
  {
    forall u | InChunk(u) && VoxelIndex(u) == VoxelIndex(v)
      ensures u == v
    {
      VoxelIndexInjective(u, v);
    }
  }

  /** A face with an in-chunk neighbour is settled by the neighbour's emptiness. */
  lemma DecideFace(s0: seq<bv8>, s: seq<bv8>, v: Vec3, side: Side, empty: bool)
    requires |s0| == BUFFER_SIZE && |s| == BUFFER_SIZE && InChunk(v) && !IsEmptyAt(s0, v)
    requires InChunk(SideNeighbour(v, side)) && empty == IsEmptyAt(s, SideNeighbour(v, side))
    requires SameContents(s0, s) && FacesUpTo(s0, s, v, side)
    ensures SameContents(s0, WithVisible(s, v, side, empty))
    ensures FacesUpTo(s0, WithVisible(s, v, side, empty), v, side + 1)
  {
    WithVisibleKeeps(s, v, side, empty);
  }

  /** A border face keeps its bit: the scan leaves it for the answer. */
  lemma PassFace(s0: seq<bv8>, s: seq<bv8>, v: Vec3, side: Side)
    requires |s0| == BUFFER_SIZE && |s| == BUFFER_SIZE && InChunk(v) && Border(v, side)
    requires FacesUpTo(s0, s, v, side)
    ensures FacesUpTo(s0, s, v, side + 1)
  {
  }

  /** Filing a border face of v keeps the table well formed and listed. */
  lemma FilingKeepsTable(s0: seq<bv8>, pos: Vec3, requests: map<Vec3, seq<NeighbourReq>>, order: seq<Vec3>, v: Vec3, side: Side)
    requires |s0| == BUFFER_SIZE && InChunk(v) && Border(v, side)
    requires Filed(pos, requests) && InScanOrder(pos, requests) && KeysListed(requests, order)
    requires FiledUpTo(s0, requests, v, side)
    ensures Filed(pos, Filing(requests, KeyOf(pos, side), RequestFor(v, side)))
    ensures InScanOrder(pos, Filing(requests, KeyOf(pos, side), RequestFor(v, side)))
    ensures KeysListed(Filing(requests, KeyOf(pos, side), RequestFor(v, side)), Enlisted(requests, order, KeyOf(pos, side)))
  {
    FilingKeepsOrder(s0, pos, requests, v, side);
  }

  /** The filed request comes after everything already in its list. */
  lemma FilingKeepsOrder(s0: seq<bv8>, pos: Vec3, requests: map<Vec3, seq<NeighbourReq>>, v: Vec3, side: Side)
    requires |s0| == BUFFER_SIZE && InChunk(v) && Border(v, side)
    requires Filed(pos, requests) && InScanOrder(pos, requests) && FiledUpTo(s0, requests, v, side)
    ensures Filed(pos, Filing(requests, KeyOf(pos, side), RequestFor(v, side)))
    ensures InScanOrder(pos, Filing(requests, KeyOf(pos, side), RequestFor(v, side)))
  {
    var key := KeyOf(pos, side);
    var l := if key in requests then requests[key] else [];
    var l' := l + [RequestFor(v, side)];
    assert Filing(requests, key, RequestFor(v, side)) == requests[key := l'];
    forall i | 0 <= i < |l|
      ensures VoxelIndex(l[i].vox) < VoxelIndex(v)
    {
      KeysDistinct(pos, l[i].side, side);
    }
    forall i, j | 0 <= i < j < |l'|
      ensures InChunk(l'[i].vox) && InChunk(l'[j].vox) && VoxelIndex(l'[i].vox) < VoxelIndex(l'[j].vox)
    {
      if j < |l| {
        assert l'[i] == l[i] && l'[j] == l[j];
      } else {
        assert l'[i] == l[i] && l'[j] == RequestFor(v, side);
      }
    }
  }

  /** Filing a border face of v advances the scan's record of what is filed. */
  lemma FilingAdvances(s0: seq<bv8>, pos: Vec3, requests: map<Vec3, seq<NeighbourReq>>, v: Vec3, side: Side)
    requires |s0| == BUFFER_SIZE && InChunk(v) && !IsEmptyAt(s0, v)
    requires FiledUpTo(s0, requests, v, side) && SidesFiled(pos, requests, v, side) && Covered(s0, pos, requests, VoxelIndex(v))
    ensures FiledUpTo(s0, Filing(requests, KeyOf(pos, side), RequestFor(v, side)), v, side + 1)
    ensures SidesFiled(pos, Filing(requests, KeyOf(pos, side), RequestFor(v, side)), v, side + 1)
    ensures Covered(s0, pos, Filing(requests, KeyOf(pos, side), RequestFor(v, side)), VoxelIndex(v))
  {
  }

  // ---- answers ----

  /** The visibility an answer gives a face: visible when the neighbour is missing or empty. */
  predicate SnapVisible(snap: Option<VoxSnap>)
  {
    snap.None? || snap.value.IsEmpty()
  }

  /** The first request of a list asking for coordinate c, or -1 when none does (`List.Find`). */
  function FirstMatch(reqs: seq<NeighbourReq>, c: Vec3): (i: int)
    ensures -1 <= i < |reqs|
    ensures i >= 0 ==> reqs[i].neighbour == c && forall j :: 0 <= j < i ==> reqs[j].neighbour != c
    ensures i == -1 ==> forall j :: 0 <= j < |reqs| ==> reqs[j].neighbour != c
  {
    if reqs == [] then -1
    else if reqs[0].neighbour == c then 0
    else var k := FirstMatch(reqs[1..], c); if k == -1 then -1 else k + 1
  }

  /** Every answered coordinate was asked for. */
  predicate AllMatched(reqs: seq<NeighbourReq>, entries: seq<VoxEntry>)
  {
    forall i :: 0 <= i < |entries| ==> FirstMatch(reqs, entries[i].vox) >= 0
  }

  /** All voxels of a list lie in the chunk. */
  predicate InChunkList(reqs: seq<NeighbourReq>)
  {
    forall i :: 0 <= i < |reqs| ==> InChunk(reqs[i].vox)
  }

  /** The buffer after a missing neighbour's answer: every requested face is visible, in list order. */
  function MarkAll(s: seq<bv8>, reqs: seq<NeighbourReq>): (r: seq<bv8>)
    requires |s| == BUFFER_SIZE && InChunkList(reqs)
    ensures |r| == BUFFER_SIZE
  {
    if reqs == [] then s
    else
      var last := reqs[|reqs| - 1];
      WithVisible(MarkAll(s, reqs[..|reqs| - 1]), last.vox, last.side, true)
  }

  /** The buffer after an answer: each entry, in order, sets the face of the first request asking for it. */
  function ApplyAnswers(s: seq<bv8>, reqs: seq<NeighbourReq>, entries: seq<VoxEntry>): (r: seq<bv8>)
    requires |s| == BUFFER_SIZE && InChunkList(reqs) && AllMatched(reqs, entries)
    ensures |r| == BUFFER_SIZE
  {
    if entries == [] then s
    else
      var e := entries[|entries| - 1];
      var req := reqs[FirstMatch(reqs, e.vox)];
      WithVisible(ApplyAnswers(s, reqs, entries[..|entries| - 1]), req.vox, req.side, SnapVisible(e.snap))
  }

  /** One more entry of an answer: the face of its first matching request is set. */
  lemma AnswerStep(s: seq<bv8>, reqs: seq<NeighbourReq>, entries: seq<VoxEntry>, i: int)
    requires |s| == BUFFER_SIZE && InChunkList(reqs) && AllMatched(reqs, entries) && 0 <= i < |entries|
    ensures AllMatched(reqs, entries[..i]) && AllMatched(reqs, entries[..i + 1])
    ensures ApplyAnswers(s, reqs, entries[..i + 1]) ==
      WithVisible(ApplyAnswers(s, reqs, entries[..i]), reqs[FirstMatch(reqs, entries[i].vox)].vox,
        reqs[FirstMatch(reqs, entries[i].vox)].side, SnapVisible(entries[i].snap))
  {
    assert entries[..i + 1][..i] == entries[..i];
  }

  /** A face (v, side) is one of the list's. */
  predicate Requested(reqs: seq<NeighbourReq>, v: Vec3, side: Side)
  {
    exists i :: 0 <= i < |reqs| && reqs[i].vox == v && reqs[i].side == side
  }

  /** The faces of a list are those of its front part and that of its last request. */
  lemma RequestedSplit(reqs: seq<NeighbourReq>)
    requires reqs != []
    ensures forall u, side: Side :: Requested(reqs, u, side) <==>
      Requested(reqs[..|reqs| - 1], u, side) || (u == reqs[|reqs| - 1].vox && side == reqs[|reqs| - 1].side)
  {
    var init := reqs[..|reqs| - 1];
    forall u, side: Side | Requested(init, u, side)
      ensures Requested(reqs, u, side)
    {
      var i :| 0 <= i < |init| && init[i].vox == u && init[i].side == side;
      assert reqs[i] == init[i];
    }
  }

  /**
   * A missing neighbour makes every requested face visible and touches
   * nothing else: no other face, no type, no light byte.
   */
  lemma {:induction false} MarkAllSettles(s: seq<bv8>, reqs: seq<NeighbourReq>)
    requires |s| == BUFFER_SIZE && InChunkList(reqs)
    ensures SameContents(s, MarkAll(s, reqs))
    ensures forall u, side: Side :: InChunk(u) ==>
      IsVisibleAt(MarkAll(s, reqs), u, side) == (Requested(reqs, u, side) || IsVisibleAt(s, u, side))
  {
    if reqs != [] {
      var init := reqs[..|reqs| - 1];
      var last := reqs[|reqs| - 1];
      MarkAllSettles(s, init);
      WithVisibleKeeps(MarkAll(s, init), last.vox, last.side, true);
      RequestedSplit(reqs);
    }
  }

  /** One request per face and one per coordinate: what the scan guarantees of each list. */
  predicate Distinct(reqs: seq<NeighbourReq>)
  {
    forall i, j :: 0 <= i < j < |reqs| ==> reqs[i].neighbour != reqs[j].neighbour && (reqs[i].vox, reqs[i].side) != (reqs[j].vox, reqs[j].side)
  }

  /** An answer that lists a distinct list's coordinates in order matches entry i with request i. */
  lemma MatchesInOrder(reqs: seq<NeighbourReq>, entries: seq<VoxEntry>)
    requires Distinct(reqs) && |entries| == |reqs|
    requires forall i :: 0 <= i < |entries| ==> entries[i].vox == reqs[i].neighbour
    ensures forall i :: 0 <= i < |entries| ==> FirstMatch(reqs, entries[i].vox) == i
    ensures AllMatched(reqs, entries)
  {
    forall i | 0 <= i < |entries|
      ensures FirstMatch(reqs, entries[i].vox) == i
    {
      assert reqs[i].neighbour == entries[i].vox;
    }
  }

  /** Answers only write visibility bits. */
  lemma {:induction false} AnswersKeepContents(s: seq<bv8>, reqs: seq<NeighbourReq>, entries: seq<VoxEntry>)
    requires |s| == BUFFER_SIZE && InChunkList(reqs) && AllMatched(reqs, entries)
    ensures SameContents(s, ApplyAnswers(s, reqs, entries))
  {
    if entries != [] {
      var prev := entries[..|entries| - 1];
      AnswersKeepContents(s, reqs, prev);
      var req := reqs[FirstMatch(reqs, entries[|entries| - 1].vox)];
      WithVisibleKeeps(ApplyAnswers(s, reqs, prev), req.vox, req.side, SnapVisible(entries[|entries| - 1].snap));
    }
  }

  /** An answer paired with its requests, entry i for request i. */
  predicate Paired(reqs: seq<NeighbourReq>, entries: seq<VoxEntry>)
  {
    |entries| <= |reqs| && forall i :: 0 <= i < |entries| ==> FirstMatch(reqs, entries[i].vox) == i
  }

  /**
   * Entries paired with their requests set each of those faces from the
   * snapshot given for it, later entries never undoing earlier ones, since
   * the faces of a distinct list differ.
   */
  lemma {:induction false} AnswersSettle(s: seq<bv8>, reqs: seq<NeighbourReq>, entries: seq<VoxEntry>)
    requires |s| == BUFFER_SIZE && InChunkList(reqs) && Distinct(reqs) && Paired(reqs, entries)
    ensures AllMatched(reqs, entries)
    ensures forall i :: 0 <= i < |entries| ==>
      IsVisibleAt(ApplyAnswers(s, reqs, entries), reqs[i].vox, reqs[i].side) == SnapVisible(entries[i].snap)
  {
    if entries != [] {
      var n := |entries|;
      var prev := entries[..n - 1];
      assert Paired(reqs, prev) by {
        forall i | 0 <= i < n - 1
          ensures FirstMatch(reqs, prev[i].vox) == i
        {
          assert prev[i] == entries[i];
        }
      }
      AnswersSettle(s, reqs, prev);
      var r0 := ApplyAnswers(s, reqs, prev);
      var last := reqs[n - 1];
      var vis := SnapVisible(entries[n - 1].snap);
      assert ApplyAnswers(s, reqs, entries) == WithVisible(r0, last.vox, last.side, vis);
      forall i | 0 <= i < n
        ensures IsVisibleAt(ApplyAnswers(s, reqs, entries), reqs[i].vox, reqs[i].side) == SnapVisible(entries[i].snap)
      {
        if i < n - 1 {
          assert prev[i] == entries[i];
          WithVisibleFrame(r0, last.vox, last.side, vis, reqs[i].vox, reqs[i].side);
        }
      }
    }
  }

  /** Faces outside the answered part of the list keep their bits. */
  lemma {:induction false} AnswersFrame(s: seq<bv8>, reqs: seq<NeighbourReq>, entries: seq<VoxEntry>)
    requires |s| == BUFFER_SIZE && InChunkList(reqs) && Paired(reqs, entries)
    ensures AllMatched(reqs, entries)
    ensures forall u, side: Side :: InChunk(u) && !Requested(reqs[..|entries|], u, side) ==>
      IsVisibleAt(ApplyAnswers(s, reqs, entries), u, side) == IsVisibleAt(s, u, side)
  {
    if entries != [] {
      var n := |entries|;
      var prev := entries[..n - 1];
      AnswersFrame(s, reqs, prev);
      var last := reqs[n - 1];
      WithVisibleKeeps(ApplyAnswers(s, reqs, prev), last.vox, last.side, SnapVisible(entries[n - 1].snap));
      assert reqs[..n][..n - 1] == reqs[..n - 1];
      RequestedSplit(reqs[..n]);
    }
  }

  /**
   * The lists the scan files name each face once and each neighbour
   * coordinate once: one side per list, one voxel per request, and the
   * coordinate across a fixed side determines the voxel.
   */
  lemma ListsDistinct(pos: Vec3, requests: map<Vec3, seq<NeighbourReq>>, key: Vec3)
    requires Filed(pos, requests) && InScanOrder(pos, requests) && key in requests
    ensures InChunkList(requests[key]) && Distinct(requests[key])
  {
    var l := requests[key];
    forall i, j | 0 <= i < j < |l|
      ensures l[i].neighbour != l[j].neighbour && l[i].vox != l[j].vox
    {
      KeysDistinct(pos, l[i].side, l[j].side);
      if l[i].neighbour == l[j].neighbour {
        var d := ALL_UNIT_DIRS[l[i].side];
        CoordinateDetermines(Add(l[i].vox, d), Add(l[j].vox, d));
      }
    }
  }

  /**
   * The answer a neighbour chunk gives to a filed list (its coordinates, in
   * order, each with its snapshot) settles every requested face from its
   * own snapshot and changes nothing else in the buffer.
   */
  lemma AnswerSettlesRequests(s: seq<bv8>, pos: Vec3, requests: map<Vec3, seq<NeighbourReq>>, key: Vec3, entries: seq<VoxEntry>)
    requires |s| == BUFFER_SIZE && Filed(pos, requests) && InScanOrder(pos, requests) && key in requests
    requires |entries| == |requests[key]|
    requires forall i :: 0 <= i < |entries| ==> entries[i].vox == Coordinates(requests[key])[i]
    ensures InChunkList(requests[key]) && AllMatched(requests[key], entries)
    ensures SameContents(s, ApplyAnswers(s, requests[key], entries))
    ensures forall i :: 0 <= i < |entries| ==>
      IsVisibleAt(ApplyAnswers(s, requests[key], entries), requests[key][i].vox, requests[key][i].side) == SnapVisible(entries[i].snap)
    ensures forall u, side: Side :: InChunk(u) && !Requested(requests[key], u, side) ==>
      IsVisibleAt(ApplyAnswers(s, requests[key], entries), u, side) == IsVisibleAt(s, u, side)
  {
    var reqs := requests[key];
    ListsDistinct(pos, requests, key);
    MatchesInOrder(reqs, entries);
    AnswersKeepContents(s, reqs, entries);
    AnswersSettle(s, reqs, entries);
    AnswersFrame(s, reqs, entries);
    assert reqs[..|entries|] == reqs;
  }

  /**
   * The voxel the scan targets last, (15,15,15): the scan targets every
   * voxel, empty or not, before it tests it.
   */
  const LAST_SCANNED: Vec3 := Vec3(SIZE - 1, SIZE - 1, SIZE - 1)

  /**
   * The request lists as written, once the scan is over. A request holds
   * the scanning cursor's own position object, not a copy, and each later
   * `Target` overwrites that object in place; so every request ends up
   * naming the last voxel scanned, with its neighbour and side intact.
   */
  function AliasedAsWritten(reqs: seq<NeighbourReq>): (r: seq<NeighbourReq>)
    ensures |r| == |reqs|
    ensures forall i :: 0 <= i < |reqs| ==> r[i] == NeighbourReq(LAST_SCANNED, reqs[i].neighbour, reqs[i].side)
  {
    if reqs == [] then [] else [NeighbourReq(LAST_SCANNED, reqs[0].neighbour, reqs[0].side)] + AliasedAsWritten(reqs[1..])
  }

  /** An answer only ever writes faces its list requests. */
  lemma {:induction false} AnswersTouchOnlyRequested(s: seq<bv8>, reqs: seq<NeighbourReq>, entries: seq<VoxEntry>)
    requires |s| == BUFFER_SIZE && InChunkList(reqs) && AllMatched(reqs, entries)
    ensures forall u, side: Side :: InChunk(u) && !Requested(reqs, u, side) ==>
      IsVisibleAt(ApplyAnswers(s, reqs, entries), u, side) == IsVisibleAt(s, u, side)
  {
    if entries != [] {
      var prev := entries[..|entries| - 1];
      assert AllMatched(reqs, prev) by {
        forall i | 0 <= i < |prev| ensures FirstMatch(reqs, prev[i].vox) >= 0 {
          assert prev[i] == entries[i];
        }
      }
      AnswersTouchOnlyRequested(s, reqs, prev);
      var req := reqs[FirstMatch(reqs, entries[|entries| - 1].vox)];
      WithVisibleKeeps(ApplyAnswers(s, reqs, prev), req.vox, req.side, SnapVisible(entries[|entries| - 1].snap));
    }
  }

  /**
   * As written, no answer reaches the voxel that asked. For a request of
   * any voxel other than (15,15,15), a missing neighbour (line 130) and a
   * listed answer (line 139) both leave that voxel's face as it was, since
   * they target the aliased cursor; the lists the scan files as copies get
   * the face set.
   */
  lemma AliasedAnswerMissesRequester(s: seq<bv8>, reqs: seq<NeighbourReq>, entries: seq<VoxEntry>, i: int)
    requires |s| == BUFFER_SIZE && InChunkList(reqs) && 0 <= i < |reqs| && reqs[i].vox != LAST_SCANNED
    requires AllMatched(reqs, entries)
    ensures VoxelIndex(LAST_SCANNED) == SIZE * SIZE * SIZE - 1
    ensures InChunkList(AliasedAsWritten(reqs)) && AllMatched(AliasedAsWritten(reqs), entries)
    ensures IsVisibleAt(MarkAll(s, AliasedAsWritten(reqs)), reqs[i].vox, reqs[i].side) == IsVisibleAt(s, reqs[i].vox, reqs[i].side)
    ensures IsVisibleAt(ApplyAnswers(s, AliasedAsWritten(reqs), entries), reqs[i].vox, reqs[i].side) == IsVisibleAt(s, reqs[i].vox, reqs[i].side)
    ensures IsVisibleAt(MarkAll(s, reqs), reqs[i].vox, reqs[i].side)
  {
    var al := AliasedAsWritten(reqs);
    forall j | 0 <= j < |entries| ensures FirstMatch(al, entries[j].vox) >= 0 {
      var k := FirstMatch(reqs, entries[j].vox);
      assert al[k].neighbour == entries[j].vox;
    }
    assert !Requested(al, reqs[i].vox, reqs[i].side);
    MarkAllSettles(s, al);
    MarkAllSettles(s, reqs);
    AnswersTouchOnlyRequested(s, al, entries);
  }

  /** Two points less than a chunk apart on every axis with the same in-chunk coordinate are equal. */
  lemma CoordinateDetermines(p: Vec3, q: Vec3)
    requires -SIZE < p.x - q.x < SIZE && -SIZE < p.y - q.y < SIZE && -SIZE < p.z - q.z < SIZE
    requires NeighbourCoord(p) == NeighbourCoord(q)
    ensures p == q
  {
    SameResidue(p.x, q.x);
    SameResidue(p.y, q.y);
    SameResidue(p.z, q.z);
  }

  lemma SameResidue(a: int, b: int)
    requires -16 < a - b < 16 && a % 16 == b % 16
    ensures a == b
  {
    assert a == (a / 16) * 16 + a % 16;
    assert b == (b / 16) * 16 + b % 16;
    assert (a / 16 - b / 16) * 16 == a - b;
  }

  class ChunkVisibilityStage {
    const base: BaseStage
    var requests: map<Vec3, seq<NeighbourReq>>
    var order: seq<Vec3>

    /** The stage's own state: its tag and a well-formed request table. */
    ghost predicate Valid()
      reads this
    {
      base.stage == StageTags.VISIBILITY &&
      Filed(base.shared.pos, requests) && InScanOrder(base.shared.pos, requests) && KeysListed(requests, order)
    }

    constructor (shared: SharedData)
      ensures Valid() && fresh(base) && base.shared == shared
      ensures !base.finished && !base.done && requests == map[] && order == []
    {
      base := new BaseStage(StageTags.VISIBILITY, shared);
      requests := map[];
      order := [];
    }

    /**
     * Files a request under its target chunk, adding the chunk to the table
     * (at the end of the enumeration order) when it is new.
     */
    method AddRequestChunkVoxel(targetChunk: Vec3, req: NeighbourReq)
      modifies this
      ensures requests == Filing(old(requests), targetChunk, req)
      ensures order == Enlisted(old(requests), old(order), targetChunk)
    {
      var list := if targetChunk in requests then requests[targetChunk] else [];
      if targetChunk !in requests {
        order := order + [targetChunk];
      }
      requests := requests[targetChunk := list + [req]];
    }

    /** Posts one request per target chunk, in enumeration order, listing its coordinates in filing order. */
    method SendRequest()
      requires KeysListed(requests, order)
      modifies base.shared
      ensures base.shared.outbox == old(base.shared.outbox) + RequestMessages(base.shared.pos, requests, order)
      ensures base.shared.voxelCount == old(base.shared.voxelCount) && base.shared.errors == old(base.shared.errors)
    {
      var shared := base.shared;
      ghost var msgs := RequestMessages(shared.pos, requests, order);
      var i := 0;
      while i < |order|
        invariant 0 <= i <= |order|
        invariant shared.outbox == old(shared.outbox) + msgs[..i]
        invariant shared.voxelCount == old(shared.voxelCount) && shared.errors == old(shared.errors)
      {
        shared.Post(ReqVox(shared.pos, order[i], Coordinates(requests[order[i]])));
        assert msgs[..i + 1] == msgs[..i] + [msgs[i]];
        i := i + 1;
      }
      assert msgs[..i] == msgs;
    }

    /**
     * One face of the voxel under `cur`: with the neighbour in the chunk the
     * face becomes visible iff that neighbour is empty; on the border the
     * face is filed under its side's chunk.
     */
    method ScanFace(cur: VoxRef, nb: VoxRef, v: Vec3, side: Side, ghost s0: seq<bv8>)
      requires Valid() && base.shared.buffer.Allocated()
      requires cur.buffer == base.shared.buffer && nb.buffer == base.shared.buffer && cur != nb
      requires cur.Targeted() && cur.pos == Some(v)
      requires |s0| == BUFFER_SIZE && !IsEmptyAt(s0, v)
      requires SameContents(s0, base.shared.buffer.voxels[..]) && FacesUpTo(s0, base.shared.buffer.voxels[..], v, side)
      requires FiledUpTo(s0, requests, v, side) && SidesFiled(base.shared.pos, requests, v, side)
      requires Covered(s0, base.shared.pos, requests, VoxelIndex(v))
      modifies this, nb, base.shared.buffer.voxels
      ensures Valid() && nb.buffer == old(nb.buffer)
      ensures SameContents(s0, base.shared.buffer.voxels[..]) && FacesUpTo(s0, base.shared.buffer.voxels[..], v, side + 1)
      ensures FiledUpTo(s0, requests, v, side + 1) && SidesFiled(base.shared.pos, requests, v, side + 1)
      ensures Covered(s0, base.shared.pos, requests, VoxelIndex(v))
    {
      var n := SideNeighbour(v, side);
      var inside := nb.TryTarget(n.x, n.y, n.z);
      if inside {
        SettleFace(cur, nb, v, side, s0);
      } else {
        PassFace(s0, base.shared.buffer.voxels[..], v, side);
        FileFace(v, side, s0);
      }
    }

    /** A face whose neighbour, under `nb`, lies in the chunk: visible iff that neighbour is empty. */
    method SettleFace(cur: VoxRef, nb: VoxRef, v: Vec3, side: Side, ghost s0: seq<bv8>)
      requires base.shared.buffer.Allocated()
      requires cur.buffer == base.shared.buffer && nb.buffer == base.shared.buffer
      requires cur.Targeted() && cur.pos == Some(v) && nb.Targeted() && nb.pos == Some(SideNeighbour(v, side))
      requires |s0| == BUFFER_SIZE && !IsEmptyAt(s0, v)
      requires SameContents(s0, base.shared.buffer.voxels[..]) && FacesUpTo(s0, base.shared.buffer.voxels[..], v, side)
      modifies base.shared.buffer.voxels
      ensures SameContents(s0, base.shared.buffer.voxels[..]) && FacesUpTo(s0, base.shared.buffer.voxels[..], v, side + 1)
    {
      var empty := nb.IsEmpty();
      DecideFace(s0, base.shared.buffer.voxels[..], v, side, empty);
      cur.SetVisible(side, empty);
    }

    /** A border face: its request is filed under the chunk across that side. */
    method FileFace(v: Vec3, side: Side, ghost s0: seq<bv8>)
      requires Valid() && |s0| == BUFFER_SIZE && InChunk(v) && !IsEmptyAt(s0, v) && Border(v, side)
      requires FiledUpTo(s0, requests, v, side) && SidesFiled(base.shared.pos, requests, v, side)
      requires Covered(s0, base.shared.pos, requests, VoxelIndex(v))
      modifies this
      ensures Valid()
      ensures FiledUpTo(s0, requests, v, side + 1) && SidesFiled(base.shared.pos, requests, v, side + 1)
      ensures Covered(s0, base.shared.pos, requests, VoxelIndex(v))
    {
      FilingKeepsTable(s0, base.shared.pos, requests, order, v, side);
      FilingAdvances(s0, base.shared.pos, requests, v, side);
      AddRequestChunkVoxel(KeyOf(base.shared.pos, side), RequestFor(v, side));
    }

    /** The six faces of one non-empty voxel, in side order. */
    method ScanVoxel(cur: VoxRef, nb: VoxRef, v: Vec3, ghost s0: seq<bv8>)
      requires Valid() && base.shared.buffer.Allocated()
      requires cur.buffer == base.shared.buffer && nb.buffer == base.shared.buffer && cur != nb
      requires cur.Targeted() && cur.pos == Some(v)
      requires |s0| == BUFFER_SIZE && !IsEmptyAt(s0, v)
      requires SameContents(s0, base.shared.buffer.voxels[..])
      requires ScannedUpTo(s0, base.shared.buffer.voxels[..], VoxelIndex(v))
      requires Covered(s0, base.shared.pos, requests, VoxelIndex(v))
      requires FiledBefore(s0, base.shared.pos, requests, VoxelIndex(v))
      modifies this, nb, base.shared.buffer.voxels
      ensures Valid() && nb.buffer == old(nb.buffer)
      ensures SameContents(s0, base.shared.buffer.voxels[..])
      ensures ScannedUpTo(s0, base.shared.buffer.voxels[..], VoxelIndex(v) + 1)
      ensures Covered(s0, base.shared.pos, requests, VoxelIndex(v) + 1)
      ensures FiledBefore(s0, base.shared.pos, requests, VoxelIndex(v) + 1)
    {
      var buffer := base.shared.buffer;
      BeginVoxel(s0, buffer.voxels[..], base.shared.pos, requests, v);
      var side := 0;
      while side < 6
        invariant 0 <= side <= 6
        invariant Valid() && buffer.Allocated() && nb.buffer == buffer
        invariant SameContents(s0, buffer.voxels[..]) && FacesUpTo(s0, buffer.voxels[..], v, side)
        invariant FiledUpTo(s0, requests, v, side) && SidesFiled(base.shared.pos, requests, v, side)
        invariant Covered(s0, base.shared.pos, requests, VoxelIndex(v))
      {
        ScanFace(cur, nb, v, side, s0);
        side := side + 1;
      }
      EndVoxel(s0, buffer.voxels[..], base.shared.pos, requests, v);
    }

    /** The voxel at offset o: skipped when empty, its six faces scanned otherwise. */
    method ScanAt(cur: VoxRef, nb: VoxRef, o: int, ghost s0: seq<bv8>)
      requires 0 <= o < SIZE * SIZE * SIZE
      requires Valid() && base.shared.buffer.Allocated()
      requires cur.buffer == base.shared.buffer && nb.buffer == base.shared.buffer && cur != nb
      requires |s0| == BUFFER_SIZE && SameContents(s0, base.shared.buffer.voxels[..])
      requires ScannedUpTo(s0, base.shared.buffer.voxels[..], o)
      requires Covered(s0, base.shared.pos, requests, o) && FiledBefore(s0, base.shared.pos, requests, o)
      modifies this, cur, nb, base.shared.buffer.voxels
      ensures Valid() && cur.buffer == old(cur.buffer) && nb.buffer == old(nb.buffer)
      ensures SameContents(s0, base.shared.buffer.voxels[..])
      ensures ScannedUpTo(s0, base.shared.buffer.voxels[..], o + 1)
      ensures Covered(s0, base.shared.pos, requests, o + 1) && FiledBefore(s0, base.shared.pos, requests, o + 1)
    {
      var v := VoxelAt(o);
      cur.Target(v.x, v.y, v.z);
      var empty := cur.IsEmpty();
      if !empty {
        ScanVoxel(cur, nb, v, s0);
      } else {
        SkipVoxel(s0, base.shared.buffer.voxels[..], base.shared.pos, requests, v);
      }
    }

    /** The scan over every voxel of the chunk, in offset order (x, then y, then z). */
    method Scan(ghost s0: seq<bv8>)
      requires Valid() && base.shared.buffer.Allocated() && s0 == base.shared.buffer.voxels[..]
      requires requests == map[] && order == []
      modifies this, base.shared.buffer.voxels
      ensures Valid()
      ensures SameContents(s0, base.shared.buffer.voxels[..])
      ensures ScannedUpTo(s0, base.shared.buffer.voxels[..], SIZE * SIZE * SIZE)
      ensures Covered(s0, base.shared.pos, requests, SIZE * SIZE * SIZE)
      ensures FiledBefore(s0, base.shared.pos, requests, SIZE * SIZE * SIZE)
    {
      var buffer := base.shared.buffer;
      var cur := new VoxRef(buffer);
      var nb := new VoxRef(buffer);
      var o := 0;
      while o < 4096
        invariant 0 <= o <= 4096
        invariant Valid() && buffer.Allocated()
        invariant cur.buffer == buffer && nb.buffer == buffer
        invariant SameContents(s0, buffer.voxels[..])
        invariant ScannedUpTo(s0, buffer.voxels[..], o)
        invariant Covered(s0, base.shared.pos, requests, o)
        invariant FiledBefore(s0, base.shared.pos, requests, o)
      {
        ScanAt(cur, nb, o, s0);
        o := o + 1;
      }
    }

    /**
     * An empty chunk finishes at once. Otherwise every face of every
     * non-empty voxel is decided or filed, the requests are posted, and the
     * stage waits for the answers (a chunk that filed nothing never finishes).
     */
    method OnStart()
      requires Valid() && base.shared.buffer.Allocated()
      requires requests == map[] && order == [] && !base.finished && !base.done
      modifies this, base, base.shared, base.shared.buffer.voxels
      ensures Valid() && base.shared.buffer.Allocated()
      ensures old(base.shared.voxelCount) == 0 ==>
        base.finished && requests == map[] && base.shared.outbox == old(base.shared.outbox) &&
        base.shared.buffer.voxels[..] == old(base.shared.buffer.voxels[..])
      ensures old(base.shared.voxelCount) != 0 ==>
        !base.finished &&
        SameContents(old(base.shared.buffer.voxels[..]), base.shared.buffer.voxels[..]) &&
        ScannedUpTo(old(base.shared.buffer.voxels[..]), base.shared.buffer.voxels[..], SIZE * SIZE * SIZE) &&
        Covered(old(base.shared.buffer.voxels[..]), base.shared.pos, requests, SIZE * SIZE * SIZE) &&
        FiledBefore(old(base.shared.buffer.voxels[..]), base.shared.pos, requests, SIZE * SIZE * SIZE) &&
        base.shared.outbox == old(base.shared.outbox) + RequestMessages(base.shared.pos, requests, order)
      ensures base.shared.voxelCount == old(base.shared.voxelCount) && !base.done
    {
      if base.shared.voxelCount == 0 {
        base.Finish();
        return;
      }
      Scan(base.shared.buffer.voxels[..]);
      SendRequest();
    }

    /** A missing neighbour: every face of the list is made visible, in list order. */
    method MarkFaces(reqs: seq<NeighbourReq>)
      requires base.shared.buffer.Allocated() && InChunkList(reqs)
      modifies base.shared.buffer.voxels
      ensures base.shared.buffer.voxels[..] == MarkAll(old(base.shared.buffer.voxels[..]), reqs)
    {
      var buffer := base.shared.buffer;
      var cur := new VoxRef(buffer);
      var i := 0;
      while i < |reqs|
        invariant 0 <= i <= |reqs| && cur.buffer == buffer
        invariant buffer.voxels[..] == MarkAll(old(buffer.voxels[..]), reqs[..i])
      {
        var r := reqs[i];
        cur.Target(r.vox.x, r.vox.y, r.vox.z);
        cur.SetVisible(r.side, true);
        assert reqs[..i + 1][..i] == reqs[..i];
        i := i + 1;
      }
      assert reqs[..i] == reqs;
    }

    /** An answer: each entry sets the face of the first request asking for its coordinate. */
    method SettleAnswers(reqs: seq<NeighbourReq>, entries: seq<VoxEntry>)
      requires base.shared.buffer.Allocated() && InChunkList(reqs) && AllMatched(reqs, entries)
      modifies base.shared.buffer.voxels
      ensures base.shared.buffer.voxels[..] == ApplyAnswers(old(base.shared.buffer.voxels[..]), reqs, entries)
    {
      var buffer := base.shared.buffer;
      ghost var s0 := buffer.voxels[..];
      var cur := new VoxRef(buffer);
      var i := 0;
      while i < |entries|
        invariant 0 <= i <= |entries| && cur.buffer == buffer
        invariant AllMatched(reqs, entries[..i])
        invariant buffer.voxels[..] == ApplyAnswers(s0, reqs, entries[..i])
      {
        var e := entries[i];
        var r := reqs[FirstMatch(reqs, e.vox)];
        AnswerStep(s0, reqs, entries, i);
        cur.Target(r.vox.x, r.vox.y, r.vox.z);
        cur.SetVisible(r.side, e.snap.None? || e.snap.value.IsEmpty());
        i := i + 1;
      }
      assert entries[..i] == entries;
    }

    /**
     * The answer of the chunk at respPos. An answer nobody waits for is
     * logged. Otherwise the chunk's list leaves the table and settles its
     * faces, all visible when the answer carries no list; the stage
     * finishes when the table is empty. An answer listing a coordinate
     * that was not asked for makes the source fail on a null request, so
     * every listed coordinate must match.
     */
    method ChunkVoxelRes(respPos: Vec3, list: Option<seq<VoxEntry>>)
      requires Valid() && base.shared.buffer.Allocated()
      requires respPos in requests && list.Some? ==> AllMatched(requests[respPos], list.value)
      modifies this, base, base.shared, base.shared.buffer.voxels
      ensures Valid() && base.done == old(base.done)
      ensures base.shared.voxelCount == old(base.shared.voxelCount) && base.shared.outbox == old(base.shared.outbox)
      ensures respPos !in old(requests) ==>
        requests == old(requests) && order == old(order) && base.finished == old(base.finished) &&
        base.shared.buffer.voxels[..] == old(base.shared.buffer.voxels[..]) && base.shared.errors == old(base.shared.errors) + 1
      ensures respPos in old(requests) ==>
        requests == old(requests) - {respPos} && order == Without(old(order), respPos) &&
        base.shared.buffer.voxels[..] ==
          (if list.None? then MarkAll(old(base.shared.buffer.voxels[..]), old(requests)[respPos])
           else ApplyAnswers(old(base.shared.buffer.voxels[..]), old(requests)[respPos], list.value)) &&
        base.finished == (old(base.finished) || requests == map[]) &&
        base.shared.errors == old(base.shared.errors) + (if old(base.finished) && requests == map[] then 1 else 0)
    {
      if respPos !in requests {
        base.shared.LogError();
        return;
      }
      var reqs := requests[respPos];
      assert InChunkList(reqs);
      WithoutDistinct(order, respPos);
      requests := requests - {respPos};
      order := Without(order, respPos);
      if list.None? {
        MarkFaces(reqs);
      } else {
        SettleAnswers(reqs, list.value);
      }
      if requests == map[] {
        base.Finish();
      }
    }

    /**
     * What handling msg did, from the state before it to the state now: an
     * answer for a tracked chunk drops the chunk from the table, settles its
     * faces (all visible for a null list, each answered face otherwise) and
     * finishes the stage with the last answer; an answer for an untracked
     * chunk, or any other message, is logged and changes nothing else.
     */
    twostate predicate Handled(msg: Message)
      requires old(base.shared.buffer.Allocated()) && base.shared.buffer.Allocated()
      reads this, base, base.shared`errors, base.shared.buffer, base.shared.buffer.voxels
    {
      var s0 := old(base.shared.buffer.voxels[..]);
      var s := base.shared.buffer.voxels[..];
      if msg.ResVox? && msg.pos in old(requests) then
        var reqs := old(requests)[msg.pos];
        InChunkList(reqs) && (msg.list.Some? ==> AllMatched(reqs, msg.list.value)) &&
        requests == old(requests) - {msg.pos} && order == Without(old(order), msg.pos) &&
        s == (if msg.list.None? then MarkAll(s0, reqs) else ApplyAnswers(s0, reqs, msg.list.value)) &&
        base.finished == (old(base.finished) || requests == map[]) &&
        base.shared.errors == old(base.shared.errors) + (if old(base.finished) && requests == map[] then 1 else 0)
      else
        requests == old(requests) && order == old(order) && base.finished == old(base.finished) &&
        s == s0 && base.shared.errors == old(base.shared.errors) + 1
    }

    /** The stage expects only answers; any other message is logged and changes nothing else. */
    method Dispatch(msg: Message)
      requires Valid() && base.shared.buffer.Allocated() && WellTyped(msg)
      requires msg.ResVox? && msg.pos in requests && msg.list.Some? ==> AllMatched(requests[msg.pos], msg.list.value)
      modifies this, base, base.shared, base.shared.buffer.voxels
      ensures Valid() && base.done == old(base.done)
      ensures base.shared.voxelCount == old(base.shared.voxelCount) && base.shared.outbox == old(base.shared.outbox)
      ensures base.shared.buffer.Allocated() && Handled(msg)
    {
      ActionsOfKinds(msg);
      if msg.Action() == RES_VOX {
        assert msg.pos in requests ==> InChunkList(requests[msg.pos]);
        ChunkVoxelRes(msg.pos, msg.list);
      } else {
        base.Unexpected(msg);
      }
    }
  }
}
