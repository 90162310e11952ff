/**
 * A chunk: its shared data and its stage switcher. The chunk answers voxel
 * requests from its neighbours itself and hands every other message to the
 * switcher.
 */
module Chunks {
  import opened Wrappers
  import opened Vec3Math
  import opened ChunkBuffers
  import opened VoxRefs
  import opened Messages
  import opened StageCommon
  import StageTags
  import LoadStages
  import VisibilityStages
  import LightingStages
  import StageSwitchers

  /**
   * The answer a chunk holding buffer s gives to a request for coords
   * lists exactly the coordinates asked, in order; so an answer to a
   * visibility request only names voxels the request asked for.
   */
  lemma AnswerMatchesVisibilityRequest(s: seq<bv8>, reqs: seq<VisibilityStages.NeighbourReq>)
    requires |s| == BUFFER_SIZE
    ensures VisibilityStages.AllMatched(reqs, EntriesFor(s, VisibilityStages.Coordinates(reqs)))
  {
    var coords := VisibilityStages.Coordinates(reqs);
    var entries := EntriesFor(s, coords);
    forall i | 0 <= i < |entries|
      ensures VisibilityStages.FirstMatch(reqs, entries[i].vox) >= 0
    {
      assert entries[i].vox == reqs[i].neighbour;
    }
  }

  /** Likewise for a lighting request: every answered voxel is one of the coordinates asked. */
  lemma AnswerMatchesLightingRequest(s: seq<bv8>, reqs: seq<LightingStages.LightReq>)
    requires |s| == BUFFER_SIZE
    ensures forall n :: 0 <= n < |EntriesFor(s, LightingStages.Coordinates(reqs))| ==>
      EntriesFor(s, LightingStages.Coordinates(reqs))[n].vox in LightingStages.Coordinates(reqs)
  {
    var coords := LightingStages.Coordinates(reqs);
    var entries := EntriesFor(s, coords);
    forall n | 0 <= n < |entries|
      ensures entries[n].vox in coords
    {
      assert entries[n].vox == coords[n];
    }
  }

  class Chunk {
    const data: SharedData
    const switcher: StageSwitchers.ChunkStageSwitcher

    ghost predicate Valid()
      reads this, data, data.buffer, switcher, switcher.cluster, switcher.current.Objects()
    {
      switcher.shared == data && switcher.Valid()
    }

    /**
     * A new chunk at pos: an unallocated buffer, no voxel, the switcher at
     * the NONE stage with every neighbour unknown, and one message posted,
     * the chunk's request to itself for the INITIALIZE stage.
     */
    constructor (pos: Vec3, bounds: Bounds, terrain: LoadStages.Terrain)
      ensures Valid() && fresh(data) && fresh(data.buffer) && fresh(switcher)
      ensures data.pos == pos && data.buffer.voxels == null && data.voxelCount == 0 && data.errors == 0
      ensures data.outbox == [ChangeStage(pos, StageTags.INITIALIZE)]
      ensures switcher.current.NoneStage? && !switcher.current.Base().finished
      ensures forall k :: 0 <= k < 26 ==> switcher.cluster.neighbours[k] == StageTags.NONE
    {
      var buffer := new ChunkBuffer();
      var shared := new SharedData(buffer, pos, bounds);
      data := shared;
      switcher := new StageSwitchers.ChunkStageSwitcher(shared, terrain);
      new;
      data.Post(ChangeStage(pos, StageTags.INITIALIZE));
    }

    /** The chunk holds no voxel. */
    predicate IsEmpty()
      reads this, data
    {
      data.voxelCount == 0
    }

    /**
     * Answers a neighbour's voxel request: an empty chunk answers with no
     * list; otherwise the list has one entry per coordinate asked, in
     * order, with the voxel's snapshot inside the chunk and none outside
     * it. The answer goes back to the chunk that asked.
     */
    method VoxRequest(msg: Message)
      requires Valid() && msg.ReqVox?
      modifies data
      ensures Valid() && data.voxelCount == old(data.voxelCount) && data.errors == old(data.errors)
      ensures IsEmpty() ==> data.outbox == old(data.outbox) + [Respond(msg, None)]
      ensures !IsEmpty() ==>
        data.buffer.Allocated() &&
        data.outbox == old(data.outbox) + [Respond(msg, Some(EntriesFor(data.buffer.voxels[..], msg.voxels)))]
    {
      var result: Option<seq<VoxEntry>> := None;
      if !IsEmpty() {
        var buffer := data.buffer;
        var list: seq<VoxEntry> := [];
        var voxRef := new VoxRef(buffer);
        var i := 0;
        while i < |msg.voxels|
          invariant 0 <= i <= |msg.voxels|
          invariant voxRef.buffer == buffer && unchanged(data)
          invariant |list| == i
          invariant forall j :: 0 <= j < i ==> list[j] == EntryFor(buffer.voxels[..], msg.voxels[j])
        {
          var v := msg.voxels[i];
          var ok := voxRef.TryTarget(v.x, v.y, v.z);
          if ok {
            var snap := voxRef.Snapshot();
            list := list + [VoxEntry(v, Some(snap))];
          } else {
            list := list + [VoxEntry(v, None)];
          }
          i := i + 1;
        }
        assert list == EntriesFor(buffer.voxels[..], msg.voxels);
        result := Some(list);
      }
      data.Post(Respond(msg, result));
    }

    /**
     * Routes a message: NONE is ignored, a voxel request is answered by the
     * chunk, and everything else goes to the switcher, which does with it
     * what its `Routed` says and then asks for the next stage when ready.
     * `routed` is the outbox after routing, before that request.
     */
    method Dispatch(msg: Message) returns (ghost routed: seq<Message>)
      requires Valid() && WellTyped(msg)
      requires msg.Action() != NONE && msg.Action() != REQ_VOX ==> switcher.Expected(msg)
      modifies data, data.buffer, data.buffer.voxels, switcher, switcher.cluster, switcher.current.Objects()
      ensures Valid() && old(data.outbox) <= data.outbox
      ensures msg.Action() == NONE || msg.Action() == REQ_VOX ==>
        data.voxelCount == old(data.voxelCount) && data.errors == old(data.errors) &&
        unchanged(data.buffer, switcher, switcher.cluster) && unchanged(switcher.current.Objects()) &&
        (data.buffer.voxels != null ==> unchanged(data.buffer.voxels))
      ensures msg.Action() == NONE ==>
        data.outbox == old(data.outbox) &&
        switcher.current == old(switcher.current) && switcher.cluster.neighbours == old(switcher.cluster.neighbours)
      ensures msg.Action() == REQ_VOX ==>
        msg.ReqVox? && switcher.current == old(switcher.current) &&
        switcher.cluster.neighbours == old(switcher.cluster.neighbours) &&
        data.outbox == old(data.outbox) + [Respond(msg, if IsEmpty() then None else Some(EntriesFor(data.buffer.voxels[..], msg.voxels)))]
      ensures msg.Action() != NONE && msg.Action() != REQ_VOX ==>
        switcher.Routed(msg, routed) &&
        data.outbox == routed + (if switcher.Ready() then [ChangeStage(data.pos, switcher.Next())] else [])
    {
      ActionsOfKinds(msg);
      routed := data.outbox;
      if msg.Action() == NONE {
      } else if msg.Action() == REQ_VOX {
        VoxRequest(msg);
        routed := data.outbox;
      } else {
        routed := switcher.Dispatch(msg);
      }
    }
  }
}
