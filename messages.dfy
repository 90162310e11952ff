/**
 * The messages chunks post to one another through the controller. Each
 * message names the chunk that sent it (`pos`); the chunk-to-chunk kinds
 * also name the chunk they are addressed to (`target`).
 */
module Messages {
  import opened Wrappers
  import opened Vec3Math
  import opened ChunkBuffers
  import opened VoxRefs

  /**
   * The actions of the source's enum, together with the ones the stages and
   * the chunk dispatch on.
   */
  datatype ChunkAction =
    | NONE | CREATE | LOAD | SETUP | BUILD | ATTACH | DETACH
    | REQ_VOX | RES_VOX
    | CHANGE_STAGE | NFY_STAGE_CHANGED | SUNLIGHT_PROP | SUNLIGHT_PROP_END

  /** One entry of a voxel answer: the requested coordinate and its snapshot, None outside the chunk. */
  datatype VoxEntry = VoxEntry(vox: Vec3, snap: Option<VoxSnap>)

  /** The mesh a finished chunk hands over; its contents are not part of this model. */
  type MeshId = nat

  datatype Message =
    | Plain(pos: Vec3, action: ChunkAction)
    | AttachMesh(pos: Vec3, mesh: MeshId)
    | ToChunk(pos: Vec3, action: ChunkAction, target: Vec3)
    | ReqVox(pos: Vec3, target: Vec3, voxels: seq<Vec3>)
    | ResVox(pos: Vec3, target: Vec3, list: Option<seq<VoxEntry>>)
    | ChangeStage(pos: Vec3, stage: int)
    | NotifyStageChanged(pos: Vec3, target: Vec3, stage: int)
    | SunlightProp(pos: Vec3, target: Vec3, voxels: seq<Vec3>)
    | SunlightPropEnd(pos: Vec3, target: Vec3)
  {
    /** The action every kind of message carries; only the generic kinds take it as an argument. */
    function Action(): ChunkAction
    {
      match this
      case Plain(_, a) => a
      case AttachMesh(_, _) => ATTACH
      case ToChunk(_, a, _) => a
      case ReqVox(_, _, _) => REQ_VOX
      case ResVox(_, _, _) => RES_VOX
      case ChangeStage(_, _) => CHANGE_STAGE
      case NotifyStageChanged(_, _, _) => NFY_STAGE_CHANGED
      case SunlightProp(_, _, _) => SUNLIGHT_PROP
      case SunlightPropEnd(_, _) => SUNLIGHT_PROP_END
    }
  }

  /**
   * The answer to a voxel request: it travels back from the chunk that was
   * asked to the chunk that asked, carrying the list it was given.
   */
  function Respond(req: Message, list: Option<seq<VoxEntry>>): (r: Message)
    requires req.ReqVox?
    ensures r.ResVox? && r.Action() == RES_VOX && r.list == list
    ensures r.pos == req.target && r.target == req.pos
  {
    ResVox(req.target, req.pos, list)
  }

  /** The entry a chunk holding buffer s gives for coordinate c: its snapshot, or none outside the chunk. */
  function EntryFor(s: seq<bv8>, c: Vec3): (e: VoxEntry)
    requires |s| == BUFFER_SIZE
    ensures e.vox == c && (e.snap.Some? <==> InChunk(c))
    ensures e.snap.Some? ==> e.snap.value.voxelType == TypeAt(s, c) && e.snap.value.light == LightAt(s, c)
  {
    if InChunk(c) then VoxEntry(c, Some(VoxSnap(TypeAt(s, c), LightAt(s, c)))) else VoxEntry(c, None)
  }

  /** The list a non-empty chunk holding buffer s answers for the coordinates asked, entry by entry in order. */
  function EntriesFor(s: seq<bv8>, coords: seq<Vec3>): (r: seq<VoxEntry>)
    requires |s| == BUFFER_SIZE
    ensures |r| == |coords| && forall i :: 0 <= i < |coords| ==> r[i] == EntryFor(s, coords[i])
  {
    if coords == [] then [] else [EntryFor(s, coords[0])] + EntriesFor(s, coords[1..])
  }

  /** The list a chunk answers a voxel request with: none when it holds no voxel, an entry per coordinate otherwise. */
  function AnswerFor(s: seq<bv8>, voxelCount: int, coords: seq<Vec3>): (r: Option<seq<VoxEntry>>)
    requires |s| == BUFFER_SIZE
    ensures r.None? <==> voxelCount == 0
  {
    if voxelCount == 0 then None else Some(EntriesFor(s, coords))
  }

  /**
   * A message whose object matches its action: the generic kinds never carry
   * an action that has a message kind of its own, so a receiver that reads
   * the action and casts the message to that kind always gets an object.
   */
  predicate WellTyped(m: Message)
  {
    (m.Plain? || m.ToChunk?) ==>
      m.action !in {ATTACH, REQ_VOX, RES_VOX, CHANGE_STAGE, NFY_STAGE_CHANGED, SUNLIGHT_PROP, SUNLIGHT_PROP_END}
  }

  /** For a well-typed message the action decides the kind, and every specific kind is well typed. */
  lemma ActionsOfKinds(m: Message)
    ensures !m.Plain? && !m.ToChunk? ==> WellTyped(m)
    ensures WellTyped(m) ==> (m.Action() == RES_VOX <==> m.ResVox?)
    ensures WellTyped(m) ==> (m.Action() == REQ_VOX <==> m.ReqVox?)
    ensures WellTyped(m) ==> (m.Action() == CHANGE_STAGE <==> m.ChangeStage?)
    ensures WellTyped(m) ==> (m.Action() == NFY_STAGE_CHANGED <==> m.NotifyStageChanged?)
    ensures WellTyped(m) ==> (m.Action() == SUNLIGHT_PROP <==> m.SunlightProp?)
    ensures WellTyped(m) ==> (m.Action() == SUNLIGHT_PROP_END <==> m.SunlightPropEnd?)
  {
  }
}
