/**
 * The stage switcher of one chunk: it holds the current stage, routes the
 * chunk's messages to it, records the stages its neighbours announce, and
 * moves to the next stage once the current one has finished and no known
 * neighbour lags behind.
 */
module StageSwitchers {
  import opened Wrappers
  import opened Vec3Math
  import opened ChunkDims
  import opened ChunkBuffers
  import opened Messages
  import opened StageCommon
  import StageTags
  import InitializeStages
  import LoadStages
  import VisibilityStages
  import SunlightStages
  import LightingStages

  /**
   * The current stage, one case per stage class. The merge-faces stage
   * keeps the output the previous stage handed it.
   */
  datatype StageBox =
    | NoneStage(none: BaseStage)
    | InitializeStage(init: InitializeStages.ChunkInitializeStage)
    | LoadStage(load: LoadStages.ChunkLoadStage)
    | VisibilityStage(vis: VisibilityStages.ChunkVisibilityStage)
    | SunlightStage(sun: SunlightStages.ChunkSunlightStage)
    | LightingStage(light: LightingStages.ChunkLightingStage)
    | MergeFacesStage(merge: BaseStage, input: Option<seq<LightingStages.ChunkLightData>>)
    | DoneStage(last: BaseStage)
  {
    /** The part every stage shares: tag, flags and the chunk's data. */
    function Base(): BaseStage
    {
      match this
      case NoneStage(b) => b
      case InitializeStage(s) => s.base
      case LoadStage(s) => s.base
      case VisibilityStage(s) => s.base
      case SunlightStage(s) => s.base
      case LightingStage(s) => s.base
      case MergeFacesStage(b, _) => b
      case DoneStage(b) => b
    }

    /** The tag of the stage class. */
    function Tag(): int
    {
      match this
      case NoneStage(_) => StageTags.NONE
      case InitializeStage(_) => StageTags.INITIALIZE
      case LoadStage(_) => StageTags.LOAD
      case VisibilityStage(_) => StageTags.VISIBILITY
      case SunlightStage(_) => StageTags.SUNLIGHT
      case LightingStage(_) => StageTags.LIGHTING
      case MergeFacesStage(_, _) => StageTags.MERGE_FACES
      case DoneStage(_) => StageTags.DONE
    }

    /** The objects the stage owns. */
    function Objects(): set<object>
    {
      match this
      case NoneStage(b) => {b}
      case InitializeStage(s) => {s, s.base}
      case LoadStage(s) => {s, s.base}
      case VisibilityStage(s) => {s, s.base}
      case SunlightStage(s) => {s, s.base}
      case LightingStage(s) => {s, s.base}
      case MergeFacesStage(b, _) => {b}
      case DoneStage(b) => {b}
    }

    /** The stages that read or write the voxels of the buffer. */
    predicate UsesBuffer()
    {
      LoadStage? || VisibilityStage? || SunlightStage? || LightingStage?
    }
  }

  /**
   * The stage GetNextStage builds for a requested tag: the stage of that
   * tag when there is one, and the NONE stage for any other value.
   */
  function NextTag(stage: int): int
  {
    if StageTags.INITIALIZE <= stage <= StageTags.DONE then stage else StageTags.NONE
  }

  /** The 26 announcements of a new stage: one to each neighbouring chunk, in ALL_DIRS order. */
  function Broadcast(pos: Vec3, stage: int): seq<Message>
  {
    seq(26, i requires 0 <= i < 26 => NotifyStageChanged(pos, Add(pos, Scale(ALL_DIRS[i], SIZE)), stage))
  }

  /**
   * Every announcement reaches a chunk that can record it: seen from the
   * receiver, the sender is one of its 26 neighbours, in the slot of the
   * opposite direction.
   */
  lemma BroadcastIsRecordable(pos: Vec3, stage: int, i: int)
    requires 0 <= i < 26
    ensures Broadcast(pos, stage)[i].NotifyStageChanged?
    ensures IsNeighbourOffset(ChunkOffset(Broadcast(pos, stage)[i].target, Broadcast(pos, stage)[i].pos))
    ensures ALL_DIRS[NeighbourIndex(ChunkOffset(Broadcast(pos, stage)[i].target, Broadcast(pos, stage)[i].pos))] ==
      Sub(ZERO, ALL_DIRS[i])
  {
    AllDirsEnumeratesNeighbours();
    AllDirsIndexed();
    AllDirsCover();
    var d := ALL_DIRS[i];
    var q := Add(pos, Scale(d, SIZE));
    var back := Sub(ZERO, d);
    assert IsNeighbourOffset(back);
    var j := NeighbourIndex(back);
    assert ALL_DIRS[j] == back;
    AnnouncementSlot(q, j);
    assert Add(q, Scale(ALL_DIRS[j], SIZE)) == pos;
  }

  class ChunkStageSwitcher {
    var current: StageBox
    const cluster: ChunkCluster
    const shared: SharedData
    /** The terrain the load stage reads, in place of the noise generator. */
    const terrain: LoadStages.Terrain

    /** The current stage's own invariant, for the stages that keep one. */
    ghost predicate StageValid()
      reads this, current.Objects()
    {
      match current
      case VisibilityStage(s) => s.Valid()
      case SunlightStage(s) => s.Valid()
      case LightingStage(s) => s.Valid() && LightingStages.Backed(s.cells, s.requests)
      case _ => true
    }

    /** The switcher, its cluster and its stage fit together and agree with the chunk's data. */
    ghost predicate Wired()
      reads this, cluster, current.Objects()
    {
      cluster.pos == shared.pos && |cluster.neighbours| == 26 &&
      current.Base().shared == shared && current.Base().stage == current.Tag() &&
      StageValid()
    }

    /** The buffer is there whenever the stage reads it or the chunk holds a voxel. */
    ghost predicate Backing()
      reads this, shared, shared.buffer
    {
      current.UsesBuffer() || shared.voxelCount != 0 ==> shared.buffer.Allocated()
    }

    ghost predicate Valid()
      reads this, cluster, shared, shared.buffer, current.Objects()
    {
      Wired() && Backing()
    }

    /** The switcher starts at the NONE stage, with every neighbour unknown. */
    constructor (shared: SharedData, terrain: LoadStages.Terrain)
      requires shared.voxelCount == 0
      ensures Valid() && this.shared == shared && this.terrain == terrain
      ensures current.NoneStage? && !current.Base().finished && !current.Base().done
      ensures forall k :: 0 <= k < 26 ==> cluster.neighbours[k] == StageTags.NONE
      ensures fresh(cluster) && fresh(current.Objects())
    {
      var none := new BaseStage(StageTags.NONE, shared);
      current := NoneStage(none);
      cluster := new ChunkCluster(shared.pos);
      this.shared := shared;
      this.terrain := terrain;
    }

    /** The tag the switcher asks for next: one past the current stage's. */
    function Next(): int
      reads this
    {
      current.Tag() + 1
    }

    /** The switcher may move on: the stage finished, it is not the last, and no known neighbour is behind it. */
    ghost predicate Ready()
      reads this, cluster, current.Objects()
    {
      current.Base().finished && current.Tag() != StageTags.DONE && NoneBehind(cluster.neighbours, current.Tag())
    }

    /** `CanChangeStage`: whether the switcher is ready to move on. */
    method CanChangeStage() returns (r: bool)
      requires Valid()
      ensures r <==> Ready()
    {
      var gate := cluster.CanChangeStage(current.Base().stage);
      r := current.Base().finished && current.Base().stage != StageTags.DONE && gate;
    }

    /** Asks for the next stage, addressed to the chunk itself, when the switcher is ready. */
    method TryGoToNextStage()
      requires Valid()
      modifies shared
      ensures Valid() && current == old(current)
      ensures shared.outbox == old(shared.outbox) + (if Ready() then [ChangeStage(shared.pos, Next())] else [])
      ensures shared.voxelCount == old(shared.voxelCount) && shared.errors == old(shared.errors)
    {
      var ok := CanChangeStage();
      if ok {
        shared.Post(ChangeStage(shared.pos, current.Base().stage + 1));
      }
    }

    /** Records a neighbour's announced stage in the slot of its direction. */
    method NeighborStageChanged(msg: Message)
      requires Valid() && msg.NotifyStageChanged? && IsNeighbourOffset(ChunkOffset(shared.pos, msg.pos))
      modifies cluster
      ensures Valid() && current == old(current)
      ensures cluster.neighbours == old(cluster.neighbours)[NeighbourIndex(ChunkOffset(shared.pos, msg.pos)) := msg.stage]
    {
      cluster.UpdateStage(msg.pos, msg.stage);
    }

    /**
     * A fresh stage for a requested tag, built on the chunk's data; the
     * merge-faces stage is handed the current stage's output, which only
     * the lighting stage sets.
     */
    method GetNextStage(newStage: int) returns (box: StageBox)
      requires Valid()
      ensures box.Tag() == NextTag(newStage) && box.Base().stage == box.Tag() && box.Base().shared == shared
      ensures fresh(box.Objects()) && !box.Base().finished && !box.Base().done
      ensures box.MergeFacesStage? ==>
        box.input == (if current.LightingStage? then current.light.output else None)
      ensures Unstarted(box)
    {
      if newStage == StageTags.INITIALIZE {
        var s := new InitializeStages.ChunkInitializeStage(shared);
        box := InitializeStage(s);
      } else if newStage == StageTags.LOAD {
        var s := new LoadStages.ChunkLoadStage(shared);
        box := LoadStage(s);
      } else if newStage == StageTags.VISIBILITY {
        var s := new VisibilityStages.ChunkVisibilityStage(shared);
        box := VisibilityStage(s);
      } else if newStage == StageTags.SUNLIGHT {
        var s := new SunlightStages.ChunkSunlightStage(shared);
        box := SunlightStage(s);
      } else if newStage == StageTags.LIGHTING {
        var s := new LightingStages.ChunkLightingStage(shared);
        box := LightingStage(s);
      } else if newStage == StageTags.MERGE_FACES {
        var output := if current.LightingStage? then current.light.output else None;
        var b := new BaseStage(StageTags.MERGE_FACES, shared);
        box := MergeFacesStage(b, output);
      } else if newStage == StageTags.DONE {
        var b := new BaseStage(StageTags.DONE, shared);
        box := DoneStage(b);
      } else {
        var b := new BaseStage(StageTags.NONE, shared);
        box := NoneStage(b);
      }
    }

    /** A stage as its constructor leaves it: nothing scanned, queued or requested yet. */
    ghost predicate Unstarted(box: StageBox)
      reads box.Objects(), box.Base().shared
    {
      !box.Base().finished && !box.Base().done &&
      match box
      case VisibilityStage(s) => s.Valid() && s.requests == map[] && s.order == []
      case SunlightStage(s) => s.Valid() && s.propQueue == []
      case LightingStage(s) =>
        s.Valid() && s.cells == seq(4096, k => None) && s.requests == map[] && s.order == []
      case _ => true
    }

    /**
     * Starts the current stage. The NONE stage finishes, the DONE stage
     * is done, and the others run their own start; only the DONE stage is
     * ever done.
     */
    method Start()
      requires cluster.pos == shared.pos && |cluster.neighbours| == 26
      requires current.Base().shared == shared && current.Base().stage == current.Tag() && Unstarted(current)
      requires current.UsesBuffer() || shared.voxelCount != 0 ==> shared.buffer.Allocated()
      modifies current.Objects(), shared, shared.buffer, shared.buffer.voxels
      ensures Valid() && current == old(current)
      ensures current.Base().done <==> current.DoneStage?
      ensures current.NoneStage? || current.InitializeStage? || current.LoadStage? || current.DoneStage? ==>
        current.Base().finished
      ensures current.InitializeStage? ==> shared.buffer.Allocated()
      ensures old(shared.outbox) <= shared.outbox
    {
      match current
      case NoneStage(b) => b.StartNone();
      case InitializeStage(s) => s.OnStart();
      case LoadStage(s) => s.OnStart(terrain);
      case VisibilityStage(s) => s.OnStart();
      case SunlightStage(s) => s.OnStart();
      case LightingStage(s) => s.OnStart();
      case MergeFacesStage(b, _) =>
      case DoneStage(b) => b.StartDone();
    }

    /**
     * `ChageStage`: when no known neighbour is behind the current stage,
     * the switcher replaces and starts it (see `ReplaceStage`) and
     * announces the new stage to its 26 neighbours; otherwise nothing
     * happens. `started` is the outbox once the new stage has started.
     */
    method ChageStage(msg: Message) returns (ghost started: seq<Message>)
      requires Valid() && msg.ChangeStage?
      requires (NoneBehind(cluster.neighbours, current.Tag()) && !current.Base().done &&
        StageTags.LOAD <= msg.stage <= StageTags.LIGHTING) ==> shared.buffer.Allocated()
      modifies this, current.Objects(), shared, shared.buffer, shared.buffer.voxels
      ensures Valid() && cluster.neighbours == old(cluster.neighbours)
      ensures !NoneBehind(old(cluster.neighbours), old(current).Tag()) ==>
        current == old(current) && shared.outbox == old(shared.outbox) && shared.errors == old(shared.errors) &&
        shared.voxelCount == old(shared.voxelCount)
      ensures NoneBehind(old(cluster.neighbours), old(current).Tag()) ==>
        fresh(current.Objects()) &&
        current.Tag() == (if old(current.Base().done) then StageTags.DONE else NextTag(msg.stage)) &&
        (current.Base().done <==> current.DoneStage?) &&
        old(shared.outbox) <= started && shared.outbox == started + Broadcast(shared.pos, current.Tag())
    {
      started := shared.outbox;
      var gate := cluster.CanChangeStage(current.Base().stage);
      if !gate {
        return;
      }
      ReplaceStage(msg);
      started := shared.outbox;
      BroadacstChunkStageChanged();
    }

    /**
     * Replaces the current stage, by the DONE stage if it is done and by a
     * fresh stage of the requested tag otherwise (the tag is not checked
     * against the next one), and starts the new stage.
     */
    method ReplaceStage(msg: Message)
      requires Valid() && msg.ChangeStage?
      requires (!current.Base().done && StageTags.LOAD <= msg.stage <= StageTags.LIGHTING) ==> shared.buffer.Allocated()
      modifies this, current.Objects(), shared, shared.buffer, shared.buffer.voxels
      ensures Valid() && fresh(current.Objects())
      ensures current.Tag() == (if old(current.Base().done) then StageTags.DONE else NextTag(msg.stage))
      ensures current.Base().done <==> current.DoneStage?
      ensures old(shared.outbox) <= shared.outbox
    {
      if current.Base().done {
        var b := new BaseStage(StageTags.DONE, shared);
        current := DoneStage(b);
      } else {
        current := GetNextStage(msg.stage);
      }
      Start();
    }

    /** Announces the current stage to each of the 26 neighbouring chunks, in ALL_DIRS order. */
    method BroadacstChunkStageChanged()
      modifies shared
      ensures shared.outbox == old(shared.outbox) + Broadcast(shared.pos, current.Base().stage)
      ensures shared.voxelCount == old(shared.voxelCount) && shared.errors == old(shared.errors)
    {
      ghost var msgs := Broadcast(shared.pos, current.Base().stage);
      var i := 0;
      while i < 26
        invariant 0 <= i <= 26
        invariant shared.outbox == old(shared.outbox) + msgs[..i]
        invariant shared.voxelCount == old(shared.voxelCount) && shared.errors == old(shared.errors)
      {
        var dir := ALL_DIRS[i];
        shared.Post(NotifyStageChanged(shared.pos, Add(shared.pos, Scale(dir, SIZE)), current.Base().stage));
        assert msgs[..i + 1] == msgs[..i] + [msgs[i]];
        i := i + 1;
      }
      assert msgs[..i] == msgs;
    }

    /**
     * What the routing relies on: the message's object matches its action,
     * an announcement comes from one of the 26 neighbours, a stage change
     * that will start a stage reading the buffer finds it allocated, and a
     * voxel answer to a pending request lists only voxels that were asked
     * for.
     */
    ghost predicate Expected(msg: Message)
      reads this, cluster, shared, shared.buffer, current.Objects()
    {
      WellTyped(msg) &&
      (msg.NotifyStageChanged? ==> IsNeighbourOffset(ChunkOffset(shared.pos, msg.pos))) &&
      ((msg.ChangeStage? && !current.Base().done && StageTags.LOAD <= msg.stage <= StageTags.LIGHTING)
        ==> shared.buffer.Allocated()) &&
      ((current.VisibilityStage? && msg.ResVox? && msg.pos in current.vis.requests && msg.list.Some?)
        ==> VisibilityStages.AllMatched(current.vis.requests[msg.pos], msg.list.value)) &&
      ((current.LightingStage? && msg.ResVox? && msg.pos in current.light.requests && msg.list.Some?)
        ==> forall n :: 0 <= n < |msg.list.value| ==>
              msg.list.value[n].vox in LightingStages.Coordinates(current.light.requests[msg.pos]))
    }

    /**
     * What the current stage did with msg, from the state before it to the
     * state now, with out the outbox after it: the visibility, sunlight and
     * lighting stages handle it as their own `Handled` says; every other
     * stage logs it and changes nothing else.
     */
    twostate predicate StageHandled(msg: Message, out: seq<Message>)
      reads this, shared`errors, shared.buffer, shared.buffer.voxels, current.Objects()
    {
      current == old(current) &&
      match current
      case VisibilityStage(s) =>
        s.base.shared == shared && old(shared.buffer.Allocated()) && shared.buffer.Allocated() &&
        s.Handled(msg) && out == old(shared.outbox)
      case SunlightStage(s) =>
        s.base.shared == shared && old(shared.buffer.Allocated()) && shared.buffer.Allocated() &&
        s.Handled(msg, out)
      case LightingStage(s) =>
        s.base.shared == shared && s.Handled(msg) && out == old(shared.outbox)
      case _ =>
        out == old(shared.outbox) && shared.errors == old(shared.errors) + 1 &&
        current.Base().finished == old(current.Base().finished)
    }

    /**
     * Hands a message to the current stage: the visibility, sunlight and
     * lighting stages take their own messages, and every other stage logs
     * any message as unexpected.
     */
    method DispatchCurrent(msg: Message)
      requires Valid() && Expected(msg)
      modifies current.Objects(), shared, shared.buffer.voxels
      ensures Valid() && current == old(current) && current.Base().done == old(current.Base().done)
      ensures shared.voxelCount == old(shared.voxelCount) && StageHandled(msg, shared.outbox)
    {
      match current
      case VisibilityStage(s) => s.Dispatch(msg);
      case SunlightStage(s) => s.Dispatch(msg);
      case LightingStage(s) => s.Dispatch(msg);
      case _ => current.Base().Unexpected(msg);
    }

    /**
     * What routing msg did, from the state before it to the state now, with
     * routed the outbox after routing: an announcement is recorded in its
     * neighbour's slot; a stage change behind a known neighbour does
     * nothing, and otherwise installs and starts the next stage (DONE once
     * done) and announces it to the 26 neighbours; anything else goes to
     * the current stage, as `StageHandled` says.
     */
    twostate predicate Routed(msg: Message, routed: seq<Message>)
      reads this, cluster, shared`errors, shared.buffer, shared.buffer.voxels, current.Objects()
    {
      old(shared.outbox) <= routed &&
      if msg.NotifyStageChanged? then
        current == old(current) && routed == old(shared.outbox) &&
        IsNeighbourOffset(ChunkOffset(shared.pos, msg.pos)) && |old(cluster.neighbours)| == 26 &&
        cluster.neighbours == old(cluster.neighbours)[NeighbourIndex(ChunkOffset(shared.pos, msg.pos)) := msg.stage]
      else if msg.ChangeStage? then
        cluster.neighbours == old(cluster.neighbours) &&
        if NoneBehind(old(cluster.neighbours), old(current).Tag()) then
          fresh(current.Objects()) &&
          current.Tag() == (if old(current.Base().done) then StageTags.DONE else NextTag(msg.stage)) &&
          |routed| >= 26 && routed[|routed| - 26..] == Broadcast(shared.pos, current.Tag())
        else
          current == old(current) && routed == old(shared.outbox)
      else
        current == old(current) && cluster.neighbours == old(cluster.neighbours) && StageHandled(msg, routed)
    }

    /**
     * The chunk's messages once the chunk itself has taken its own: stage
     * changes and announcements go to the switcher, everything else to the
     * current stage; then, if the switcher is ready, it asks for the next
     * stage. `routed` is the outbox after routing, before that request.
     */
    method Dispatch(msg: Message) returns (ghost routed: seq<Message>)
      requires Valid() && Expected(msg)
      modifies this, cluster, current.Objects(), shared, shared.buffer, shared.buffer.voxels
      ensures Valid() && Routed(msg, routed)
      ensures shared.outbox == routed + (if Ready() then [ChangeStage(shared.pos, Next())] else [])
    {
      Route(msg);
      routed := shared.outbox;
      TryGoToNextStage();
    }

    /** The routing step of `Dispatch`, before the switcher asks for the next stage. */
    method Route(msg: Message)
      requires Valid() && Expected(msg)
      modifies this, cluster, current.Objects(), shared, shared.buffer, shared.buffer.voxels
      ensures Valid() && Routed(msg, shared.outbox)
    {
      ActionsOfKinds(msg);
      if msg.Action() == CHANGE_STAGE {
        ghost var _ := ChageStage(msg);
      } else if msg.Action() == NFY_STAGE_CHANGED {
        NeighborStageChanged(msg);
      } else {
        DispatchCurrent(msg);
      }
    }
  }
}
