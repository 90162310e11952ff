/**
 * The first stage of every chunk: it gives the chunk its buffer and
 * finishes at once.
 */
module InitializeStages {
  import opened ChunkBuffers
  import opened StageCommon
  import StageTags

  class ChunkInitializeStage {
    const base: BaseStage

    constructor (shared: SharedData)
      ensures fresh(base) && base.shared == shared && base.stage == StageTags.INITIALIZE
      ensures !base.finished && !base.done
    {
      base := new BaseStage(StageTags.INITIALIZE, shared);
    }

    /**
     * Allocates the shared buffer (zero-filled: every voxel empty) and
     * finishes; the stage is not done, posts nothing and counts no voxel.
     */
    method OnStart()
      modifies base, base.shared, base.shared.buffer
      ensures base.shared.buffer.Allocated() && fresh(base.shared.buffer.voxels)
      ensures forall i :: 0 <= i < BUFFER_SIZE ==> base.shared.buffer.voxels[i] == 0
      ensures base.finished && base.done == old(base.done)
      ensures base.shared.outbox == old(base.shared.outbox) && base.shared.voxelCount == old(base.shared.voxelCount)
      ensures base.shared.errors == old(base.shared.errors) + (if old(base.finished) then 1 else 0)
    {
      base.shared.buffer.Allocate();
      base.Finish();
    }
  }
}
