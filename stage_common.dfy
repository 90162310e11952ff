/**
 * The stages a chunk goes through, in order. The stage values are the
 * enum's integers: the switcher asks for `current + 1`, which for DONE is
 * not a named stage.
 */
module StageTags {
  const NONE: int := 0
  const INITIALIZE: int := 1
  const LOAD: int := 2
  const VISIBILITY: int := 3
  const SUNLIGHT: int := 4
  const LIGHTING: int := 5
  const MERGE_FACES: int := 6
  const DONE: int := 7
}

/**
 * What every stage shares: the chunk's data, the stage flags, and the
 * cluster that records the stages of the 26 neighbouring chunks.
 */
module StageCommon {
  import opened Vec3Math
  import opened ChunkDims
  import opened ChunkBuffers
  import opened Messages
  import StageTags

  /** The world bounds of the controller, in chunk units; only their y components are read. */
  datatype Bounds = Bounds(up: Vec3, bottom: Vec3)

  /**
   * The data every stage of one chunk works on. `outbox` holds, in order,
   * every message the chunk has posted to the controller, and `errors`
   * counts the error lines it has logged.
   */
  class SharedData {
    const buffer: ChunkBuffer
    const pos: Vec3
    const bounds: Bounds
    var voxelCount: int
    var outbox: seq<Message>
    var errors: nat

    constructor (buffer: ChunkBuffer, pos: Vec3, bounds: Bounds)
      ensures this.buffer == buffer && this.pos == pos && this.bounds == bounds
      ensures voxelCount == 0 && outbox == [] && errors == 0
    {
      this.buffer := buffer;
      this.pos := pos;
      this.bounds := bounds;
      voxelCount := 0;
      outbox := [];
      errors := 0;
    }

    /** `controller.Post`: the message joins the end of the outbox. */
    method Post(m: Message)
      modifies this
      ensures outbox == old(outbox) + [m]
      ensures voxelCount == old(voxelCount) && errors == old(errors)
    {
      outbox := outbox + [m];
    }

    /** `Debug.LogError`: one more error line. */
    method LogError()
      modifies this
      ensures errors == old(errors) + 1
      ensures outbox == old(outbox) && voxelCount == old(voxelCount)
    {
      errors := errors + 1;
    }
  }

  /** The part every stage has in common: its tag and its finished and done flags. */
  class BaseStage {
    const stage: int
    const shared: SharedData
    var finished: bool
    var done: bool

    constructor (stage: int, shared: SharedData)
      ensures this.stage == stage && this.shared == shared
      ensures !finished && !done
    {
      this.stage := stage;
      this.shared := shared;
      finished := false;
      done := false;
    }

    /**
     * Marks the stage finished. Finishing twice is an error the source only
     * logs: the stage stays finished.
     */
    method Finish()
      modifies this, shared
      ensures finished && done == old(done)
      ensures shared.errors == old(shared.errors) + (if old(finished) then 1 else 0)
      ensures shared.outbox == old(shared.outbox) && shared.voxelCount == old(shared.voxelCount)
    {
      if finished {
        shared.LogError();
      }
      finished := true;
    }

    /** Finishes the stage and marks it done, the state of the last stage. */
    method Done()
      modifies this, shared
      ensures finished && done
      ensures shared.errors == old(shared.errors) + (if old(finished) then 1 else 0)
      ensures shared.outbox == old(shared.outbox) && shared.voxelCount == old(shared.voxelCount)
    {
      Finish();
      done := true;
    }

    /** The default dispatch: a message the stage does not expect is logged and changes nothing else. */
    method Unexpected(msg: Message)
      modifies shared
      ensures shared.errors == old(shared.errors) + 1
      ensures shared.outbox == old(shared.outbox) && shared.voxelCount == old(shared.voxelCount)
    {
      shared.LogError();
    }

    /** The NONE stage's start: it finishes at once. */
    method StartNone()
      modifies this, shared
      ensures finished && done == old(done)
      ensures shared.errors == old(shared.errors) + (if old(finished) then 1 else 0)
      ensures shared.outbox == old(shared.outbox) && shared.voxelCount == old(shared.voxelCount)
    {
      Finish();
    }

    /** The DONE stage's start: it is done at once. */
    method StartDone()
      modifies this, shared
      ensures finished && done
      ensures shared.errors == old(shared.errors) + (if old(finished) then 1 else 0)
      ensures shared.outbox == old(shared.outbox) && shared.voxelCount == old(shared.voxelCount)
    {
      Done();
    }
  }

  /** A neighbour blocks a stage change when it is known and behind the current stage. */
  predicate IsOnLowerStage(currentStage: int, neighbourStage: int)
  {
    neighbourStage < currentStage
  }

  /** No known neighbour is behind `current`: the gate of every stage change. */
  predicate NoneBehind(neighbours: seq<int>, current: int)
  {
    forall k :: 0 <= k < |neighbours| ==> neighbours[k] == StageTags.NONE || !IsOnLowerStage(current, neighbours[k])
  }

  /** The neighbour offset, in chunks, that the cluster looks up for a neighbour's position. */
  function ChunkOffset(pos: Vec3, neighbour: Vec3): Vec3
  {
    Div(Sub(neighbour, pos), Vec3(SIZE, SIZE, SIZE))
  }

  /** The last stage each of the 26 neighbouring chunks announced, by ALL_DIRS index. */
  class ChunkCluster {
    const pos: Vec3
    var neighbours: seq<int>

    /** Every neighbour starts at NONE, which never blocks. */
    constructor (pos: Vec3)
      ensures this.pos == pos
      ensures |neighbours| == 26 && forall k :: 0 <= k < 26 ==> neighbours[k] == StageTags.NONE
    {
      this.pos := pos;
      neighbours := seq(26, _ => StageTags.NONE);
    }

    /**
     * The ALL_DIRS index of a neighbour's chunk offset: the slot of that
     * direction when the offset is one of the 26, and -1 otherwise (the
     * source also logs there; the cluster keeps no error count).
     */
    method Find(neighbour: Vec3) returns (i: int)
      ensures -1 <= i < 26
      ensures i == -1 <==> !IsNeighbourOffset(ChunkOffset(pos, neighbour))
      ensures i != -1 ==> i == NeighbourIndex(ChunkOffset(pos, neighbour)) && ALL_DIRS[i] == ChunkOffset(pos, neighbour)
    {
      var v := ChunkOffset(pos, neighbour);
      i := 0;
      while i < 26
        invariant 0 <= i <= 26
        invariant forall j :: 0 <= j < i ==> ALL_DIRS[j] != v
      {
        if ALL_DIRS[i] == v {
          AllDirsIndexed();
          return;
        }
        i := i + 1;
      }
      AllDirsCover();
      i := -1;
    }

    /**
     * Records a neighbour's new stage in its direction's slot. The source
     * indexes with Find's result, so a position that is not one of the 26
     * neighbours would fail on index -1; the caller must not send one.
     */
    method UpdateStage(neighbour: Vec3, stage: int)
      requires |neighbours| == 26 && IsNeighbourOffset(ChunkOffset(pos, neighbour))
      modifies this
      ensures |neighbours| == 26
      ensures neighbours == old(neighbours)[NeighbourIndex(ChunkOffset(pos, neighbour)) := stage]
    {
      var i := Find(neighbour);
      neighbours := neighbours[i := stage];
    }

    /** Whether the stage may advance past `current`: no known neighbour is behind it. */
    method CanChangeStage(current: int) returns (r: bool)
      ensures r <==> NoneBehind(neighbours, current)
    {
      var k := 0;
      while k < |neighbours|
        invariant 0 <= k <= |neighbours|
        invariant forall j :: 0 <= j < k ==> neighbours[j] == StageTags.NONE || !IsOnLowerStage(current, neighbours[j])
      {
        if neighbours[k] != StageTags.NONE && IsOnLowerStage(current, neighbours[k]) {
          return false;
        }
        k := k + 1;
      }
      return true;
    }
  }

  /**
   * A neighbour's announcement lands in the slot of the direction from this
   * chunk to it: for a chunk one step away along ALL_DIRS[i], the slot is i.
   */
  lemma {:induction false} AnnouncementSlot(pos: Vec3, i: int)
    requires 0 <= i < 26
    ensures IsNeighbourOffset(ChunkOffset(pos, Add(pos, Scale(ALL_DIRS[i], SIZE))))
    ensures NeighbourIndex(ChunkOffset(pos, Add(pos, Scale(ALL_DIRS[i], SIZE)))) == i
  {
    AllDirsIndexed();
    var d := ALL_DIRS[i];
    var s := Sub(Add(pos, Scale(d, SIZE)), pos);
    assert s == Scale(d, SIZE);
    assert TruncDiv(d.x * 16, 16) == d.x && TruncDiv(d.y * 16, 16) == d.y && TruncDiv(d.z * 16, 16) == d.z;
    assert ChunkOffset(pos, Add(pos, Scale(d, SIZE))) == d;
  }

  /** A stage at NONE never blocks, and a cluster where everyone is at or past `current` lets it advance. */
  lemma GateMonotone(neighbours: seq<int>, current: int, lower: int)
    requires NoneBehind(neighbours, current) && lower <= current
    ensures NoneBehind(neighbours, lower)
  {
  }

  // ---- request tables ----
  // A stage that waits on neighbouring chunks keeps its requests in a table
  // from chunk position to list; `order` records the order the table
  // enumerates its keys in, which is the order they were added.

  /** `order` lists the table's keys once each: the order the table enumerates them. */
  ghost predicate KeysListed<R>(requests: map<Vec3, R>, order: seq<Vec3>)
  {
    (forall k :: k in requests <==> k in order) &&
    (forall i, j :: 0 <= i < j < |order| ==> order[i] != order[j])
  }

  /** The table with req appended to key's list, the list created when the key is new. */
  function Filing<R>(requests: map<Vec3, seq<R>>, key: Vec3, req: R): map<Vec3, seq<R>>
  {
    requests[key := (if key in requests then requests[key] else []) + [req]]
  }

  /** The enumeration order after filing under key: a new key goes last. */
  function Enlisted<R>(requests: map<Vec3, R>, order: seq<Vec3>, key: Vec3): seq<Vec3>
  {
    order + (if key in requests then [] else [key])
  }

  /** The enumeration order with one key taken out. */
  function Without(order: seq<Vec3>, key: Vec3): (r: seq<Vec3>)
    ensures forall k :: k in r <==> k in order && k != key
  {
    if order == [] then []
    else (if order[0] == key then [] else [order[0]]) + Without(order[1..], key)
  }

  /** Taking a key out of an order without repetitions leaves one without repetitions. */
  lemma {:induction false} WithoutDistinct(order: seq<Vec3>, key: Vec3)
    requires forall i, j :: 0 <= i < j < |order| ==> order[i] != order[j]
    ensures forall i, j :: 0 <= i < j < |Without(order, key)| ==> Without(order, key)[i] != Without(order, key)[j]
  {
    if order != [] {
      var rest := order[1..];
      WithoutDistinct(rest, key);
      assert order[0] !in rest by {
        forall j | 0 <= j < |rest|
          ensures rest[j] != order[0]
        {
          assert rest[j] == order[j + 1];
        }
      }
      assert order[0] !in Without(rest, key);
    }
  }
}
