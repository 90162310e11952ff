/**
 * The load stage: it fills the chunk from the terrain. Each column (x, z)
 * is of type 1 from the chunk's floor up to the terrain height of its world
 * column, and every voxel written is counted in the chunk's voxel count.
 */
module LoadStages {
  import opened Voxel
  import opened Vec3Math
  import opened ChunkDims
  import opened ChunkBuffers
  import opened VoxRefs
  import opened StageCommon
  import StageTags

  /**
   * The terrain: for a world column (x, z), the first world height that
   * stays empty. The source compares the integer height of a voxel with a
   * float noise value; an integer wy is below a float h exactly when it is
   * below h rounded up, which is what this function returns.
   */
  type Terrain = (int, int) -> int

  /** The one voxel type the stage writes: type 1, which the source leaves unnamed. */
  const SOLID: bv16 := 1

  /** A voxel of the chunk at pos lies below the terrain of its world column. */
  predicate Solid(pos: Vec3, height: Terrain, v: Vec3)
  {
    pos.y + v.y < height(pos.x + v.x, pos.z + v.z)
  }

  /** How many voxels of column (x, z) the stage fills: the part of the column below the terrain. */
  function ColumnFill(pos: Vec3, height: Terrain, x: int, z: int): (n: int)
    ensures 0 <= n <= SIZE
    ensures n == 0 <==> height(pos.x + x, pos.z + z) <= pos.y
    ensures n == SIZE <==> height(pos.x + x, pos.z + z) >= pos.y + SIZE
  {
    var d := height(pos.x + x, pos.z + z) - pos.y;
    if d < 0 then 0 else if d > SIZE then SIZE else d
  }

  /** The voxels the stage fills in the first z columns of row x. */
  function RowFill(pos: Vec3, height: Terrain, x: int, z: int): (n: int)
    requires 0 <= z <= SIZE
    ensures 0 <= n <= SIZE * z
  {
    if z == 0 then 0 else RowFill(pos, height, x, z - 1) + ColumnFill(pos, height, x, z - 1)
  }

  /** The voxels the stage fills in the first x rows. */
  function FilledRows(pos: Vec3, height: Terrain, x: int): (n: int)
    requires 0 <= x <= SIZE
    ensures 0 <= n <= SIZE * SIZE * x
  {
    if x == 0 then 0 else FilledRows(pos, height, x - 1) + RowFill(pos, height, x - 1, SIZE)
  }

  /** The voxels the stage fills in the whole chunk: what it adds to the voxel count. */
  function FilledCount(pos: Vec3, height: Terrain): (n: int)
    ensures 0 <= n <= SIZE * SIZE * SIZE
  {
    FilledRows(pos, height, SIZE)
  }

  /** Column c of the chunk, x-major: the loops visit v's column before column c, or at c below row y. */
  predicate VisitedBefore(v: Vec3, c: int, y: int)
  {
    v.x * 16 + v.z < c || (v.x * 16 + v.z == c && v.y < y)
  }

  /**
   * The buffer s is s0 with every solid voxel the loops have visited so far
   * turned to type 1; no other type and no side or light byte changes.
   */
  ghost predicate LoadedUpTo(s0: seq<bv8>, s: seq<bv8>, pos: Vec3, height: Terrain, c: int, y: int)
  {
    |s0| == BUFFER_SIZE && |s| == BUFFER_SIZE &&
    (forall v {:trigger TypeAt(s, v)} :: InChunk(v) ==>
      TypeAt(s, v) == if VisitedBefore(v, c, y) && Solid(pos, height, v) then SOLID else TypeAt(s0, v)) &&
    (forall v {:trigger LightAt(s, v)} :: InChunk(v) ==> LightAt(s, v) == LightAt(s0, v)) &&
    (forall v, side: Side {:trigger IsVisibleAt(s, v, side)} :: InChunk(v) ==> IsVisibleAt(s, v, side) == IsVisibleAt(s0, v, side))
  }

  /** The loaded chunk: s0 with exactly its solid voxels turned to type 1. */
  ghost predicate Loaded(s0: seq<bv8>, s: seq<bv8>, pos: Vec3, height: Terrain)
  {
    |s0| == BUFFER_SIZE && |s| == BUFFER_SIZE &&
    (forall v {:trigger TypeAt(s, v)} :: InChunk(v) ==>
      TypeAt(s, v) == if Solid(pos, height, v) then SOLID else TypeAt(s0, v)) &&
    (forall v {:trigger LightAt(s, v)} :: InChunk(v) ==> LightAt(s, v) == LightAt(s0, v)) &&
    (forall v, side: Side {:trigger IsVisibleAt(s, v, side)} :: InChunk(v) ==> IsVisibleAt(s, v, side) == IsVisibleAt(s0, v, side))
  }

  /** Writing type 1 at the next voxel of column c advances the loaded prefix by one row. */
  lemma WriteSolid(s0: seq<bv8>, s: seq<bv8>, pos: Vec3, height: Terrain, x: int, y: int, z: int)
    requires 0 <= x < 16 && 0 <= y < 16 && 0 <= z < 16 && Solid(pos, height, Vec3(x, y, z))
    requires LoadedUpTo(s0, s, pos, height, x * 16 + z, y)
    ensures LoadedUpTo(s0, WithType(s, Vec3(x, y, z), SOLID), pos, height, x * 16 + z, y + 1)
  {
    var p := Vec3(x, y, z);
    var s' := WithType(s, p, SOLID);
    forall v | InChunk(v)
      ensures TypeAt(s', v) == if VisitedBefore(v, x * 16 + z, y + 1) && Solid(pos, height, v) then SOLID else TypeAt(s0, v)
    {
      WithTypeFrame(s, p, SOLID, v, 0);
      if v != p {
        assert TypeAt(s', v) == TypeAt(s, v);
        assert VisitedBefore(v, x * 16 + z, y + 1) == VisitedBefore(v, x * 16 + z, y);
      }
    }
    forall v | InChunk(v)
      ensures LightAt(s', v) == LightAt(s0, v)
    {
      WithTypeFrame(s, p, SOLID, v, 0);
    }
    forall v, side: Side | InChunk(v)
      ensures IsVisibleAt(s', v, side) == IsVisibleAt(s0, v, side)
    {
      WithTypeFrame(s, p, SOLID, v, side);
    }
  }

  /** A column ends where the terrain or the chunk ends: the rows above it are not solid or not in the chunk. */
  lemma EndColumn(s0: seq<bv8>, s: seq<bv8>, pos: Vec3, height: Terrain, x: int, z: int, y: int)
    requires 0 <= x < 16 && 0 <= z < 16 && 0 <= y <= 16
    requires y == 16 || !Solid(pos, height, Vec3(x, y, z))
    requires LoadedUpTo(s0, s, pos, height, x * 16 + z, y)
    ensures LoadedUpTo(s0, s, pos, height, x * 16 + z + 1, 0)
  {
    forall v | InChunk(v) && v.x * 16 + v.z == x * 16 + z && v.y >= y
      ensures !Solid(pos, height, v)
    {
      assert v.x == x && v.z == z;
    }
  }

  /** Every column visited: the prefix is the whole chunk. */
  lemma AllColumns(s0: seq<bv8>, s: seq<bv8>, pos: Vec3, height: Terrain)
    requires LoadedUpTo(s0, s, pos, height, 256, 0)
    ensures Loaded(s0, s, pos, height)
  {
  }

  /** A voxel is solid exactly when it lies in the filled part of its column. */
  lemma SolidIsColumnFill(pos: Vec3, height: Terrain, v: Vec3)
    requires InChunk(v)
    ensures Solid(pos, height, v) <==> v.y < ColumnFill(pos, height, v.x, v.z)
  {
  }

  /** The first z columns of row x fill nothing exactly when none of their voxels is solid. */
  lemma {:induction false} RowFillZero(pos: Vec3, height: Terrain, x: int, z: int)
    requires 0 <= x < SIZE && 0 <= z <= SIZE
    ensures RowFill(pos, height, x, z) == 0 <==> forall v :: InChunk(v) && v.x == x && v.z < z ==> !Solid(pos, height, v)
  {
    if z > 0 {
      RowFillZero(pos, height, x, z - 1);
      SolidIsColumnFill(pos, height, Vec3(x, 0, z - 1));
      forall v | InChunk(v) && v.x == x && v.z == z - 1
        ensures Solid(pos, height, v) <==> v.y < ColumnFill(pos, height, x, z - 1)
      {
        SolidIsColumnFill(pos, height, v);
      }
    }
  }

  /** The first x rows fill nothing exactly when none of their voxels is solid. */
  lemma {:induction false} FilledRowsZero(pos: Vec3, height: Terrain, x: int)
    requires 0 <= x <= SIZE
    ensures FilledRows(pos, height, x) == 0 <==> forall v :: InChunk(v) && v.x < x ==> !Solid(pos, height, v)
  {
    if x > 0 {
      FilledRowsZero(pos, height, x - 1);
      RowFillZero(pos, height, x - 1, SIZE);
    }
  }

  /**
   * Loading an empty buffer, the stage counts no voxel exactly when it
   * leaves every voxel empty, and a voxel is non-empty exactly when it is
   * solid: the voxel count decides whether the chunk is empty.
   */
  lemma LoadedChunkIsEmptyIff(s0: seq<bv8>, s: seq<bv8>, pos: Vec3, height: Terrain)
    requires |s0| == BUFFER_SIZE && forall k :: 0 <= k < BUFFER_SIZE ==> s0[k] == 0
    requires Loaded(s0, s, pos, height)
    ensures forall v :: InChunk(v) ==> (IsEmptyAt(s, v) <==> !Solid(pos, height, v))
    ensures FilledCount(pos, height) == 0 <==> forall v :: InChunk(v) ==> IsEmptyAt(s, v)
  {
    forall v | InChunk(v)
      ensures IsEmptyAt(s, v) <==> !Solid(pos, height, v)
    {
      ZeroBufferIsEmpty(s0, v, 0);
    }
    FilledRowsZero(pos, height, SIZE);
  }

  /**
   * The y loop as written has no `y < SIZE` guard: it targets one voxel per
   * world height below the terrain, however tall the column.
   */
  function ColumnTargetsAsWritten(pos: Vec3, height: Terrain, x: int, z: int): (r: seq<Vec3>)
    ensures |r| == if height(pos.x + x, pos.z + z) > pos.y then height(pos.x + x, pos.z + z) - pos.y else 0
    ensures forall y :: 0 <= y < |r| ==> r[y] == Vec3(x, y, z)
  {
    var n := height(pos.x + x, pos.z + z) - pos.y;
    seq(if n > 0 then n else 0, y => Vec3(x, y, z))
  }

  /**
   * A column one voxel taller than the chunk: the as-written loop writes
   * 17 voxels and counts 17, and its last target (0, 16, 0) packs to the
   * record of (1, 0, 0), a voxel of the next column, whatever that
   * column's own terrain height. The guarded loop fills 16.
   */
  lemma TallColumnSpillsIntoNextColumn(height: Terrain)
    requires height(0, 0) == 17
    ensures |ColumnTargetsAsWritten(Vec3(0, 0, 0), height, 0, 0)| == 17
    ensures ColumnTargetsAsWritten(Vec3(0, 0, 0), height, 0, 0)[16] == Vec3(0, 16, 0)
    ensures ToVoxelOffset(Vec3(0, 16, 0)) == ToVoxelOffset(Vec3(1, 0, 0))
    ensures ColumnFill(Vec3(0, 0, 0), height, 0, 0) == SIZE
  {
    VoxelOffsetAliasing();
  }

  class ChunkLoadStage {
    const base: BaseStage

    constructor (shared: SharedData)
      ensures fresh(base) && base.shared == shared && base.stage == StageTags.LOAD
      ensures !base.finished && !base.done
    {
      base := new BaseStage(StageTags.LOAD, shared);
    }

    /**
     * Fills column (x, z), whose world column is (wx, wz): type 1 from the
     * chunk's floor up to the terrain, stopping at the chunk's top, one
     * count per voxel written.
     */
    method LoadColumn(cur: VoxRef, height: Terrain, x: int, z: int, wx: int, wz: int, ghost s0: seq<bv8>)
      requires base.shared.buffer.Allocated() && cur.buffer == base.shared.buffer
      requires 0 <= x < 16 && 0 <= z < 16 && wx == base.shared.pos.x + x && wz == base.shared.pos.z + z
      requires LoadedUpTo(s0, base.shared.buffer.voxels[..], base.shared.pos, height, x * 16 + z, 0)
      modifies cur, base.shared, base.shared.buffer.voxels
      ensures cur.buffer == base.shared.buffer
      ensures LoadedUpTo(s0, base.shared.buffer.voxels[..], base.shared.pos, height, x * 16 + z + 1, 0)
      ensures base.shared.voxelCount == old(base.shared.voxelCount) + ColumnFill(base.shared.pos, height, x, z)
      ensures base.shared.outbox == old(base.shared.outbox) && base.shared.errors == old(base.shared.errors)
    {
      var shared := base.shared;
      var buffer := shared.buffer;
      var h := height(wx, wz);
      var wy := shared.pos.y;
      var y := 0;
      while y < SIZE && wy < h
        invariant 0 <= y <= SIZE && wy == shared.pos.y + y && cur.buffer == buffer
        invariant y <= ColumnFill(shared.pos, height, x, z)
        invariant LoadedUpTo(s0, buffer.voxels[..], shared.pos, height, x * 16 + z, y)
        invariant shared.voxelCount == old(shared.voxelCount) + y
        invariant shared.outbox == old(shared.outbox) && shared.errors == old(shared.errors)
      {
        WriteSolid(s0, buffer.voxels[..], shared.pos, height, x, y, z);
        cur.Target(x, y, z);
        cur.SetType(SOLID);
        shared.voxelCount := shared.voxelCount + 1;
        y := y + 1;
        wy := wy + 1;
      }
      EndColumn(s0, buffer.voxels[..], shared.pos, height, x, z, y);
    }

    /** Fills the sixteen columns of row x, z rising with the world z. */
    method LoadRow(cur: VoxRef, height: Terrain, x: int, wx: int, ghost s0: seq<bv8>)
      requires base.shared.buffer.Allocated() && cur.buffer == base.shared.buffer
      requires 0 <= x < 16 && wx == base.shared.pos.x + x
      requires LoadedUpTo(s0, base.shared.buffer.voxels[..], base.shared.pos, height, x * 16, 0)
      modifies cur, base.shared, base.shared.buffer.voxels
      ensures cur.buffer == base.shared.buffer
      ensures LoadedUpTo(s0, base.shared.buffer.voxels[..], base.shared.pos, height, x * 16 + 16, 0)
      ensures base.shared.voxelCount == old(base.shared.voxelCount) + RowFill(base.shared.pos, height, x, SIZE)
      ensures base.shared.outbox == old(base.shared.outbox) && base.shared.errors == old(base.shared.errors)
    {
      var shared := base.shared;
      var wz := shared.pos.z;
      var z := 0;
      while z < SIZE
        invariant 0 <= z <= SIZE && wz == shared.pos.z + z && cur.buffer == shared.buffer
        invariant LoadedUpTo(s0, shared.buffer.voxels[..], shared.pos, height, x * 16 + z, 0)
        invariant shared.voxelCount == old(shared.voxelCount) + RowFill(shared.pos, height, x, z)
        invariant shared.outbox == old(shared.outbox) && shared.errors == old(shared.errors)
      {
        LoadColumn(cur, height, x, z, wx, wz, s0);
        z := z + 1;
        wz := wz + 1;
      }
    }

    /**
     * Fills every column from the terrain, counts the voxels written and
     * finishes; nothing is posted.
     */
    method OnStart(height: Terrain)
      requires base.shared.buffer.Allocated()
      modifies base, base.shared, base.shared.buffer.voxels
      ensures Loaded(old(base.shared.buffer.voxels[..]), base.shared.buffer.voxels[..], base.shared.pos, height)
      ensures base.shared.voxelCount == old(base.shared.voxelCount) + FilledCount(base.shared.pos, height)
      ensures base.finished && base.done == old(base.done)
      ensures base.shared.outbox == old(base.shared.outbox)
      ensures base.shared.errors == old(base.shared.errors) + (if old(base.finished) then 1 else 0)
    {
      var shared := base.shared;
      var buffer := shared.buffer;
      ghost var s0 := buffer.voxels[..];
      var cur := new VoxRef.WithPos(buffer, Vec3(0, 0, 0));
      var wx := shared.pos.x;
      var x := 0;
      while x < SIZE
        invariant 0 <= x <= SIZE && wx == shared.pos.x + x && cur.buffer == buffer
        invariant LoadedUpTo(s0, buffer.voxels[..], shared.pos, height, x * 16, 0)
        invariant shared.voxelCount == old(shared.voxelCount) + FilledRows(shared.pos, height, x)
        invariant shared.outbox == old(shared.outbox) && shared.errors == old(shared.errors)
        invariant base.finished == old(base.finished) && base.done == old(base.done)
      {
        LoadRow(cur, height, x, wx, s0);
        x := x + 1;
        wx := wx + 1;
      }
      AllColumns(s0, buffer.voxels[..], shared.pos, height);
      base.Finish();
    }
  }
}
