/**
 * Where a stage looks for a neighbour voxel that lies outside its chunk:
 * the chunk that owns it and its coordinate inside that chunk.
 */
module NeighbourAddress {
  import opened Vec3Math
  import opened ChunkDims
  import opened VoxRefs

  /**
   * The address as the stages write it: the chunk one step along `dir` and
   * the position reduced with C#'s truncating `% SIZE`.
   */
  function RequestAsWritten(chunkPos: Vec3, dir: Vec3, p: Vec3): (r: (Vec3, Vec3))
    ensures r.0 == Add(chunkPos, Scale(dir, SIZE))
    ensures forall c :: c in [r.1.x, r.1.y, r.1.z] ==> -SIZE < c < SIZE
  {
    (Add(chunkPos, Scale(dir, SIZE)), ModScalar(p, SIZE))
  }

  /** The chunk that owns local position p of the chunk at chunkPos: one step per axis that p leaves. */
  function NeighbourChunk(chunkPos: Vec3, p: Vec3): Vec3
  {
    Add(chunkPos, Scale(Vec3(p.x / 16, p.y / 16, p.z / 16), SIZE))
  }

  /** p's coordinate inside the chunk that owns it (Dafny's `%` never goes negative). */
  function NeighbourCoord(p: Vec3): (c: Vec3)
    ensures InChunk(c)
  {
    Vec3(p.x % 16, p.y % 16, p.z % 16)
  }

  /**
   * The corrected address is exact: the owning chunk's position plus the
   * coordinate is p's world position, the coordinate is inside that chunk,
   * and a position outside the chunk is owned by another chunk.
   */
  lemma AddressIsExact(chunkPos: Vec3, p: Vec3)
    ensures InChunk(NeighbourCoord(p))
    ensures Add(NeighbourChunk(chunkPos, p), NeighbourCoord(p)) == Add(chunkPos, p)
    ensures InChunk(p) <==> NeighbourChunk(chunkPos, p) == chunkPos
  {
    var q := Vec3(p.x / 16, p.y / 16, p.z / 16);
    assert p.x == 16 * q.x + p.x % 16 && p.y == 16 * q.y + p.y % 16 && p.z == 16 * q.z + p.z % 16;
    assert InChunk(p) <==> q == ZERO;
    assert NeighbourChunk(chunkPos, p) == chunkPos <==> Scale(q, SIZE) == ZERO;
  }

  /**
   * For a step along one of the six face directions the owning chunk is the
   * one the stages address, `chunkPos + dir * SIZE`, and for non-negative
   * positions the truncating remainder agrees with the corrected coordinate.
   */
  lemma FaceStepAgrees(chunkPos: Vec3, v: Vec3, side: int)
    requires InChunk(v) && 0 <= side < 6 && !InChunk(Add(v, ALL_DIRECTIONS[side]))
    ensures NeighbourChunk(chunkPos, Add(v, ALL_DIRECTIONS[side])) == RequestAsWritten(chunkPos, ALL_DIRECTIONS[side], Add(v, ALL_DIRECTIONS[side])).0
    ensures side in {0, 1, 4} ==> NeighbourCoord(Add(v, ALL_DIRECTIONS[side])) == RequestAsWritten(chunkPos, ALL_DIRECTIONS[side], Add(v, ALL_DIRECTIONS[side])).1
  {
    var p := Add(v, ALL_DIRECTIONS[side]);
    StepOf(p.x);
    StepOf(p.y);
    StepOf(p.z);
    if side in {0, 1, 4} {
      TruncModNonNegative(p.x, SIZE);
      TruncModNonNegative(p.y, SIZE);
      TruncModNonNegative(p.z, SIZE);
    }
  }

  /** One coordinate at most one step outside [0, SIZE): its chunk step and its wrapped value. */
  lemma StepOf(c: int)
    requires -1 <= c <= 16
    ensures c / 16 == (if c < 0 then -1 else if c == 16 then 1 else 0)
    ensures c % 16 == (if c < 0 then 15 else if c == 16 then 0 else c)
  {
  }

  /**
   * As written, a voxel on the LEFT border of the chunk at the origin asks
   * its left neighbour for coordinate (-1, 5, 3), which is outside every
   * chunk; the voxel it means is (15, 5, 3) of that neighbour.
   */
  lemma TruncatedCoordinateLeavesChunk()
    ensures RequestAsWritten(ZERO, LEFT, Vec3(-1, 5, 3)) == (Vec3(-16, 0, 0), Vec3(-1, 5, 3))
    ensures !InChunk(RequestAsWritten(ZERO, LEFT, Vec3(-1, 5, 3)).1)
    ensures NeighbourChunk(ZERO, Vec3(-1, 5, 3)) == Vec3(-16, 0, 0) && NeighbourCoord(Vec3(-1, 5, 3)) == Vec3(15, 5, 3)
  {
  }

  /**
   * As written, the lighting stage sends the sample of voxel (15, 5, 3)
   * along (1, 1, 0) to the chunk one step right and one step up, but the
   * sampled position (16, 6, 3) belongs to the chunk one step right.
   */
  lemma DiagonalRequestMissesOwner()
    ensures RequestAsWritten(ZERO, Vec3(1, 1, 0), Vec3(16, 6, 3)).0 == Vec3(16, 16, 0)
    ensures NeighbourChunk(ZERO, Vec3(16, 6, 3)) == Vec3(16, 0, 0)
    ensures NeighbourCoord(Vec3(16, 6, 3)) == Vec3(0, 6, 3)
  {
  }
}
