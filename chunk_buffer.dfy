/**
 * The chunk's voxel storage: one flat byte array holding BYTE_NUM bytes per
 * voxel, with byte and big-endian short accessors. The file also holds the
 * older cursor class whose offsets are not scaled by the record size.
 */
module ChunkBuffers {
  import opened Wrappers
  import opened Voxel
  import opened Vec3Math
  import opened ChunkDims

  /**
   * The size the source declares: `(Chunk.SIZE ^ 3) * Voxel.BYTE_NUM`, where
   * C#'s `^` is exclusive-or, so this is (16 xor 3) * 9.
   */
  const BUFFER_SIZE_AS_WRITTEN: int := ((SIZE as bv32) ^ 3) as int * BYTE_NUM

  /** The size the buffer needs: one record per voxel of the 16^3 grid. */
  const BUFFER_SIZE: int := SIZE * SIZE * SIZE * BYTE_NUM

  /** The short stored big-endian at bytes i and i + 1. */
  function ReadShort(s: seq<bv8>, i: int): bv16
    requires 0 <= i && i + 1 < |s|
  {
    ((s[i] as bv16) << 8) | (s[i + 1] as bv16)
  }

  lemma ReadShortBytes(s: seq<bv8>, i: int, hi: bv8, lo: bv8)
    requires 0 <= i && i + 1 < |s| && s[i] == hi && s[i + 1] == lo
    ensures ReadShort(s, i) == ((hi as bv16) << 8) | (lo as bv16)
  {
  }

  /**
   * Stores v big-endian at bytes i and i + 1: ReadShort gives v back and no
   * other byte changes.
   */
  function WriteShort(s: seq<bv8>, i: int, v: bv16): (r: seq<bv8>)
    requires 0 <= i && i + 1 < |s|
    ensures |r| == |s|
    ensures ReadShort(r, i) == v
    ensures forall k :: 0 <= k < |s| && k != i && k != i + 1 ==> r[k] == s[k]
  {
    s[i := ((v >> 8) & 0xFF) as bv8][i + 1 := (v & 0xFF) as bv8]
  }

  /** Writing a short and writing it again leaves only the second. */
  lemma WriteShortOverwrites(s: seq<bv8>, i: int, v: bv16, w: bv16)
    requires 0 <= i && i + 1 < |s|
    ensures WriteShort(WriteShort(s, i, v), i, w) == WriteShort(s, i, w)
  {
  }

  /** Writing back the short that is already stored changes nothing. */
  lemma WriteShortOfReadShort(s: seq<bv8>, i: int)
    requires 0 <= i && i + 1 < |s|
    ensures WriteShort(s, i, ReadShort(s, i)) == s
  {
    var r := WriteShort(s, i, ReadShort(s, i));
    assert r[i] == s[i] && r[i + 1] == s[i + 1];
    assert forall k :: 0 <= k < |s| ==> r[k] == s[k];
  }

  /**
   * The declared size holds 171 bytes: the record of the 20th voxel, (0, 1, 3)
   * at offset 19, would start exactly at the end of the array.
   */
  lemma BufferSizeAsWritten()
    ensures BUFFER_SIZE_AS_WRITTEN == 171
    ensures ToVoxelOffset(Vec3(0, 1, 3)) * BYTE_NUM == BUFFER_SIZE_AS_WRITTEN
  {
  }

  /** With the intended size every record of the 16^3 grid fits in the buffer. */
  lemma EveryRecordFits(v: Vec3)
    requires 0 <= v.x < SIZE && 0 <= v.y < SIZE && 0 <= v.z < SIZE
    ensures 0 <= ToVoxelOffset(v) * BYTE_NUM
    ensures ToVoxelOffset(v) * BYTE_NUM + BYTE_NUM <= BUFFER_SIZE == 36864
  {
    var o := ToVoxelOffset(v);
    assert o == v.x * 256 + v.y * 16 + v.z;
    assert 0 <= o <= 4095;
    assert BYTE_NUM == 9;
  }

  class ChunkBuffer {
    var voxels: array?<bv8>

    /** Between allocate and free the array holds one record per voxel. */
    predicate Allocated()
      reads this
    {
      voxels != null && voxels.Length == BUFFER_SIZE
    }

    ghost function Bytes(): seq<bv8>
      reads this, voxels
      requires Allocated()
    {
      voxels[..]
    }

    constructor ()
      ensures voxels == null
    {
      voxels := null;
    }

    /** A fresh, zero-filled array: every voxel is empty and invisible. */
    method Allocate()
      modifies this
      ensures Allocated() && fresh(voxels)
      ensures forall i :: 0 <= i < BUFFER_SIZE ==> voxels[i] == 0
    {
      voxels := new bv8[BUFFER_SIZE](_ => 0);
    }

    /** Drops the array: every later access is an error. */
    method Free()
      modifies this
      ensures voxels == null
    {
      voxels := null;
    }

    method SetByte(voxelOffset: int, data: int, value: bv8)
      requires Allocated() && 0 <= voxelOffset + data < BUFFER_SIZE
      modifies voxels
      ensures voxels[..] == old(voxels[..])[voxelOffset + data := value]
    {
      voxels[voxelOffset + data] := value;
    }

    method GetByte(voxelOffset: int, data: int) returns (r: bv8)
      requires Allocated() && 0 <= voxelOffset + data < BUFFER_SIZE
      ensures r == voxels[voxelOffset + data]
    {
      r := voxels[voxelOffset + data];
    }

    method SetShort(voxelOffset: int, data: int, value: bv16)
      requires Allocated() && 0 <= voxelOffset + data && voxelOffset + data + 1 < BUFFER_SIZE
      modifies voxels
      ensures voxels[..] == WriteShort(old(voxels[..]), voxelOffset + data, value)
    {
      SetByte(voxelOffset, data, ((value >> 8) & 0xFF) as bv8);
      SetByte(voxelOffset, data + 1, (value & 0xFF) as bv8);
    }

    method GetShort(voxelOffset: int, data: int) returns (r: bv16)
      requires Allocated() && 0 <= voxelOffset + data && voxelOffset + data + 1 < BUFFER_SIZE
      ensures r == ReadShort(voxels[..], voxelOffset + data)
    {
      ghost var i := voxelOffset + data;
      var hi := GetByte(voxelOffset, data);
      var lo := GetByte(voxelOffset, data + 1);
      r := ((hi as bv16) << 8) | (lo as bv16);
      ReadShortBytes(voxels[..], i, hi, lo);
    }
  }

  /** The unscaled offset of the older cursor: one byte per voxel, not one record. */
  function LegacyOffset(v: Vec3): int
    requires 0 <= v.x < SIZE && 0 <= v.y < SIZE && 0 <= v.z < SIZE
  {
    ToVoxelOffset(v)
  }

  /**
   * Because the older cursor does not multiply by BYTE_NUM, the records of
   * (0, 0, 0) and (0, 0, 1) overlap: setting the type of (0, 0, 1) rewrites
   * the low type byte of (0, 0, 0).
   */
  lemma LegacyRecordsOverlap(s: seq<bv8>, t: bv16)
    requires |s| == BUFFER_SIZE
    requires ReadShort(s, LegacyOffset(Vec3(0, 0, 0)) + TYPE) == 0 && t == 0x0101
    ensures ReadShort(WriteShort(s, LegacyOffset(Vec3(0, 0, 1)) + TYPE, t), LegacyOffset(Vec3(0, 0, 0)) + TYPE) == 1
  {
    var r := WriteShort(s, 7, t);
    assert r[6] == s[6] && r[7] == 1;
    assert s[6] == 0 by {
      assert ReadShort(s, 6) == 0;
    }
  }

  /** The cursor of the older revision: offsets are voxel indices, not byte offsets. */
  class LegacyVoxRef {
    var buffer: ChunkBuffer
    var offset: int
    var pos: Option<Vec3>

    constructor WithPos(buffer: ChunkBuffer, pos: Vec3)
      ensures this.buffer == buffer && this.pos == Some(pos) && offset == 0
    {
      this.buffer := buffer;
      this.pos := Some(pos);
      offset := 0;
    }

    constructor (buffer: ChunkBuffer)
      ensures this.buffer == buffer && pos == None && offset == 0
    {
      this.buffer := buffer;
      pos := None;
      offset := 0;
    }

    method Bind(buffer: ChunkBuffer)
      modifies this
      ensures this.buffer == buffer && pos == old(pos) && offset == old(offset)
    {
      this.buffer := buffer;
    }

    method Target(x: int, y: int, z: int)
      requires 0 <= x < SIZE && 0 <= y < SIZE && 0 <= z < SIZE
      modifies this
      ensures pos == Some(Vec3(x, y, z)) && offset == LegacyOffset(Vec3(x, y, z))
      ensures buffer == old(buffer)
    {
      pos := Some(Vec3(x, y, z));
      UpdateOffset();
    }

    method UpdateOffset()
      requires pos.Some? && 0 <= pos.value.x < SIZE && 0 <= pos.value.y < SIZE && 0 <= pos.value.z < SIZE
      modifies this
      ensures pos == old(pos) && buffer == old(buffer) && offset == LegacyOffset(pos.value)
    {
      offset := ToVoxelOffset(pos.value);
    }

    function GetPos(): Option<Vec3>
      reads this
    {
      pos
    }

    /** Clears the BYTE_NUM bytes starting at the cursor's offset. */
    method ZeroFill()
      requires buffer.Allocated() && 0 <= offset && offset + BYTE_NUM <= BUFFER_SIZE
      modifies buffer.voxels
      ensures forall k :: 0 <= k < BUFFER_SIZE ==>
        buffer.voxels[k] == if offset <= k < offset + BYTE_NUM then 0 else old(buffer.voxels[k])
    {
      var i := 0;
      while i < BYTE_NUM
        invariant 0 <= i <= BYTE_NUM
        invariant forall k :: 0 <= k < BUFFER_SIZE ==>
          buffer.voxels[k] == if offset <= k < offset + i then 0 else old(buffer.voxels[k])
      {
        buffer.SetByte(offset, i, 0);
        i := i + 1;
      }
    }

    method SetType(t: bv16)
      requires buffer.Allocated() && 0 <= offset && offset + TYPE + 1 < BUFFER_SIZE
      modifies buffer.voxels
      ensures buffer.voxels[..] == WriteShort(old(buffer.voxels[..]), offset + TYPE, t)
    {
      buffer.SetShort(offset, TYPE, t);
    }

    method GetType() returns (t: bv16)
      requires buffer.Allocated() && 0 <= offset && offset + TYPE + 1 < BUFFER_SIZE
      ensures t == ReadShort(buffer.voxels[..], offset + TYPE)
    {
      t := buffer.GetShort(offset, TYPE);
    }
  }
}
