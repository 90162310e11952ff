/**
 * A cursor on one voxel record of a chunk buffer, and the views of a record
 * (type, side visibility, light) over the buffer's bytes.
 */
module VoxRefs {
  import opened Wrappers
  import opened Voxel
  import opened Vec3Math
  import opened ChunkDims
  import opened ChunkBuffers

  /** A position inside the chunk's 16^3 grid. */
  predicate InChunk(v: Vec3) {
    0 <= v.x < SIZE && 0 <= v.y < SIZE && 0 <= v.z < SIZE
  }

  /** The voxel offset of a position in the grid, which ToVoxelOffset packs with shifts and ors. */
  function VoxelIndex(v: Vec3): (o: int)
    requires InChunk(v)
    ensures 0 <= o < SIZE * SIZE * SIZE
  {
    v.x * 256 + v.y * 16 + v.z
  }

  lemma VoxelIndexIsOffset(v: Vec3)
    requires InChunk(v)
    ensures VoxelIndex(v) == ToVoxelOffset(v)
  {
  }

  lemma VoxelIndexInjective(a: Vec3, b: Vec3)
    requires InChunk(a) && InChunk(b)
    ensures VoxelIndex(a) == VoxelIndex(b) <==> a == b
  {
    VoxelIndexIsOffset(a);
    VoxelIndexIsOffset(b);
    VoxelOffsetInjective(a, b);
  }

  /**
   * The first byte of a voxel's record: records are laid out in offset
   * order, BYTE_NUM (9, see RecordLayout) bytes each.
   */
  function RecordOffset(v: Vec3): (o: int)
    requires InChunk(v)
    ensures 0 <= o && o + BYTE_NUM <= BUFFER_SIZE
  {
    VoxelIndex(v) * 9
  }

  /** Scaling by BYTE_NUM is scaling by 9. */
  lemma ScaleByRecord(t: int)
    ensures t * BYTE_NUM == t * 9
  {
  }

  lemma RecordBound(t: int)
    requires 0 <= t < SIZE * SIZE * SIZE
    ensures 0 <= t * BYTE_NUM && t * BYTE_NUM + BYTE_NUM <= BUFFER_SIZE
  {
    ScaleByRecord(t);
  }

  /** The voxel that owns byte k of the buffer. */
  function OwnerOf(k: int): (v: Vec3)
    requires 0 <= k < BUFFER_SIZE
    ensures InChunk(v)
  {
    FromVoxelOffset(k / 9)
  }

  /** The voxel with a given offset: the scan order x, then y, then z is the offset order. */
  function VoxelAt(o: int): (v: Vec3)
    requires 0 <= o < SIZE * SIZE * SIZE
    ensures InChunk(v) && VoxelIndex(v) == o
  {
    UnpackDigits(o);
    Vec3(o / 256, (o / 16) % 16, o % 16)
  }

  // ---- record views ----

  function TypeAt(s: seq<bv8>, v: Vec3): bv16
    requires |s| == BUFFER_SIZE && InChunk(v)
  {
    ReadShort(s, RecordOffset(v) + TYPE)
  }

  predicate IsEmptyAt(s: seq<bv8>, v: Vec3)
    requires |s| == BUFFER_SIZE && InChunk(v)
  {
    TypeAt(s, v) == VT_EMPTY
  }

  predicate IsVisibleAt(s: seq<bv8>, v: Vec3, side: Side)
    requires |s| == BUFFER_SIZE && InChunk(v)
  {
    s[RecordOffset(v) + side] & MASK_VISIBLE != 0
  }

  function LightAt(s: seq<bv8>, v: Vec3): bv8
    requires |s| == BUFFER_SIZE && InChunk(v)
  {
    s[RecordOffset(v) + LIGHT]
  }

  function SunLightAt(s: seq<bv8>, v: Vec3): bv8
    requires |s| == BUFFER_SIZE && InChunk(v)
  {
    (LightAt(s, v) & LIGHT_SUN) >> LIGHT_SUN_SHIFT
  }

  /** A side byte with its visibility bit set or cleared and its other bits kept. */
  function VisibleByte(b: bv8, visible: bool): (r: bv8)
    ensures (r & MASK_VISIBLE != 0) == visible
    ensures r & !MASK_VISIBLE == b & !MASK_VISIBLE
  {
    if visible then b | MASK_VISIBLE else b & !MASK_VISIBLE
  }

  /** A light byte with its sun nibble replaced and its normal nibble kept. */
  function SunLightByte(b: bv8, value: bv8): (r: bv8)
    ensures (r & LIGHT_SUN) >> LIGHT_SUN_SHIFT == value & LIGHT_NORMAL
    ensures r & LIGHT_NORMAL == b & LIGHT_NORMAL
  {
    (b & LIGHT_NORMAL) | ((value << LIGHT_SUN_SHIFT) & LIGHT_SUN)
  }

  // ---- the record layout ----

  /** Byte f of v's record is owned by v and sits at field f. */
  lemma RecordByte(v: Vec3, f: int)
    requires InChunk(v) && 0 <= f < BYTE_NUM
    ensures 0 <= RecordOffset(v) + f < BUFFER_SIZE
    ensures OwnerOf(RecordOffset(v) + f) == v
    ensures (RecordOffset(v) + f) % BYTE_NUM == f
  {
    var o := VoxelIndex(v);
    assert (o * 9 + f) / 9 == o && (o * 9 + f) % 9 == f;
    PackDigits(v.x, v.y, v.z);
    assert FromVoxelOffset(o) == v;
  }

  /** Every byte of the buffer is field k % 9 of its owner's record. */
  lemma ByteOwner(k: int)
    requires 0 <= k < BUFFER_SIZE
    ensures RecordOffset(OwnerOf(k)) + k % BYTE_NUM == k
  {
    var o := k / 9;
    var v := OwnerOf(k);
    assert v == Vec3(o / 256, (o / 16) % 16, o % 16);
    UnpackDigits(o);
    assert VoxelIndex(v) == o;
    assert RecordOffset(v) == o * 9;
    assert o * 9 + k % 9 == k;
  }

  /** Records of distinct voxels are disjoint; inside a record, fields are distinct bytes. */
  lemma RecordsDisjoint(a: Vec3, fa: int, b: Vec3, fb: int)
    requires InChunk(a) && InChunk(b) && 0 <= fa < BYTE_NUM && 0 <= fb < BYTE_NUM
    ensures RecordOffset(a) + fa == RecordOffset(b) + fb <==> a == b && fa == fb
  {
    RecordByte(a, fa);
    RecordByte(b, fb);
    if RecordOffset(a) + fa == RecordOffset(b) + fb {
      assert a == OwnerOf(RecordOffset(a) + fa) == b;
    }
  }

  // ---- record updates ----

  /** Sets v's type: v reads back t; every other voxel's type and every side and light byte are kept. */
  function WithType(s: seq<bv8>, v: Vec3, t: bv16): (r: seq<bv8>)
    requires |s| == BUFFER_SIZE && InChunk(v)
    ensures |r| == BUFFER_SIZE && TypeAt(r, v) == t
    ensures forall k :: 0 <= k < BUFFER_SIZE && k != RecordOffset(v) + TYPE && k != RecordOffset(v) + TYPE + 1 ==> r[k] == s[k]
  {
    WriteShort(s, RecordOffset(v) + TYPE, t)
  }

  /** Sets or clears v's visibility bit for one side; no other byte changes. */
  function WithVisible(s: seq<bv8>, v: Vec3, side: Side, visible: bool): (r: seq<bv8>)
    requires |s| == BUFFER_SIZE && InChunk(v)
    ensures |r| == BUFFER_SIZE && IsVisibleAt(r, v, side) == visible
    ensures forall k :: 0 <= k < BUFFER_SIZE && k != RecordOffset(v) + side ==> r[k] == s[k]
  {
    var k := RecordOffset(v) + side;
    s[k := VisibleByte(s[k], visible)]
  }

  /** Sets v's sunlight nibble; its normal light and every other byte are kept. */
  function WithSunLight(s: seq<bv8>, v: Vec3, value: bv8): (r: seq<bv8>)
    requires |s| == BUFFER_SIZE && InChunk(v)
    ensures |r| == BUFFER_SIZE && SunLightAt(r, v) == value & LIGHT_NORMAL
    ensures LightAt(r, v) & LIGHT_NORMAL == LightAt(s, v) & LIGHT_NORMAL
    ensures forall k :: 0 <= k < BUFFER_SIZE && k != RecordOffset(v) + LIGHT ==> r[k] == s[k]
  {
    var k := RecordOffset(v) + LIGHT;
    s[k := SunLightByte(s[k], value)]
  }

  /**
   * Writing one side byte changes no voxel's type or light and no other
   * (voxel, side) visibility.
   */
  lemma WithVisibleFrame(s: seq<bv8>, v: Vec3, side: Side, visible: bool, q: Vec3, side': Side)
    requires |s| == BUFFER_SIZE && InChunk(v) && InChunk(q)
    ensures TypeAt(WithVisible(s, v, side, visible), q) == TypeAt(s, q)
    ensures LightAt(WithVisible(s, v, side, visible), q) == LightAt(s, q)
    ensures (q, side') != (v, side) ==> IsVisibleAt(WithVisible(s, v, side, visible), q, side') == IsVisibleAt(s, q, side')
  {
    RecordsDisjoint(v, side, q, TYPE);
    RecordsDisjoint(v, side, q, TYPE + 1);
    RecordsDisjoint(v, side, q, LIGHT);
    RecordsDisjoint(v, side, q, side');
  }

  /** Writing the sun nibble changes no type and no visibility bit, and no other voxel's light. */
  lemma WithSunLightFrame(s: seq<bv8>, v: Vec3, value: bv8, q: Vec3, side: Side)
    requires |s| == BUFFER_SIZE && InChunk(v) && InChunk(q)
    ensures TypeAt(WithSunLight(s, v, value), q) == TypeAt(s, q)
    ensures IsVisibleAt(WithSunLight(s, v, value), q, side) == IsVisibleAt(s, q, side)
    ensures q != v ==> LightAt(WithSunLight(s, v, value), q) == LightAt(s, q)
  {
    RecordsDisjoint(v, LIGHT, q, TYPE);
    RecordsDisjoint(v, LIGHT, q, TYPE + 1);
    RecordsDisjoint(v, LIGHT, q, LIGHT);
    RecordsDisjoint(v, LIGHT, q, side);
  }

  /** Writing a type changes no other voxel's type and no side or light byte. */
  lemma WithTypeFrame(s: seq<bv8>, v: Vec3, t: bv16, q: Vec3, side: Side)
    requires |s| == BUFFER_SIZE && InChunk(v) && InChunk(q)
    ensures q != v ==> TypeAt(WithType(s, v, t), q) == TypeAt(s, q)
    ensures IsVisibleAt(WithType(s, v, t), q, side) == IsVisibleAt(s, q, side)
    ensures LightAt(WithType(s, v, t), q) == LightAt(s, q)
  {
    RecordsDisjoint(v, TYPE, q, TYPE);
    RecordsDisjoint(v, TYPE, q, TYPE + 1);
    RecordsDisjoint(v, TYPE + 1, q, TYPE);
    RecordsDisjoint(v, TYPE + 1, q, TYPE + 1);
    RecordsDisjoint(v, TYPE, q, LIGHT);
    RecordsDisjoint(v, TYPE + 1, q, LIGHT);
    RecordsDisjoint(v, TYPE, q, side);
    RecordsDisjoint(v, TYPE + 1, q, side);
  }

  /** A zero-filled buffer holds only empty, invisible, unlit voxels. */
  lemma ZeroBufferIsEmpty(s: seq<bv8>, v: Vec3, side: Side)
    requires |s| == BUFFER_SIZE && InChunk(v)
    requires forall k :: 0 <= k < BUFFER_SIZE ==> s[k] == 0
    ensures IsEmptyAt(s, v) && !IsVisibleAt(s, v, side) && LightAt(s, v) == 0
  {
    RecordByte(v, TYPE + 1);
  }

  // ---- the unit cube around a voxel ----

  function V0At(x: int, y: int, z: int): seq<int> { [x, y, z + 1] }
  function V1At(x: int, y: int, z: int): seq<int> { [x + 1, y, z + 1] }
  function V2At(x: int, y: int, z: int): seq<int> { [x + 1, y + 1, z + 1] }
  function V3At(x: int, y: int, z: int): seq<int> { [x, y + 1, z + 1] }
  function V4At(x: int, y: int, z: int): seq<int> { [x, y, z] }
  function V5At(x: int, y: int, z: int): seq<int> { [x + 1, y, z] }
  function V6At(x: int, y: int, z: int): seq<int> { [x + 1, y + 1, z] }
  function V7At(x: int, y: int, z: int): seq<int> { [x, y + 1, z] }

  /** The corners V0..V7 in order. */
  function Corners(x: int, y: int, z: int): seq<seq<int>> {
    [V0At(x, y, z), V1At(x, y, z), V2At(x, y, z), V3At(x, y, z),
     V4At(x, y, z), V5At(x, y, z), V6At(x, y, z), V7At(x, y, z)]
  }

  /**
   * V0..V7 are the eight distinct corners of the unit cube whose lowest corner
   * is the voxel position: V0..V3 lie on the face z + 1 (FRONT), V4..V7 on the
   * face z, and Vk + 4 is Vk moved back by one along z.
   */
  lemma CubeCorners(x: int, y: int, z: int)
    ensures |Corners(x, y, z)| == 8
    ensures forall i, j :: 0 <= i < j < 8 ==> Corners(x, y, z)[i] != Corners(x, y, z)[j]
    ensures forall k :: 0 <= k < 8 ==>
      (|Corners(x, y, z)[k]| == 3 &&
       Corners(x, y, z)[k][0] - x in {0, 1} && Corners(x, y, z)[k][1] - y in {0, 1} && Corners(x, y, z)[k][2] - z in {0, 1})
    ensures forall k :: 0 <= k < 4 ==> Corners(x, y, z)[k][2] == z + 1 && Corners(x, y, z)[k + 4] == Corners(x, y, z)[k][2 := z]
  {
  }

  /** What a neighbouring chunk answers about one of its voxels. */
  datatype VoxSnap = VoxSnap(voxelType: bv16, light: bv8)
  {
    predicate IsEmpty() { voxelType == VT_EMPTY }
  }

  class VoxRef {
    var buffer: ChunkBuffer
    var offset: int
    var pos: Option<Vec3>

    /** The cursor is on pos and its offset is pos's record. */
    predicate Targeted()
      reads this
    {
      pos.Some? && InChunk(pos.value) && offset == RecordOffset(pos.value)
    }

    /**
     * As written, this constructor stores the position but leaves the offset
     * at 0, so until the next Target the cursor reads and writes the record
     * of (0, 0, 0).
     */
    constructor WithPos(buffer: ChunkBuffer, pos: Vec3)
      ensures this.buffer == buffer && this.pos == Some(pos) && offset == 0
    {
      this.buffer := buffer;
      this.pos := Some(pos);
      offset := 0;
    }

    /** The corrected constructor: the offset follows the stored position. */
    constructor At(buffer: ChunkBuffer, pos: Vec3)
      requires InChunk(pos)
      ensures this.buffer == buffer && Targeted() && this.pos == Some(pos)
    {
      this.buffer := buffer;
      this.pos := Some(pos);
      offset := RecordOffset(pos);
    }

    constructor (buffer: ChunkBuffer)
      ensures this.buffer == buffer && pos == None && offset == 0
    {
      this.buffer := buffer;
      pos := None;
      offset := 0;
    }

    method Bind(buffer: ChunkBuffer)
      modifies this
      ensures this.buffer == buffer && pos == old(pos) && offset == old(offset)
    {
      this.buffer := buffer;
    }

    /**
     * Moves the cursor. Coordinates are non-negative; y may exceed the chunk
     * (up to 255), in which case the packed offset aliases another record.
     */
    method Target(x: int, y: int, z: int)
      requires 0 <= x < SIZE && 0 <= y < 256 && 0 <= z < SIZE
      modifies this
      ensures pos == Some(Vec3(x, y, z)) && offset == ToVoxelOffset(Vec3(x, y, z)) * BYTE_NUM
      ensures buffer == old(buffer)
      ensures InChunk(Vec3(x, y, z)) ==> Targeted()
    {
      pos := Some(Vec3(x, y, z));
      UpdateOffset();
    }

    /**
     * Moves the cursor to (x, y, z) when it lies in the chunk and reports
     * whether it does; the position is recorded either way.
     */
    method TryTarget(x: int, y: int, z: int) returns (ok: bool)
      modifies this
      ensures ok <==> InChunk(Vec3(x, y, z))
      ensures pos == Some(Vec3(x, y, z)) && buffer == old(buffer)
      ensures ok ==> Targeted()
      ensures !ok ==> offset == old(offset)
    {
      pos := Some(Vec3(x, y, z));
      ok := InChunk(Vec3(x, y, z));
      if ok {
        UpdateOffset();
      }
    }

    method UpdateOffset()
      requires pos.Some? && 0 <= pos.value.x < SIZE && 0 <= pos.value.y < 256 && 0 <= pos.value.z < SIZE
      modifies this
      ensures pos == old(pos) && buffer == old(buffer)
      ensures offset == ToVoxelOffset(pos.value) * BYTE_NUM
      ensures 0 <= offset && offset + BYTE_NUM <= BUFFER_SIZE
      ensures InChunk(pos.value) ==> Targeted()
    {
      var o := ToVoxelOffset(pos.value);
      RecordBound(o);
      ScaleByRecord(o);
      offset := o * BYTE_NUM;
      if InChunk(pos.value) {
        VoxelIndexIsOffset(pos.value);
      }
    }

    function GetPos(): Option<Vec3>
      reads this
    {
      pos
    }

    /** Clears every byte of the targeted record and nothing else. */
    method ZeroFill()
      requires buffer.Allocated() && 0 <= offset && offset + BYTE_NUM <= BUFFER_SIZE
      modifies buffer.voxels
      ensures forall k :: 0 <= k < BUFFER_SIZE ==>
        buffer.voxels[k] == if offset <= k < offset + BYTE_NUM then 0 else old(buffer.voxels[k])
    {
      var i := 0;
      while i < BYTE_NUM
        invariant 0 <= i <= BYTE_NUM
        invariant forall k :: 0 <= k < BUFFER_SIZE ==>
          buffer.voxels[k] == if offset <= k < offset + i then 0 else old(buffer.voxels[k])
      {
        buffer.SetByte(offset, i, 0);
        i := i + 1;
      }
    }

    /** The `type` getter: the short at the record's TYPE field. */
    method GetType() returns (t: bv16)
      requires buffer.Allocated() && 0 <= offset && offset + BYTE_NUM <= BUFFER_SIZE
      ensures t == ReadShort(buffer.voxels[..], offset + TYPE)
      ensures Targeted() ==> t == TypeAt(buffer.voxels[..], pos.value)
    {
      t := buffer.GetShort(offset, TYPE);
    }

    /** The `type` setter. */
    method SetType(t: bv16)
      requires buffer.Allocated() && 0 <= offset && offset + BYTE_NUM <= BUFFER_SIZE
      modifies buffer.voxels
      ensures buffer.voxels[..] == WriteShort(old(buffer.voxels[..]), offset + TYPE, t)
      ensures Targeted() ==> buffer.voxels[..] == WithType(old(buffer.voxels[..]), pos.value, t)
    {
      buffer.SetShort(offset, TYPE, t);
    }

    method IsEmpty() returns (empty: bool)
      requires buffer.Allocated() && Targeted()
      ensures empty <==> IsEmptyAt(buffer.voxels[..], pos.value)
    {
      var t := GetType();
      empty := t == VT_EMPTY;
    }

    method IsVisible(side: Side) returns (visible: bool)
      requires buffer.Allocated() && Targeted()
      ensures visible <==> IsVisibleAt(buffer.voxels[..], pos.value, side)
    {
      assert offset + side == RecordOffset(pos.value) + side < BUFFER_SIZE;
      var b := buffer.GetByte(offset, side);
      visible := b & MASK_VISIBLE != 0;
    }

    method SetVisible(side: Side, visible: bool)
      requires buffer.Allocated() && Targeted()
      modifies buffer.voxels
      ensures buffer.voxels[..] == WithVisible(old(buffer.voxels[..]), pos.value, side, visible)
    {
      ghost var s := buffer.voxels[..];
      ghost var k := RecordOffset(pos.value) + side;
      assert offset + side == k < BUFFER_SIZE;
      var b := buffer.GetByte(offset, side);
      buffer.SetByte(offset, side, VisibleByte(b, visible));
      assert buffer.voxels[..] == s[k := VisibleByte(s[k], visible)];
    }

    /** The `light` getter: the record's light byte. */
    method GetLight() returns (light: bv8)
      requires buffer.Allocated() && Targeted()
      ensures light == LightAt(buffer.voxels[..], pos.value)
    {
      light := buffer.GetByte(offset, LIGHT);
    }

    /** The `sunLight` setter: the high nibble of the light byte. */
    method SetSunLight(value: bv8)
      requires buffer.Allocated() && Targeted()
      modifies buffer.voxels
      ensures buffer.voxels[..] == WithSunLight(old(buffer.voxels[..]), pos.value, value)
    {
      ghost var s := buffer.voxels[..];
      ghost var k := RecordOffset(pos.value) + LIGHT;
      assert offset + LIGHT == k < BUFFER_SIZE;
      var b := buffer.GetByte(offset, LIGHT);
      buffer.SetByte(offset, LIGHT, SunLightByte(b, value));
      assert buffer.voxels[..] == s[k := SunLightByte(s[k], value)];
    }

    /** The voxel's type and light, as answered to a neighbouring chunk. */
    method Snapshot() returns (snap: VoxSnap)
      requires buffer.Allocated() && Targeted()
      ensures snap == VoxSnap(TypeAt(buffer.voxels[..], pos.value), LightAt(buffer.voxels[..], pos.value))
    {
      var t := GetType();
      var l := GetLight();
      snap := VoxSnap(t, l);
    }

    /** The position next to the cursor across the given side. */
    function SideNeighbor(side: Side): Vec3
      reads this
      requires pos.Some?
    {
      Add(pos.value, ALL_DIRECTIONS[side])
    }

    function V0(): seq<int> reads this requires pos.Some? { V0At(pos.value.x, pos.value.y, pos.value.z) }
    function V1(): seq<int> reads this requires pos.Some? { V1At(pos.value.x, pos.value.y, pos.value.z) }
    function V2(): seq<int> reads this requires pos.Some? { V2At(pos.value.x, pos.value.y, pos.value.z) }
    function V3(): seq<int> reads this requires pos.Some? { V3At(pos.value.x, pos.value.y, pos.value.z) }
    function V4(): seq<int> reads this requires pos.Some? { V4At(pos.value.x, pos.value.y, pos.value.z) }
    function V5(): seq<int> reads this requires pos.Some? { V5At(pos.value.x, pos.value.y, pos.value.z) }
    function V6(): seq<int> reads this requires pos.Some? { V6At(pos.value.x, pos.value.y, pos.value.z) }
    function V7(): seq<int> reads this requires pos.Some? { V7At(pos.value.x, pos.value.y, pos.value.z) }
  }

  /**
   * The record a cursor built with WithPos reads is the one of its position
   * only when that position is the origin: a cursor built at (2, 3, 4) reads
   * the record of (0, 0, 0).
   */
  lemma WithPosOffsetOnlyFitsOrigin(v: Vec3)
    requires InChunk(v)
    ensures RecordOffset(v) == 0 <==> v == ZERO
  {
    assert RecordOffset(v) == VoxelIndex(v) * 9;
    assert VoxelIndex(v) == v.x * 256 + v.y * 16 + v.z;
  }

  /** Setting a type and reading it back through any cursor on the same voxel gives it back. */
  lemma TypeRoundTrip(s: seq<bv8>, v: Vec3, t: bv16, side: Side)
    requires |s| == BUFFER_SIZE && InChunk(v)
    ensures TypeAt(WithType(s, v, t), v) == t
    ensures WithType(WithType(s, v, t), v, TypeAt(s, v)) == s
  {
    WriteShortOverwrites(s, RecordOffset(v) + TYPE, t, TypeAt(s, v));
    WriteShortOfReadShort(s, RecordOffset(v) + TYPE);
  }
}
