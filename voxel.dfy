/**
 * The layout of one voxel record and the masks used on its bytes.
 * A record is BYTE_NUM bytes: one byte per side (bit 0 = the face is
 * visible), a big-endian 16-bit type at TYPE, and one light byte at LIGHT
 * whose low nibble is the normal light and whose high nibble is sunlight.
 */
module Voxel {
  // Side indices: the order of ALL_SIDES and of every per-side table.
  const FRONT: int := 0
  const RIGHT: int := 1
  const BACK: int := 2
  const LEFT: int := 3
  const TOP: int := 4
  const DOWN: int := 5

  type Side = s: int | 0 <= s < 6

  // Byte positions inside one record.
  const TYPE: int := 6
  const LIGHT: int := 8
  const LAST_BYTE: int := LIGHT
  const ALL_SIDES: seq<Side> := [FRONT, RIGHT, BACK, LEFT, TOP, DOWN]
  const BYTE_NUM: int := LAST_BYTE + 1

  // Masks and values.
  const MASK_VISIBLE: bv8 := 0x01
  const MASK_LIGHT: bv8 := 0x1E
  const VT_EMPTY: bv16 := 0
  const LIGHT_NORMAL: bv8 := 0xF
  const LIGHT_SUN: bv8 := 0xF0
  const LIGHT_SUN_SHIFT: int := 4
  const SUNLIGHT_MAX_VALUE: bv8 := 15

  /** ALL_SIDES lists every side exactly once, in index order. */
  lemma AllSidesEnumeratesSides()
    ensures |ALL_SIDES| == 6
    ensures forall i :: 0 <= i < 6 ==> ALL_SIDES[i] == i
    ensures forall s: Side :: multiset(ALL_SIDES)[s] == 1
  {
  }

  /**
   * The record is exactly large enough: BYTE_NUM bytes, the six side bytes,
   * the two type bytes and the light byte are disjoint and cover it.
   */
  lemma RecordLayout()
    ensures BYTE_NUM == 9 && BYTE_NUM > LAST_BYTE
    ensures forall i :: 0 <= i < |ALL_SIDES| ==> ALL_SIDES[i] < TYPE
    ensures TYPE + 1 < LIGHT && LIGHT == BYTE_NUM - 1
  {
  }

  /**
   * The visibility bit and the light bits of a side byte do not overlap, the
   * normal and sun nibbles partition the light byte, and the sun nibble is the
   * normal nibble moved up by LIGHT_SUN_SHIFT.
   */
  lemma MasksPartition()
    ensures MASK_VISIBLE & MASK_LIGHT == 0
    ensures LIGHT_NORMAL & LIGHT_SUN == 0 && LIGHT_NORMAL | LIGHT_SUN == 0xFF
    ensures LIGHT_NORMAL << LIGHT_SUN_SHIFT == LIGHT_SUN
    ensures SUNLIGHT_MAX_VALUE == LIGHT_NORMAL
    ensures (SUNLIGHT_MAX_VALUE << LIGHT_SUN_SHIFT) & LIGHT_NORMAL == 0
  {
  }
}
