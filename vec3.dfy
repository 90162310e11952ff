/**
 * Integer 3-vectors: voxel coordinates inside a chunk, chunk positions in the
 * world and direction offsets. Every operation returns a new value.
 */
module Vec3Math {
  import opened Wrappers

  datatype Vec3 = Vec3(x: int, y: int, z: int)

  const RIGHT: Vec3 := Vec3(1, 0, 0)
  const LEFT: Vec3 := Vec3(-1, 0, 0)
  const UP: Vec3 := Vec3(0, 1, 0)
  const BOTTOM: Vec3 := Vec3(0, -1, 0)
  const FORWARD: Vec3 := Vec3(0, 0, 1)
  const BACKWARD: Vec3 := Vec3(0, 0, -1)
  const ZERO: Vec3 := Vec3(0, 0, 0)

  /** The six face directions, indexed by side (FRONT, RIGHT, BACK, LEFT, TOP, DOWN). */
  const ALL_DIRECTIONS: seq<Vec3> := [FORWARD, RIGHT, BACKWARD, LEFT, UP, BOTTOM]

  /** The unit directions by side, as the visibility stage indexes them. */
  const ALL_UNIT_DIRS: seq<Vec3> := ALL_DIRECTIONS

  /**
   * The 26 neighbour offsets, in the order of the index diagram of the
   * lighting stage: layer y = 1, then y = 0, then y = -1; inside a layer
   * x runs 1, 0, -1 and, for each x, z runs 1, 0, -1; the centre is skipped.
   */
  const ALL_DIRS: seq<Vec3> := [
    Vec3(1, 1, 1), Vec3(1, 1, 0), Vec3(1, 1, -1),
    Vec3(0, 1, 1), Vec3(0, 1, 0), Vec3(0, 1, -1),
    Vec3(-1, 1, 1), Vec3(-1, 1, 0), Vec3(-1, 1, -1),
    Vec3(1, 0, 1), Vec3(1, 0, 0), Vec3(1, 0, -1),
    Vec3(0, 0, 1), Vec3(0, 0, -1),
    Vec3(-1, 0, 1), Vec3(-1, 0, 0), Vec3(-1, 0, -1),
    Vec3(1, -1, 1), Vec3(1, -1, 0), Vec3(1, -1, -1),
    Vec3(0, -1, 1), Vec3(0, -1, 0), Vec3(0, -1, -1),
    Vec3(-1, -1, 1), Vec3(-1, -1, 0), Vec3(-1, -1, -1)
  ]

  function Abs(n: int): nat { if n < 0 then -n else n }

  /** A direction of length one along a single axis. */
  predicate IsUnit(v: Vec3) { Abs(v.x) + Abs(v.y) + Abs(v.z) == 1 }

  /** An offset to one of the 26 voxels around a voxel. */
  predicate IsNeighbourOffset(v: Vec3) {
    -1 <= v.x <= 1 && -1 <= v.y <= 1 && -1 <= v.z <= 1 && v != ZERO
  }

  // ---- operators ----

  function Add(a: Vec3, b: Vec3): Vec3 { Vec3(a.x + b.x, a.y + b.y, a.z + b.z) }
  function Sub(a: Vec3, b: Vec3): Vec3 { Vec3(a.x - b.x, a.y - b.y, a.z - b.z) }
  function Mul(a: Vec3, b: Vec3): Vec3 { Vec3(a.x * b.x, a.y * b.y, a.z * b.z) }
  function Scale(a: Vec3, k: int): Vec3 { Vec3(a.x * k, a.y * k, a.z * k) }

  /** Integer division as C# performs it: the quotient is rounded toward zero. */
  function TruncDiv(a: int, b: int): (q: int)
    requires b != 0
    ensures Abs(q) == Abs(a) / Abs(b)
    ensures q != 0 ==> ((q < 0) <==> ((a < 0) != (b < 0)))
  {
    var n, d := Abs(a), Abs(b);
    DivNonNegative(n, d);
    var q := n / d;
    if (a < 0) == (b < 0) then q else -q
  }

  lemma DivNonNegative(n: int, d: int)
    requires n >= 0 && d > 0
    ensures n / d >= 0
  {
  }

  /**
   * The C# remainder: it has the sign of the dividend, so that it completes
   * TruncDiv to the dividend and is smaller than the divisor in magnitude.
   */
  function TruncMod(a: int, b: int): (r: int)
    requires b != 0
    ensures a == TruncDiv(a, b) * b + r
    ensures Abs(r) < Abs(b)
    ensures a >= 0 ==> r >= 0
    ensures a <= 0 ==> r <= 0
  {
    a - TruncDiv(a, b) * b
  }

  function Div(a: Vec3, b: Vec3): Vec3
    requires b.x != 0 && b.y != 0 && b.z != 0
  {
    Vec3(TruncDiv(a.x, b.x), TruncDiv(a.y, b.y), TruncDiv(a.z, b.z))
  }

  function Mod(a: Vec3, b: Vec3): Vec3
    requires b.x != 0 && b.y != 0 && b.z != 0
  {
    Vec3(TruncMod(a.x, b.x), TruncMod(a.y, b.y), TruncMod(a.z, b.z))
  }

  function ModScalar(a: Vec3, k: int): Vec3
    requires k != 0
  {
    Vec3(TruncMod(a.x, k), TruncMod(a.y, k), TruncMod(a.z, k))
  }

  /** The componentwise `==` operator: it is exactly value equality. */
  function Eq(a: Vec3, b: Vec3): (r: bool)
    ensures r <==> a == b
  {
    a.x == b.x && a.y == b.y && a.z == b.z
  }

  function NotEq(a: Vec3, b: Vec3): (r: bool)
    ensures r <==> a != b
  {
    !Eq(a, b)
  }

  /** `Equals(object)`: false for null, otherwise componentwise equality. */
  function Equals(a: Vec3, obj: Option<Vec3>): (r: bool)
    ensures r <==> obj == Some(a)
  {
    obj.Some? && Eq(a, obj.value)
  }

  function Clone(a: Vec3): (r: Vec3)
    ensures Eq(r, a)
  {
    Vec3(a.x, a.y, a.z)
  }

  // ---- the packed voxel offset ----

  /** Bitwise OR of two non-negative integers. */
  function BitOr(a: nat, b: nat): nat
    decreases a + b
  {
    if a == 0 then b
    else if b == 0 then a
    else 2 * BitOr(a / 2, b / 2) + (if a % 2 == 1 || b % 2 == 1 then 1 else 0)
  }

  function Pow2(k: nat): nat { if k == 0 then 1 else 2 * Pow2(k - 1) }

  /**
   * `(x << 8) | (y << 4) | z`, for non-negative coordinates below 2^23, where
   * the 32-bit shifts cannot overflow. Inside the 16^3 grid it is the
   * row-major index x * 256 + y * 16 + z; for y up to 255 it still stays below
   * 4096, but y's high bits are OR-ed into x's.
   */
  function ToVoxelOffset(v: Vec3): (r: nat)
    requires 0 <= v.x < 0x80_0000 && 0 <= v.y < 0x80_0000 && 0 <= v.z < 0x80_0000
    ensures v.x < 16 && v.y < 16 && v.z < 16 ==> r == v.x * 256 + v.y * 16 + v.z
    ensures v.x < 16 && v.y < 256 && v.z < 16 ==> r < 4096
  {
    var r := BitOr(BitOr(v.x * 256, v.y * 16), v.z);
    if v.x < 16 && v.y < 16 && v.z < 16 then
      PackedInGrid(v.x, v.y, v.z);
      r
    else if v.x < 16 && v.y < 256 && v.z < 16 then
      PackedBelow4096(v.x, v.y, v.z);
      r
    else
      r
  }

  /** The inverse of ToVoxelOffset on the 16^3 grid. */
  function FromVoxelOffset(o: int): (v: Vec3)
    requires 0 <= o < 4096
    ensures 0 <= v.x < 16 && 0 <= v.y < 16 && 0 <= v.z < 16
  {
    Vec3(o / 256, (o / 16) % 16, o % 16)
  }

  lemma BitOrDouble(p: nat, q: nat)
    ensures BitOr(2 * p, 2 * q) == 2 * BitOr(p, q)
  {
  }

  /** OR-ing a value into zero low bits is addition. */
  lemma {:induction false} BitOrDisjoint(a: nat, b: nat, k: nat)
    requires b < Pow2(k)
    ensures BitOr(a * Pow2(k), b) == a * Pow2(k) + b
    decreases k
  {
    if a != 0 && b != 0 {
      var h := a * Pow2(k - 1);
      assert a * Pow2(k) == 2 * h;
      BitOrDisjoint(a, b / 2, k - 1);
    }
  }

  /** OR never sets a bit at or above k that neither operand has. */
  lemma {:induction false} BitOrBelow(a: nat, b: nat, k: nat)
    requires a < Pow2(k) && b < Pow2(k)
    ensures BitOr(a, b) < Pow2(k)
    decreases k
  {
    if a != 0 && b != 0 {
      BitOrBelow(a / 2, b / 2, k - 1);
    }
  }

  lemma BitOrTimes16(a: nat, b: nat)
    ensures BitOr(a * 16, b * 16) == BitOr(a, b) * 16
  {
    BitOrTimes4(a * 4, b * 4);
    BitOrTimes4(a, b);
  }

  lemma BitOrTimes4(a: nat, b: nat)
    ensures BitOr(a * 4, b * 4) == BitOr(a, b) * 4
  {
    BitOrDouble(a * 2, b * 2);
    BitOrDouble(a, b);
  }

  lemma PackedInGrid(x: nat, y: nat, z: nat)
    requires y < 16 && z < 16
    ensures BitOr(BitOr(x * 256, y * 16), z) == x * 256 + y * 16 + z
  {
    assert Pow2(4) == 16;
    var a := x * 16;
    assert x * 256 == a * 16;
    BitOrTimes16(a, y);
    BitOrDisjoint(x, y, 4);
    assert BitOr(x * 256, y * 16) == (a + y) * 16;
    BitOrDisjoint(a + y, z, 4);
  }

  lemma PackedBelow4096(x: nat, y: nat, z: nat)
    requires x < 16 && y < 256 && z < 16
    ensures BitOr(BitOr(x * 256, y * 16), z) < 4096
  {
    assert Pow2(12) == 4096;
    BitOrBelow(x * 256, y * 16, 12);
    BitOrBelow(BitOr(x * 256, y * 16), z, 12);
  }

  // ---- properties ----

  /** `+` and `-` undo each other, and `+` is commutative. */
  lemma AddSubInverse(a: Vec3, b: Vec3)
    ensures Sub(Add(a, b), b) == a && Add(Sub(a, b), b) == a
    ensures Add(a, b) == Add(b, a)
    ensures Add(a, ZERO) == a
  {
  }

  /** `%` and `/` are C#'s: a negative coordinate keeps its sign. */
  lemma TruncatingRemainder()
    ensures ModScalar(Vec3(-1, 16, 17), 16) == Vec3(-1, 0, 1)
    ensures Div(Vec3(-1, 16, 17), Vec3(16, 16, 16)) == Vec3(0, 1, 1)
    ensures (-1) % 16 == 15
  {
  }

  /** For a non-negative dividend the C# remainder is Dafny's `%`. */
  lemma TruncModNonNegative(a: int, b: int)
    requires a >= 0 && b > 0
    ensures TruncMod(a, b) == a % b && TruncDiv(a, b) == a / b
  {
  }

  /** The packed offset is a bijection from the 16^3 grid onto [0, 4096). */
  lemma VoxelOffsetBijection(v: Vec3, o: int)
    requires 0 <= v.x < 16 && 0 <= v.y < 16 && 0 <= v.z < 16
    requires 0 <= o < 4096
    ensures 0 <= ToVoxelOffset(v) < 4096
    ensures FromVoxelOffset(ToVoxelOffset(v)) == v
    ensures ToVoxelOffset(FromVoxelOffset(o)) == o
  {
    PackDigits(v.x, v.y, v.z);
    UnpackDigits(o);
  }

  lemma PackDigits(x: int, y: int, z: int)
    requires 0 <= x < 16 && 0 <= y < 16 && 0 <= z < 16
    ensures 0 <= x * 256 + y * 16 + z < 4096
    ensures (x * 256 + y * 16 + z) / 256 == x
    ensures ((x * 256 + y * 16 + z) / 16) % 16 == y
    ensures (x * 256 + y * 16 + z) % 16 == z
  {
    var t := x * 16 + y;
    assert x * 256 + y * 16 + z == t * 16 + z;
    assert (t * 16 + z) / 16 == t && (t * 16 + z) % 16 == z;
    assert t % 16 == y && t / 16 == x;
    assert x * 256 + y * 16 + z == x * 256 + (y * 16 + z) && 0 <= y * 16 + z < 256;
  }

  lemma UnpackDigits(o: int)
    requires 0 <= o < 4096
    ensures (o / 256) * 256 + ((o / 16) % 16) * 16 + o % 16 == o
  {
    var t := o / 16;
    assert o == t * 16 + o % 16;
    assert t == (t / 16) * 16 + t % 16;
    assert t / 16 == o / 256;
  }

  /** Two grid positions with the same offset are the same position. */
  lemma VoxelOffsetInjective(a: Vec3, b: Vec3)
    requires 0 <= a.x < 16 && 0 <= a.y < 16 && 0 <= a.z < 16
    requires 0 <= b.x < 16 && 0 <= b.y < 16 && 0 <= b.z < 16
    ensures ToVoxelOffset(a) == ToVoxelOffset(b) <==> a == b
  {
    VoxelOffsetBijection(a, 0);
    VoxelOffsetBijection(b, 0);
  }

  /**
   * Without a guard on y, a y of 16 sets bit 8, which belongs to x: the
   * position (0, 16, 0) packs to the offset of (1, 0, 0).
   */
  lemma VoxelOffsetAliasing()
    ensures ToVoxelOffset(Vec3(10, 11, 12)) == 2748
    ensures ToVoxelOffset(Vec3(0, 16, 0)) == ToVoxelOffset(Vec3(1, 0, 0)) == 256
    ensures ToVoxelOffset(Vec3(15, 16, 0)) == ToVoxelOffset(Vec3(15, 0, 0))
  {
    assert BitOr(BitOr(15 * 256, 16 * 16), 0) == BitOr(15 * 256, 16 * 16);
    assert BitOr(15 * 256, 16 * 16) == BitOr(15 * 16, 16) * 16 by { BitOrTimes16(15 * 16, 16); }
    assert BitOr(15 * 16, 16) == BitOr(15, 1) * 16 by { BitOrTimes16(15, 1); }
  }

  /** The six face directions are unit vectors. */
  lemma FaceDirectionsAreUnit()
    ensures |ALL_DIRECTIONS| == 6 && forall s :: 0 <= s < 6 ==> IsUnit(ALL_DIRECTIONS[s])
  {
  }

  /** Opposite sides (FRONT/BACK, RIGHT/LEFT, TOP/DOWN) have opposite directions. */
  lemma FaceDirectionsOpposite()
    ensures Add(ALL_DIRECTIONS[0], ALL_DIRECTIONS[2]) == ZERO
    ensures Add(ALL_DIRECTIONS[1], ALL_DIRECTIONS[3]) == ZERO
    ensures Add(ALL_DIRECTIONS[4], ALL_DIRECTIONS[5]) == ZERO
  {
  }

  /** The position of a neighbour offset in ALL_DIRS: y, then x, then z, each from 1 down to -1. */
  function NeighbourIndex(v: Vec3): int {
    var k := (1 - v.y) * 9 + (1 - v.x) * 3 + (1 - v.z);
    if k > 13 then k - 1 else k
  }

  /** ALL_DIRS lists each of the 26 neighbour offsets exactly once. */
  lemma AllDirsEnumeratesNeighbours()
    ensures |ALL_DIRS| == 26
    ensures forall i :: 0 <= i < 26 ==> IsNeighbourOffset(ALL_DIRS[i])
    ensures forall i, j :: 0 <= i < j < 26 ==> ALL_DIRS[i] != ALL_DIRS[j]
    ensures forall v :: IsNeighbourOffset(v) ==> v in ALL_DIRS
  {
    AllDirsIndexed();
    AllDirsCover();
  }

  /** Entry i of ALL_DIRS is a neighbour offset whose index is i. */
  lemma AllDirsIndexed()
    ensures |ALL_DIRS| == 26
    ensures forall i :: 0 <= i < 26 ==> IsNeighbourOffset(ALL_DIRS[i]) && NeighbourIndex(ALL_DIRS[i]) == i
  {
  }

  /** Every neighbour offset sits in ALL_DIRS at its index. */
  lemma AllDirsCover()
    ensures |ALL_DIRS| == 26
    ensures forall v :: IsNeighbourOffset(v) ==> 0 <= NeighbourIndex(v) < 26 && ALL_DIRS[NeighbourIndex(v)] == v
  {
  }
}
