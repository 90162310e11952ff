/**
 * The sunlight stage: direct sunlight falls straight down through empty
 * voxels. The top chunk of the world seeds its top row; every other chunk
 * waits for the voxels its upper neighbour hands down, or for the word that
 * no sunlight will come.
 */
module SunlightStages {
  import opened Wrappers
  import opened Voxel
  import opened Vec3Math
  import opened ChunkDims
  import opened ChunkBuffers
  import opened VoxRefs
  import opened Messages
  import opened StageCommon
  import StageTags

  /** The position one voxel down. */
  function Below(p: Vec3): Vec3
  {
    Add(p, BOTTOM)
  }

  /** The top voxel of p's column in the chunk below, where sunlight leaving through the floor enters. */
  function ColumnTop(p: Vec3): Vec3
  {
    Vec3(p.x, SIZE - 1, p.z)
  }

  /** How high a queued position can still fall: what the propagation loop consumes. */
  function Height(p: Vec3): nat
  {
    if InChunk(p) then p.y + 2 else 1
  }

  function Weight(q: seq<Vec3>): nat
  {
    if q == [] then 0 else Height(q[0]) + Weight(q[1..])
  }

  lemma {:induction false} WeightAppend(q: seq<Vec3>, p: Vec3)
    ensures Weight(q + [p]) == Weight(q) + Height(p)
  {
    if q != [] {
      assert (q + [p])[1..] == q[1..] + [p];
      WeightAppend(q[1..], p);
    }
  }

  /**
   * Sunlight entering at p passes through r: r is p, or p is an empty voxel
   * of the chunk and the light falling on from it passes through r.
   */
  ghost predicate Reaches(s: seq<bv8>, p: Vec3, r: Vec3)
    requires |s| == BUFFER_SIZE
    decreases if InChunk(p) then p.y + 1 else 0
  {
    r == p || (InChunk(p) && IsEmptyAt(s, p) && Reaches(s, Below(p), r))
  }

  /** Sunlight entering at one of the queued positions passes through r. */
  ghost predicate InReach(s: seq<bv8>, q: seq<Vec3>, r: Vec3)
    requires |s| == BUFFER_SIZE
  {
    exists i :: 0 <= i < |q| && Reaches(s, q[i], r)
  }

  /** The column of empty voxels strictly above r and up to p, all in the chunk. */
  ghost predicate OpenBetween(s: seq<bv8>, p: Vec3, r: Vec3)
    requires |s| == BUFFER_SIZE
  {
    forall y :: r.y < y <= p.y ==> InChunk(Vec3(p.x, y, p.z)) && IsEmptyAt(s, Vec3(p.x, y, p.z))
  }

  /**
   * Sunlight falls straight down: it passes from p through r exactly when r
   * is in p's column, not above p, and every voxel from p down to just above
   * r is an empty voxel of the chunk.
   */
  lemma {:induction false} ReachIsColumn(s: seq<bv8>, p: Vec3, r: Vec3)
    requires |s| == BUFFER_SIZE
    ensures Reaches(s, p, r) <==> r.x == p.x && r.z == p.z && r.y <= p.y && OpenBetween(s, p, r)
    decreases if InChunk(p) then p.y + 1 else 0
  {
    if r == p {
    } else if InChunk(p) && IsEmptyAt(s, p) {
      ReachIsColumn(s, Below(p), r);
      OpenStep(s, p, r);
    } else {
      OpenTop(s, p, r);
    }
  }

  /** Below an empty voxel p of the chunk, the stretch above r is open from p exactly when it is open from below p. */
  lemma OpenStep(s: seq<bv8>, p: Vec3, r: Vec3)
    requires |s| == BUFFER_SIZE && InChunk(p) && IsEmptyAt(s, p)
    ensures Below(p).x == p.x && Below(p).z == p.z && Below(p).y == p.y - 1
    ensures r.y < p.y ==> (OpenBetween(s, p, r) <==> OpenBetween(s, Below(p), r))
  {
    var b := Below(p);
    if r.y < p.y && OpenBetween(s, b, r) {
      forall y | r.y < y <= p.y
        ensures InChunk(Vec3(p.x, y, p.z)) && IsEmptyAt(s, Vec3(p.x, y, p.z))
      {
        if y == p.y {
          assert Vec3(p.x, y, p.z) == p;
        } else {
          assert Vec3(p.x, y, p.z) == Vec3(b.x, y, b.z);
        }
      }
    }
  }

  /** An open stretch above r starts with p itself. */
  lemma OpenTop(s: seq<bv8>, p: Vec3, r: Vec3)
    requires |s| == BUFFER_SIZE
    ensures OpenBetween(s, p, r) && r.y < p.y ==> InChunk(p) && IsEmptyAt(s, p)
  {
    if OpenBetween(s, p, r) && r.y < p.y {
      assert Vec3(p.x, p.y, p.z) == p;
    }
  }

  /** What the queue after one step is: the rest, then the voxel below when light passed through the head. */
  function Next(s: seq<bv8>, q: seq<Vec3>): seq<Vec3>
    requires |s| == BUFFER_SIZE && q != []
  {
    q[1..] + (if InChunk(q[0]) && IsEmptyAt(s, q[0]) then [Below(q[0])] else [])
  }

  /** One step of the queue: what is in reach is the head, or what is in reach of the next queue. */
  lemma ReachStep(s: seq<bv8>, q: seq<Vec3>, r: Vec3)
    requires |s| == BUFFER_SIZE && q != []
    ensures InReach(s, q, r) <==> r == q[0] || InReach(s, Next(s, q), r)
  {
    var n := Next(s, q);
    if InReach(s, q, r) && r != q[0] {
      var i :| 0 <= i < |q| && Reaches(s, q[i], r);
      if i == 0 {
        assert n[|n| - 1] == Below(q[0]);
      } else {
        assert n[i - 1] == q[i];
      }
    }
    if InReach(s, n, r) {
      var i :| 0 <= i < |n| && Reaches(s, n[i], r);
      if i < |q| - 1 {
        assert n[i] == q[i + 1];
      } else {
        assert Reaches(s, q[0], r);
      }
    }
  }

  /** Each step consumes height: the propagation loop terminates. */
  lemma NextLighter(s: seq<bv8>, q: seq<Vec3>)
    requires |s| == BUFFER_SIZE && q != []
    ensures Weight(Next(s, q)) < Weight(q)
  {
    if InChunk(q[0]) && IsEmptyAt(s, q[0]) {
      WeightAppend(q[1..], Below(q[0]));
    } else {
      assert Next(s, q) == q[1..];
    }
  }

  /** Types, visibility bits and normal light agree: the stage writes only sunlight. */
  ghost predicate OnlySunChanged(s0: seq<bv8>, s: seq<bv8>)
    requires |s0| == BUFFER_SIZE && |s| == BUFFER_SIZE
  {
    (forall v {:trigger TypeAt(s, v)} {:trigger LightAt(s, v)} :: InChunk(v) ==>
      TypeAt(s, v) == TypeAt(s0, v) && LightAt(s, v) & LIGHT_NORMAL == LightAt(s0, v) & LIGHT_NORMAL) &&
    (forall v, side: Side {:trigger IsVisibleAt(s, v, side)} :: InChunk(v) ==> IsVisibleAt(s, v, side) == IsVisibleAt(s0, v, side))
  }

  /** Setting p's sunlight keeps every type, visibility bit and normal light, and every other voxel's light. */
  lemma SunLightKeeps(s0: seq<bv8>, s: seq<bv8>, p: Vec3)
    requires |s0| == BUFFER_SIZE && |s| == BUFFER_SIZE && InChunk(p) && OnlySunChanged(s0, s)
    ensures OnlySunChanged(s0, WithSunLight(s, p, SUNLIGHT_MAX_VALUE))
    ensures SunLightAt(WithSunLight(s, p, SUNLIGHT_MAX_VALUE), p) == SUNLIGHT_MAX_VALUE
    ensures forall v :: InChunk(v) && v != p ==> SunLightAt(WithSunLight(s, p, SUNLIGHT_MAX_VALUE), v) == SunLightAt(s, v)
  {
    forall v | InChunk(v)
      ensures TypeAt(WithSunLight(s, p, SUNLIGHT_MAX_VALUE), v) == TypeAt(s, v)
      ensures v != p ==> LightAt(WithSunLight(s, p, SUNLIGHT_MAX_VALUE), v) == LightAt(s, v)
    {
      WithSunLightFrame(s, p, SUNLIGHT_MAX_VALUE, v, 0);
    }
    forall v, side: Side | InChunk(v)
      ensures IsVisibleAt(WithSunLight(s, p, SUNLIGHT_MAX_VALUE), v, side) == IsVisibleAt(s, v, side)
    {
      WithSunLightFrame(s, p, SUNLIGHT_MAX_VALUE, v, side);
    }
  }

  /**
   * The END messages a chunk sends when no sunlight leaves through its
   * floor: one to each chunk of its column from y down to endY.
   */
  function EndMessages(pos: Vec3, y: int, endY: int): seq<Message>
    decreases if y >= endY then y - endY + 1 else 0
  {
    if y < endY then [] else [SunlightPropEnd(pos, Vec3(pos.x, y, pos.z))] + EndMessages(pos, y - SIZE, endY)
  }

  /**
   * The END messages go to exactly the chunk positions of the column that
   * lie from y down to endY, in steps of a chunk.
   */
  lemma {:induction false} EndMessagesTargets(pos: Vec3, y: int, endY: int, t: Vec3)
    ensures SunlightPropEnd(pos, t) in EndMessages(pos, y, endY) <==>
      t.x == pos.x && t.z == pos.z && endY <= t.y <= y && (y - t.y) % SIZE == 0
    ensures forall m :: m in EndMessages(pos, y, endY) ==> m.SunlightPropEnd? && m.pos == pos
    decreases if y >= endY then y - endY + 1 else 0
  {
    if y >= endY {
      EndMessagesTargets(pos, y - SIZE, endY, t);
      if t.y < y && (y - t.y) % SIZE == 0 {
        assert (y - SIZE - t.y) % SIZE == 0;
      }
      if t.y <= y - SIZE && (y - SIZE - t.y) % SIZE == 0 {
        assert (y - t.y) % SIZE == 0;
      }
      if t.y < y && t.y > y - SIZE {
        assert (y - t.y) % SIZE != 0;
      }
    }
  }

  /** The lowest y the END messages reach, in voxel units: the bottom bound is counted in chunks. */
  function EndBound(bounds: Bounds): int
  {
    bounds.bottom.y * SIZE
  }

  /** The lowest y as the source writes it: the bottom bound taken as a voxel coordinate. */
  function EndBoundAsWritten(bounds: Bounds): int
  {
    bounds.bottom.y
  }

  /**
   * With the bottom bound at chunk -2 and a closed column at chunk 0, the
   * chunk at y = -16 lies inside the world but the bound as written sends it
   * no END message, so it would wait for sunlight forever; the bound in
   * voxel units reaches it.
   */
  lemma EndBoundAsWrittenSkipsChunks()
    ensures EndMessages(Vec3(0, 0, 0), -SIZE, EndBoundAsWritten(Bounds(Vec3(0, 3, 0), Vec3(0, -2, 0)))) == []
    ensures SunlightPropEnd(Vec3(0, 0, 0), Vec3(0, -SIZE, 0)) in
      EndMessages(Vec3(0, 0, 0), -SIZE, EndBound(Bounds(Vec3(0, 3, 0), Vec3(0, -2, 0))))
  {
    EndMessagesTargets(Vec3(0, 0, 0), -SIZE, EndBound(Bounds(Vec3(0, 3, 0), Vec3(0, -2, 0))), Vec3(0, -SIZE, 0));
  }

  /**
   * Every chunk of the column below pos, down to the bottom bound, receives
   * an END message.
   */
  lemma EndReachesEveryChunkBelow(pos: Vec3, bounds: Bounds, k: int)
    requires 1 <= k && pos.y - k * SIZE >= EndBound(bounds)
    ensures SunlightPropEnd(pos, Vec3(pos.x, pos.y - k * SIZE, pos.z)) in EndMessages(pos, pos.y - SIZE, EndBound(bounds))
  {
    EndMessagesTargets(pos, pos.y - SIZE, EndBound(bounds), Vec3(pos.x, pos.y - k * SIZE, pos.z));
    assert (pos.y - SIZE - (pos.y - k * SIZE)) == (k - 1) * SIZE;
  }

  /** The seeds of the top chunk: below each empty voxel of its top row, in x-then-z order up to column c. */
  function Seeds(s: seq<bv8>, c: int): (r: seq<Vec3>)
    requires |s| == BUFFER_SIZE && 0 <= c <= SIZE * SIZE
  {
    if c == 0 then []
    else Seeds(s, c - 1) + (if IsEmptyAt(s, TopOf(c - 1)) then [Below(TopOf(c - 1))] else [])
  }

  /**
   * The state of the propagation loop against its start s0 and queue q0:
   * only sunlight changed, what was in reach is done or still in reach of the
   * queue, the done empty voxels are lit, and the done positions outside the
   * chunk are listed for the chunk below.
   */
  ghost predicate Draining(s0: seq<bv8>, q0: seq<Vec3>, s: seq<bv8>, q: seq<Vec3>, done: set<Vec3>, bottom: seq<Vec3>)
    requires |s0| == BUFFER_SIZE && |s| == BUFFER_SIZE
  {
    OnlySunChanged(s0, s) &&
    (forall r :: InReach(s0, q0, r) <==> r in done || InReach(s0, q, r)) &&
    (forall v :: InChunk(v) ==>
      SunLightAt(s, v) == if v in done && IsEmptyAt(s0, v) then SUNLIGHT_MAX_VALUE else SunLightAt(s0, v)) &&
    (forall b :: b in bottom <==> exists r :: r in done && !InChunk(r) && b == ColumnTop(r))
  }

  /** The buffer after one step of the loop. */
  function StepBuffer(s0: seq<bv8>, s: seq<bv8>, p: Vec3): (r: seq<bv8>)
    requires |s0| == BUFFER_SIZE && |s| == BUFFER_SIZE
    ensures |r| == BUFFER_SIZE
  {
    if InChunk(p) && IsEmptyAt(s0, p) then WithSunLight(s, p, SUNLIGHT_MAX_VALUE) else s
  }

  /** The list for the chunk below after one step of the loop. */
  function StepBottom(bottom: seq<Vec3>, p: Vec3): seq<Vec3>
  {
    if InChunk(p) then bottom else bottom + [ColumnTop(p)]
  }

  /** One step of the loop keeps its invariant. */
  lemma DrainStep(s0: seq<bv8>, q0: seq<Vec3>, s: seq<bv8>, q: seq<Vec3>, done: set<Vec3>, bottom: seq<Vec3>)
    requires |s0| == BUFFER_SIZE && |s| == BUFFER_SIZE && q != []
    requires Draining(s0, q0, s, q, done, bottom)
    ensures Draining(s0, q0, StepBuffer(s0, s, q[0]), Next(s0, q), done + {q[0]}, StepBottom(bottom, q[0]))
  {
    var p := q[0];
    forall r
      ensures InReach(s0, q, r) <==> r == p || InReach(s0, Next(s0, q), r)
    {
      ReachStep(s0, q, r);
    }
    if InChunk(p) && IsEmptyAt(s0, p) {
      SunLightKeeps(s0, s, p);
    }
    var b' := StepBottom(bottom, p);
    forall b
      ensures b in b' <==> exists r :: r in done + {p} && !InChunk(r) && b == ColumnTop(r)
    {
      if b in b' && b !in bottom {
        assert p in done + {p} && !InChunk(p) && b == ColumnTop(p);
      }
    }
  }

  /**
   * The list the propagation loop hands to the chunk below, in the order
   * the loop meets them: one entry each time the head of the queue lies
   * outside the chunk.
   */
  function Bottoms(s: seq<bv8>, q: seq<Vec3>): seq<Vec3>
    requires |s| == BUFFER_SIZE
    decreases Weight(q)
  {
    if q == [] then []
    else
      NextLighter(s, q);
      StepBottom([], q[0]) + Bottoms(s, Next(s, q))
  }

  /** The list handed on is the head's contribution, then the list of the next queue. */
  lemma BottomsUnfold(s: seq<bv8>, q: seq<Vec3>)
    requires |s| == BUFFER_SIZE && q != []
    ensures Bottoms(s, q) == StepBottom([], q[0]) + Bottoms(s, Next(s, q))
  {
  }

  /** Extending a prefix by one step's contribution is the same as prepending the prefix. */
  lemma StepBottomShift(b: seq<Vec3>, p: Vec3, rest: seq<Vec3>)
    ensures StepBottom(b, p) + rest == b + (StepBottom([], p) + rest)
  {
    if !InChunk(p) {
      assert (b + [ColumnTop(p)]) + rest == b + ([ColumnTop(p)] + rest);
    }
  }

  /** One step of the loop keeps the list handed on plus what is left to hand on. */
  lemma BottomsStep(s: seq<bv8>, q: seq<Vec3>, b: seq<Vec3>)
    requires |s| == BUFFER_SIZE && q != []
    ensures StepBottom(b, q[0]) + Bottoms(s, Next(s, q)) == b + Bottoms(s, q)
  {
    BottomsUnfold(s, q);
    StepBottomShift(b, q[0], Bottoms(s, Next(s, q)));
  }

  /** The list handed on names exactly the columns through which light in reach of the queue leaves the chunk. */
  lemma {:induction false} BottomsAreExits(s: seq<bv8>, q: seq<Vec3>, b: Vec3)
    requires |s| == BUFFER_SIZE
    ensures b in Bottoms(s, q) <==> exists r :: InReach(s, q, r) && !InChunk(r) && b == ColumnTop(r)
    decreases Weight(q)
  {
    if q == [] {
      assert forall r :: !InReach(s, q, r);
    } else {
      var n := Next(s, q);
      NextLighter(s, q);
      BottomsAreExits(s, n, b);
      assert Bottoms(s, q) == StepBottom([], q[0]) + Bottoms(s, n);
      if b in Bottoms(s, q) {
        if b in StepBottom([], q[0]) {
          ReachStep(s, q, q[0]);
        } else {
          var r :| InReach(s, n, r) && !InChunk(r) && b == ColumnTop(r);
          ReachStep(s, q, r);
        }
      }
      if exists r :: InReach(s, q, r) && !InChunk(r) && b == ColumnTop(r) {
        var r :| InReach(s, q, r) && !InChunk(r) && b == ColumnTop(r);
        ReachStep(s, q, r);
      }
    }
  }

  /** When the queue is empty, what is done is exactly what was in reach. */
  lemma DrainEnd(s0: seq<bv8>, q0: seq<Vec3>, s: seq<bv8>, done: set<Vec3>, bottom: seq<Vec3>)
    requires |s0| == BUFFER_SIZE && |s| == BUFFER_SIZE
    requires Draining(s0, q0, s, [], done, bottom)
    ensures forall v :: InChunk(v) ==>
      SunLightAt(s, v) == if InReach(s0, q0, v) && IsEmptyAt(s0, v) then SUNLIGHT_MAX_VALUE else SunLightAt(s0, v)
    ensures forall b :: b in bottom <==> exists r :: InReach(s0, q0, r) && !InChunk(r) && b == ColumnTop(r)
  {
    assert forall r :: !InReach(s0, [], r);
  }

  /** Sunlight leaving the chunk from a voxel inside it leaves through the floor of its column, all of it open. */
  lemma LeavesThroughFloor(s: seq<bv8>, p: Vec3, r: Vec3)
    requires |s| == BUFFER_SIZE && InChunk(p) && !InChunk(r) && Reaches(s, p, r)
    ensures r == Vec3(p.x, -1, p.z) && OpenBetween(s, p, r)
  {
    ReachIsColumn(s, p, r);
    assert r.y < p.y;
    assert InChunk(Vec3(p.x, r.y + 1, p.z));
  }

  /** The column index of an in-chunk voxel, in the order the top row is seeded. */
  function ColumnIndex(v: Vec3): int
  {
    v.x * 16 + v.z
  }

  lemma ColumnIndexOf(v: Vec3, c: int)
    requires InChunk(v) && 0 <= c < SIZE * SIZE
    ensures ColumnIndex(v) == c <==> v.x == c / 16 && v.z == c % 16
    ensures 0 <= ColumnIndex(v) < SIZE * SIZE
  {
  }

  /** The top voxel of column c, the column of x = c / 16 and z = c % 16. */
  function TopOf(c: int): Vec3
  {
    Vec3(c / 16, SIZE - 1, c % 16)
  }

  /** The voxel below column c's top voxel is the one voxel of the second row in column c. */
  lemma BelowTopOf(p: Vec3, c: int)
    requires 0 <= c < SIZE * SIZE
    ensures p == Below(TopOf(c)) <==> InChunk(p) && p.y == SIZE - 2 && ColumnIndex(p) == c
    ensures p == Below(TopOf(c)) ==> ColumnTop(p) == TopOf(c)
  {
    if InChunk(p) {
      ColumnIndexOf(p, c);
    }
  }

  /** Column c adds at most the voxel below its top voxel. */
  lemma SeedsStep(s: seq<bv8>, c: int, p: Vec3)
    requires |s| == BUFFER_SIZE && 0 < c <= SIZE * SIZE
    ensures p in Seeds(s, c) <==> p in Seeds(s, c - 1) || (IsEmptyAt(s, TopOf(c - 1)) && p == Below(TopOf(c - 1)))
  {
  }

  /** The seeds lie below the empty voxels of the top row, over the first c columns. */
  lemma {:induction false} SeedsAre(s: seq<bv8>, c: int, p: Vec3)
    requires |s| == BUFFER_SIZE && 0 <= c <= SIZE * SIZE
    ensures p in Seeds(s, c) <==>
      InChunk(p) && p.y == SIZE - 2 && ColumnIndex(p) < c && IsEmptyAt(s, ColumnTop(p))
  {
    if c > 0 {
      SeedsAre(s, c - 1, p);
      SeedsStep(s, c, p);
      BelowTopOf(p, c - 1);
    }
  }

  /** Reach depends only on which voxels are empty. */
  lemma {:induction false} ReachSameTypes(s0: seq<bv8>, s: seq<bv8>, p: Vec3, r: Vec3)
    requires |s0| == BUFFER_SIZE && |s| == BUFFER_SIZE && OnlySunChanged(s0, s)
    ensures Reaches(s, p, r) == Reaches(s0, p, r)
    decreases if InChunk(p) then p.y + 1 else 0
  {
    if InChunk(p) {
      ReachSameTypes(s0, s, Below(p), r);
    }
  }

  /**
   * In the top chunk sunlight reaches exactly the empty voxels with nothing
   * but empty voxels above them up to the top row: the top row itself, and
   * what falls from the seeds below it.
   */
  lemma SkyLight(s: seq<bv8>, v: Vec3)
    requires |s| == BUFFER_SIZE && InChunk(v)
    ensures ((v.y == SIZE - 1 || InReach(s, Seeds(s, SIZE * SIZE), v)) && IsEmptyAt(s, v)) <==>
      IsEmptyAt(s, v) && OpenBetween(s, ColumnTop(v), v)
  {
    if IsEmptyAt(s, v) && OpenBetween(s, ColumnTop(v), v) && v.y < SIZE - 1 {
      SkyReached(s, v);
    }
    if InReach(s, Seeds(s, SIZE * SIZE), v) {
      SkyOpen(s, v);
    }
  }

  /** A voxel under open sky is in reach of its column's seed. */
  lemma SkyReached(s: seq<bv8>, v: Vec3)
    requires |s| == BUFFER_SIZE && InChunk(v) && v.y < SIZE - 1 && OpenBetween(s, ColumnTop(v), v)
    ensures InReach(s, Seeds(s, SIZE * SIZE), v)
  {
    var seeds := Seeds(s, SIZE * SIZE);
    var p := Below(ColumnTop(v));
    assert ColumnTop(v) == Vec3(v.x, SIZE - 1, v.z);
    ColumnIndexOf(v, 0);
    SeedsAre(s, SIZE * SIZE, p);
    var i :| 0 <= i < |seeds| && seeds[i] == p;
    ReachIsColumn(s, p, v);
  }

  /** A voxel in reach of a seed has open sky above it. */
  lemma SkyOpen(s: seq<bv8>, v: Vec3)
    requires |s| == BUFFER_SIZE && InChunk(v) && InReach(s, Seeds(s, SIZE * SIZE), v)
    ensures OpenBetween(s, ColumnTop(v), v)
  {
    var seeds := Seeds(s, SIZE * SIZE);
    var i :| 0 <= i < |seeds| && Reaches(s, seeds[i], v);
    var p := seeds[i];
    SeedsAre(s, SIZE * SIZE, p);
    ReachIsColumn(s, p, v);
    assert ColumnTop(p) == ColumnTop(v);
  }

  /**
   * In the top chunk sunlight leaves through the floor of exactly the
   * columns that are empty all the way down, entering the chunk below at
   * the top of each.
   */
  lemma FloorOpen(s: seq<bv8>, b: Vec3)
    requires |s| == BUFFER_SIZE
    ensures (exists r :: InReach(s, Seeds(s, SIZE * SIZE), r) && !InChunk(r) && b == ColumnTop(r)) <==>
      InChunk(b) && b.y == SIZE - 1 && OpenBetween(s, b, Vec3(b.x, -1, b.z))
  {
    if exists r :: InReach(s, Seeds(s, SIZE * SIZE), r) && !InChunk(r) && b == ColumnTop(r) {
      var r :| InReach(s, Seeds(s, SIZE * SIZE), r) && !InChunk(r) && b == ColumnTop(r);
      FloorLeft(s, r);
    }
    if InChunk(b) && b.y == SIZE - 1 && OpenBetween(s, b, Vec3(b.x, -1, b.z)) {
      FloorReached(s, b);
    }
  }

  /** Light that left the top chunk left through the floor of an open column. */
  lemma FloorLeft(s: seq<bv8>, r: Vec3)
    requires |s| == BUFFER_SIZE && InReach(s, Seeds(s, SIZE * SIZE), r) && !InChunk(r)
    ensures InChunk(ColumnTop(r)) && OpenBetween(s, ColumnTop(r), Vec3(r.x, -1, r.z))
  {
    var seeds := Seeds(s, SIZE * SIZE);
    var i :| 0 <= i < |seeds| && Reaches(s, seeds[i], r);
    var p := seeds[i];
    SeedsAre(s, SIZE * SIZE, p);
    LeavesThroughFloor(s, p, r);
    assert ColumnTop(p) == ColumnTop(r);
  }

  /** An open column of the top chunk lets light out through its floor. */
  lemma FloorReached(s: seq<bv8>, b: Vec3)
    requires |s| == BUFFER_SIZE && InChunk(b) && b.y == SIZE - 1 && OpenBetween(s, b, Vec3(b.x, -1, b.z))
    ensures InReach(s, Seeds(s, SIZE * SIZE), Vec3(b.x, -1, b.z))
  {
    var seeds := Seeds(s, SIZE * SIZE);
    var p := Below(b);
    var r := Vec3(b.x, -1, b.z);
    assert ColumnTop(p) == b;
    ColumnIndexOf(b, 0);
    SeedsAre(s, SIZE * SIZE, p);
    var i :| 0 <= i < |seeds| && seeds[i] == p;
    ReachIsColumn(s, p, r);
  }

  /** What a chunk posts once its queue has drained: the voxels for the chunk below, or END messages. */
  function Announced(pos: Vec3, bounds: Bounds, bottom: seq<Vec3>): seq<Message>
  {
    if bottom == [] then EndMessages(pos, pos.y - SIZE, EndBound(bounds))
    else [SunlightProp(pos, Add(pos, Scale(BOTTOM, SIZE)), bottom)]
  }

  /** Reach is the same over two buffers with the same types. */
  lemma InReachSameTypes(s0: seq<bv8>, s: seq<bv8>, q: seq<Vec3>)
    requires |s0| == BUFFER_SIZE && |s| == BUFFER_SIZE && OnlySunChanged(s0, s)
    ensures forall r :: InReach(s, q, r) == InReach(s0, q, r)
  {
    forall r, i | 0 <= i < |q|
      ensures Reaches(s, q[i], r) == Reaches(s0, q[i], r)
    {
      ReachSameTypes(s0, s, q[i], r);
    }
  }

  /** The top row is seeded over the first c columns: those of its voxels that are empty have full sunlight. */
  ghost predicate TopRowLit(s0: seq<bv8>, s: seq<bv8>, c: int)
    requires |s0| == BUFFER_SIZE && |s| == BUFFER_SIZE
  {
    forall v {:trigger SunLightAt(s, v)} :: InChunk(v) ==>
      SunLightAt(s, v) == if v.y == SIZE - 1 && ColumnIndex(v) < c && IsEmptyAt(s0, v) then SUNLIGHT_MAX_VALUE else SunLightAt(s0, v)
  }

  /** The seeding loop's state after c columns: the queue holds their seeds and only their top voxels gained sunlight. */
  ghost predicate Seeded(s0: seq<bv8>, s: seq<bv8>, q: seq<Vec3>, c: int)
  {
    |s0| == BUFFER_SIZE && |s| == BUFFER_SIZE && 0 <= c <= SIZE * SIZE &&
    q == Seeds(s0, c) && OnlySunChanged(s0, s) && TopRowLit(s0, s, c)
  }

  /** After the last column the whole top row is seeded. */
  lemma SeededComplete(s0: seq<bv8>, s: seq<bv8>, q: seq<Vec3>)
    requires Seeded(s0, s, q, SIZE * SIZE)
    ensures |s0| == BUFFER_SIZE && |s| == BUFFER_SIZE
    ensures q == Seeds(s0, SIZE * SIZE) && OnlySunChanged(s0, s)
    ensures forall v :: InChunk(v) ==>
      SunLightAt(s, v) == if v.y == SIZE - 1 && IsEmptyAt(s0, v) then SUNLIGHT_MAX_VALUE else SunLightAt(s0, v)
  {
    forall v | InChunk(v)
      ensures ColumnIndex(v) < SIZE * SIZE
    {
      ColumnIndexOf(v, 0);
    }
  }

  class ChunkSunlightStage {
    const base: BaseStage
    var propQueue: seq<Vec3>

    ghost predicate Valid()
      reads this
    {
      base.stage == StageTags.SUNLIGHT
    }

    constructor (shared: SharedData)
      ensures Valid() && fresh(base) && base.shared == shared
      ensures !base.finished && !base.done && propQueue == []
    {
      base := new BaseStage(StageTags.SUNLIGHT, shared);
      propQueue := [];
    }

    /**
     * Takes the head of the queue: an empty voxel of the chunk gets full
     * sunlight and queues the voxel below it; a position outside the chunk
     * is returned for the chunk below.
     */
    method Step(cur: VoxRef, ghost s0: seq<bv8>) returns (out: Option<Vec3>)
      requires base.shared.buffer.Allocated() && cur.buffer == base.shared.buffer && propQueue != []
      requires |s0| == BUFFER_SIZE && OnlySunChanged(s0, base.shared.buffer.voxels[..])
      modifies this, cur, base.shared.buffer.voxels
      ensures cur.buffer == old(cur.buffer)
      ensures propQueue == Next(s0, old(propQueue))
      ensures base.shared.buffer.voxels[..] == StepBuffer(s0, old(base.shared.buffer.voxels[..]), old(propQueue)[0])
      ensures out == if InChunk(old(propQueue)[0]) then None else Some(ColumnTop(old(propQueue)[0]))
    {
      var p := propQueue[0];
      propQueue := propQueue[1..];
      var inside := cur.TryTarget(p.x, p.y, p.z);
      if inside {
        var t := cur.GetType();
        if t == VT_EMPTY {
          cur.SetSunLight(SUNLIGHT_MAX_VALUE);
          propQueue := propQueue + [Below(p)];
        }
        out := None;
      } else {
        out := Some(Vec3(p.x, SIZE - 1, p.z));
      }
    }

    /**
     * The propagation loop: runs until the queue is empty and returns the
     * columns, as the top voxel of each in the chunk below, through which
     * sunlight leaves the chunk.
     */
    method DrainQueue() returns (bottom: seq<Vec3>)
      requires Valid() && base.shared.buffer.Allocated()
      modifies this, base.shared.buffer.voxels
      ensures Valid() && propQueue == []
      ensures OnlySunChanged(old(base.shared.buffer.voxels[..]), base.shared.buffer.voxels[..])
      ensures forall v :: InChunk(v) ==>
        SunLightAt(base.shared.buffer.voxels[..], v) ==
          if InReach(old(base.shared.buffer.voxels[..]), old(propQueue), v) && IsEmptyAt(old(base.shared.buffer.voxels[..]), v)
          then SUNLIGHT_MAX_VALUE else SunLightAt(old(base.shared.buffer.voxels[..]), v)
      ensures forall b :: b in bottom <==>
        exists r :: InReach(old(base.shared.buffer.voxels[..]), old(propQueue), r) && !InChunk(r) && b == ColumnTop(r)
      ensures bottom == Bottoms(old(base.shared.buffer.voxels[..]), old(propQueue))
    {
      var buffer := base.shared.buffer;
      ghost var s0 := buffer.voxels[..];
      ghost var q0 := propQueue;
      ghost var done: set<Vec3> := {};
      var cur := new VoxRef(buffer);
      bottom := [];
      while propQueue != []
        invariant Valid() && buffer.Allocated() && cur.buffer == buffer
        invariant Draining(s0, q0, buffer.voxels[..], propQueue, done, bottom)
        invariant bottom + Bottoms(s0, propQueue) == Bottoms(s0, q0)
        decreases Weight(propQueue)
      {
        ghost var s := buffer.voxels[..];
        ghost var q := propQueue;
        DrainStep(s0, q0, s, q, done, bottom);
        NextLighter(s0, q);
        ghost var b := bottom;
        var out := Step(cur, s0);
        if out.Some? {
          bottom := bottom + [out.value];
        }
        BottomsStep(s0, q, b);
        done := done + {q[0]};
      }
      DrainEnd(s0, q0, buffer.voxels[..], done, bottom);
    }

    /**
     * Hands the result on: the voxels for the chunk below in one message
     * when there are any, otherwise an END message to every chunk below,
     * down to the world's bottom bound.
     */
    method Announce(bottom: seq<Vec3>)
      modifies base.shared
      ensures base.shared.outbox == old(base.shared.outbox) + Announced(base.shared.pos, base.shared.bounds, bottom)
      ensures base.shared.voxelCount == old(base.shared.voxelCount) && base.shared.errors == old(base.shared.errors)
    {
      var shared := base.shared;
      if bottom == [] {
        var endY := EndBound(shared.bounds);
        var y := shared.pos.y - SIZE;
        while y >= endY
          invariant shared.outbox + EndMessages(shared.pos, y, endY) ==
            old(shared.outbox) + EndMessages(shared.pos, shared.pos.y - SIZE, endY)
          invariant shared.voxelCount == old(shared.voxelCount) && shared.errors == old(shared.errors)
          decreases y - endY
        {
          shared.Post(SunlightPropEnd(shared.pos, Vec3(shared.pos.x, y, shared.pos.z)));
          y := y - SIZE;
        }
      } else {
        shared.Post(SunlightProp(shared.pos, Add(shared.pos, Scale(BOTTOM, SIZE)), bottom));
      }
    }

    /** Drains the queue, hands the result on and finishes; returns the list handed to the chunk below. */
    method PropagateSunlight() returns (bottom: seq<Vec3>)
      requires Valid() && base.shared.buffer.Allocated()
      modifies this, base, base.shared, base.shared.buffer.voxels
      ensures Valid() && propQueue == [] && base.finished && base.done == old(base.done)
      ensures OnlySunChanged(old(base.shared.buffer.voxels[..]), base.shared.buffer.voxels[..])
      ensures forall v :: InChunk(v) ==>
        SunLightAt(base.shared.buffer.voxels[..], v) ==
          if InReach(old(base.shared.buffer.voxels[..]), old(propQueue), v) && IsEmptyAt(old(base.shared.buffer.voxels[..]), v)
          then SUNLIGHT_MAX_VALUE else SunLightAt(old(base.shared.buffer.voxels[..]), v)
      ensures forall b :: b in bottom <==>
        exists r :: InReach(old(base.shared.buffer.voxels[..]), old(propQueue), r) && !InChunk(r) && b == ColumnTop(r)
      ensures bottom == Bottoms(old(base.shared.buffer.voxels[..]), old(propQueue))
      ensures base.shared.outbox == old(base.shared.outbox) + Announced(base.shared.pos, base.shared.bounds, bottom)
      ensures base.shared.voxelCount == old(base.shared.voxelCount)
      ensures base.shared.errors == old(base.shared.errors) + (if old(base.finished) then 1 else 0)
    {
      bottom := DrainQueue();
      Announce(bottom);
      base.Finish();
    }

    /** Full sunlight for every empty voxel of the top row, each queueing the voxel below it, in x-then-z order. */
    method SeedTopRow()
      requires Valid() && base.shared.buffer.Allocated() && propQueue == []
      modifies this, base.shared.buffer.voxels
      ensures Valid() && propQueue == Seeds(old(base.shared.buffer.voxels[..]), SIZE * SIZE)
      ensures OnlySunChanged(old(base.shared.buffer.voxels[..]), base.shared.buffer.voxels[..])
      ensures forall v :: InChunk(v) ==>
        SunLightAt(base.shared.buffer.voxels[..], v) ==
          if v.y == SIZE - 1 && IsEmptyAt(old(base.shared.buffer.voxels[..]), v) then SUNLIGHT_MAX_VALUE
          else SunLightAt(old(base.shared.buffer.voxels[..]), v)
    {
      var buffer := base.shared.buffer;
      ghost var s0 := buffer.voxels[..];
      SeedColumns(0, s0);
      SeededComplete(s0, buffer.voxels[..], propQueue);
    }

    /** The seeding loop over the columns of the top row, from column c0 to the last, with one cursor. */
    method SeedColumns(c0: int, ghost s0: seq<bv8>)
      requires base.shared.buffer.Allocated() && Seeded(s0, base.shared.buffer.voxels[..], propQueue, c0)
      modifies this, base.shared.buffer.voxels
      ensures Seeded(s0, base.shared.buffer.voxels[..], propQueue, SIZE * SIZE)
    {
      var buffer := base.shared.buffer;
      var cur := new VoxRef(buffer);
      var c := c0;
      while c < SIZE * SIZE
        invariant buffer.Allocated() && cur.buffer == buffer && c <= SIZE * SIZE
        invariant Seeded(s0, buffer.voxels[..], propQueue, c)
      {
        SeedColumn(cur, c, s0);
        c := c + 1;
      }
    }

    /** The top voxel of column c: lit and its lower neighbour queued when it is empty. */
    method SeedColumn(cur: VoxRef, c: int, ghost s0: seq<bv8>)
      requires c < SIZE * SIZE && base.shared.buffer.Allocated() && cur.buffer == base.shared.buffer
      requires Seeded(s0, base.shared.buffer.voxels[..], propQueue, c)
      modifies this, cur, base.shared.buffer.voxels
      ensures cur.buffer == old(cur.buffer)
      ensures Seeded(s0, base.shared.buffer.voxels[..], propQueue, c + 1)
    {
      var top := TopOf(c);
      cur.Target(c / 16, SIZE - 1, c % 16);
      var t := cur.GetType();
      forall v | InChunk(v)
        ensures ColumnIndex(v) < c + 1 <==> ColumnIndex(v) < c || ColumnIndex(v) == c
        ensures v.y == SIZE - 1 && ColumnIndex(v) == c <==> v == top
      {
        ColumnIndexOf(v, c);
      }
      if t == VT_EMPTY {
        SunLightKeeps(s0, base.shared.buffer.voxels[..], top);
        cur.SetSunLight(SUNLIGHT_MAX_VALUE);
        propQueue := propQueue + [Below(top)];
      }
    }

    /**
     * Only the top chunk of the world starts by itself: its top row is seeded
     * and the light propagated. In the end an empty voxel has full sunlight
     * exactly when every voxel above it in the chunk is empty, and the chunk
     * below is handed the columns that are empty all the way down.
     */
    method OnStart()
      requires Valid() && base.shared.buffer.Allocated() && propQueue == []
      modifies this, base, base.shared, base.shared.buffer.voxels
      ensures Valid() && base.done == old(base.done) && base.shared.voxelCount == old(base.shared.voxelCount)
      ensures base.shared.pos.y != base.shared.bounds.up.y * SIZE ==>
        propQueue == [] && base.finished == old(base.finished) && base.shared.errors == old(base.shared.errors) &&
        base.shared.outbox == old(base.shared.outbox) && base.shared.buffer.voxels[..] == old(base.shared.buffer.voxels[..])
      ensures base.shared.pos.y == base.shared.bounds.up.y * SIZE ==>
        base.finished && propQueue == [] &&
        OnlySunChanged(old(base.shared.buffer.voxels[..]), base.shared.buffer.voxels[..]) &&
        (forall v :: InChunk(v) ==>
          SunLightAt(base.shared.buffer.voxels[..], v) ==
            if IsEmptyAt(old(base.shared.buffer.voxels[..]), v) && OpenBetween(old(base.shared.buffer.voxels[..]), ColumnTop(v), v)
            then SUNLIGHT_MAX_VALUE else SunLightAt(old(base.shared.buffer.voxels[..]), v)) &&
        exists bottom: seq<Vec3> ::
          (forall b :: b in bottom <==>
            InChunk(b) && b.y == SIZE - 1 && OpenBetween(old(base.shared.buffer.voxels[..]), b, Vec3(b.x, -1, b.z))) &&
          base.shared.outbox == old(base.shared.outbox) + Announced(base.shared.pos, base.shared.bounds, bottom)
    {
      if base.shared.pos.y == base.shared.bounds.up.y * SIZE {
        var buffer := base.shared.buffer;
        ghost var s0 := buffer.voxels[..];
        SeedTopRow();
        ghost var s1 := buffer.voxels[..];
        ghost var seeds := propQueue;
        InReachSameTypes(s0, s1, seeds);
        var bottom := PropagateSunlight();
        forall v | InChunk(v)
          ensures SunLightAt(buffer.voxels[..], v) ==
            if IsEmptyAt(s0, v) && OpenBetween(s0, ColumnTop(v), v) then SUNLIGHT_MAX_VALUE else SunLightAt(s0, v)
        {
          SkyLight(s0, v);
        }
        forall b
          ensures b in bottom <==> InChunk(b) && b.y == SIZE - 1 && OpenBetween(s0, b, Vec3(b.x, -1, b.z))
        {
          FloorOpen(s0, b);
        }
      }
    }

    /** The voxels handed down by the chunk above join the queue, which is then drained. */
    method AddToPropagationQueue(voxels: seq<Vec3>) returns (bottom: seq<Vec3>)
      requires Valid() && base.shared.buffer.Allocated()
      modifies this, base, base.shared, base.shared.buffer.voxels
      ensures Valid() && propQueue == [] && base.finished && base.done == old(base.done)
      ensures OnlySunChanged(old(base.shared.buffer.voxels[..]), base.shared.buffer.voxels[..])
      ensures forall v :: InChunk(v) ==>
        SunLightAt(base.shared.buffer.voxels[..], v) ==
          if InReach(old(base.shared.buffer.voxels[..]), old(propQueue) + voxels, v) && IsEmptyAt(old(base.shared.buffer.voxels[..]), v)
          then SUNLIGHT_MAX_VALUE else SunLightAt(old(base.shared.buffer.voxels[..]), v)
      ensures forall b :: b in bottom <==>
        exists r :: InReach(old(base.shared.buffer.voxels[..]), old(propQueue) + voxels, r) && !InChunk(r) && b == ColumnTop(r)
      ensures bottom == Bottoms(old(base.shared.buffer.voxels[..]), old(propQueue) + voxels)
      ensures base.shared.outbox == old(base.shared.outbox) + Announced(base.shared.pos, base.shared.bounds, bottom)
      ensures base.shared.voxelCount == old(base.shared.voxelCount)
      ensures base.shared.errors == old(base.shared.errors) + (if old(base.finished) then 1 else 0)
    {
      propQueue := propQueue + voxels;
      bottom := PropagateSunlight();
    }

    /**
     * What handling msg did, from the state before it to the state now,
     * with out the outbox after it: voxels from the chunk above join the
     * queue, exactly the empty voxels in reach of the queue get full
     * sunlight, the columns leaving the floor are handed on (or END is sent
     * below) and the stage finishes; END finishes the stage and changes
     * nothing else; any other message is logged and changes nothing else.
     */
    twostate predicate Handled(msg: Message, out: seq<Message>)
      requires old(base.shared.buffer.Allocated()) && base.shared.buffer.Allocated()
      reads this, base, base.shared`errors, base.shared.buffer, base.shared.buffer.voxels
    {
      var s0 := old(base.shared.buffer.voxels[..]);
      var s := base.shared.buffer.voxels[..];
      if msg.SunlightProp? then
        var q := old(propQueue) + msg.voxels;
        base.finished && propQueue == [] && OnlySunChanged(s0, s) &&
        (forall v :: InChunk(v) ==>
          SunLightAt(s, v) == if InReach(s0, q, v) && IsEmptyAt(s0, v) then SUNLIGHT_MAX_VALUE else SunLightAt(s0, v)) &&
        out == old(base.shared.outbox) + Announced(base.shared.pos, base.shared.bounds, Bottoms(s0, q)) &&
        base.shared.errors == old(base.shared.errors) + (if old(base.finished) then 1 else 0)
      else if msg.SunlightPropEnd? then
        base.finished && propQueue == old(propQueue) && s == s0 && out == old(base.shared.outbox) &&
        base.shared.errors == old(base.shared.errors) + (if old(base.finished) then 1 else 0)
      else
        base.finished == old(base.finished) && propQueue == old(propQueue) && s == s0 &&
        out == old(base.shared.outbox) && base.shared.errors == old(base.shared.errors) + 1
    }

    /**
     * Voxels from the chunk above are propagated; the word that no sunlight
     * will come finishes the stage; anything else is logged.
     */
    method Dispatch(msg: Message)
      requires Valid() && base.shared.buffer.Allocated() && WellTyped(msg)
      modifies this, base, base.shared, base.shared.buffer.voxels
      ensures Valid() && base.done == old(base.done) && base.shared.voxelCount == old(base.shared.voxelCount)
      ensures base.shared.buffer.Allocated() && Handled(msg, base.shared.outbox)
    {
      ActionsOfKinds(msg);
      if msg.Action() == SUNLIGHT_PROP {
        var _ := AddToPropagationQueue(msg.voxels);
      } else if msg.Action() == SUNLIGHT_PROP_END {
        base.Finish();
      } else {
        base.Unexpected(msg);
      }
    }
  }
}
