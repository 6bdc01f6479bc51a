/**
 * Which chunks one light source lights: the origin chunk, the three bias
 * directions and the fixed seven-step walk from the origin
 * (EntityMixin.lambdynlights_updateDynamicLight, lines 179-202).
 */
module LitChunkWalk {
  import opened JavaMath
  import opened ChunkGeometry

  /**
   * What the entity reports on one update: its position (`getX`, `getY`,
   * `getZ`), its eye height (`getEyeY`), the chunk indices the engine keeps
   * for it (`chunkX`, `chunkZ`) and `MathHelper.fastFloor` of x, eye height
   * and z, which are not computed here.
   */
  datatype EntitySample = EntitySample(
    x: real, y: real, z: real, eyeY: real,
    chunkX: int, chunkZ: int,
    floorX: int32, floorEyeY: int32, floorZ: int32)

  /** `(floor(x) & 15) >= 8 ? EAST : WEST`: the half of the chunk the light is in along x. */
  function BiasX(floorX: int32): (d: Direction)
    ensures OnXAxis(d)
    ensures d == East <==> (floorX as int) % 16 >= 8
  {
    AndFifteenIsFloorMod(floorX);
    if And(floorX, 15) >= 8 then East else West
  }

  /** `(floor(eyeY) & 15) >= 8 ? UP : DOWN`. */
  function BiasY(floorEyeY: int32): (d: Direction)
    ensures OnYAxis(d)
    ensures d == Up <==> (floorEyeY as int) % 16 >= 8
  {
    AndFifteenIsFloorMod(floorEyeY);
    if And(floorEyeY, 15) >= 8 then Up else Down
  }

  /** `(floor(z) & 15) >= 8 ? SOUTH : NORTH`. */
  function BiasZ(floorZ: int32): (d: Direction)
    ensures OnZAxis(d)
    ensures d == South <==> (floorZ as int) % 16 >= 8
  {
    AndFifteenIsFloorMod(floorZ);
    if And(floorZ, 15) >= 8 then South else North
  }

  /**
   * The origin chunk `(chunkX, floorDiv((int) eyeY, 16), chunkZ)`: its y is
   * the 16-block slice holding the eye height truncated toward zero.
   */
  function Origin(chunkX: int, eyeY: real, chunkZ: int): (o: ChunkPos)
    ensures o.x == chunkX && o.z == chunkZ
    ensures 16 * o.y <= DoubleToInt(eyeY) as int < 16 * o.y + 16
  {
    ChunkPos(chunkX, FloorDiv(DoubleToInt(eyeY) as int, 16), chunkZ)
  }

  /**
   * The move made by iteration `i` of the walk loop: a single step to an
   * adjacent chunk, except for every fourth iteration, which makes two.
   */
  function Step(i: nat, dx: Direction, dy: Direction, dz: Direction, p: ChunkPos): (q: ChunkPos)
    ensures i % 4 != 3 ==> Distance(p, q) == 1
    ensures i % 4 == 3 ==> Distance(p, q) <= 2
  {
    if i % 4 == 0 then p.Offset(dx)
    else if i % 4 == 1 then p.Offset(dz)
    else if i % 4 == 2 then p.Offset(dx.Opposite())
    else p.Offset(dz.Opposite()).Offset(dy)
  }

  /**
   * The chunk the walk stands on after `i` iterations.  With axis-aligned
   * biases, every four iterations go once around the square spanned by the x
   * and z biases and climb one step along the y bias.
   */
  function Visit(o: ChunkPos, dx: Direction, dy: Direction, dz: Direction, i: nat): (r: ChunkPos)
    ensures AxisAligned(dx, dy, dz) ==>
      r.x == o.x + (if i % 4 == 1 || i % 4 == 2 then dx.OffsetX() else 0) &&
      r.y == o.y + i / 4 * dy.OffsetY() &&
      r.z == o.z + (if i % 4 == 2 || i % 4 == 3 then dz.OffsetZ() else 0)
  {
    if i == 0 then o
    else
      var k := i - 1;
      assert k % 4 == 3 ==> i % 4 == 0 && i / 4 == k / 4 + 1;
      assert k % 4 != 3 ==> i % 4 == k % 4 + 1 && i / 4 == k / 4;
      assert (k / 4 + 1) * dy.OffsetY() == k / 4 * dy.OffsetY() + dy.OffsetY();
      Step(k, dx, dy, dz, Visit(o, dx, dy, dz, k))
  }

  /** The chunks visited by the origin and the first `n` iterations of the walk, in order. */
  function Walk(o: ChunkPos, dx: Direction, dy: Direction, dz: Direction, n: nat): (w: seq<ChunkPos>)
    ensures |w| == n + 1 && w[0] == o
  {
    if n == 0 then [o] else Walk(o, dx, dy, dz, n - 1) + [Visit(o, dx, dy, dz, n)]
  }

  lemma {:induction false} WalkAt(o: ChunkPos, dx: Direction, dy: Direction, dz: Direction, n: nat, k: nat)
    requires k <= n
    ensures Walk(o, dx, dy, dz, n)[k] == Visit(o, dx, dy, dz, k)
  {
    if k < n {
      WalkAt(o, dx, dy, dz, n - 1, k);
    }
  }

  /**
   * One more iteration of the walk loop keeps its bookkeeping in step: the
   * request log, the new set and the old tracked set each account for the
   * chunk the iteration moves to.
   */
  lemma WalkExtends(o: ChunkPos, dx: Direction, dy: Direction, dz: Direction, i: nat,
                    before: seq<ChunkPos>, oldTracked: set<ChunkPos>,
                    requests: seq<ChunkPos>, newPos: set<ChunkPos>, tracked: set<ChunkPos>)
    requires requests == before + Walk(o, dx, dy, dz, i)
    requires newPos == Elements(Walk(o, dx, dy, dz, i))
    requires tracked == oldTracked - Elements(Walk(o, dx, dy, dz, i))
    ensures var next := Visit(o, dx, dy, dz, i + 1);
      next == Step(i, dx, dy, dz, Visit(o, dx, dy, dz, i)) &&
      requests + [next] == before + Walk(o, dx, dy, dz, i + 1) &&
      newPos + {next} == Elements(Walk(o, dx, dy, dz, i + 1)) &&
      tracked - {next} == oldTracked - Elements(Walk(o, dx, dy, dz, i + 1))
  {
    var w := Walk(o, dx, dy, dz, i);
    var next := Visit(o, dx, dy, dz, i + 1);
    ElementsAppend(w, [next]);
    assert Elements([next]) == {next};
  }

  /**
   * Reference definition of the lit neighbourhood: the 2x2x2 block of chunks
   * spanned by the origin and one step along each bias direction.
   */
  ghost predicate InCube(p: ChunkPos, o: ChunkPos, dx: Direction, dy: Direction, dz: Direction)
  {
    (p.x == o.x || p.x == o.x + dx.OffsetX()) &&
    (p.y == o.y || p.y == o.y + dy.OffsetY()) &&
    (p.z == o.z || p.z == o.z + dz.OffsetZ())
  }

  function Elements(s: seq<ChunkPos>): set<ChunkPos>
  {
    set p | p in s
  }

  lemma ElementsAppend(a: seq<ChunkPos>, b: seq<ChunkPos>)
    ensures Elements(a + b) == Elements(a) + Elements(b)
  {
    assert forall p :: p in a + b <==> p in a || p in b;
  }

  predicate Distinct(s: seq<ChunkPos>)
  {
    forall i, j :: 0 <= i < j < |s| ==> s[i] != s[j]
  }

  lemma {:induction false} DistinctElements(s: seq<ChunkPos>)
    requires Distinct(s)
    ensures |Elements(s)| == |s|
  {
    if s != [] {
      var init := s[..|s| - 1];
      DistinctElements(init);
      assert Elements(s) == Elements(init) + {s[|s| - 1]};
      assert s[|s| - 1] !in Elements(init);
    }
  }

  /** Each bias direction moves along its own axis only. */
  predicate AxisAligned(dx: Direction, dy: Direction, dz: Direction)
  {
    dx.OffsetY() == 0 && dx.OffsetZ() == 0 &&
    dy.OffsetX() == 0 && dy.OffsetZ() == 0 &&
    dz.OffsetX() == 0 && dz.OffsetY() == 0
  }

  /** Bias directions are axis-aligned and each moves along its own axis. */
  lemma AxisOffsets(dx: Direction, dy: Direction, dz: Direction)
    requires OnXAxis(dx) && OnYAxis(dy) && OnZAxis(dz)
    ensures AxisAligned(dx, dy, dz)
    ensures dx.OffsetX() != 0 && dy.OffsetY() != 0 && dz.OffsetZ() != 0
  {
  }

  /**
   * The seven iterations visit, in order: the origin, +x, +x+z, +z, then the
   * same four one step along the y bias (x, y and z steps being those of the
   * three bias directions).
   */
  lemma WalkVisitsCorners(o: ChunkPos, dx: Direction, dy: Direction, dz: Direction)
    requires OnXAxis(dx) && OnYAxis(dy) && OnZAxis(dz)
    ensures var w, sx, sy, sz := Walk(o, dx, dy, dz, 7), dx.OffsetX(), dy.OffsetY(), dz.OffsetZ();
      w[0] == o && w[1] == ChunkPos(o.x + sx, o.y, o.z) &&
      w[2] == ChunkPos(o.x + sx, o.y, o.z + sz) && w[3] == ChunkPos(o.x, o.y, o.z + sz) &&
      w[4] == ChunkPos(o.x, o.y + sy, o.z) && w[5] == ChunkPos(o.x + sx, o.y + sy, o.z) &&
      w[6] == ChunkPos(o.x + sx, o.y + sy, o.z + sz) && w[7] == ChunkPos(o.x, o.y + sy, o.z + sz)
  {
    AxisOffsets(dx, dy, dz);
    WalkSeven(o, dx, dy, dz);
  }

  /** The walk of seven iterations lists the origin and the chunk reached after each iteration. */
  lemma WalkSeven(o: ChunkPos, dx: Direction, dy: Direction, dz: Direction)
    ensures var w := Walk(o, dx, dy, dz, 7);
      w[0] == o && w[1] == Visit(o, dx, dy, dz, 1) && w[2] == Visit(o, dx, dy, dz, 2) &&
      w[3] == Visit(o, dx, dy, dz, 3) && w[4] == Visit(o, dx, dy, dz, 4) && w[5] == Visit(o, dx, dy, dz, 5) &&
      w[6] == Visit(o, dx, dy, dz, 6) && w[7] == Visit(o, dx, dy, dz, 7)
  {
    forall k | 0 <= k < 8
      ensures Walk(o, dx, dy, dz, 7)[k] == Visit(o, dx, dy, dz, k)
    {
      WalkAt(o, dx, dy, dz, 7, k);
    }
  }

  /**
   * The walk lights exactly the 2x2x2 cube at the origin: eight pairwise
   * distinct chunks, the first four at the origin's height and the last four
   * one step along the y bias.
   */
  lemma WalkIsCube(o: ChunkPos, dx: Direction, dy: Direction, dz: Direction)
    requires OnXAxis(dx) && OnYAxis(dy) && OnZAxis(dz)
    ensures |Walk(o, dx, dy, dz, 7)| == 8
    ensures Distinct(Walk(o, dx, dy, dz, 7))
    ensures |Elements(Walk(o, dx, dy, dz, 7))| == 8
    ensures forall p :: p in Walk(o, dx, dy, dz, 7) <==> InCube(p, o, dx, dy, dz)
    ensures forall k :: 0 <= k < 4 ==> Walk(o, dx, dy, dz, 7)[k].y == o.y
    ensures forall k :: 4 <= k < 8 ==> Walk(o, dx, dy, dz, 7)[k].y == o.y + dy.OffsetY()
  {
    WalkVisitsCorners(o, dx, dy, dz);
    WalkDistinct(o, dx, dy, dz);
    WalkCoversCube(o, dx, dy, dz);
    DistinctElements(Walk(o, dx, dy, dz, 7));
  }

  /** No chunk of the cube is requested twice in one walk. */
  lemma WalkDistinct(o: ChunkPos, dx: Direction, dy: Direction, dz: Direction)
    requires OnXAxis(dx) && OnYAxis(dy) && OnZAxis(dz)
    ensures Distinct(Walk(o, dx, dy, dz, 7))
  {
    WalkVisitsCorners(o, dx, dy, dz);
    AxisOffsets(dx, dy, dz);
  }

  /** The walk visits a chunk exactly when that chunk lies in the cube at the origin. */
  lemma WalkCoversCube(o: ChunkPos, dx: Direction, dy: Direction, dz: Direction)
    requires OnXAxis(dx) && OnYAxis(dy) && OnZAxis(dz)
    ensures forall p :: p in Walk(o, dx, dy, dz, 7) <==> InCube(p, o, dx, dy, dz)
  {
    WalkVisitsCorners(o, dx, dy, dz);
    AxisOffsets(dx, dy, dz);
  }

  /** The walk the update performs for this sample at this luminance: none when the light is off. */
  function LitWalk(e: EntitySample, luminance: int): (w: seq<ChunkPos>)
    ensures w == [] <==> luminance <= 0
    ensures luminance > 0 ==> |w| == 8 && w[0] == Origin(e.chunkX, e.eyeY, e.chunkZ)
  {
    if luminance <= 0 then []
    else Walk(Origin(e.chunkX, e.eyeY, e.chunkZ), BiasX(e.floorX), BiasY(e.floorEyeY), BiasZ(e.floorZ), 7)
  }

  /** The chunks a light source claims: nothing when dark, otherwise the cube of eight at its origin. */
  lemma LitChunks(e: EntitySample, luminance: int)
    ensures luminance <= 0 ==> LitWalk(e, luminance) == []
    ensures luminance > 0 ==>
      var o := Origin(e.chunkX, e.eyeY, e.chunkZ);
      |LitWalk(e, luminance)| == 8 && Distinct(LitWalk(e, luminance)) &&
      |Elements(LitWalk(e, luminance))| == 8 &&
      LitWalk(e, luminance)[0] == o &&
      forall p :: p in LitWalk(e, luminance) <==> InCube(p, o, BiasX(e.floorX), BiasY(e.floorEyeY), BiasZ(e.floorZ))
  {
    if luminance > 0 {
      WalkIsCube(Origin(e.chunkX, e.eyeY, e.chunkZ), BiasX(e.floorX), BiasY(e.floorEyeY), BiasZ(e.floorZ));
    }
  }

  /** A light source claims no chunk when dark and eight when lit. */
  lemma LitChunkCount(e: EntitySample, luminance: int)
    ensures |Elements(LitWalk(e, luminance))| == if luminance <= 0 then 0 else 8
  {
    if luminance > 0 {
      WalkIsCube(Origin(e.chunkX, e.eyeY, e.chunkZ), BiasX(e.floorX), BiasY(e.floorEyeY), BiasZ(e.floorZ));
    } else {
      assert Elements([]) == {};
    }
  }

  /**
   * The origin's y comes from the eye height truncated toward zero, not
   * floored: it is the chunk holding the eye except when the eye is just
   * below a multiple of 16 at or under zero (between 16k-1 and 16k, k <= 0),
   * where it is the chunk above.
   */
  lemma OriginVersusEyeChunk(chunkX: int, eyeY: real, chunkZ: int)
    requires -0x8000_0000 as real < eyeY < 0x8000_0000 as real
    ensures var eyeChunk := FloorDiv(eyeY.Floor, 16);
      Origin(chunkX, eyeY, chunkZ).y ==
        if eyeY < 0.0 && eyeY != eyeY.Floor as real && (eyeY.Floor + 1) % 16 == 0
        then eyeChunk + 1 else eyeChunk
  {
    var t := DoubleToInt(eyeY) as int;
    var f := eyeY.Floor;
    if eyeY >= 0.0 || eyeY == f as real {
      assert t == f;
    } else {
      assert t == f + 1;
    }
  }

  /** An eye at y = -0.5 is in chunk -1, yet the walk starts from chunk 0. */
  lemma OriginJustBelowZero(chunkX: int, chunkZ: int)
    ensures Origin(chunkX, -0.5, chunkZ).y == 0
    ensures FloorDiv((-0.5).Floor, 16) == -1
  {
    OriginVersusEyeChunk(chunkX, -0.5, chunkZ);
  }

  /**
   * What the truncated origin means for a light whose eye is half a block
   * below y = 0 (eye chunk -1): the y bias points up, the origin is chunk 0,
   * and the lit cube covers chunks 0 and 1 only, so the chunk holding the eye
   * is never lit.
   */
  lemma EyeChunkUnlitJustBelowZero(e: EntitySample, luminance: int)
    requires e.eyeY == -0.5 && e.floorEyeY == -1 && luminance > 0
    ensures BiasY(e.floorEyeY) == Up
    ensures Origin(e.chunkX, e.eyeY, e.chunkZ).y == 0
    ensures forall p :: p in LitWalk(e, luminance) ==> p.y == 0 || p.y == 1
    ensures forall p :: p in LitWalk(e, luminance) ==> p.y != FloorDiv(e.eyeY.Floor, 16)
  {
    OriginJustBelowZero(e.chunkX, e.chunkZ);
    LitChunks(e, luminance);
  }
}
