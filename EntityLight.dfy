/**
 * The dynamic-light state that EntityMixin adds to every entity and the
 * per-tick update that keeps the set of lit chunks and the renderer in step
 * with the entity.
 */
module EntityLight {
  import opened JavaMath
  import opened ChunkGeometry
  import opened LitChunkWalk
  import opened LightState

  /** The world renderer, reduced to the log of chunk rebuilds requested from it. */
  class Renderer {
    var rebuilds: seq<ChunkPos>

    constructor ()
      ensures rebuilds == []
    {
      rebuilds := [];
    }

    /** `LambDynLights.scheduleChunkRebuild(renderer, pos)`: one more rebuild request. */
    method ScheduleChunkRebuild(pos: ChunkPos)
      modifies this
      ensures rebuilds == old(rebuilds) + [pos]
    {
      rebuilds := rebuilds + [pos];
    }
  }

  /** `s` lists every chunk of `chunks`, each exactly once. */
  ghost predicate Enumerates(s: seq<ChunkPos>, chunks: set<ChunkPos>)
  {
    Distinct(s) && Elements(s) == chunks
  }

  /**
   * The rebuild log `after` extends `before` by the walked chunks, in walk
   * order, followed by each chunk of `leftover` once, in any order.
   */
  ghost predicate RequestedAfter(before: seq<ChunkPos>, after: seq<ChunkPos>, walk: seq<ChunkPos>, leftover: set<ChunkPos>)
  {
    |before| + |walk| <= |after| &&
    after[..|before|] == before &&
    after[|before|..|before| + |walk|] == walk &&
    Enumerates(after[|before| + |walk|..], leftover)
  }

  /** The walk's requests followed by those of the leftover loop make up one update's requests. */
  lemma RequestsCompose(before: seq<ChunkPos>, mid: seq<ChunkPos>, after: seq<ChunkPos>, walk: seq<ChunkPos>, leftover: set<ChunkPos>)
    requires mid == before + walk
    requires RequestedAfter(mid, after, [], leftover)
    ensures RequestedAfter(before, after, walk, leftover)
  {
    assert after[..|mid|] == mid;
    assert after[..|before|] == mid[..|before|];
    assert after[|before|..|before| + |walk|] == mid[|before|..];
    assert |before| + |walk| == |mid|;
  }

  /**
   * An update whose requests are the walk followed by the previously tracked
   * chunks the walk did not revisit requests exactly the chunks of the old and
   * the new tracked sets: vacated and newly lit chunks are all rebuilt, and
   * no other chunk is.
   */
  lemma RebuildCoverage(before: seq<ChunkPos>, after: seq<ChunkPos>, walk: seq<ChunkPos>, tracked: set<ChunkPos>)
    requires RequestedAfter(before, after, walk, tracked - Elements(walk))
    ensures Elements(after[|before|..]) == tracked + Elements(walk)
  {
    var requests := after[|before|..];
    assert requests == walk + after[|before| + |walk|..];
    ElementsAppend(walk, after[|before| + |walk|..]);
    forall p | p in tracked + Elements(walk)
      ensures p in requests
    {
      if p in Elements(walk) {
        var k :| 0 <= k < |walk| && walk[k] == p;
        assert requests[k] == p;
      } else {
        assert p in Elements(after[|before| + |walk|..]);
        var k :| 0 <= k < |after[|before| + |walk|..]| && after[|before| + |walk|..][k] == p;
        assert requests[|walk| + k] == p;
      }
    }
  }

  /**
   * The outcome of one swap of the lit chunks, for a light of luminance
   * `luminance` sampled at `e`, from the tracked set `oldTracked` and the
   * request log `before` to `tracked` and `after`:
   *  - the tracked set is exactly the walked set: empty when dark, otherwise
   *    the cube of eight;
   *  - the log grows by the walk, in order, then by each tracked chunk the
   *    walk left, once each;
   *  - so the requested chunks are exactly the old and the new lit chunks.
   */
  ghost predicate LitChunksSwapped(e: EntitySample, luminance: int, oldTracked: set<ChunkPos>, tracked: set<ChunkPos>,
                                   before: seq<ChunkPos>, after: seq<ChunkPos>)
  {
    tracked == Elements(LitWalk(e, luminance)) &&
    (|tracked| == 0 || |tracked| == 8) &&
    (luminance <= 0 ==> tracked == {}) &&
    RequestedAfter(before, after, LitWalk(e, luminance), oldTracked - Elements(LitWalk(e, luminance))) &&
    |before| <= |after| &&
    Elements(after[|before|..]) == oldTracked + tracked
  }

  /** Which of the external light-source hooks a tick hands over to. */
  datatype TickCall = SetDynamicLightDisabled | UpdateTracking

  /** The fields EntityMixin adds to an entity, and its methods. */
  class EntityLightSource {
    var luminance: int
    var lastLuminance: int
    var lastUpdate: int
    var prevX: real
    var prevY: real
    var prevZ: real
    var trackedLitChunkPos: set<ChunkPos>

    /** Luminances are never negative and the light claims no chunk or a cube of eight. */
    ghost predicate Valid()
      reads this
    {
      luminance >= 0 && lastLuminance >= 0 &&
      (|trackedLitChunkPos| == 0 || |trackedLitChunkPos| == 8)
    }

    /** The field initialisers: everything zero, nothing tracked. */
    constructor ()
      ensures Valid()
      ensures luminance == 0 && lastLuminance == 0 && lastUpdate == 0
      ensures prevX == 0.0 && prevY == 0.0 && prevZ == 0.0
      ensures trackedLitChunkPos == {}
    {
      luminance, lastLuminance, lastUpdate := 0, 0, 0;
      prevX, prevY, prevZ := 0.0, 0.0, 0.0;
      trackedLitChunkPos := {};
    }

    /**
     * `resetDynamicLight`: forgets the last applied luminance, so that the next
     * update with a non-zero luminance passes the change gate.
     */
    method ResetDynamicLight()
      requires Valid()
      modifies this`lastLuminance
      ensures Valid()
      ensures lastLuminance == 0
      ensures forall x, y, z :: luminance != 0 ==> ChangeGate(prevX, prevY, prevZ, x, y, z, lastLuminance, luminance)
    {
      lastLuminance := 0;
    }

    /** `shouldUpdateDynamicLight` with the configured mode and the clock reading `now`. */
    method ShouldUpdateDynamicLight(mode: LightsMode, now: int) returns (update: bool)
      modifies this`lastUpdate
      ensures ThrottleResult(update, lastUpdate) == Throttle(mode, old(lastUpdate), now)
    {
      if !mode.enabled {
        return false;
      }
      if mode.hasDelay {
        var currentTime := now;
        if currentTime < lastUpdate + mode.delay {
          return false;
        }
        lastUpdate := currentTime;
      }
      return true;
    }

    /**
     * `dynamicLightTick`: 15 when burning, 0 otherwise, raised to the handler's
     * luminance when that is larger.
     */
    method DynamicLightTick(onFire: bool, handlerLuminance: int)
      requires Valid()
      modifies this`luminance
      ensures Valid()
      ensures luminance == TickLuminance(onFire, handlerLuminance)
    {
      luminance := if onFire then 15 else 0;
      var handler := handlerLuminance;
      if handler > luminance {
        luminance := handler;
      }
    }

    /**
     * `LambDynLights.updateTrackedChunks(pos, trackedLitChunkPos, newPos)`,
     * whose body is not part of this model: it is taken to drop `pos` from the
     * tracked set, to add it to the new set, and to do nothing else.
     */
    method UpdateTrackedChunks(pos: ChunkPos, newPos: set<ChunkPos>) returns (newPos': set<ChunkPos>)
      modifies this`trackedLitChunkPos
      ensures trackedLitChunkPos == old(trackedLitChunkPos) - {pos}
      ensures newPos' == newPos + {pos}
    {
      trackedLitChunkPos := trackedLitChunkPos - {pos};
      newPos' := newPos + {pos};
    }

    /** Whether an update with this sample, mode and clock reading recomputes the lit chunks. */
    ghost predicate WillRecompute(e: EntitySample, mode: LightsMode, now: int)
      reads this
    {
      Throttle(mode, lastUpdate, now).update &&
      ChangeGate(prevX, prevY, prevZ, e.x, e.y, e.z, lastLuminance, luminance)
    }

    /**
     * `lambdynlights_scheduleTrackedChunksRebuild`: one rebuild request for
     * each tracked chunk.
     */
    method ScheduleTrackedChunksRebuild(renderer: Renderer)
      modifies renderer
      ensures RequestedAfter(old(renderer.rebuilds), renderer.rebuilds, [], trackedLitChunkPos)
    {
      var remaining := trackedLitChunkPos;
      ghost var emitted: seq<ChunkPos> := [];
      while remaining != {}
        invariant remaining <= trackedLitChunkPos
        invariant renderer.rebuilds == old(renderer.rebuilds) + emitted
        invariant Distinct(emitted)
        invariant Elements(emitted) == trackedLitChunkPos - remaining
        decreases remaining
      {
        var pos :| pos in remaining;
        renderer.ScheduleChunkRebuild(pos);
        ElementsAppend(emitted, [pos]);
        emitted := emitted + [pos];
        remaining := remaining - {pos};
      }
      assert renderer.rebuilds[|old(renderer.rebuilds)|..] == emitted;
    }

    /**
     * The chunk walk of `lambdynlights_updateDynamicLight`: when lit, requests a
     * rebuild of the origin chunk and of each chunk the seven iterations move
     * to, moving each from the tracked set to the new set it returns.
     */
    method WalkLitChunks(renderer: Renderer, e: EntitySample) returns (newPos: set<ChunkPos>)
      modifies this`trackedLitChunkPos, renderer
      ensures renderer.rebuilds == old(renderer.rebuilds) + LitWalk(e, luminance)
      ensures newPos == Elements(LitWalk(e, luminance))
      ensures trackedLitChunkPos == old(trackedLitChunkPos) - Elements(LitWalk(e, luminance))
      ensures luminance <= 0 ==> newPos == {}
    {
      newPos := {};
      ghost var before := renderer.rebuilds;
      ghost var oldTracked := trackedLitChunkPos;

      if luminance > 0 {
        var chunkPos := Origin(e.chunkX, e.eyeY, e.chunkZ);
        ghost var origin := chunkPos;

        renderer.ScheduleChunkRebuild(chunkPos);
        newPos := UpdateTrackedChunks(chunkPos, newPos);

        var directionX := BiasX(e.floorX);
        var directionY := BiasY(e.floorEyeY);
        var directionZ := BiasZ(e.floorZ);
        assert Walk(origin, directionX, directionY, directionZ, 0) == [origin];
        assert Elements([origin]) == {origin};

        for i := 0 to 7
          invariant chunkPos == Visit(origin, directionX, directionY, directionZ, i)
          invariant renderer.rebuilds == before + Walk(origin, directionX, directionY, directionZ, i)
          invariant newPos == Elements(Walk(origin, directionX, directionY, directionZ, i))
          invariant trackedLitChunkPos == oldTracked - Elements(Walk(origin, directionX, directionY, directionZ, i))
          modifies this`trackedLitChunkPos, renderer
        {
          ghost var current := chunkPos;
          if i % 4 == 0 {
            chunkPos := chunkPos.Offset(directionX); // X
          } else if i % 4 == 1 {
            chunkPos := chunkPos.Offset(directionZ); // XZ
          } else if i % 4 == 2 {
            chunkPos := chunkPos.Offset(directionX.Opposite()); // Z
          } else {
            chunkPos := chunkPos.Offset(directionZ.Opposite()); // origin
            chunkPos := chunkPos.Offset(directionY); // Y
          }
          assert chunkPos == Step(i, directionX, directionY, directionZ, current);
          WalkExtends(origin, directionX, directionY, directionZ, i,
                      before, oldTracked, renderer.rebuilds, newPos, trackedLitChunkPos);
          renderer.ScheduleChunkRebuild(chunkPos);
          newPos := UpdateTrackedChunks(chunkPos, newPos);
        }
      } else {
        assert Elements([]) == {};
      }
    }

    /**
     * The second half of the change gate's body in
     * `lambdynlights_updateDynamicLight`: requests a rebuild of every walked
     * chunk and then of every tracked chunk the walk left, and tracks the
     * walked chunks instead.
     */
    method SwapLitChunks(renderer: Renderer, e: EntitySample)
      modifies this`trackedLitChunkPos, renderer
      ensures LitChunksSwapped(e, luminance, old(trackedLitChunkPos), trackedLitChunkPos,
                               old(renderer.rebuilds), renderer.rebuilds)
    {
      ghost var before := renderer.rebuilds;
      ghost var oldTracked := trackedLitChunkPos;
      ghost var walk := LitWalk(e, luminance);
      var newPos := WalkLitChunks(renderer, e);
      assert |newPos| == 0 || |newPos| == 8 by {
        LitChunkCount(e, luminance);
      }

      // Schedules the rebuild of removed chunks.
      ScheduleTrackedChunksRebuild(renderer);
      RequestsCompose(before, before + walk, renderer.rebuilds, walk, oldTracked - Elements(walk));
      RebuildCoverage(before, renderer.rebuilds, walk, oldTracked);
      // Update tracked lit chunks.
      trackedLitChunkPos := newPos;
    }

    /**
     * The body of the change gate in `lambdynlights_updateDynamicLight`:
     * records the position and luminance, then swaps the lit chunks.
     */
    method RecomputeLitChunks(renderer: Renderer, e: EntitySample)
      requires Valid()
      modifies this`prevX, this`prevY, this`prevZ, this`lastLuminance, this`trackedLitChunkPos, renderer
      ensures Valid()
      ensures prevX == e.x && prevY == e.y && prevZ == e.z
      ensures lastLuminance == luminance
      ensures LitChunksSwapped(e, luminance, old(trackedLitChunkPos), trackedLitChunkPos,
                               old(renderer.rebuilds), renderer.rebuilds)
    {
      prevX, prevY, prevZ := e.x, e.y, e.z;
      lastLuminance := luminance;
      assert trackedLitChunkPos == old(trackedLitChunkPos) && renderer.rebuilds == old(renderer.rebuilds);
      SwapLitChunks(renderer, e);
    }

    /**
     * `lambdynlights_updateDynamicLight`: when the throttle and the change
     * gate both let it through, records the position and luminance and swaps
     * the lit chunks; otherwise changes nothing but what the throttle itself
     * records.
     */
    method UpdateDynamicLight(renderer: Renderer, e: EntitySample, mode: LightsMode, now: int)
      requires Valid()
      modifies this, renderer
      ensures Valid()
      ensures lastUpdate == Throttle(mode, old(lastUpdate), now).lastUpdate
      ensures luminance == old(luminance)
      ensures !old(WillRecompute(e, mode, now)) ==>
        prevX == old(prevX) && prevY == old(prevY) && prevZ == old(prevZ) &&
        lastLuminance == old(lastLuminance) &&
        trackedLitChunkPos == old(trackedLitChunkPos) &&
        renderer.rebuilds == old(renderer.rebuilds)
      ensures old(WillRecompute(e, mode, now)) ==>
        prevX == e.x && prevY == e.y && prevZ == e.z &&
        lastLuminance == luminance &&
        LitChunksSwapped(e, luminance, old(trackedLitChunkPos), trackedLitChunkPos,
                         old(renderer.rebuilds), renderer.rebuilds)
    {
      var update := ShouldUpdateDynamicLight(mode, now);
      if !update {
        return;
      }
      if ChangeGate(prevX, prevY, prevZ, e.x, e.y, e.z, lastLuminance, luminance) {
        RecomputeLitChunks(renderer, e);
      }
    }

    /**
     * `onTick` on the client: a removed entity hands over to
     * `setDynamicLightEnabled(false)`; otherwise the luminance is recomputed,
     * forced to 0 for a non-player entity when entity light sources are
     * switched off, and the entity hands over to `updateTracking`.
     */
    method OnTick(removed: bool, onFire: bool, handlerLuminance: int, entitiesLightSource: bool, isPlayer: bool)
      returns (call: TickCall)
      requires Valid()
      modifies this`luminance
      ensures Valid()
      ensures removed ==> call == SetDynamicLightDisabled && luminance == old(luminance)
      ensures !removed ==> call == UpdateTracking
      ensures !removed ==>
        luminance == (if !entitiesLightSource && !isPlayer then 0 else TickLuminance(onFire, handlerLuminance))
    {
      if removed {
        call := SetDynamicLightDisabled;
      } else {
        DynamicLightTick(onFire, handlerLuminance);
        if !entitiesLightSource && !isPlayer {
          luminance := 0;
        }
        call := UpdateTracking;
      }
    }

    /**
     * Idempotence: once an update has recomputed, a second update with the same
     * sample changes nothing but the throttle timestamp, and requests no rebuild.
     */
    method UpdateTwiceWithSameSample(renderer: Renderer, e: EntitySample, mode: LightsMode, now: int, later: int)
      requires Valid()
      modifies this, renderer
      ensures Valid()
      ensures lastUpdate == Throttle(mode, Throttle(mode, old(lastUpdate), now).lastUpdate, later).lastUpdate
      ensures luminance == old(luminance)
      ensures old(WillRecompute(e, mode, now)) ==>
        prevX == e.x && prevY == e.y && prevZ == e.z &&
        lastLuminance == luminance &&
        LitChunksSwapped(e, luminance, old(trackedLitChunkPos), trackedLitChunkPos,
                         old(renderer.rebuilds), renderer.rebuilds)
    {
      UpdateDynamicLight(renderer, e, mode, now);
      UpdateDynamicLight(renderer, e, mode, later);
    }
  }
}
