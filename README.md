# LambDynamicLights entity light source, in Dafny

This project models the per-entity dynamic light of LambDynamicLights. The
model covers the state that `EntityMixin` adds to every entity, and the
per-tick logic that keeps that state in step with the entity:

- the luminance of the entity;
- the throttle that limits how often the light is recomputed;
- the change gate that skips a recomputation when the entity has not moved or changed brightness;
- the walk over the 2x2x2 block of chunks around the light;
- the swap of the set of lit chunks, together with the chunk rebuild requests that go to the world renderer.

Modules:

- `JavaMath`: the Java integer semantics the code relies on:
  - 32-bit `int`;
  - the two's-complement `&`, proved equal to the floor remainder for `& 15`;
  - the saturating, truncating `(int)` cast of a `double`;
  - `MathHelper.floorDiv`.
- `ChunkGeometry`:
  - the six `Direction`s, with their unit vectors and `getOpposite`;
  - chunk positions with `offset`.
- `LitChunkWalk`:
  - the bias directions and the origin chunk;
  - the seven-step walk, as specification functions;
  - the proof that the walk visits exactly the cube of eight chunks.
- `LightState`:
  - the throttle;
  - the change gate;
  - the luminance of `dynamicLightTick`, as functions;
  - lemmas about repeated throttled calls.
- `EntityLight`:
  - the class `EntityLightSource`, with the fields of the mixin (lines 65-71) and its methods;
  - a `Renderer` class that is reduced to a log of rebuild requests.

  Each method is proved against the functions above. `UpdateDynamicLight` states the complete new state in both cases:
  - when it does not recompute, nothing changes except what the throttle records;
  - when it recomputes:
    - the previous position and last luminance are refreshed;
    - the tracked set is exactly the walked set, which is empty when the light is dark;
    - the request log grows by the walk, in order, and then by each leftover tracked chunk exactly once;
    - every chunk in the old set or the new set is requested, and no other chunk is.

Two details of the code matter for negative heights and for the origin's x and z:

- **Origin y uses a truncated eye height.** The origin chunk's y is `floorDiv((int) eyeY, 16)`. The cast truncates toward zero, so it is not the floor of `eyeY / 16`. For an eye height in `(16k - 1, 16k)` with `k <= 0` (for example y = -0.5), the origin is one chunk above the chunk that holds the eye. `LitChunkWalk.OriginVersusEyeChunk` states exactly where the two differ. A consequence: for an eye at y = -0.5 the y bias points up (the floored eye height -1 has floor remainder 15), so the lit chunks have y 0 and 1, and the chunk -1 that holds the eye is never lit (`LitChunkWalk.EyeChunkUnlitJustBelowZero`).
- **The origin's x and z come from `chunkX` and `chunkZ`.** These are the entity's engine fields. They are not recomputed from the position.

## Model

Every source cell refers to `src/main/java/me/lambdaurora/lambdynlights/mixin/lightsource/EntityMixin.java`.

| member | source | states |
|---|---|---|
| JavaMath.AndFifteenIsFloorMod | src/main/java/me/lambdaurora/lambdynlights/mixin/lightsource/EntityMixin.java:185-187 | Java's `x & 15` on any `int`, negative ones included, equals the floor remainder `x mod 16`, which lies in [0, 16). |
| JavaMath.And | src/main/java/me/lambdaurora/lambdynlights/mixin/lightsource/EntityMixin.java:185-187 | Java's `&` on two `int`s, bit by bit on their two's-complement patterns. When either operand is non-negative, so is the result, and it is at most that operand. |
| JavaMath.BitAndLowMask | src/main/java/me/lambdaurora/lambdynlights/mixin/lightsource/EntityMixin.java:185-187 | ANDing a bit pattern with a mask of k low one-bits (k at most the width) leaves its remainder by 2^k. Proved by induction on k. |
| JavaMath.DoubleToInt | src/main/java/me/lambdaurora/lambdynlights/mixin/lightsource/EntityMixin.java:180 | The `(int)` cast of a `double` saturates at `Integer.MIN_VALUE` and `Integer.MAX_VALUE`. Inside that range it rounds toward zero: from below for positive values, from above for negative values. |
| JavaMath.FloorDiv | src/main/java/me/lambdaurora/lambdynlights/mixin/lightsource/EntityMixin.java:180 | `floorDiv(x, y)` for positive `y` is the q with `y*q <= x < y*q + y`. |
| ChunkGeometry.Direction.Opposite | src/main/java/me/lambdaurora/lambdynlights/mixin/lightsource/EntityMixin.java:195-197 | `getOpposite` returns a different direction whose unit vector is the negation of the original's. |
| ChunkGeometry.ChunkPos.Offset | src/main/java/me/lambdaurora/lambdynlights/mixin/lightsource/EntityMixin.java:191-198 | `offset(d)` moves to an adjacent chunk: Manhattan distance exactly 1 from the start. |
| LitChunkWalk.BiasX | src/main/java/me/lambdaurora/lambdynlights/mixin/lightsource/EntityMixin.java:185 | The x bias is an x-axis direction. It is EAST exactly when the floored x lies in the upper half (8..15) of its chunk, measured by floor remainder, and WEST otherwise. A tie at local 8 goes to EAST. |
| LitChunkWalk.BiasY | src/main/java/me/lambdaurora/lambdynlights/mixin/lightsource/EntityMixin.java:186 | The y bias is UP exactly when the floored eye height's floor remainder by 16 is at least 8, and DOWN otherwise. |
| LitChunkWalk.BiasZ | src/main/java/me/lambdaurora/lambdynlights/mixin/lightsource/EntityMixin.java:187 | The z bias is SOUTH exactly when the floored z's floor remainder by 16 is at least 8, and NORTH otherwise. |
| LitChunkWalk.Origin | src/main/java/me/lambdaurora/lambdynlights/mixin/lightsource/EntityMixin.java:180 | The origin chunk keeps `chunkX` and `chunkZ`. Its y is the 16-block slice that holds the truncated eye height. |
| LitChunkWalk.Step | src/main/java/me/lambdaurora/lambdynlights/mixin/lightsource/EntityMixin.java:190-198 | One iteration of the if-chain on `i % 4`. Iterations 0, 1 and 2 of each group of four move to an adjacent chunk. Iteration 3 makes two offsets, so it moves at most two steps. |
| LitChunkWalk.Visit | src/main/java/me/lambdaurora/lambdynlights/mixin/lightsource/EntityMixin.java:189-202 | The chunk reached after `i` iterations. With axis-aligned biases: x is one x step out for `i % 4` in {1, 2}, z is one z step out for `i % 4` in {2, 3}, and y has climbed `i / 4` steps along the y bias. |
| LitChunkWalk.Walk | src/main/java/me/lambdaurora/lambdynlights/mixin/lightsource/EntityMixin.java:189-202 | The origin followed by the chunk reached after each of the first `n` iterations: `n + 1` chunks, starting at the origin. |
| LitChunkWalk.OriginVersusEyeChunk | src/main/java/me/lambdaurora/lambdynlights/mixin/lightsource/EntityMixin.java:180 | The origin's y equals the floor chunk of the eye height, except when the eye is strictly between 16k-1 and 16k for k <= 0. In that case it is one chunk higher. |
| LitChunkWalk.OriginJustBelowZero | src/main/java/me/lambdaurora/lambdynlights/mixin/lightsource/EntityMixin.java:180 | An eye at y = -0.5 is in chunk -1, but the walk starts from chunk 0. |
| LitChunkWalk.EyeChunkUnlitJustBelowZero | src/main/java/me/lambdaurora/lambdynlights/mixin/lightsource/EntityMixin.java:180-202 | For an eye at y = -0.5 (floored eye height -1) and positive luminance: the y bias is UP, the origin is chunk 0, every lit chunk has y 0 or 1, and none is the eye's chunk -1. |
| LitChunkWalk.WalkExtends | src/main/java/me/lambdaurora/lambdynlights/mixin/lightsource/EntityMixin.java:189-201 | One loop iteration moves by the if-chain on `i % 4` and extends the walk by one chunk. That chunk is appended to the request log, added to the new set and removed from the old tracked set. |
| LitChunkWalk.WalkSeven | src/main/java/me/lambdaurora/lambdynlights/mixin/lightsource/EntityMixin.java:189-202 | The walk of seven iterations lists the origin and then, at index k, the chunk reached after k iterations. |
| LitChunkWalk.WalkVisitsCorners | src/main/java/me/lambdaurora/lambdynlights/mixin/lightsource/EntityMixin.java:180-202 | The eight chunks requested, in order, are: the origin, +x, +x+z, +z, and then the same four shifted one step along the y bias. |
| LitChunkWalk.WalkIsCube | src/main/java/me/lambdaurora/lambdynlights/mixin/lightsource/EntityMixin.java:180-202 | The walk visits 8 pairwise-distinct chunks, so the set holds 8 elements. A chunk is visited if and only if it lies in the 2x2x2 cube spanned by the origin and one step along each bias. The first four share the origin's y and the last four are one y step away. |
| LitChunkWalk.WalkDistinct | src/main/java/me/lambdaurora/lambdynlights/mixin/lightsource/EntityMixin.java:180-202 | No chunk appears twice among the eight chunks of the walk. |
| LitChunkWalk.WalkCoversCube | src/main/java/me/lambdaurora/lambdynlights/mixin/lightsource/EntityMixin.java:180-202 | A chunk is in the walk if and only if it lies in the 2x2x2 cube at the origin spanned by the three bias steps. |
| LitChunkWalk.LitWalk | src/main/java/me/lambdaurora/lambdynlights/mixin/lightsource/EntityMixin.java:179-203 | The chunks requested for a sample: none when the luminance is at most 0 (and only then), otherwise 8 chunks starting at the origin. |
| LitChunkWalk.LitChunks | src/main/java/me/lambdaurora/lambdynlights/mixin/lightsource/EntityMixin.java:177-203 | At luminance at most 0 the walk is empty. Otherwise it starts at the origin and visits exactly the cube's 8 distinct chunks. |
| LitChunkWalk.LitChunkCount | src/main/java/me/lambdaurora/lambdynlights/mixin/lightsource/EntityMixin.java:177-203 | A light claims 0 chunks when dark and 8 when lit. |
| LightState.Throttle | src/main/java/me/lambdaurora/lambdynlights/mixin/lightsource/EntityMixin.java:127-141 | An update is allowed if and only if the mode is enabled and either there is no delay or `now >= lastUpdate + delay`. A refusal leaves the timestamp unchanged. An allowed update sets the timestamp to `now` only when a delay is configured. |
| LightState.Accepted | src/main/java/me/lambdaurora/lambdynlights/mixin/lightsource/EntityMixin.java:127-141 | The calls, out of a sequence of call times, that the throttle lets through: no more calls than were made, and each accepted time is one of the call times. |
| LightState.ThrottleSpacing | src/main/java/me/lambdaurora/lambdynlights/mixin/lightsource/EntityMixin.java:132-138 | Over any sequence of calls with a delay configured: the first allowed update is at least `delay` after the stored timestamp, and successive allowed updates are at least `delay` apart. |
| LightState.ThrottleWithoutDelay | src/main/java/me/lambdaurora/lambdynlights/mixin/lightsource/EntityMixin.java:130-140 | With no delay, every call of an enabled mode is allowed. A disabled mode allows none. |
| LightState.ThrottleExample | src/main/java/me/lambdaurora/lambdynlights/mixin/lightsource/EntityMixin.java:132-138 | With a 500 ms delay, a call 100 ms after an update is refused and a call 600 ms after is allowed. |
| LightState.ChangeGate | src/main/java/me/lambdaurora/lambdynlights/mixin/lightsource/EntityMixin.java:165-171 | An unchanged position and luminance never pass the gate. A change of luminance always passes it, and so does a move of strictly more than 0.1 on any axis. |
| LightState.GateThresholdIsStrict | src/main/java/me/lambdaurora/lambdynlights/mixin/lightsource/EntityMixin.java:171 | A move of exactly 0.1 on one axis does not pass the gate. A move of 0.1000001 does. |
| LightState.TickLuminance | src/main/java/me/lambdaurora/lambdynlights/mixin/lightsource/EntityMixin.java:146-150 | The luminance is never negative. It is at least the handler's value and at least 15 when burning, and it is one of those two candidates: their maximum. |
| EntityLight.RequestsCompose | src/main/java/me/lambdaurora/lambdynlights/mixin/lightsource/EntityMixin.java:200-206 | The walk's requests followed by the requests of the leftover loop make up the whole request log of one update. |
| EntityLight.RebuildCoverage | src/main/java/me/lambdaurora/lambdynlights/mixin/lightsource/EntityMixin.java:182-208 | If an update's requests are the walk followed by the old tracked chunks the walk did not revisit, then the requested chunks are exactly the old tracked set together with the walked chunks. |
| EntityLight.Renderer.ScheduleChunkRebuild | src/main/java/me/lambdaurora/lambdynlights/mixin/lightsource/EntityMixin.java:182 | A rebuild request appends exactly that chunk to the renderer's log. |
| EntityLight.EntityLightSource.constructor | src/main/java/me/lambdaurora/lambdynlights/mixin/lightsource/EntityMixin.java:65-71 | The field initialisers: luminances and timestamp 0, no chunk tracked. |
| EntityLight.EntityLightSource.ResetDynamicLight | src/main/java/me/lambdaurora/lambdynlights/mixin/lightsource/EntityMixin.java:121-124 | Sets only `lastLuminance` to 0. Afterwards any update with non-zero luminance passes the change gate, wherever the entity is. |
| EntityLight.EntityLightSource.ShouldUpdateDynamicLight | src/main/java/me/lambdaurora/lambdynlights/mixin/lightsource/EntityMixin.java:127-141 | The answer and the new timestamp are those of `Throttle` applied to the old timestamp. |
| EntityLight.EntityLightSource.DynamicLightTick | src/main/java/me/lambdaurora/lambdynlights/mixin/lightsource/EntityMixin.java:144-151 | The luminance becomes `TickLuminance`: the larger of 15-if-burning and the handler's luminance. |
| EntityLight.EntityLightSource.UpdateTrackedChunks | src/main/java/me/lambdaurora/lambdynlights/mixin/lightsource/EntityMixin.java:183 | Assumed contract of `updateTrackedChunks`: the chunk is removed from the tracked set and added to the new set, and nothing else changes. |
| EntityLight.EntityLightSource.ScheduleTrackedChunksRebuild | src/main/java/me/lambdaurora/lambdynlights/mixin/lightsource/EntityMixin.java:212-218 | Requests a rebuild of every tracked chunk exactly once, in some order, and of nothing else. |
| EntityLight.EntityLightSource.WalkLitChunks | src/main/java/me/lambdaurora/lambdynlights/mixin/lightsource/EntityMixin.java:177-203 | The loop's requests are the walk, in walk order. The new set is the walked set, which is empty at luminance at most 0. The tracked set loses exactly the walked chunks. |
| EntityLight.EntityLightSource.SwapLitChunks | src/main/java/me/lambdaurora/lambdynlights/mixin/lightsource/EntityMixin.java:177-208 | Requests the walk and then each leftover tracked chunk once. Together these cover exactly the old and new lit chunks. The tracked set ends equal to the walked set: 0 or 8 chunks, and none when dark. |
| EntityLight.EntityLightSource.RecomputeLitChunks | src/main/java/me/lambdaurora/lambdynlights/mixin/lightsource/EntityMixin.java:172-208 | Records the position and luminance, then has the effects of `SwapLitChunks`. |
| EntityLight.EntityLightSource.UpdateDynamicLight | src/main/java/me/lambdaurora/lambdynlights/mixin/lightsource/EntityMixin.java:160-210 | The timestamp follows the throttle. If the throttle or the gate refuses, nothing else changes and nothing is requested. Otherwise the effects are those of `RecomputeLitChunks`. |
| EntityLight.EntityLightSource.UpdateTwiceWithSameSample | src/main/java/me/lambdaurora/lambdynlights/mixin/lightsource/EntityMixin.java:171-175 | Idempotence: after a recomputing update, a second update with the same sample changes nothing but the throttle timestamp and requests nothing. The luminance is never changed. |
| EntityLight.EntityLightSource.OnTick | src/main/java/me/lambdaurora/lambdynlights/mixin/lightsource/EntityMixin.java:73-87 | A removed entity hands over to `setDynamicLightEnabled(false)` and keeps its luminance. Otherwise: the luminance is recomputed; it is forced to 0 for a non-player entity when entity light sources are off; and the entity hands over to `updateTracking`. |

## Left out

- The Mixin machinery (`@Mixin`, `@Shadow`, `@Inject`, `CallbackInfo`) and the `world.isClient()` test are left out. `OnTick` models the client branch. `onRemove` (lines 89-94) only calls `setDynamicLightEnabled(false)`, which is not part of this model.
- `LambDynLights.scheduleChunkRebuild` is not part of this model. The renderer is reduced to an append-only log of requested chunks.
- `LambDynLights.updateTrackedChunks` is not part of this model. `UpdateTrackedChunks` carries the contract the update relies on: remove the position from the tracked set and add it to the new set.
- `LambDynLights.updateTracking` and `setDynamicLightEnabled` are not part of this model. `OnTick` returns which of the two it hands over to.
- The configuration, `DynamicLightsMode` and `EntityType` lookups become parameters:
  - the mode's enabled flag, delay flag and delay;
  - the entity-light-source switch;
  - whether the entity is a player.
- `DynamicLightHandlers.getLuminanceFrom` becomes the parameter `handlerLuminance`. `isOnFire()` becomes `onFire`.
- `System.currentTimeMillis()` becomes the parameter `now`.
- Floating point: positions and the 0.1 threshold are exact reals. NaN, infinities and double rounding are not modelled. `MathHelper.fastFloor` of x, eye height and z is an input (`floorX`, `floorEyeY`, `floorZ`), not computed.
- The entity's getters (`getX`, `getY`, `getZ`, `getEyeY`) and the engine fields `chunkX` and `chunkZ` are inputs in `EntitySample`. The trivial `getLuminance` and `getDynamicLight*` getters are read as fields.
- LightState.Throttle: `lastUpdate + delay` is computed on unbounded integers. The overflow of Java's `long` is not modelled, because a millisecond clock does not reach it.
- ChunkGeometry.ChunkPos.Offset: chunk coordinates are unbounded. The 32-bit wrap-around of `BlockPos` coordinates at the edge of the `int` range is not modelled.
- The iteration order of the `HashSet` in `lambdynlights_scheduleTrackedChunksRebuild` is left open. The model proves that each tracked chunk is requested exactly once, in some order.
- Structure: the body of the change gate (lines 172-208) is the method `RecomputeLitChunks`, which `UpdateDynamicLight` calls. It records the position and luminance and calls `SwapLitChunks` (lines 177-208), which calls `WalkLitChunks` for the chunk walk (lines 177-203). Their statements are those of the source, in the same order.
