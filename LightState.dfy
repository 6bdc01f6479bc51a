/**
 * The decisions a light source takes before touching any chunk: the update
 * throttle (EntityMixin.shouldUpdateDynamicLight), the change gate of
 * lambdynlights_updateDynamicLight and the luminance of dynamicLightTick.
 */
module LightState {

  /**
   * The configured dynamic-lights mode, as its getters report it:
   * `isEnabled()`, `hasDelay()` and `getDelay()` in milliseconds.
   */
  datatype LightsMode = LightsMode(enabled: bool, hasDelay: bool, delay: int)

  /** Whether to update now, and the `lastUpdate` timestamp afterwards. */
  datatype ThrottleResult = ThrottleResult(update: bool, lastUpdate: int)

  /**
   * The throttle at time `now` given the timestamp `lastUpdate`: off when the
   * mode is disabled; with a delay, off until `lastUpdate + delay`, and when
   * it lets an update through it moves the timestamp to `now`.
   */
  function Throttle(mode: LightsMode, lastUpdate: int, now: int): (r: ThrottleResult)
    ensures r.update <==> mode.enabled && (!mode.hasDelay || now >= lastUpdate + mode.delay)
    ensures !r.update ==> r.lastUpdate == lastUpdate
    ensures r.update ==> r.lastUpdate == (if mode.hasDelay then now else lastUpdate)
  {
    if !mode.enabled then ThrottleResult(false, lastUpdate)
    else if mode.hasDelay && now < lastUpdate + mode.delay then ThrottleResult(false, lastUpdate)
    else if mode.hasDelay then ThrottleResult(true, now)
    else ThrottleResult(true, lastUpdate)
  }

  /** The times, among successive calls at `times`, at which the throttle lets an update through. */
  function Accepted(mode: LightsMode, lastUpdate: int, times: seq<int>): (acc: seq<int>)
    ensures |acc| <= |times|
    ensures forall t :: t in acc ==> t in times
    decreases |times|
  {
    if times == [] then []
    else
      var r := Throttle(mode, lastUpdate, times[0]);
      (if r.update then [times[0]] else []) + Accepted(mode, r.lastUpdate, times[1..])
  }

  /**
   * With a delay configured, updates that get through are at least `delay`
   * milliseconds apart, and the first is at least `delay` after the stored
   * timestamp: the throttle bounds how often a light is recomputed.
   */
  lemma {:induction false} ThrottleSpacing(mode: LightsMode, lastUpdate: int, times: seq<int>)
    requires mode.enabled && mode.hasDelay
    ensures var acc := Accepted(mode, lastUpdate, times);
      (|acc| > 0 ==> acc[0] >= lastUpdate + mode.delay) &&
      forall k :: 0 < k < |acc| ==> acc[k] >= acc[k - 1] + mode.delay
    decreases |times|
  {
    if times != [] {
      var r := Throttle(mode, lastUpdate, times[0]);
      ThrottleSpacing(mode, r.lastUpdate, times[1..]);
      var rest := Accepted(mode, r.lastUpdate, times[1..]);
      assert Accepted(mode, lastUpdate, times) == (if r.update then [times[0]] else []) + rest;
    }
  }

  /** Without a delay every call of an enabled mode gets through; a disabled mode lets none through. */
  lemma {:induction false} ThrottleWithoutDelay(mode: LightsMode, lastUpdate: int, times: seq<int>)
    ensures mode.enabled && !mode.hasDelay ==> Accepted(mode, lastUpdate, times) == times
    ensures !mode.enabled ==> Accepted(mode, lastUpdate, times) == []
    decreases |times|
  {
    if times != [] {
      ThrottleWithoutDelay(mode, Throttle(mode, lastUpdate, times[0]).lastUpdate, times[1..]);
    }
  }

  /** With a 500 ms delay, a second tick 100 ms after an update is suppressed; one 600 ms after is not. */
  lemma ThrottleExample(t: int)
    ensures Accepted(LightsMode(true, true, 500), t - 500, [t, t + 100]) == [t]
    ensures Accepted(LightsMode(true, true, 500), t - 500, [t, t + 600]) == [t, t + 600]
  {
    var mode := LightsMode(true, true, 500);
    assert Accepted(mode, t + 600, []) == [];
    assert Accepted(mode, t, [t + 100]) == [] + Accepted(mode, t, []);
    assert Accepted(mode, t, [t + 600]) == [t + 600] + Accepted(mode, t + 600, []);
  }

  function Abs(r: real): real { if r < 0.0 then -r else r }

  /** The movement threshold of the change gate, in blocks. */
  const MOVE_THRESHOLD: real := 0.1

  /**
   * The change gate: the light moved strictly more than 0.1 on some axis
   * since the last recomputation (y is the feet height, not the eye height),
   * or its luminance differs from the last applied one.
   */
  function ChangeGate(prevX: real, prevY: real, prevZ: real, x: real, y: real, z: real,
                      lastLuminance: int, luminance: int): (r: bool)
    ensures (prevX == x && prevY == y && prevZ == z && lastLuminance == luminance) ==> !r
    ensures luminance != lastLuminance ==> r
    ensures (Abs(x - prevX) > MOVE_THRESHOLD || Abs(y - prevY) > MOVE_THRESHOLD ||
             Abs(z - prevZ) > MOVE_THRESHOLD) ==> r
  {
    Abs(x - prevX) > MOVE_THRESHOLD || Abs(y - prevY) > MOVE_THRESHOLD || Abs(z - prevZ) > MOVE_THRESHOLD ||
    luminance != lastLuminance
  }

  /** The threshold is strict: a move of exactly 0.1 on one axis does not reopen the gate, 0.1000001 does. */
  lemma GateThresholdIsStrict(x: real, y: real, z: real, luminance: int)
    ensures !ChangeGate(x, y, z, x + 0.1, y, z, luminance, luminance)
    ensures ChangeGate(x, y, z, x + 0.1000001, y, z, luminance, luminance)
    ensures !ChangeGate(x, y, z, x, y - 0.1, z, luminance, luminance)
  {
  }

  /**
   * The luminance `dynamicLightTick` computes: the larger of 15 when burning
   * (0 otherwise) and what the entity's light handler reports.
   */
  function TickLuminance(onFire: bool, handlerLuminance: int): (r: int)
    ensures r >= 0
    ensures r >= handlerLuminance && (onFire ==> r >= 15)
    ensures r == handlerLuminance || r == (if onFire then 15 else 0)
  {
    var base := if onFire then 15 else 0;
    if handlerLuminance > base then handlerLuminance else base
  }
}
