/**
 * The camera-shake handler: on every scene-change notification it cancels its
 * interval; for a shake scene it starts a new 50 ms interval that applies 20
 * random offsets to the scene container and then puts it back at the origin.
 */
module Shake {

  import opened Host

  /** Scene ids that start a shake. */
  const ShakeScenes: set<int> := {9}

  /** Offsets applied by one shake before the container is reset. */
  const ShakeTicks: nat := 20

  predicate IsShakeScene(n: int) {
    n in ShakeScenes
  }

  /** The container's transform: at the origin, or moved by some random offset. */
  datatype Transform = Origin | Jitter

  /**
   * The handler's state: the interval variable of its closure, the intervals
   * it created that the host still runs, the handles handed out so far, the
   * tick counter of the current shake and the container's transform.
   */
  datatype ShakeState = ShakeState(
    handle: Option<Handle>,
    live: set<Handle>,
    issued: nat,
    count: nat,
    transform: Transform)

  /** Only the interval held in the variable can still be live, handles are never reused, and a shake never goes past its budget. */
  ghost predicate ShakeInv(s: ShakeState) {
    && s.live <= HandleSet(s.handle)
    && (s.handle.Some? ==> s.handle.value < s.issued)
    && s.count <= ShakeTicks
  }

  const Quiet := ShakeState(None, {}, 0, 0, Origin)

  /** A scene-change notification for scene `scene` (script.js:86-104). */
  function Notified(s: ShakeState, scene: int): (r: ShakeState)
    ensures ShakeInv(s) ==> ShakeInv(r) && |r.live| <= 1
    // a shake scene starts a fresh interval with a zero counter and leaves the transform alone
    ensures IsShakeScene(scene) ==>
      r.handle == Some(s.issued) && (ShakeInv(s) ==> r.live == {s.issued}) &&
      r.count == 0 && r.transform == s.transform
    // any other scene cancels the shake and resets the transform at once
    ensures !IsShakeScene(scene) ==> (ShakeInv(s) ==> r.live == {}) && r.transform == Origin
  {
    var cleared := s.live - HandleSet(s.handle);
    if IsShakeScene(scene) then
      ShakeState(Some(s.issued), cleared + {s.issued}, s.issued + 1, 0, s.transform)
    else
      s.(live := cleared, transform := Origin)
  }

  /** One firing of the live shake interval (script.js:91-101). */
  function Ticked(s: ShakeState): (r: ShakeState)
    ensures ShakeInv(s) ==> ShakeInv(r)
    ensures r.handle == s.handle && r.issued == s.issued
    // below the budget: one more offset, the interval stays
    ensures s.count < ShakeTicks ==> r.live == s.live && r.count == s.count + 1 && r.transform == Jitter
    // at the budget: the interval is cleared and the container goes back to the origin
    ensures s.count >= ShakeTicks ==> (ShakeInv(s) ==> r.live == {}) && r.transform == Origin
  {
    if s.count >= ShakeTicks then
      s.(live := s.live - HandleSet(s.handle), transform := Origin)
    else
      s.(count := s.count + 1, transform := Jitter)
  }

  /** The state after the host has fired the handler's interval `n` times, or fewer if it was cleared. */
  function TickTimes(s: ShakeState, n: nat): ShakeState
  {
    if n == 0 then s
    else
      var p := TickTimes(s, n - 1);
      if p.live == {} then p else Ticked(p)
  }

  lemma {:induction false} TicksWhileShaking(s: ShakeState, n: nat)
    requires ShakeInv(s) && s.handle.Some? && s.live == {s.handle.value}
    requires s.count + n <= ShakeTicks
    ensures ShakeInv(TickTimes(s, n))
    ensures TickTimes(s, n).handle == s.handle && TickTimes(s, n).live == s.live
    ensures TickTimes(s, n).count == s.count + n
    ensures n > 0 ==> TickTimes(s, n).transform == Jitter
  {
    if n > 0 {
      TicksWhileShaking(s, n - 1);
    }
  }

  lemma {:induction false} NoTicksAfterClear(s: ShakeState, m: nat, n: nat)
    requires m <= n
    requires TickTimes(s, m).live == {}
    ensures TickTimes(s, n) == TickTimes(s, m)
    decreases n - m
  {
    if m < n {
      NoTicksAfterClear(s, m, n - 1);
    }
  }

  /**
   * A notification for scene 9 starts exactly 20 offset ticks; the 21st tick
   * clears the interval and resets the container, and nothing ticks after it.
   */
  lemma ShakeBurst(s: ShakeState)
    requires ShakeInv(s)
    ensures var start := Notified(s, 9);
      forall n :: 1 <= n <= ShakeTicks ==>
        TickTimes(start, n).live == {s.issued} && TickTimes(start, n).count == n &&
        TickTimes(start, n).transform == Jitter
    ensures var start := Notified(s, 9);
      forall n :: n > ShakeTicks ==>
        TickTimes(start, n).live == {} && TickTimes(start, n).transform == Origin
  {
    var start := Notified(s, 9);
    forall n | 1 <= n <= ShakeTicks
      ensures TickTimes(start, n).live == {s.issued} && TickTimes(start, n).count == n
      ensures TickTimes(start, n).transform == Jitter
    {
      TicksWhileShaking(start, n);
    }
    TicksWhileShaking(start, ShakeTicks);
    forall n | n > ShakeTicks
      ensures TickTimes(start, n).live == {} && TickTimes(start, n).transform == Origin
    {
      NoTicksAfterClear(start, ShakeTicks + 1, n);
    }
  }

  /** The camera-shake listener registered by `addCameraShake`. */
  class CameraShake {
    var handle: Option<Handle>
    var live: set<Handle>
    var issued: nat
    var count: nat
    var transform: Transform

    function State(): ShakeState
      reads this
    {
      ShakeState(handle, live, issued, count, transform)
    }

    ghost predicate Valid()
      reads this
    {
      ShakeInv(State())
    }

    constructor ()
      ensures Valid() && State() == Quiet
    {
      handle, live, issued, count, transform := None, {}, 0, 0, Origin;
    }

    method OnSceneChange(scene: int)
      requires Valid()
      modifies this
      ensures Valid()
      ensures State() == Notified(old(State()), scene)
    {
      live := live - HandleSet(handle);
      if IsShakeScene(scene) {
        count := 0;
        handle := Some(issued);
        live := live + {issued};
        issued := issued + 1;
      } else {
        transform := Origin;
      }
    }

    /** The host fires live interval `h`. */
    method Tick(h: Handle)
      requires Valid() && h in live
      modifies this
      ensures Valid()
      ensures State() == Ticked(old(State()))
    {
      if count >= ShakeTicks {
        live := live - HandleSet(handle);
        transform := Origin;
        return;
      }
      transform := Jitter;
      count := count + 1;
    }
  }
}
