/**
 * The scene presenter: the `.scene` elements of the page with their `active`
 * markers, and the flash overlay that impact scenes switch on for 100 ms.
 */
module Presenter {

  import opened Host

  /** Scene ids whose activation triggers the flash. */
  const ImpactScenes: set<int> := {3, 5, 8}

  predicate IsImpactScene(n: int) {
    n in ImpactScenes
  }

  /**
   * The index of the first element whose scene id is `n`, in document order:
   * what `querySelector` finds, or nothing.
   */
  function FirstIndex(ids: seq<int>, n: int): (r: Option<nat>)
    ensures r.None? <==> n !in ids
    ensures r.Some? ==> r.value < |ids| && ids[r.value] == n
    ensures r.Some? ==> forall j :: 0 <= j < r.value ==> ids[j] != n
  {
    if ids == [] then None
    else if ids[0] == n then Some(0)
    else
      match FirstIndex(ids[1..], n)
      case None => None
      case Some(k) => Some(k + 1)
  }

  /** The `active` markers of the elements after scene `n` is shown. */
  function Activation(ids: seq<int>, n: int): (r: seq<bool>)
    ensures |r| == |ids|
    // only an element with id n can be active, and only the first of them
    ensures forall i :: 0 <= i < |ids| && r[i] ==> ids[i] == n
    ensures forall i, j :: 0 <= j < i < |ids| && r[i] ==> ids[j] != n
    // at most one element is active
    ensures forall i, j :: 0 <= i < j < |ids| && r[i] ==> !r[j]
    // some element is active exactly when an element has id n
    ensures true in r <==> n in ids
  {
    var target := FirstIndex(ids, n);
    var r := seq(|ids|, i requires 0 <= i < |ids| => target == Some(i));
    assert target.Some? ==> r[target.value];
    r
  }

  /**
   * The flash overlay. Every trigger arms its own 100 ms timeout; none is ever
   * cancelled, so `pendingOff` counts the timeouts that have not fired yet.
   */
  class Flash {
    var on: bool
    var pendingOff: nat

    /** The overlay is never left on without a timeout that will turn it off. */
    ghost predicate Valid()
      reads this
    {
      on ==> pendingOff > 0
    }

    constructor ()
      ensures Valid() && !on && pendingOff == 0
    {
      on, pendingOff := false, 0;
    }

    method Trigger()
      requires Valid()
      modifies this
      ensures Valid()
      ensures on && pendingOff == old(pendingOff) + 1
    {
      on := true;
      pendingOff := pendingOff + 1;
    }

    /** One of the pending 100 ms timeouts fires. */
    method FireOff()
      requires Valid() && pendingOff > 0
      modifies this
      ensures Valid()
      ensures !on && pendingOff == old(pendingOff) - 1
    {
      on := false;
      pendingOff := pendingOff - 1;
    }
  }

  class ScenePresenter {
    /** The scene id (`data-scene`) of each `.scene` element, in document order. */
    const ids: seq<int>
    /** Whether each element carries the `active` marker. */
    const active: array<bool>
    const flash: Flash

    ghost predicate Valid()
      reads flash
    {
      active.Length == |ids| && flash.Valid()
    }

    constructor (ids: seq<int>, initial: seq<bool>)
      requires |initial| == |ids|
      ensures Valid() && fresh(active) && fresh(flash)
      ensures this.ids == ids && active[..] == initial
      ensures !flash.on && flash.pendingOff == 0
    {
      this.ids := ids;
      active := new bool[|ids|](i requires 0 <= i < |initial| => initial[i]);
      flash := new Flash();
    }

    /** What showing scene `n` does to the elements and to the flash overlay. */
    twostate predicate Changed(n: int)
      reads active, flash
    {
      && active[..] == Activation(ids, n)
      && flash.on == (IsImpactScene(n) || old(flash.on))
      && flash.pendingOff == old(flash.pendingOff) + (if IsImpactScene(n) then 1 else 0)
    }

    /**
     * Clears the marker of every element, marks the first element with id `n`
     * if there is one, and triggers the flash for an impact scene.
     */
    method ChangeScene(n: int)
      requires Valid()
      modifies active, flash
      ensures Valid()
      ensures Changed(n)
    {
      var i := 0;
      while i < active.Length
        invariant 0 <= i <= active.Length
        modifies active
        invariant forall k :: 0 <= k < i ==> !active[k]
      {
        active[i] := false;
        i := i + 1;
      }
      var target := FirstIndex(ids, n);
      if target.Some? {
        active[target.value] := true;
      }
      if IsImpactScene(n) {
        flash.Trigger();
      }
    }
  }
}
