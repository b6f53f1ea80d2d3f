/**
 * The sequencer (`playSequenceEnhanced` and its inner `nextScene`): a cursor
 * into the storyboard, a flag that refuses re-entrant starts, and the single
 * timer that drives it. Each timer callback is a method the host calls.
 */
module Playback {

  import opened Host
  import opened Script
  import opened Presenter
  import opened Shake
  import opened Audio
  import opened Notifications

  /** The sequencer's outstanding timer: none, the current step's, or the pause after a pass. */
  datatype Timer = NoTimer | StepTimer(delay: nat) | PauseTimer(delay: nat)

  /** `currentSceneIndex`, `isPlaying` and the pending timer. */
  datatype Playback = Playback(cursor: nat, playing: bool, pending: Timer)

  /** A script the sequencer can play: at least one step, every duration positive. */
  ghost predicate Playable(script: seq<Step>) {
    |script| > 0 && forall i :: 0 <= i < |script| ==> script[i].duration > 0
  }

  /**
   * The cursor stays in [0, |script|]; a timer is outstanding exactly while
   * playing; a step timer carries the duration of the step just shown; the
   * pause timer is armed only at the end of the script.
   */
  ghost predicate PlaybackInv(script: seq<Step>, p: Playback) {
    && p.cursor <= |script|
    && (p.playing <==> p.pending != NoTimer)
    && (!p.playing ==> p.cursor == 0)
    && (p.pending.StepTimer? ==> 1 <= p.cursor && p.pending.delay == script[p.cursor - 1].duration)
    && (p.pending.PauseTimer? ==> p.cursor == |script| && p.pending.delay == LoopPauseMs)
  }

  /** Before the first start. */
  const Idle := Playback(0, false, NoTimer)

  /** A pass is over and the pause before the next one is running. */
  function PassEnd(script: seq<Step>): Playback {
    Playback(|script|, true, PauseTimer(LoopPauseMs))
  }

  /**
   * `nextScene`: past the end of the script, arm the pause; otherwise show the
   * current step's scene, move the cursor on and arm that step's timer.
   * The second component is the scene shown, if any.
   */
  function Advance(script: seq<Step>, p: Playback): (r: (Playback, Option<int>))
    requires Playable(script)
    requires p.playing && p.pending == NoTimer && p.cursor <= |script|
    ensures PlaybackInv(script, r.0) && r.0.playing
    ensures r.0.pending != NoTimer && r.0.pending.delay > 0
    ensures p.cursor < |script| ==>
      && r.1 == Some(script[p.cursor].scene)
      && r.0.cursor == p.cursor + 1
      && r.0.pending == StepTimer(script[p.cursor].duration)
    ensures p.cursor == |script| ==> r == (PassEnd(script), None)
  {
    if p.cursor >= |script| then
      (p.(pending := PauseTimer(LoopPauseMs)), None)
    else
      var step := script[p.cursor];
      (Playback(p.cursor + 1, true, StepTimer(step.duration)), Some(step.scene))
  }

  /** `playSequenceEnhanced()`: a no-op while playing, otherwise the first step. */
  function AfterStart(script: seq<Step>, p: Playback): (r: (Playback, Option<int>))
    requires Playable(script) && PlaybackInv(script, p)
    ensures PlaybackInv(script, r.0) && r.0.playing
    ensures p.playing ==> r == (p, None)
    ensures !p.playing ==>
      r == (Playback(1, true, StepTimer(script[0].duration)), Some(script[0].scene))
  {
    if p.playing then (p, None) else Advance(script, p.(playing := true))
  }

  /** The step timer fires: the cursor only moves forward within a pass. */
  function AfterStep(script: seq<Step>, p: Playback): (r: (Playback, Option<int>))
    requires Playable(script) && PlaybackInv(script, p) && p.pending.StepTimer?
    ensures PlaybackInv(script, r.0) && r.0.playing
    ensures r.1.Some? <==> p.cursor < |script|
    ensures p.cursor < |script| ==> r.0.cursor == p.cursor + 1 && r.1 == Some(script[p.cursor].scene)
    ensures p.cursor == |script| ==> r.0 == PassEnd(script)
  {
    Advance(script, p.(pending := NoTimer))
  }

  /** The pause timer fires: back to step 0, flag cleared, and started again at once. */
  function AfterPause(script: seq<Step>, p: Playback): (r: (Playback, Option<int>))
    requires Playable(script) && PlaybackInv(script, p) && p.pending.PauseTimer?
    ensures r == AfterStart(script, Idle)
    ensures r.0.cursor == 1 && r.1 == Some(script[0].scene)
  {
    AfterStart(script, Playback(0, false, NoTimer))
  }

  /** Whichever timer is outstanding fires. */
  function AfterFire(script: seq<Step>, p: Playback): (r: (Playback, Option<int>))
    requires Playable(script) && PlaybackInv(script, p) && p.playing
    ensures PlaybackInv(script, r.0) && r.0.playing
  {
    if p.pending.StepTimer? then AfterStep(script, p) else AfterPause(script, p)
  }

  function Shown(e: Option<int>): seq<int> {
    match e
    case None => []
    case Some(s) => [s]
  }

  /** `n` timer firings from `p`: the final state and the scenes shown, in order. */
  function Run(script: seq<Step>, p: Playback, n: nat): (r: (Playback, seq<int>))
    requires Playable(script) && PlaybackInv(script, p)
    ensures PlaybackInv(script, r.0)
    ensures p.playing ==> r.0.playing
    decreases n
  {
    if n == 0 || !p.playing then (p, [])
    else
      var step := AfterFire(script, p);
      var rest := Run(script, step.0, n - 1);
      (rest.0, Shown(step.1) + rest.1)
  }

  function Repeat(s: seq<int>, k: nat): seq<int> {
    if k == 0 then [] else s + Repeat(s, k - 1)
  }

  /** Firing a + b times is firing a times, then b times from there. */
  lemma {:induction false} RunSplit(script: seq<Step>, p: Playback, a: nat, b: nat)
    requires Playable(script) && PlaybackInv(script, p)
    ensures Run(script, p, a + b) ==
      (Run(script, Run(script, p, a).0, b).0, Run(script, p, a).1 + Run(script, Run(script, p, a).0, b).1)
    decreases a
  {
    if a == 0 {
      assert Run(script, p, a) == (p, []);
      assert a + b == b;
      assert [] + Run(script, p, b).1 == Run(script, p, b).1;
    } else if !p.playing {
      assert Run(script, p, a) == (p, []) && Run(script, p, a + b) == (p, []);
      assert Run(script, Run(script, p, a).0, b) == (p, []);
      assert Run(script, p, a).1 + Run(script, Run(script, p, a).0, b).1 == [] + [];
      assert [] + [] == Run(script, p, a + b).1;
    } else {
      var step := AfterFire(script, p);
      var q, e := step.0, step.1;
      RunSplit(script, q, a - 1, b);
      var mid := Run(script, q, a - 1);
      var tail := Run(script, mid.0, b);
      assert Run(script, p, a) == (mid.0, Shown(e) + mid.1);
      assert Run(script, q, a + b - 1) == (tail.0, mid.1 + tail.1);
      assert Run(script, p, a + b) == (tail.0, Shown(e) + (mid.1 + tail.1));
      assert Shown(e) + (mid.1 + tail.1) == (Shown(e) + mid.1) + tail.1;
    }
  }

  /** From the step timer at cursor c, the steps c.. are shown in order and then the pause is armed. */
  lemma {:induction false} StepsToEnd(script: seq<Step>, p: Playback, n: nat)
    requires Playable(script) && PlaybackInv(script, p) && p.pending.StepTimer?
    requires p.cursor + n == |script|
    ensures Run(script, p, n + 1) == (PassEnd(script), SceneIds(script)[p.cursor..])
    decreases n
  {
    var ids := SceneIds(script);
    assert |ids| == |script|;
    var step := AfterFire(script, p);
    if n == 0 {
      assert step == (PassEnd(script), None);
      assert Run(script, step.0, 0) == (PassEnd(script), []);
      assert Run(script, p, 1) == (PassEnd(script), Shown(step.1) + []);
      assert Shown(step.1) + [] == [] == ids[p.cursor..];
      assert Run(script, p, n + 1) == Run(script, p, 1);
    } else {
      assert step.1 == Some(ids[p.cursor]);
      StepsToEnd(script, step.0, n - 1);
      assert ids[p.cursor..] == [ids[p.cursor]] + ids[p.cursor + 1..];
    }
  }

  /** Starting shows step 0; |script| firings later every other step has been shown in order and the pause runs. */
  lemma FirstPass(script: seq<Step>)
    requires Playable(script)
    ensures AfterStart(script, Idle).1 == Some(SceneIds(script)[0])
    ensures Run(script, AfterStart(script, Idle).0, |script|) == (PassEnd(script), SceneIds(script)[1..])
  {
    StepsToEnd(script, AfterStart(script, Idle).0, |script| - 1);
  }

  /** From the end of a pass, |script| + 1 firings show the whole script in order and end in the same place. */
  lemma OnePass(script: seq<Step>)
    requires Playable(script)
    ensures Run(script, PassEnd(script), |script| + 1) == (PassEnd(script), SceneIds(script))
  {
    var ids := SceneIds(script);
    var step := AfterFire(script, PassEnd(script));
    StepsToEnd(script, step.0, |script| - 1);
    assert ids == [ids[0]] + ids[1..];
  }

  /** k passes show the script k times over. */
  lemma {:induction false} Passes(script: seq<Step>, k: nat)
    requires Playable(script)
    ensures Run(script, PassEnd(script), (|script| + 1) * k) == (PassEnd(script), Repeat(SceneIds(script), k))
  {
    if k > 0 {
      var n := |script| + 1;
      OnePass(script);
      RunSplit(script, PassEnd(script), n, n * (k - 1));
      Passes(script, k - 1);
      assert n * k == n + n * (k - 1);
    }
  }

  /** The storyboard itself: it plays, and every pass shows its sixteen scene ids in table order. */
  lemma StoryboardLoops(k: nat)
    ensures Playable(SceneSequence)
    ensures Run(SceneSequence, PassEnd(SceneSequence), 17 * k) ==
      (PassEnd(SceneSequence), Repeat([1, 2, 3, 1, 4, 5, 3, 6, 7, 4, 8, 5, 9, 3, 9, 10], k))
  {
    TableShape();
    assert SceneIds(SceneSequence) == [1, 2, 3, 1, 4, 5, 3, 6, 7, 4, 8, 5, 9, 3, 9, 10];
    Passes(SceneSequence, k);
  }

  class Sequencer {
    const presenter: ScenePresenter
    const bus: SceneBus
    /** `currentSceneIndex` */
    var cursor: nat
    /** `isPlaying` */
    var isPlaying: bool
    var pending: Timer
    /** Every scene the sequencer has shown, in order. */
    ghost var shown: seq<int>

    function State(): Playback
      reads this
    {
      Playback(cursor, isPlaying, pending)
    }

    ghost function Repr(): set<object> {
      {this, presenter, presenter.active, presenter.flash, bus, bus.shake, bus.heartbeat}
    }

    /**
     * Every scene shown was published exactly once, in the same order, and the
     * page shows the last of them.
     */
    ghost predicate Wired()
      reads Repr()
    {
      && presenter.Valid() && bus.Valid()
      && bus.published == shown
      && (shown != [] ==> presenter.active[..] == Activation(presenter.ids, shown[|shown| - 1]))
    }

    ghost predicate Valid()
      reads Repr()
    {
      Wired() && PlaybackInv(SceneSequence, State())
    }

    constructor (presenter: ScenePresenter, bus: SceneBus)
      requires presenter.Valid() && bus.Valid() && bus.published == []
      ensures Valid() && State() == Idle && shown == []
      ensures this.presenter == presenter && this.bus == bus
    {
      this.presenter, this.bus := presenter, bus;
      cursor, isPlaying, pending := 0, false, NoTimer;
      shown := [];
    }

    /** Showing `scene` and publishing it, as `changeSceneWithEvent` does. */
    twostate predicate Announced(scene: int)
      reads Repr()
      requires old(bus.Valid())
    {
      presenter.Changed(scene) && bus.Delivered(scene)
    }

    /** What one transition emits: the scene shown, or nothing and no change at all. */
    twostate predicate Emits(e: Option<int>)
      reads Repr()
      requires old(bus.Valid())
    {
      match e
      case Some(s) => shown == old(shown) + [s] && Announced(s)
      case None =>
        shown == old(shown) &&
        unchanged(presenter.active, presenter.flash, bus, bus.shake, bus.heartbeat)
    }

    method ChangeSceneWithEvent(scene: int)
      requires Wired()
      modifies Repr()
      ensures Wired()
      ensures State() == old(State())
      ensures shown == old(shown) + [scene] && Announced(scene)
    {
      presenter.ChangeScene(scene);
      bus.Publish(scene);
      shown := shown + [scene];
    }

    method NextScene()
      requires Wired() && isPlaying && pending == NoTimer && cursor <= |SceneSequence|
      modifies Repr()
      ensures Valid()
      ensures State() == Advance(SceneSequence, old(State())).0
      ensures Emits(Advance(SceneSequence, old(State())).1)
    {
      if cursor >= |SceneSequence| {
        pending := PauseTimer(LoopPauseMs);
        return;
      }
      var step := SceneSequence[cursor];
      ChangeSceneWithEvent(step.scene);
      cursor := cursor + 1;
      pending := StepTimer(step.duration);
    }

    /** `playSequenceEnhanced()` */
    method Start()
      requires Valid()
      modifies Repr()
      ensures Valid()
      ensures State() == AfterStart(SceneSequence, old(State())).0
      ensures Emits(AfterStart(SceneSequence, old(State())).1)
    {
      if isPlaying {
        return;
      }
      isPlaying := true;
      NextScene();
    }

    /** The host fires the step timer. */
    method FireStep()
      requires Valid() && pending.StepTimer?
      modifies Repr()
      ensures Valid()
      ensures State() == AfterStep(SceneSequence, old(State())).0
      ensures Emits(AfterStep(SceneSequence, old(State())).1)
    {
      pending := NoTimer;
      NextScene();
    }

    /** The host fires the 2000 ms pause timer. */
    method FirePause()
      requires Valid() && pending.PauseTimer?
      modifies Repr()
      ensures Valid()
      ensures State() == AfterPause(SceneSequence, old(State())).0
      ensures Emits(AfterPause(SceneSequence, old(State())).1)
    {
      pending := NoTimer;
      cursor := 0;
      isPlaying := false;
      Start();
    }
  }
}
