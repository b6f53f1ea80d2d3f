/**
 * The page session: builds the presenter, the handlers, the bus and the
 * sequencer, and `initialize`, the entry point that the load timer, the first
 * click or tap and the space key all call, guarded so it runs once.
 */
module Session {

  import opened Host
  import opened Script
  import opened Shake
  import opened Audio
  import opened Presenter
  import opened Notifications
  import opened Playback

  class Page {
    const sequencer: Sequencer
    /** `initialized` */
    var initialized: bool

    ghost function Repr(): set<object> {
      {this} + sequencer.Repr()
    }

    /** Before initialization nothing has been registered, started or shown. */
    ghost predicate Valid()
      reads Repr()
    {
      && sequencer.Valid()
      && (!initialized ==>
            && sequencer.State() == Idle
            && sequencer.shown == []
            && sequencer.bus.subscribers == []
            && sequencer.bus.heartbeat.State() == Silent)
    }

    /** A page whose `.scene` elements have scene ids `ids` and initial markers `initial`. */
    constructor (ids: seq<int>, initial: seq<bool>)
      requires |initial| == |ids|
      ensures Valid() && !initialized
      ensures sequencer.presenter.ids == ids && sequencer.presenter.active[..] == initial
      ensures fresh(Repr())
      ensures sequencer.bus.shake.State() == Shake.Quiet
      ensures !sequencer.presenter.flash.on && sequencer.presenter.flash.pendingOff == 0
    {
      var presenter := new ScenePresenter(ids, initial);
      var bus := new SceneBus();
      sequencer := new Sequencer(presenter, bus);
      initialized := false;
    }

    /**
     * `initialize()`. `audioAvailable` says whether the host could build an
     * audio context; when it could not, the heartbeat listener is never
     * registered and no heartbeat plays.
     */
    method Initialize(audioAvailable: bool)
      requires Valid()
      modifies Repr()
      ensures Valid() && initialized
      // every call after the first is a no-op
      ensures old(initialized) ==> unchanged(Repr())
      ensures !old(initialized) ==>
        // the shake listener first, then the heartbeat listener when there is audio
        && sequencer.bus.subscribers ==
             [ShakeHandler] + (if audioAvailable then [HeartbeatHandler] else [])
        // the sequence is running and has shown step 0, and published it
        && sequencer.State() == AfterStart(SceneSequence, Idle).0
        && sequencer.shown == [SceneSequence[0].scene]
        && sequencer.bus.published == [SceneSequence[0].scene]
        // the page shows step 0's scene; scene 1 is no impact scene, so the flash is untouched
        && sequencer.presenter.active[..] == Activation(sequencer.presenter.ids, SceneSequence[0].scene)
        && sequencer.presenter.flash.on == old(sequencer.presenter.flash.on)
        && sequencer.presenter.flash.pendingOff == old(sequencer.presenter.flash.pendingOff)
        // each registered listener received the notification once, in registration order
        && sequencer.bus.delivered ==
             old(sequencer.bus.delivered) + Deliveries(sequencer.bus.subscribers, SceneSequence[0].scene)
        // the shake listener saw a scene that does not shake
        && sequencer.bus.shake.State() == Notified(old(sequencer.bus.shake.State()), SceneSequence[0].scene)
        // the 600 ms heartbeat was replaced by the tempo of step 0's scene: one interval
        && sequencer.bus.heartbeat.State() ==
             (if audioAvailable then Played(Played(Silent, InitialTempo), Tempo(SceneSequence[0].scene))
              else Silent)
    {
      if initialized {
        return;
      }
      initialized := true;
      Register(audioAvailable);
      var s0 := SceneSequence[0].scene;
      assert AfterStart(SceneSequence, Idle) == (Playback(1, true, StepTimer(SceneSequence[0].duration)), Some(s0));
      label Registered:
      sequencer.Start();
      assert sequencer.bus.Delivered@Registered(s0);
      assert sequencer.presenter.Changed@Registered(s0);
    }

    /** The listeners `initialize` registers, and the heartbeat started when audio is available. */
    method Register(audioAvailable: bool)
      requires sequencer.Valid() && sequencer.bus.subscribers == [] && sequencer.bus.heartbeat.State() == Silent
      modifies sequencer.bus, sequencer.bus.heartbeat
      ensures sequencer.Valid()
      ensures sequencer.bus.subscribers == [ShakeHandler] + (if audioAvailable then [HeartbeatHandler] else [])
      ensures sequencer.bus.heartbeat.State() == (if audioAvailable then Played(Silent, InitialTempo) else Silent)
      ensures sequencer.bus.published == old(sequencer.bus.published)
      ensures sequencer.bus.delivered == old(sequencer.bus.delivered)
      ensures unchanged(sequencer, sequencer.presenter.active, sequencer.presenter.flash, sequencer.bus.shake)
    {
      var bus := sequencer.bus;
      bus.Subscribe(ShakeHandler);
      if audioAvailable {
        bus.Subscribe(HeartbeatHandler);
        bus.heartbeat.Play(InitialTempo);
      }
    }
  }
}
