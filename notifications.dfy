/**
 * The scene-change notification bus: `changeSceneWithEvent` dispatches a
 * `scenechange` event that the document delivers, synchronously and in
 * registration order, to every listener registered for it.
 */
module Notifications {

  import opened Shake
  import opened Audio

  /** The two listeners that `initialize` can register. */
  datatype Subscriber = ShakeHandler | HeartbeatHandler

  /** One delivery per subscriber, in subscription order. */
  ghost function Deliveries(subs: seq<Subscriber>, scene: int): (r: seq<(Subscriber, int)>)
    ensures |r| == |subs|
    ensures forall i :: 0 <= i < |subs| ==> r[i] == (subs[i], scene)
  {
    if subs == [] then [] else Deliveries(subs[..|subs| - 1], scene) + [(subs[|subs| - 1], scene)]
  }

  ghost predicate Distinct(subs: seq<Subscriber>) {
    forall i, j :: 0 <= i < j < |subs| ==> subs[i] != subs[j]
  }

  class SceneBus {
    const shake: CameraShake
    const heartbeat: Heartbeat
    /** The registered listeners, in registration order. */
    var subscribers: seq<Subscriber>
    /** Every notification published so far. */
    ghost var published: seq<int>
    /** Every delivery made so far, in order. */
    ghost var delivered: seq<(Subscriber, int)>

    ghost predicate Valid()
      reads this, shake, heartbeat
    {
      shake.Valid() && heartbeat.Valid() && Distinct(subscribers)
    }

    constructor ()
      ensures Valid() && fresh(shake) && fresh(heartbeat)
      ensures subscribers == [] && published == [] && delivered == []
      ensures shake.State() == Shake.Quiet && heartbeat.State() == Audio.Silent
    {
      shake := new CameraShake();
      heartbeat := new Heartbeat();
      subscribers, published, delivered := [], [], [];
    }

    /** `document.addEventListener('scenechange', ...)` for one of the handlers. */
    method Subscribe(h: Subscriber)
      requires Valid() && h !in subscribers
      modifies this
      ensures Valid()
      ensures subscribers == old(subscribers) + [h]
      ensures published == old(published) && delivered == old(delivered)
    {
      subscribers := subscribers + [h];
    }

    /** What publishing `scene` does: one delivery per listener, each handler's state advanced once. */
    twostate predicate Delivered(scene: int)
      reads this, shake, heartbeat
      requires old(shake.Valid()) && old(heartbeat.Valid())
    {
      && subscribers == old(subscribers)
      && published == old(published) + [scene]
      && delivered == old(delivered) + Deliveries(subscribers, scene)
      && shake.State() ==
           (if ShakeHandler in subscribers then Notified(old(shake.State()), scene) else old(shake.State()))
      && heartbeat.State() ==
           (if HeartbeatHandler in subscribers then Played(old(heartbeat.State()), Tempo(scene))
            else old(heartbeat.State()))
    }

    /** Runs the handler `h` for one `scenechange` event. */
    method Deliver(h: Subscriber, scene: int)
      requires shake.Valid() && heartbeat.Valid()
      modifies shake, heartbeat
      ensures shake.Valid() && heartbeat.Valid()
      ensures shake.State() == (if h == ShakeHandler then Notified(old(shake.State()), scene) else old(shake.State()))
      ensures heartbeat.State() ==
        (if h == HeartbeatHandler then Played(old(heartbeat.State()), Tempo(scene)) else old(heartbeat.State()))
    {
      match h {
        case ShakeHandler => shake.OnSceneChange(scene);
        case HeartbeatHandler => heartbeat.OnSceneChange(scene);
      }
    }

    method Publish(scene: int)
      requires Valid()
      modifies this, shake, heartbeat
      ensures Valid()
      ensures Delivered(scene)
    {
      ghost var shake0, beat0 := shake.State(), heartbeat.State();
      published := published + [scene];
      var i := 0;
      while i < |subscribers|
        invariant 0 <= i <= |subscribers|
        invariant Valid()
        invariant subscribers == old(subscribers) && published == old(published) + [scene]
        invariant delivered == old(delivered) + Deliveries(subscribers[..i], scene)
        invariant shake.State() ==
          (if ShakeHandler in subscribers[..i] then Notified(shake0, scene) else shake0)
        invariant heartbeat.State() ==
          (if HeartbeatHandler in subscribers[..i] then Played(beat0, Tempo(scene)) else beat0)
      {
        var h := subscribers[i];
        assert subscribers[..i + 1] == subscribers[..i] + [h];
        assert h !in subscribers[..i];
        Deliver(h, scene);
        delivered := delivered + [(h, scene)];
        i := i + 1;
      }
      assert subscribers[..i] == subscribers;
    }
  }
}
