/**
 * The heartbeat handler: one repeating interval whose period follows the
 * intensity of the current scene. Every notification clears the previous
 * interval before starting the next.
 */
module Audio {

  import opened Host

  /** Heartbeat period per scene id, in milliseconds. */
  const IntensityMap: map<int, nat> := map[
    1 := 600, 2 := 500, 3 := 400, 4 := 350, 5 := 300,
    6 := 450, 7 := 400, 8 := 350, 9 := 250, 10 := 800]

  /** Period used for a scene the table does not list. */
  const DefaultTempo: nat := 500

  /** Period started when the audio context is created. */
  const InitialTempo: nat := 600

  /** `intensityMap[scene] || 500`: a missing entry and a zero entry both fall back to the default. */
  function Tempo(scene: int): (ms: nat)
    ensures scene in IntensityMap ==> ms == IntensityMap[scene]
    ensures !(1 <= scene <= 10) ==> ms == DefaultTempo
    ensures 250 <= ms <= 800
  {
    if scene in IntensityMap && IntensityMap[scene] != 0 then IntensityMap[scene] else DefaultTempo
  }

  /**
   * The handler's state: the interval variable of its closure, the intervals
   * it created that the host still runs (with their periods) and the handles
   * handed out so far.
   */
  datatype Beat = Beat(handle: Option<Handle>, intervals: map<Handle, nat>, issued: nat)

  ghost predicate BeatInv(b: Beat) {
    && b.intervals.Keys <= HandleSet(b.handle)
    && (b.handle.Some? ==> b.handle.value < b.issued)
  }

  const Silent := Beat(None, map[], 0)

  /** `playHeartbeat(tempo)`: clear the old interval, start one at `tempo`. */
  function Played(b: Beat, tempo: nat): (r: Beat)
    ensures BeatInv(b) ==> BeatInv(r)
    // exactly one interval is outstanding afterwards, and it runs at the new period
    ensures BeatInv(b) ==> r.intervals == map[b.issued := tempo]
    ensures r.handle == Some(b.issued)
  {
    var cleared := b.intervals - HandleSet(b.handle);
    Beat(Some(b.issued), cleared[b.issued := tempo], b.issued + 1)
  }

  /** The heartbeat of `createAudioContext`, with the audio synthesis left out. */
  class Heartbeat {
    var handle: Option<Handle>
    var intervals: map<Handle, nat>
    var issued: nat

    function State(): Beat
      reads this
    {
      Beat(handle, intervals, issued)
    }

    ghost predicate Valid()
      reads this
    {
      BeatInv(State())
    }

    constructor ()
      ensures Valid() && State() == Silent
    {
      handle, intervals, issued := None, map[], 0;
    }

    method Play(tempo: nat)
      requires Valid()
      modifies this
      ensures Valid()
      ensures State() == Played(old(State()), tempo)
    {
      intervals := intervals - HandleSet(handle);
      handle := Some(issued);
      intervals := intervals[issued := tempo];
      issued := issued + 1;
    }

    method OnSceneChange(scene: int)
      requires Valid()
      modifies this
      ensures Valid()
      ensures State() == Played(old(State()), Tempo(scene))
    {
      Play(Tempo(scene));
    }
  }
}
