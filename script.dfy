/**
 * The storyboard: a fixed, ordered table of (scene id, duration) steps.
 */
module Script {

  datatype Step = Step(scene: int, duration: nat)

  /** The sixteen steps of one pass, durations in milliseconds. */
  const SceneSequence: seq<Step> := [
    Step(1, 1200), Step(2, 600), Step(3, 800), Step(1, 400),
    Step(4, 500), Step(5, 700), Step(3, 500), Step(6, 900),
    Step(7, 800), Step(4, 400), Step(8, 1000), Step(5, 300),
    Step(9, 1200), Step(3, 400), Step(9, 600), Step(10, 5000)
  ]

  /** The pause between the end of a pass and the start of the next one. */
  const LoopPauseMs: nat := 2000

  /** The scene ids of `steps`, in table order. */
  function SceneIds(steps: seq<Step>): seq<int> {
    seq(|steps|, i requires 0 <= i < |steps| => steps[i].scene)
  }

  /** The table has sixteen steps and none of them has a zero duration. */
  lemma TableShape()
    ensures |SceneSequence| == 16
    ensures forall i :: 0 <= i < |SceneSequence| ==> SceneSequence[i].duration > 0
  {
  }
}
