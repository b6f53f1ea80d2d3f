# Storyboard playback engine — a verified model

This project models the playback engine of a small browser page (`script.js`). The page plays a fixed storyboard of sixteen (scene id, duration) steps in a loop, with a 2000 ms pause between passes. Each step:

- marks one `.scene` element active;
- flashes an overlay for impact scenes 3, 5 and 8;
- publishes a `scenechange` notification.

Two listeners consume the notification. One shakes the scene container for scene 9. The other sets the heartbeat tempo from a scene→tempo table.

Every timer is an explicit pending event. A method fires it (`FireStep`, `FirePause`, `Flash.FireOff`, `CameraShake.Tick`), so no clock is needed.

Modules:

- `Host`: `Option`, timer handles, and what `clearInterval` removes.
- `Script`: the storyboard table and the 2000 ms pause.
- `Presenter`: the scene elements (`ScenePresenter`) and the flash overlay (`Flash`).
- `Shake`: the camera-shake listener (`CameraShake`) and its pure transitions `Notified` and `Ticked`.
- `Audio`: the tempo lookup `Tempo` and the heartbeat interval (`Heartbeat`, `Played`).
- `Notifications`: the `scenechange` dispatch (`SceneBus`).
- `Playback`: `playSequenceEnhanced`/`nextScene`.
  - Pure transition functions over a `Playback` value (cursor, `isPlaying`, pending timer), generic in the script.
  - Lemmas about runs of timer firings.
  - The `Sequencer` class, whose methods are proved against those functions.
- `Session`: the `Page` object and its once-only `initialize`.

`CameraShake`, `Heartbeat` and `Sequencer` have a `State()` value view. Their methods ensure `State() == F(old(State()))` for a pure function `F`, and the multi-step properties are lemmas about `F`. `Flash`, `ScenePresenter` and `Page` state their new fields one by one. `ScenePresenter.Changed` and `SceneBus.Delivered` are two-state predicates that say what a scene change and a dispatch leave behind.

## Model

| member | source | states |
|---|---|---|
| Script.TableShape | script.js:2-19 | The storyboard has 16 steps and every duration is positive. |
| Presenter.FirstIndex | script.js:43-44 | The element that `querySelector` finds for id `n` is the first element carrying `n`. There is none exactly when no element carries `n`. |
| Presenter.Activation | script.js:37-46 | After showing `n`, only an element whose id is `n` can be active, and only the first such element. At most one element is active. Some element is active iff an element with id `n` exists. |
| Presenter.ScenePresenter.ChangeScene | script.js:36-52 | The loop clears every marker. The method then marks exactly what `Activation` says. The flash is triggered, with one more pending timeout, iff `n` is in {3, 5, 8}. Otherwise the flash is untouched. |
| Presenter.Flash.Trigger | script.js:28-30 | Turns the overlay on and arms one more 100 ms timeout. Keeps the invariant that the overlay is never on without a pending timeout. |
| Presenter.Flash.FireOff | script.js:30-32 | A pending timeout fires: the overlay is off and one fewer timeout is pending. |
| Shake.Notified | script.js:86-104 | A notification cancels the previous interval. A shake scene starts a fresh interval with a zero tick counter. Any other scene leaves no live interval and resets the transform to the origin. At most one interval is live afterwards. |
| Shake.Ticked | script.js:91-101 | Below 20 ticks, a tick applies an offset and counts it. At 20 ticks, a tick clears the interval and resets the transform. The invariant holds throughout. |
| Shake.TicksWhileShaking | script.js:90-100 | From a live shake with counter `c`, `n` ticks with `c + n <= 20` keep the interval live, count to `c + n` and leave the container offset. |
| Shake.NoTicksAfterClear | script.js:92-95 | Once the interval is cleared, further firings change nothing. |
| Shake.ShakeBurst | script.js:89-101 | After a notification for scene 9, ticks 1 to 20 each leave the container offset with the interval live. Every tick count above 20 leaves the interval cleared and the transform at the origin. |
| Shake.CameraShake.OnSceneChange | script.js:86-104 | The listener's fields follow `Notified`. |
| Shake.CameraShake.Tick | script.js:91-101 | The host fires the live interval and the fields follow `Ticked`. |
| Audio.Tempo | script.js:187-200 | Scenes 1-10 get their table tempo. Every other scene gets 500 ms. Every tempo is between 250 and 800 ms. |
| Audio.Played | script.js:149-152 | `playHeartbeat` leaves exactly one outstanding interval, running at the requested period, under a fresh handle. |
| Audio.Heartbeat.OnSceneChange | script.js:186-201 | A notification replaces the interval with one at `Tempo(scene)`. |
| Audio.Heartbeat.Play | script.js:149-152 | The heartbeat's fields follow `Played`. |
| Notifications.SceneBus.Publish | script.js:112-115 | Dispatch delivers the notification once to every registered listener, in registration order. Each handler's state advances exactly once. The notification is logged. |
| Notifications.SceneBus.Subscribe | script.js:86 | Registers a listener after the existing ones. |
| Playback.Advance | script.js:123-139 | Below the end of the table, `nextScene` shows step `i`, sets the cursor to `i + 1` and arms one timer of step `i`'s duration. At the end, it shows nothing and arms the 2000 ms pause. Every armed delay is positive. |
| Playback.AfterStart | script.js:119-121 | While playing, a start (also during the pause) changes nothing and shows nothing. From idle, it shows step 0 and arms its timer. |
| Playback.AfterStep | script.js:133-138 | A step timer firing moves the cursor forward by one and shows that step, or arms the pause at the end. The invariant (cursor in [0, 16], a timer exactly while playing) is kept. |
| Playback.AfterPause | script.js:125-129 | The pause firing resets the cursor, clears the flag and restarts. This is the same as a start from idle: step 0 is shown at once. |
| Playback.AfterFire | script.js:123-139 | Firing the outstanding timer keeps the invariant and leaves the sequencer playing. |
| Playback.Run | script.js:119-142 | Any number of firings keeps the invariant. A running sequencer never stops. |
| Playback.RunSplit | script.js:119-142 | Firing `a + b` times is firing `a` times and then `b` times, with the shown scenes concatenated. |
| Playback.StepsToEnd | script.js:133-138 | From the step timer at cursor `c`, the remaining firings show the script's ids from `c` on, in order, then arm the pause. |
| Playback.FirstPass | script.js:119-142 | A start shows step 0. The next `|script|` firings show every other step in order and arm the pause. |
| Playback.OnePass | script.js:124-138 | From the pause, `|script| + 1` firings show the whole script once, in order, and return to the pause. |
| Playback.Passes | script.js:124-141 | `k` passes of firings show the script `k` times over, in order. |
| Playback.StoryboardLoops | script.js:2-19 | For the actual storyboard, every 17 firings show 1, 2, 3, 1, 4, 5, 3, 6, 7, 4, 8, 5, 9, 3, 9, 10, forever. |
| Playback.Sequencer.ChangeSceneWithEvent | script.js:109-116 | The presenter changes first, then the notification is published with the same id. The scene is logged as shown and the sequencer state is untouched. |
| Playback.Sequencer.NextScene | script.js:123-139 | The sequencer follows `Advance`. It may arm a timer only when none is pending, so no double scheduling occurs. It shows and publishes what `Advance` emits, and touches nothing otherwise. |
| Playback.Sequencer.Start | script.js:119-121 | The sequencer follows `AfterStart`. The invariant holds: every scene shown was published once, in order, and the page shows the last one. |
| Playback.Sequencer.FireStep | script.js:138 | The sequencer follows `AfterStep`. |
| Playback.Sequencer.FirePause | script.js:125-129 | The sequencer follows `AfterPause`. |
| Session.Page.Register | script.js:229-234 | Registers the shake listener, then the heartbeat listener when audio is available, and then starts the 600 ms heartbeat. Nothing is published or delivered and the presenter is untouched. |
| Session.Page.constructor | script.js:223 | A new page is uninitialised, idle, shows nothing, has no listeners, a quiet shake, a silent heartbeat and the flash off with nothing pending. Its whole footprint is fresh. |
| Session.Page.Initialize | script.js:225-240 | A second call changes nothing. The first call registers the shake listener, then the heartbeat listener if audio is available. It starts the sequence, which marks step 0's scene active, publishes it and delivers it once to each registered listener. The shake listener's state follows `Notified` for that scene; the flash is untouched because scene 1 is not an impact scene. The 600 ms heartbeat ends replaced by the step-0 tempo: one interval. |

## Left out

- DOM access is abstracted. The `.scene` elements are a sequence of `data-scene` ids in document order, each with an `active` flag. The container transform is `Origin` or `Jitter`. The flash overlay is a flag.
- Ids are compared as integers, not as attribute strings.
- The random shake offsets (`Math.random`, pixel values) are left out. Any offset is `Jitter`, because they are floating point from a foreign random source.
- The heartbeat's audio synthesis is left out: oscillators, gains, ramps and the 150 ms second beat. A heartbeat tick changes no modelled state, so there is no tick method. The audio API is foreign and works on floats.
- Audio-context failure (the `try`/`catch` in `initialize`) is the `audioAvailable` parameter of `Initialize`.
- `addLightingEffects` (CSS injection) is cosmetic and has no logic.
- The load, click, touchstart and keydown wiring is left out, including the 500 ms load delay. It is host plumbing; only the `initialized` guard is modelled.
- The legacy `playSequence` (script.js:55-79) is left out. It duplicates `playSequenceEnhanced` without the notification, and `initialize` never calls it.
- There is no wall clock. The sequencer's timers carry their delays as values: the step durations and the 2000 ms pause. Every flash timeout has the same 100 ms delay, so `Flash.pendingOff` is only a count of them. The 50 ms shake period is not represented: a shake tick is a call to `CameraShake.Tick`. The heartbeat interval keeps its period but its ticks are not modelled. The relative order in which different components' timers fire is not modelled. For example, the model does not prove that a 100 ms flash timeout fires before the next step.

Behaviours of the code that the model keeps as written:

- A second flash trigger does not reset the pending 100 ms delay. The code arms an independent timeout per trigger and cancels none, so the earliest one switches the overlay off. `Flash.pendingOff` counts them.
- Activation clears the marker on every `.scene` element, not only on the active one. It then marks only the first element with the id, which is what `querySelector` returns.
- For scene 9, the code cancels the old interval but does not reset the transform. The container keeps its last offset until the new interval's first tick.
- The tempo lookup is `intensityMap[scene] || 500`, so a zero entry would also fall back to 500. The table has none.
