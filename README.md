# Audio trainer: click gestures and playback control

A Dafny model of the logic of the `AudioTrainer` React component: a grid of
track buttons where one tap plays a track (or resumes it), a second quick tap
pauses, and a third quick tap restarts. The component keeps a mutable click
record `{lastId, count, lastTime}` with a 600 ms window, and the state
`currentId` / `isPlaying`, which it keeps in step with an `<audio>` element
through `playTrack`, `pauseTrack` and `restartTrack`, the element's `play()`
promise, and its `ended`, `pause` and `play` notifications.

Modules:

- `Gestures` (gestures.dfy): the click classifier. `Tap` is one tap on the
  record as a value; `ClickRecord` is the record object the handler mutates
  in place, with `Register` proved against `Tap`. Lemmas follow bursts of
  taps.
- `Playback` (playback.dfy): the controller as values. `Player` holds the
  element's observable fields (`src`, `currentTime`, `paused`), `currentId`,
  `isPlaying` and the queue of pending `play()` completions. A play request
  appends the continuation its `.then`/`.catch` would run; a later
  settlement runs the oldest one, fulfilled or rejected, in creation order.
  The element's `ended` and `pause` notifications come after it has become
  paused, and `play` after it has become unpaused; the component's handlers
  then change only `isPlaying`. `MediaSink` is the element as an object.
- `Trainer` (trainer.dfy): `handleButtonClick` as `Dispatch` and `Perform`,
  every input as an `Event`, `Next`/`Run` over events, and the lemmas about
  runs.
- `Component` (component.dfy): the component as objects. `AudioTrainer` has
  the element, the click record, `currentId`, `isPlaying` and the pending
  completions as fields. Each method states its effect field by field and is
  proved against the matching function of `Playback` or `Trainer`.

The clock is the `now` parameter of `HandleButtonClick`. The model follows
the code as written. In particular:

- `playTrack` always reassigns `src`, even when that source is already
  loaded (a single tap on any track other than `currentId`);
- a restart seeks whatever is loaded and never switches tracks;
- a single tap on the current track while it plays does nothing;
- `pauseTrack` clears `isPlaying` at once, without waiting for the element;
- a rejected `playTrack` keeps the previous `currentId`. `RejectedSwitchResumesOtherSource`
  shows the result: a later single tap on that previous track resumes the other
  track's source, and the previous track is then marked playing.

## Model

| member | source | states |
|---|---|---|
| `Gestures.Tap` | src/AudioTrainer.jsx:57-82 | After any tap the record names the tapped track and `now`, and its count is 0, 1 or 2. The gesture is single, double or triple exactly when the stored count is 1, 2 or 0. A tap that is not on the last track within 600 ms (inclusive) is a single click, so no count leaks to another track. A continuing tap moves the count 1 → 2 → 0 (restart). |
| `Gestures.BurstContinues` | src/AudioTrainer.jsx:58-76 | Quick taps continuing a gesture already `count` taps in advance its phase by one per tap. |
| `Gestures.BurstFromFresh` | src/AudioTrainer.jsx:58-82 | Taps on one track, each within 600 ms of the previous one, starting afresh, are classified single, double, triple, single, …. A fourth quick tap is a fresh single click. |
| `Gestures.ClickRecord.constructor` | src/AudioTrainer.jsx:28 | The record starts with no track, count 0 and time 0. |
| `Gestures.ClickRecord.Register` | src/AudioTrainer.jsx:57-76 | Updates the record in place exactly as `Tap`. Afterwards `lastId` is the tapped track, `lastTime` is `now` and `count` is at most 2. A continuing tap increments the count below 3; a non-continuing tap sets it to 1 and gives a single click. |
| `Playback.MediaSink.constructor` | src/AudioTrainer.jsx:159-161 | The element starts with no source, at position 0 and paused. |
| `Playback.MediaSink.Play` | src/AudioTrainer.jsx:36 | `play()` leaves the element unpaused and leaves its source and position unchanged. |
| `Playback.MediaSink.Pause` | src/AudioTrainer.jsx:45 | `pause()` pauses the element and leaves its source and position unchanged. |
| `Component.AudioTrainer.constructor` | src/AudioTrainer.jsx:23-28 | Nothing is current or playing, no play request is pending, and the click record is fresh. With an empty element attached this is the `Start` state of the value model. |
| `Component.AudioTrainer.PlayTrack` | src/AudioTrainer.jsx:31-40 | With an element attached: the element holds the track's source at position 0, play is requested, and a completion that will adopt the track is queued. `currentId` and `isPlaying` are unchanged until it settles. With no element nothing changes. |
| `Component.AudioTrainer.PauseTrack` | src/AudioTrainer.jsx:42-47 | With an element attached: the element is paused at the same source and position, and `isPlaying` is false at once. `currentId` and pending requests are unchanged. With no element nothing changes. |
| `Component.AudioTrainer.RestartTrack` | src/AudioTrainer.jsx:49-54 | With an element attached: the element keeps its source, is at position 0 and unpaused, and a completion that marks playing is queued. It never changes `src` or `currentId`, so it restarts whatever is loaded. With no element nothing changes. |
| `Component.AudioTrainer.ResumeTrack` | src/AudioTrainer.jsx:87-89 | Requests play of whatever is loaded, from its current position, and queues a completion that marks playing. `currentId` and `isPlaying` are unchanged until it settles. |
| `Component.AudioTrainer.PlaySettled` | src/AudioTrainer.jsx:36-39 | The oldest pending request settles. A `playTrack` request sets `currentId` to its track and `isPlaying` on success; on rejection it clears `isPlaying` and keeps `currentId`. A restart or resume request (lines 53, 88) sets `isPlaying` on success and changes nothing on rejection. With no pending request nothing changes. |
| `Component.AudioTrainer.OnEnded` | src/AudioTrainer.jsx:162 | `isPlaying` becomes false; `currentId` is untouched. |
| `Component.AudioTrainer.OnPause` | src/AudioTrainer.jsx:163 | `isPlaying` becomes false; `currentId` is untouched. |
| `Component.AudioTrainer.OnPlay` | src/AudioTrainer.jsx:164 | `isPlaying` becomes true; `currentId` is untouched. |
| `Component.AudioTrainer.HandleButtonClick` | src/AudioTrainer.jsx:56-90 | The click record is updated as `Tap` and the whole state moves as `Trainer.Next`. The tap dispatches restart iff the stored count is back to 0, and pause iff it is 2. Pause pauses the element, clears `isPlaying` and queues nothing. A single click plays the tapped track iff it is not current, resumes iff it is current and not playing, and otherwise does nothing. A tap never changes `currentId` directly. |
| `Component.TwoTrackScenarioOnObjects` | src/AudioTrainer.jsx:31-90 | On a freshly mounted component with tracks 1 and 2: tap 1 and let it play gives (1, playing). A second tap on 1 within the window gives (1, not playing). Tapping 2 later and letting it play gives (2, playing) with 2's source loaded. |
| `Trainer.QuietRunKeepsClicks` | src/AudioTrainer.jsx:159-165 | Play completions and element notifications never touch the click record, and never attach or detach the element. |
| `Trainer.DoubleTapPauses` | src/AudioTrainer.jsx:56-82 | Two taps on a track within the window, the first of which starts a fresh gesture (it does not continue the previous one), leave the count at 2, the element paused and `isPlaying` false. This holds whatever settled or was notified between the taps. |
| `Trainer.LatePlayOvertakesPause` | src/AudioTrainer.jsx:31-47 | The component itself does not cancel the first tap's play request when a double tap pauses. If that request is fulfilled anyway, the track becomes current and is marked playing over a paused element. (An element usually rejects a pending play request when paused; that rejection is not modelled, see below.) |
| `Trainer.TripleTapRestarts` | src/AudioTrainer.jsx:49-90 | Three quick taps on a track, the first of which starts a fresh gesture (it does not continue the previous one), leave, whatever requests were already pending, the count at 0, the element unpaused at position 0, and a restart request last in the queue. A fourth quick tap is a single click. |
| `Trainer.TripleTapSettles` | src/AudioTrainer.jsx:31-90 | From a state with no pending request, once the requests of three quick taps (the first of which starts a fresh gesture) are fulfilled the track plays from 0, unpaused. It is the tapped track if that was not current; otherwise whatever source was loaded. |
| `Trainer.PositionStaysZero` | src/AudioTrainer.jsx:35-52 | The component only ever sets the position to 0. On every run from a state at position 0 (such as `Start`) the position stays 0. |
| `Trainer.RejectedSwitchResumesOtherSource` | src/AudioTrainer.jsx:31-89 | If switching from current track `a` to `b` is rejected, `a` stays current and not playing while the element holds `b`'s source. A later single tap on `a` is a resume, and once fulfilled it marks `a` playing over `b`'s source. |
| `Trainer.TwoTrackScenario` | src/AudioTrainer.jsx:31-90 | The same two-track sequence as `TwoTrackScenarioOnObjects`, on the value model from `Start`. The loaded source is "a.m4a" after the first play and "b.m4a" at the end. |
| `Trainer.RunInCatalog` | src/AudioTrainer.jsx:107-112 | Any run of taps on catalogue tracks and outside events preserves "everything comes from the catalogue": the current track, the tracks of pending requests, the last tapped track, and the element's source (or no source yet). |
| `Trainer.ReachableInCatalog` | src/AudioTrainer.jsx:107-112 | Every state reachable from mounting by taps on catalogue buttons satisfies it. |

## Left out

- Rendering, styling, the grid and the mouse-down/up scale effects (src/AudioTrainer.jsx:92-158): UI with no state logic. Each button's only behaviour is the call `handleButtonClick(t)`.
- The volume slider (src/AudioTrainer.jsx:144-155): a floating-point pass-through to the element's `volume`.
- The contents of `TRACKS` (src/AudioTrainer.jsx:3-19): the catalogue is a parameter, a list of `(id, src)` pairs. The `title` field is display text only.
- src/App.jsx: it only renders the component.
- `Date.now()` is the `now` parameter. Real promise scheduling is the explicit `PlaySettled` event.
- Whether a play request succeeds, and when the element emits `ended`, `pause` or `play`, is the element's business. The model lets these events happen in any order and with any outcome. It does not model the element rejecting pending play promises itself when its source changes or it is paused.
- Playback progress: `currentTime` is only ever set to 0 by the component and the model never advances it, so on every run from `Start` it stays 0 (`PositionStaysZero`). Restart and resume therefore leave the element in the same state in the model: unpaused at 0, with a completion that marks playing queued. Decoding and output are not modelled.
- The React state setters are immediate assignments. Batching, re-render timing and stale closures are not modelled.
- `Component.AudioTrainer.ResumeTrack`: line 88 calls `play()` without checking for the element. With no element it would throw a TypeError after the click record is updated. The model treats that as no change to the controller state.
- The compressor/gain routing graph and a timer-based single/double-click policy: no code for either is part of this model.
