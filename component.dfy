/**
 * The `AudioTrainer` component as objects: the `<audio>` element behind
 * `audioRef`, the click record behind `clickState`, and the state that
 * `setCurrentId` and `setIsPlaying` update, with the pending `play()`
 * completions. Each method is proved against the value model of the
 * Playback and Trainer modules.
 */
module Component {
  import opened Wrappers
  import opened Gestures
  import opened Playback
  import opened Trainer

  class AudioTrainer {
    const audio: MediaSink?     // audioRef.current
    const clicks: ClickRecord   // clickState.current
    var currentId: Option<int>
    var isPlaying: bool
    var pending: seq<Completion>

    /** The controller state as a value. */
    function Controller(): Player
      reads this, audio
    {
      Player(if audio == null then None else Some(audio.Snapshot()), currentId, isPlaying, pending)
    }

    /** The whole component state as a value. */
    function State(): TrainerState
      reads this, clicks, audio
    {
      TrainerState(clicks.State(), Controller())
    }

    constructor (audio: MediaSink?)
      ensures this.audio == audio && fresh(clicks)
      ensures clicks.State() == Gestures.Initial
      ensures currentId == None && !isPlaying && pending == []
      ensures audio != null && audio.Snapshot() == EmptySink ==> State() == Start
    {
      this.audio := audio;
      clicks := new ClickRecord();
      currentId, isPlaying, pending := None, false, [];
    }

    /** `playTrack(track)`: load, seek to 0, request play; the outcome arrives later. */
    method PlayTrack(track: Track)
      modifies this, audio
      ensures Controller() == Playback.PlayTrack(old(Controller()), track)
      ensures audio != null ==>
        audio.src == track.src && audio.currentTime == 0.0 && !audio.paused &&
        pending == old(pending) + [AdoptTrack(track.id)]
      ensures audio == null ==> pending == old(pending)
      ensures currentId == old(currentId) && isPlaying == old(isPlaying)
    {
      var a := audio;
      if a == null {
        return;
      }
      a.src := track.src;
      a.currentTime := 0.0;
      a.Play();
      pending := pending + [AdoptTrack(track.id)];
    }

    /** `pauseTrack()`: pause the element and mark not playing at once. */
    method PauseTrack()
      modifies this, audio
      ensures Controller() == Playback.PauseTrack(old(Controller()))
      ensures audio != null ==>
        audio.paused && audio.src == old(audio.src) && audio.currentTime == old(audio.currentTime) && !isPlaying
      ensures audio == null ==> isPlaying == old(isPlaying)
      ensures currentId == old(currentId) && pending == old(pending)
    {
      var a := audio;
      if a == null {
        return;
      }
      a.Pause();
      isPlaying := false;
    }

    /** `restartTrack()`: seek whatever is loaded to 0 and request play. */
    method RestartTrack()
      modifies this, audio
      ensures Controller() == Playback.RestartTrack(old(Controller()))
      ensures audio != null ==>
        audio.src == old(audio.src) && audio.currentTime == 0.0 && !audio.paused &&
        pending == old(pending) + [MarkPlaying]
      ensures audio == null ==> pending == old(pending)
      ensures currentId == old(currentId) && isPlaying == old(isPlaying)
    {
      var a := audio;
      if a == null {
        return;
      }
      a.currentTime := 0.0;
      a.Play();
      pending := pending + [MarkPlaying];
    }

    /** The single-click resume: request play of whatever is loaded, from where it stands. */
    method ResumeTrack()
      modifies this, audio
      ensures Controller() == Playback.ResumeTrack(old(Controller()))
      ensures audio != null ==>
        audio.src == old(audio.src) && audio.currentTime == old(audio.currentTime) && !audio.paused &&
        pending == old(pending) + [MarkPlaying]
      ensures audio == null ==> pending == old(pending)
      ensures currentId == old(currentId) && isPlaying == old(isPlaying)
    {
      var a := audio;
      if a == null {
        return;
      }
      a.Play();
      pending := pending + [MarkPlaying];
    }

    /**
     * The oldest pending `play()` promise settles: `ok` runs its `.then`,
     * otherwise its `.catch` (only `playTrack` has one).
     */
    method PlaySettled(ok: bool)
      modifies this
      ensures Controller() == Settle(old(Controller()), ok)
      ensures old(pending) == [] ==> currentId == old(currentId) && isPlaying == old(isPlaying) && pending == []
      ensures old(pending) != [] ==> pending == old(pending)[1..]
      ensures old(pending) != [] && old(pending)[0].AdoptTrack? ==>
        isPlaying == ok && currentId == (if ok then Some(old(pending)[0].id) else old(currentId))
      ensures old(pending) != [] && old(pending)[0] == MarkPlaying ==>
        isPlaying == (ok || old(isPlaying)) && currentId == old(currentId)
    {
      if pending == [] {
        return;
      }
      var k := pending[0];
      pending := pending[1..];
      match k
      case AdoptTrack(id) =>
        if ok {
          currentId := Some(id);
          isPlaying := true;
        } else {
          isPlaying := false;
        }
      case MarkPlaying =>
        if ok {
          isPlaying := true;
        }
    }

    /** The `onEnded` handler; the element has already changed its own `paused` flag before it notifies. */
    method OnEnded()
      modifies this`isPlaying
      ensures Controller() == Playback.OnEnded(old(Controller()))
      ensures !isPlaying && currentId == old(currentId)
    {
      isPlaying := false;
    }

    /** The `onPause` handler; the element has already changed its own `paused` flag before it notifies. */
    method OnPause()
      modifies this`isPlaying
      ensures Controller() == Playback.OnPause(old(Controller()))
      ensures !isPlaying && currentId == old(currentId)
    {
      isPlaying := false;
    }

    /** The `onPlay` handler; the element has already changed its own `paused` flag before it notifies. */
    method OnPlay()
      modifies this`isPlaying
      ensures Controller() == Playback.OnPlay(old(Controller()))
      ensures isPlaying && currentId == old(currentId)
    {
      isPlaying := true;
    }

    /**
     * `handleButtonClick(track)` with the clock reading `now`: update the
     * click record, then restart on a triple click, pause on a double click,
     * and on a single click play a track that is not the current one or
     * resume the current one when it is not playing.
     */
    method HandleButtonClick(track: Track, now: int) returns (cmd: Command)
      modifies this, clicks, audio
      ensures State() == Next(old(State()), Click(track, now))
      ensures clicks.State() == Tap(old(clicks.State()), track.id, now).0
      ensures cmd == Dispatch(Tap(old(clicks.State()), track.id, now).1, track, old(currentId), old(isPlaying))
      ensures Controller() == Perform(old(Controller()), cmd)
      ensures cmd == Restart <==> clicks.count == 0
      ensures cmd == Pause <==> clicks.count == 2
      ensures cmd == Play(track) <==> clicks.count == 1 && old(currentId) != Some(track.id)
      ensures cmd == Resume <==> clicks.count == 1 && old(currentId) == Some(track.id) && !old(isPlaying)
      ensures cmd == Stay <==> clicks.count == 1 && old(currentId) == Some(track.id) && old(isPlaying)
      ensures cmd == Pause && audio != null ==> !isPlaying && audio.paused && pending == old(pending)
      ensures currentId == old(currentId)
    {
      var g := clicks.Register(track.id, now);
      if g == TripleClick {
        RestartTrack();
        cmd := Restart;
      } else if g == DoubleClick {
        PauseTrack();
        cmd := Pause;
      } else if currentId != Some(track.id) {
        PlayTrack(track);
        cmd := Play(track);
      } else if !isPlaying {
        ResumeTrack();
        cmd := Resume;
      } else {
        cmd := Stay;
      }
    }
  }

  /**
   * Two tracks 1 ("a.m4a") and 2 ("b.m4a") on a mounted component: tap 1 and
   * let it play; tap 1 again within the window; tap 2 later and let it play.
   */
  method TwoTrackScenarioOnObjects() returns (first: (Option<int>, bool), second: (Option<int>, bool), third: (Option<int>, bool), loaded: string)
    ensures first == (Some(1), true)
    ensures second == (Some(1), false)
    ensures third == (Some(2), true) && loaded == "b.m4a"
  {
    var element := new MediaSink();
    var app := new AudioTrainer(element);
    var one, two := Track(1, "a.m4a"), Track(2, "b.m4a");
    var cmd := app.HandleButtonClick(one, 1000);
    app.PlaySettled(true);
    first := (app.currentId, app.isPlaying);
    cmd := app.HandleButtonClick(one, 1300);
    second := (app.currentId, app.isPlaying);
    cmd := app.HandleButtonClick(two, 2500);
    app.PlaySettled(true);
    third := (app.currentId, app.isPlaying);
    loaded := element.src;
  }
}
