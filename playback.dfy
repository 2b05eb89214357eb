/**
 * The playback controller of the audio trainer, as values: the `<audio>`
 * element's observable fields, the controller's `currentId` and `isPlaying`,
 * and the completions of `play()` requests that have not arrived yet.
 *
 * `play()` returns a promise. A request appends the continuation that its
 * `.then`/`.catch` would run; a later settlement event runs the oldest one
 * (an element settles its pending play promises in the order they were made).
 */
module Playback {
  import opened Wrappers

  /** A catalogue entry: its identity and the URI the element loads. */
  datatype Track = Track(id: int, src: string)

  /** The observable state of the `<audio>` element. */
  datatype Sink = Sink(src: string, currentTime: real, paused: bool)

  /** An element before any source is assigned. */
  const EmptySink: Sink := Sink("", 0.0, true)

  /** What a pending `play()` promise runs when it settles. */
  datatype Completion =
    | AdoptTrack(id: int)   // playTrack: then current := id, playing; catch: not playing
    | MarkPlaying           // restart and resume: then playing; a rejection is not handled

  /**
   * The controller state. `sink` is `audioRef.current`: `None` while no
   * element is attached.
   */
  datatype Player = Player(sink: Option<Sink>, currentId: Option<int>, isPlaying: bool, pending: seq<Completion>)

  /** `playTrack`: load the track's source, seek to 0, request play. */
  function PlayTrack(p: Player, track: Track): Player {
    match p.sink
    case None => p
    case Some(_) =>
      p.(sink := Some(Sink(track.src, 0.0, false)), pending := p.pending + [AdoptTrack(track.id)])
  }

  /** `pauseTrack`: pause the element and mark not playing at once. */
  function PauseTrack(p: Player): Player {
    match p.sink
    case None => p
    case Some(s) => p.(sink := Some(s.(paused := true)), isPlaying := false)
  }

  /** `restartTrack`: seek whatever is loaded to 0 and request play. */
  function RestartTrack(p: Player): Player {
    match p.sink
    case None => p
    case Some(s) => p.(sink := Some(s.(currentTime := 0.0, paused := false)), pending := p.pending + [MarkPlaying])
  }

  /**
   * The single-click resume: request play of whatever is loaded, from where
   * it stands. The source does not check for a missing element here; the
   * TypeError it would raise ends the handler with no change of state.
   */
  function ResumeTrack(p: Player): Player {
    match p.sink
    case None => p
    case Some(s) => p.(sink := Some(s.(paused := false)), pending := p.pending + [MarkPlaying])
  }

  /** The oldest pending play request settles, fulfilled (`ok`) or rejected. */
  function Settle(p: Player, ok: bool): Player {
    if p.pending == [] then p
    else
      var rest := p.(pending := p.pending[1..]);
      match p.pending[0]
      case AdoptTrack(id) =>
        if ok then rest.(currentId := Some(id), isPlaying := true) else rest.(isPlaying := false)
      case MarkPlaying =>
        if ok then rest.(isPlaying := true) else rest
  }

  /**
   * The element's own change of its `paused` flag, which it makes before it
   * fires a notification: `ended` and `pause` come after it became paused,
   * `play` after it became unpaused. The handlers below do not touch it.
   */
  function ElementSetsPaused(p: Player, paused: bool): Player {
    match p.sink
    case None => p
    case Some(s) => p.(sink := Some(s.(paused := paused)))
  }

  /** The element's `ended` notification. */
  function OnEnded(p: Player): Player {
    p.(isPlaying := false)
  }

  /** The element's `pause` notification. */
  function OnPause(p: Player): Player {
    p.(isPlaying := false)
  }

  /** The element's `play` notification. */
  function OnPlay(p: Player): Player {
    p.(isPlaying := true)
  }

  /** The `<audio>` element: a foreign object of which only these fields are kept. */
  class MediaSink {
    var src: string
    var currentTime: real
    var paused: bool

    function Snapshot(): Sink
      reads this
    {
      Sink(src, currentTime, paused)
    }

    constructor ()
      ensures Snapshot() == EmptySink
    {
      src, currentTime, paused := "", 0.0, true;
    }

    /** `play()`: the element leaves the paused state; the promise is the caller's to record. */
    method Play()
      modifies this
      ensures Snapshot() == old(Snapshot()).(paused := false)
    {
      paused := false;
    }

    /** `pause()`. */
    method Pause()
      modifies this
      ensures Snapshot() == old(Snapshot()).(paused := true)
    {
      paused := true;
    }
  }
}
