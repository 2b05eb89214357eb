/**
 * The audio trainer as a whole, as values: `handleButtonClick` composes the
 * click classifier with the playback controller, and every other input is an
 * event from outside (a play request settling, the element's notifications).
 * The lemmas follow runs of events through `Next`.
 */
module Trainer {
  import opened Wrappers
  import opened Gestures
  import opened Playback

  /** The command one tap dispatches. */
  datatype Command = Restart | Pause | Play(track: Track) | Resume | Stay

  /**
   * Which command a tap of gesture `g` on `track` dispatches, given the
   * controller state the handler sees.
   */
  function Dispatch(g: Gesture, track: Track, currentId: Option<int>, isPlaying: bool): Command {
    match g
    case TripleClick => Restart
    case DoubleClick => Pause
    case SingleClick =>
      if currentId != Some(track.id) then Play(track)
      else if !isPlaying then Resume
      else Stay
  }

  /** What the controller does for a command. */
  function Perform(p: Player, c: Command): Player {
    match c
    case Restart => RestartTrack(p)
    case Pause => PauseTrack(p)
    case Play(track) => PlayTrack(p, track)
    case Resume => ResumeTrack(p)
    case Stay => p
  }

  /** An input to the component. */
  datatype Event =
    | Click(track: Track, now: int)   // a tap on a track button at clock reading `now`
    | PlaySettled(ok: bool)           // the oldest pending play request is fulfilled or rejected
    | SinkEnded                       // the element has become paused at the end and fires `ended`
    | SinkPaused                      // the element has become paused and fires `pause`
    | SinkPlayed                      // the element has become unpaused and fires `play`

  /** The whole component state: the click record and the controller. */
  datatype TrainerState = TrainerState(clicks: ClickState, player: Player)

  /** The component once mounted: an empty element, nothing current, no click yet. */
  const Start: TrainerState := TrainerState(Gestures.Initial, Player(Some(EmptySink), None, false, []))

  function Next(t: TrainerState, e: Event): TrainerState {
    match e
    case Click(track, now) =>
      var (c, g) := Tap(t.clicks, track.id, now);
      TrainerState(c, Perform(t.player, Dispatch(g, track, t.player.currentId, t.player.isPlaying)))
    case PlaySettled(ok) => t.(player := Settle(t.player, ok))
    case SinkEnded => t.(player := OnEnded(ElementSetsPaused(t.player, true)))
    case SinkPaused => t.(player := OnPause(ElementSetsPaused(t.player, true)))
    case SinkPlayed => t.(player := OnPlay(ElementSetsPaused(t.player, false)))
  }

  function Run(t: TrainerState, es: seq<Event>): TrainerState
    decreases |es|
  {
    if es == [] then t else Run(Next(t, es[0]), es[1..])
  }

  /** Running two stretches of events one after the other is running their concatenation. */
  lemma {:induction false} RunAppend(t: TrainerState, a: seq<Event>, b: seq<Event>)
    ensures Run(t, a + b) == Run(Run(t, a), b)
    decreases |a|
  {
    if a == [] {
      assert a + b == b;
    } else {
      assert (a + b)[0] == a[0];
      assert (a + b)[1..] == a[1..] + b;
      RunAppend(Next(t, a[0]), a[1..], b);
    }
  }

  /**
   * Events other than taps never touch the click record, and never attach or
   * detach the element.
   */
  lemma {:induction false} QuietRunKeepsClicks(t: TrainerState, es: seq<Event>)
    requires forall e :: e in es ==> !e.Click?
    ensures Run(t, es).clicks == t.clicks
    ensures Run(t, es).player.sink.Some? == t.player.sink.Some?
    decreases |es|
  {
    if es != [] {
      assert es[0] in es;
      assert forall e :: e in es[1..] ==> e in es;
      QuietRunKeepsClicks(Next(t, es[0]), es[1..]);
    }
  }

  /**
   * Two taps on a track within the window, the first of which starts a
   * fresh gesture (it does not continue the previous one), leave it paused,
   * whatever happened in between (the first tap's play request fulfilled, rejected or still
   * pending, or any notification from the element).
   */
  lemma DoubleTapPauses(t: TrainerState, track: Track, n0: int, n1: int, between: seq<Event>)
    requires t.player.sink.Some?
    requires !Continues(t.clicks, track.id, n0) && n1 - n0 <= ClickWindowMs
    requires forall e :: e in between ==> !e.Click?
    ensures var u := Run(t, [Click(track, n0)] + between + [Click(track, n1)]);
      u.clicks.count == 2 && !u.player.isPlaying && u.player.sink.Some? && u.player.sink.value.paused
  {
    var t1 := Next(t, Click(track, n0));
    assert Run(t, [Click(track, n0)]) == t1;
    QuietRunKeepsClicks(t1, between);
    var t2 := Run(t1, between);
    assert Run(t2, [Click(track, n1)]) == Next(t2, Click(track, n1));
    RunAppend(t, [Click(track, n0)], between);
    RunAppend(t, [Click(track, n0)] + between, [Click(track, n1)]);
  }

  /**
   * The component itself does not cancel the first tap's play request when a
   * double tap pauses: if that request is fulfilled anyway, the track becomes
   * current and is marked playing over a paused element.
   */
  lemma LatePlayOvertakesPause(t: TrainerState, track: Track, n0: int, n1: int)
    requires t.player.sink.Some? && t.player.pending == [] && t.player.currentId != Some(track.id)
    requires !Continues(t.clicks, track.id, n0) && n1 - n0 <= ClickWindowMs
    ensures var u := Run(t, [Click(track, n0), Click(track, n1), PlaySettled(true)]);
      u.player.currentId == Some(track.id) && u.player.isPlaying &&
      u.player.sink == Some(Sink(track.src, 0.0, true)) && u.player.pending == []
  {
    var t1 := Next(t, Click(track, n0));
    var t2 := Next(t1, Click(track, n1));
    var t3 := Next(t2, PlaySettled(true));
    assert t1.player.pending == [AdoptTrack(track.id)];
    assert Run(t, [Click(track, n0), Click(track, n1), PlaySettled(true)]) == Run(t1, [Click(track, n1), PlaySettled(true)]);
    assert Run(t1, [Click(track, n1), PlaySettled(true)]) == Run(t2, [PlaySettled(true)]);
    assert Run(t2, [PlaySettled(true)]) == t3;
  }

  /**
   * Three taps on a track, each within the window of the previous one and
   * the first of which starts a fresh gesture, restart it, whatever requests were already pending: the count is back
   * to 0, the element is unpaused at position 0 and a restart request is last
   * in the queue. A fourth tap within the window is a fresh single click.
   */
  lemma TripleTapRestarts(t: TrainerState, track: Track, n0: int, n1: int, n2: int)
    requires t.player.sink.Some?
    requires !Continues(t.clicks, track.id, n0) && n1 - n0 <= ClickWindowMs && n2 - n1 <= ClickWindowMs
    ensures var u := Run(t, [Click(track, n0), Click(track, n1), Click(track, n2)]);
      u.clicks.count == 0 && u.player.sink.Some? &&
      u.player.sink.value.currentTime == 0.0 && !u.player.sink.value.paused &&
      u.player.pending != [] && u.player.pending[|u.player.pending| - 1] == MarkPlaying &&
      forall n3 :: n3 - n2 <= ClickWindowMs ==> Tap(u.clicks, track.id, n3).1 == SingleClick
  {
    var t1 := Next(t, Click(track, n0));
    var t2 := Next(t1, Click(track, n1));
    var t3 := Next(t2, Click(track, n2));
    assert t1.clicks.count == 1 && t2.clicks.count == 2 && t3.clicks.count == 0;
    assert t3.player.pending == t2.player.pending + [MarkPlaying];
    var three := [Click(track, n0), Click(track, n1), Click(track, n2)];
    assert Run(t, three) == Run(t1, three[1..]);
    assert Run(t1, three[1..]) == Run(t2, [Click(track, n2)]);
    assert Run(t2, [Click(track, n2)]) == t3;
  }

  /**
   * From a state with no pending request, once the requests of three quick
   * taps (the first of which starts a fresh gesture) are fulfilled the track plays from 0. It is the tapped track unless
   * that track was already the current one, in which case whatever is loaded
   * restarts.
   */
  lemma TripleTapSettles(t: TrainerState, track: Track, n0: int, n1: int, n2: int)
    requires t.player.sink.Some? && t.player.pending == []
    requires !Continues(t.clicks, track.id, n0) && n1 - n0 <= ClickWindowMs && n2 - n1 <= ClickWindowMs
    ensures var v := Run(t, [Click(track, n0), Click(track, n1), Click(track, n2), PlaySettled(true), PlaySettled(true)]);
      v.player.isPlaying && v.player.pending == [] && v.player.sink.Some? &&
      v.player.sink.value.currentTime == 0.0 && !v.player.sink.value.paused &&
      (t.player.currentId != Some(track.id) ==> v.player.currentId == Some(track.id) && v.player.sink.value.src == track.src) &&
      (t.player.currentId == Some(track.id) ==> v.player.currentId == t.player.currentId && v.player.sink.value.src == t.player.sink.value.src)
  {
    var t1 := Next(t, Click(track, n0));
    var t2 := Next(t1, Click(track, n1));
    var t3 := Next(t2, Click(track, n2));
    var t4 := Next(t3, PlaySettled(true));
    var t5 := Next(t4, PlaySettled(true));
    assert t1.clicks.count == 1 && t2.clicks.count == 2 && t3.clicks.count == 0;
    if t.player.currentId != Some(track.id) {
      assert t3.player.pending == [AdoptTrack(track.id), MarkPlaying];
      assert t5.player.currentId == Some(track.id);
    } else if !t.player.isPlaying {
      assert t3.player.pending == [MarkPlaying, MarkPlaying];
    } else {
      assert t3.player.pending == [MarkPlaying];
    }
    assert t5.player.isPlaying && t5.player.pending == [];
    var three := [Click(track, n0), Click(track, n1), Click(track, n2)];
    assert Run(t, three) == Run(t1, three[1..]);
    assert Run(t1, three[1..]) == Run(t2, [Click(track, n2)]);
    assert Run(t2, [Click(track, n2)]) == t3;
    assert three + [PlaySettled(true), PlaySettled(true)]
      == [Click(track, n0), Click(track, n1), Click(track, n2), PlaySettled(true), PlaySettled(true)];
    RunAppend(t, three, [PlaySettled(true), PlaySettled(true)]);
    assert Run(t3, [PlaySettled(true), PlaySettled(true)]) == Run(t4, [PlaySettled(true)]);
    assert Run(t4, [PlaySettled(true)]) == t5;
  }

  /**
   * When switching from the current track `a` to `b` is rejected, `a` stays
   * current while the element keeps `b`'s source; a later single tap on `a`
   * is then a resume, and once fulfilled `a` is shown playing while the
   * element plays `b`'s source.
   */
  lemma RejectedSwitchResumesOtherSource(t: TrainerState, a: Track, b: Track, n0: int, n1: int)
    requires t.player.sink.Some? && t.player.pending == []
    requires t.player.currentId == Some(a.id) && a.id != b.id
    requires !Continues(t.clicks, b.id, n0)
    ensures var u := Run(t, [Click(b, n0), PlaySettled(false)]);
      u.player.currentId == Some(a.id) && !u.player.isPlaying && u.player.sink.Some? && u.player.sink.value.src == b.src
    ensures var v := Run(t, [Click(b, n0), PlaySettled(false), Click(a, n1), PlaySettled(true)]);
      v.player.currentId == Some(a.id) && v.player.isPlaying && v.player.sink.Some? && v.player.sink.value.src == b.src
  {
    var t1 := Next(t, Click(b, n0));
    var t2 := Next(t1, PlaySettled(false));
    var t3 := Next(t2, Click(a, n1));
    var t4 := Next(t3, PlaySettled(true));
    assert t1.player.pending == [AdoptTrack(b.id)];
    assert t2.player.pending == [];
    assert t3.player.pending == [MarkPlaying];
    var four := [Click(b, n0), PlaySettled(false), Click(a, n1), PlaySettled(true)];
    assert Run(t, [Click(b, n0), PlaySettled(false)]) == Run(t1, [PlaySettled(false)]);
    assert Run(t1, [PlaySettled(false)]) == t2;
    assert Run(t, four) == Run(t1, four[1..]);
    assert Run(t1, four[1..]) == Run(t2, four[2..]);
    assert Run(t2, four[2..]) == Run(t3, [PlaySettled(true)]);
    assert Run(t3, [PlaySettled(true)]) == t4;
  }

  /**
   * Two tracks 1 ("a.m4a") and 2 ("b.m4a"): tap 1 and let it play; tap 1 again
   * within the window and it pauses; tap 2 later and 2 plays, loaded in
   * place of 1.
   */
  lemma TwoTrackScenario()
    ensures var one := Track(1, "a.m4a");
      var s1 := Run(Start, [Click(one, 1000), PlaySettled(true)]);
      s1.player.currentId == Some(1) && s1.player.isPlaying && s1.player.sink == Some(Sink("a.m4a", 0.0, false))
    ensures var one, two := Track(1, "a.m4a"), Track(2, "b.m4a");
      var s2 := Run(Start, [Click(one, 1000), PlaySettled(true), Click(one, 1300)]);
      s2.player.currentId == Some(1) && !s2.player.isPlaying
    ensures var one, two := Track(1, "a.m4a"), Track(2, "b.m4a");
      var s3 := Run(Start, [Click(one, 1000), PlaySettled(true), Click(one, 1300), Click(two, 2500), PlaySettled(true)]);
      s3.player.currentId == Some(2) && s3.player.isPlaying && s3.player.sink == Some(Sink("b.m4a", 0.0, false))
  {
    var one, two := Track(1, "a.m4a"), Track(2, "b.m4a");
    var es := [Click(one, 1000), PlaySettled(true), Click(one, 1300), Click(two, 2500), PlaySettled(true)];
    var s0 := Start;
    var s1 := Next(s0, es[0]);
    var s2 := Next(s1, es[1]);
    var s3 := Next(s2, es[2]);
    var s4 := Next(s3, es[3]);
    var s5 := Next(s4, es[4]);
    assert s2.player.currentId == Some(1) && s2.player.isPlaying;
    assert s3.player.currentId == Some(1) && !s3.player.isPlaying;
    assert s5.player.currentId == Some(2) && s5.player.isPlaying;
    assert Run(s0, es[..2]) == Run(s1, es[1..2]);
    assert Run(s1, es[1..2]) == s2;
    assert es[..3] == [Click(one, 1000), PlaySettled(true), Click(one, 1300)];
    assert Run(s0, es[..3]) == Run(s1, es[1..3]);
    assert Run(s1, es[1..3]) == Run(s2, es[2..3]);
    assert Run(s2, es[2..3]) == s3;
    assert Run(s0, es) == Run(s1, es[1..]);
    assert Run(s1, es[1..]) == Run(s2, es[2..]);
    assert Run(s2, es[2..]) == Run(s3, es[3..]);
    assert Run(s3, es[3..]) == Run(s4, es[4..]);
    assert Run(s4, es[4..]) == s5;
  }

  /**
   * The component only ever sets the element's position to 0 and the model
   * does not advance it, so on every run from a state at position 0 the
   * position stays 0: restart and resume then leave the element alike.
   */
  lemma {:induction false} PositionStaysZero(t: TrainerState, es: seq<Event>)
    requires t.player.sink.Some? ==> t.player.sink.value.currentTime == 0.0
    ensures Run(t, es).player.sink.Some? ==> Run(t, es).player.sink.value.currentTime == 0.0
    decreases |es|
  {
    if es != [] {
      PositionStaysZero(Next(t, es[0]), es[1..]);
    }
  }

  /** The ids and sources of a catalogue. */
  function Ids(catalog: seq<Track>): set<int> {
    set tr | tr in catalog :: tr.id
  }

  function Srcs(catalog: seq<Track>): set<string> {
    set tr | tr in catalog :: tr.src
  }

  /**
   * Everything the component refers to comes from the catalogue: the current
   * track, the tracks of pending play requests, the last tapped track, and
   * the element's source (or no source yet).
   */
  predicate InCatalog(catalog: seq<Track>, t: TrainerState) {
    (t.player.currentId.Some? ==> t.player.currentId.value in Ids(catalog)) &&
    (forall k :: k in t.player.pending && k.AdoptTrack? ==> k.id in Ids(catalog)) &&
    (t.player.sink.Some? ==> t.player.sink.value.src == "" || t.player.sink.value.src in Srcs(catalog)) &&
    (t.clicks.lastId.Some? ==> t.clicks.lastId.value in Ids(catalog))
  }

  /** Taps on catalogue tracks only. */
  predicate FromCatalog(catalog: seq<Track>, es: seq<Event>) {
    forall e :: e in es && e.Click? ==> e.track in catalog
  }

  /** One event keeps the component within the catalogue. */
  lemma NextInCatalog(catalog: seq<Track>, t: TrainerState, e: Event)
    requires InCatalog(catalog, t)
    requires e.Click? ==> e.track in catalog
    ensures InCatalog(catalog, Next(t, e))
  {
    match e
    case Click(track, now) =>
      assert track.id in Ids(catalog) && track.src in Srcs(catalog);
    case PlaySettled(ok) =>
      if t.player.pending != [] {
        assert forall k :: k in t.player.pending[1..] ==> k in t.player.pending;
      }
    case SinkEnded =>
    case SinkPaused =>
    case SinkPlayed =>
  }

  /** Every run of catalogue taps and outside events keeps the component within the catalogue. */
  lemma {:induction false} RunInCatalog(catalog: seq<Track>, t: TrainerState, es: seq<Event>)
    requires InCatalog(catalog, t) && FromCatalog(catalog, es)
    ensures InCatalog(catalog, Run(t, es))
    decreases |es|
  {
    if es != [] {
      assert es[0] in es;
      var t' := Next(t, es[0]);
      NextInCatalog(catalog, t, es[0]);
      assert FromCatalog(catalog, es[1..]) by {
        forall e | e in es[1..] && e.Click? ensures e.track in catalog {
          assert e in es;
        }
      }
      RunInCatalog(catalog, t', es[1..]);
    }
  }

  /** Every state reachable from mounting by catalogue taps stays within the catalogue. */
  lemma ReachableInCatalog(catalog: seq<Track>, es: seq<Event>)
    requires FromCatalog(catalog, es)
    ensures InCatalog(catalog, Run(Start, es))
  {
    RunInCatalog(catalog, Start, es);
  }
}
