/**
 * The click-gesture classifier of the audio trainer: a tap counter over the
 * record `{lastId, count, lastTime}` that turns every tap on a track button
 * into a single, double or triple click, synchronously, with a sliding
 * 600 ms window measured from the previous tap.
 */
module Gestures {
  import opened Wrappers

  /** Largest gap, in milliseconds, between two taps of one gesture (inclusive). */
  const ClickWindowMs: int := 600

  /** The value of the click record. */
  datatype ClickState = ClickState(lastId: Option<int>, count: nat, lastTime: int)

  /** What a tap is taken to be, read off the updated count. */
  datatype Gesture = SingleClick | DoubleClick | TripleClick

  /** The record before any tap. */
  const Initial: ClickState := ClickState(None, 0, 0)

  /** A tap on `id` at `now` continues the current gesture: same track and inside the window. */
  predicate Continues(s: ClickState, id: int, now: int) {
    s.lastId == Some(id) && now - s.lastTime <= ClickWindowMs
  }

  /**
   * One tap: update the record and classify the tap. A third (or later)
   * continuing tap is a triple click and resets the count to 0.
   */
  function Tap(s: ClickState, id: int, now: int): (r: (ClickState, Gesture))
    ensures r.0.lastId == Some(id) && r.0.lastTime == now
    ensures r.0.count <= 2
    ensures r.1 == SingleClick <==> r.0.count == 1
    ensures r.1 == DoubleClick <==> r.0.count == 2
    ensures r.1 == TripleClick <==> r.0.count == 0
    // a tap that does not continue the gesture starts afresh: no count leaks in
    ensures !Continues(s, id, now) ==> r.1 == SingleClick
    // a continuing tap advances the count cyclically 1, 2, 0 (restart), 1, ...
    ensures Continues(s, id, now) && s.count <= 2 ==> r.0.count == (s.count + 1) % 3
  {
    var count := if Continues(s, id, now) then s.count + 1 else 1;
    if count >= 3 then (ClickState(Some(id), 0, now), TripleClick)
    else (ClickState(Some(id), count, now), if count == 2 then DoubleClick else SingleClick)
  }

  /** The gestures of a run of taps, all on track `id`, at the given times. */
  function Taps(s: ClickState, id: int, times: seq<int>): (r: seq<Gesture>)
    ensures |r| == |times|
    decreases |times|
  {
    if times == [] then []
    else
      var (s', g) := Tap(s, id, times[0]);
      [g] + Taps(s', id, times[1..])
  }

  /** Consecutive taps are at most one window apart. */
  predicate WithinWindow(times: seq<int>) {
    forall i :: 0 < i < |times| ==> times[i] - times[i - 1] <= ClickWindowMs
  }

  /** The gesture of the k-th tap (from 0) of a burst that started afresh. */
  function CycleGesture(k: nat): Gesture {
    if k % 3 == 0 then SingleClick else if k % 3 == 1 then DoubleClick else TripleClick
  }

  /**
   * A burst that continues a gesture already `s.count` taps in goes on
   * cycling: each tap advances the phase by one.
   */
  lemma {:induction false} BurstContinues(s: ClickState, id: int, times: seq<int>)
    requires s.lastId == Some(id) && s.count <= 2
    requires times != [] ==> times[0] - s.lastTime <= ClickWindowMs
    requires WithinWindow(times)
    ensures forall k :: 0 <= k < |times| ==> Taps(s, id, times)[k] == CycleGesture(s.count + k)
    decreases |times|
  {
    if times != [] {
      var (s', g) := Tap(s, id, times[0]);
      var rest := times[1..];
      assert WithinWindow(rest) by {
        forall i | 0 < i < |rest| ensures rest[i] - rest[i - 1] <= ClickWindowMs {
          assert rest[i] == times[i + 1] && rest[i - 1] == times[i];
        }
      }
      assert rest != [] ==> rest[0] - s'.lastTime <= ClickWindowMs by {
        if rest != [] { assert rest[0] == times[1]; }
      }
      BurstContinues(s', id, rest);
      assert s'.count == (s.count + 1) % 3;
      forall k | 0 <= k < |times| ensures Taps(s, id, times)[k] == CycleGesture(s.count + k) {
        if k > 0 {
          assert Taps(s, id, times)[k] == Taps(s', id, rest)[k - 1];
          assert CycleGesture(s'.count + (k - 1)) == CycleGesture(s.count + k);
        }
      }
    }
  }

  /**
   * Taps on one track, each within the window of the previous one, starting
   * from a record the first tap does not continue, are classified single,
   * double, triple, single, double, triple, ...: a fourth quick tap is a
   * fresh single click, never a fourth count.
   */
  lemma {:induction false} BurstFromFresh(s: ClickState, id: int, times: seq<int>)
    requires times != [] && !Continues(s, id, times[0])
    requires WithinWindow(times)
    ensures forall k :: 0 <= k < |times| ==> Taps(s, id, times)[k] == CycleGesture(k)
  {
    var (s', g) := Tap(s, id, times[0]);
    var rest := times[1..];
    assert WithinWindow(rest) by {
      forall i | 0 < i < |rest| ensures rest[i] - rest[i - 1] <= ClickWindowMs {
        assert rest[i] == times[i + 1] && rest[i - 1] == times[i];
      }
    }
    assert rest != [] ==> rest[0] - s'.lastTime <= ClickWindowMs by {
      if rest != [] { assert rest[0] == times[1]; }
    }
    BurstContinues(s', id, rest);
    forall k | 0 <= k < |times| ensures Taps(s, id, times)[k] == CycleGesture(k) {
      if k > 0 {
        assert Taps(s, id, times)[k] == Taps(s', id, rest)[k - 1];
      }
    }
  }

  /** The mutable click record `clickState.current`, updated in place by every tap. */
  class ClickRecord {
    var lastId: Option<int>
    var count: nat
    var lastTime: int

    function State(): ClickState
      reads this
    {
      ClickState(lastId, count, lastTime)
    }

    constructor ()
      ensures State() == Initial
    {
      lastId, count, lastTime := None, 0, 0;
    }

    /** Record a tap on track `id` at clock reading `now` and classify it. */
    method Register(id: int, now: int) returns (g: Gesture)
      modifies this
      ensures (State(), g) == Tap(old(State()), id, now)
      ensures lastId == Some(id) && lastTime == now && count <= 2
      ensures old(Continues(State(), id, now)) && old(count) < 2 ==> count == old(count) + 1
      ensures !old(Continues(State(), id, now)) ==> count == 1 && g == SingleClick
    {
      var same := lastId == Some(id);
      var within := now - lastTime <= ClickWindowMs;
      if same && within {
        count := count + 1;
      } else {
        count := 1;
        lastId := Some(id);
      }
      lastTime := now;
      if count >= 3 {
        g := TripleClick;
        count := 0;
      } else if count == 2 {
        g := DoubleClick;
      } else {
        g := SingleClick;
      }
    }
  }
}
