/** The per-frame clock shared by both viewers: the time elapsed since the
    previous frame, and the advance of the track parameter `t` in [0, 1).
    The wall clock itself is a parameter. */
module Clock {
  import opened Wrappers
  import opened Vectors

  /** The frame time assumed for the very first frame. */
  const FirstFrameDelta: real := 1.0 / 60.0

  /** The time since the previous frame; `last` is `None` until the first
      frame has been drawn. */
  function FrameDelta(last: Option<real>, now: real): (dt: real)
    ensures last.None? ==> dt == FirstFrameDelta
    ensures last.Some? ==> last.value + dt == now
  {
    match last
    case None => FirstFrameDelta
    case Some(previous) => now - previous
  }

  /** The frame deltas of a run of frames drawn at the given times. */
  function Deltas(last: Option<real>, times: seq<real>): (ds: seq<real>)
    ensures |ds| == |times|
    ensures |times| > 0 ==> ds[0] == FrameDelta(last, times[0])
    ensures forall i :: 0 < i < |times| ==> ds[i] == times[i] - times[i - 1]
    decreases |times|
  {
    if |times| == 0 then []
    else [FrameDelta(last, times[0])] + Deltas(Some(times[0]), times[1..])
  }

  function Sum(s: seq<real>): real {
    if |s| == 0 then 0.0 else s[0] + Sum(s[1..])
  }

  /** Consecutive deltas add up to the time between the previous frame and
      the last one: no time is lost or counted twice. */
  lemma {:induction false} DeltasTelescope(previous: real, times: seq<real>)
    requires |times| > 0
    ensures Sum(Deltas(Some(previous), times)) == times[|times| - 1] - previous
    decreases |times|
  {
    if |times| > 1 {
      DeltasTelescope(times[0], times[1..]);
    }
  }

  /** From the very first frame, the deltas add up to one nominal frame plus
      the time between the first frame and the last. */
  lemma DeltasFromStart(times: seq<real>)
    requires |times| > 0
    ensures Sum(Deltas(None, times)) == FirstFrameDelta + (times[|times| - 1] - times[0])
  {
    if |times| > 1 {
      DeltasTelescope(times[0], times[1..]);
    }
  }

  /** The per-frame update of the track parameter: unchanged while paused,
      otherwise `(t + speed * dt) % 1.0`. */
  function Advance(t: real, speed: real, paused: bool, dt: real): (r: real)
    ensures paused ==> r == t
    ensures !paused ==> 0.0 <= r < 1.0 && (t + speed * dt - r).Floor as real == t + speed * dt - r
  {
    if paused then t else Frac(t + speed * dt)
  }

  /** Two unpaused frames move the cart as far as one frame of their total
      length: the wrap-around loses nothing. */
  lemma AdvanceComposes(t: real, speed: real, dt1: real, dt2: real)
    ensures Advance(Advance(t, speed, false, dt1), speed, false, dt2) == Advance(t, speed, false, dt1 + dt2)
  {
    FracAdd(t + speed * dt1, speed * dt2);
    assert t + speed * dt1 + speed * dt2 == t + speed * (dt1 + dt2);
  }

  /** The track parameter after frames drawn at each of `times` in turn,
      starting from `t` with the previous frame at `last`. */
  function Travel(t: real, speed: real, paused: bool, last: Option<real>, times: seq<real>): real
    decreases |times|
  {
    if |times| == 0 then t
    else Travel(Advance(t, speed, paused, FrameDelta(last, times[0])), speed, paused, Some(times[0]), times[1..])
  }

  /** A run of frames leaves a paused cart where it is, and moves an
      unpaused one as far as a single frame as long as all the frame deltas
      together. */
  lemma {:induction false} TravelSum(t: real, speed: real, paused: bool, last: Option<real>, times: seq<real>)
    requires |times| > 0
    ensures paused ==> Travel(t, speed, paused, last, times) == t
    ensures !paused ==> Travel(t, speed, paused, last, times) == Advance(t, speed, false, Sum(Deltas(last, times)))
    decreases |times|
  {
    var d0 := FrameDelta(last, times[0]);
    var t1 := Advance(t, speed, paused, d0);
    var ds := Deltas(last, times);
    assert ds[1..] == Deltas(Some(times[0]), times[1..]);
    if |times| == 1 {
      assert Sum(ds) == d0 + Sum(ds[1..]);
    } else {
      TravelSum(t1, speed, paused, Some(times[0]), times[1..]);
      if !paused {
        AdvanceComposes(t, speed, d0, Sum(ds[1..]));
      }
    }
  }
}
