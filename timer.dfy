/** The level clock: a stopwatch or a countdown that can be started, paused,
    resumed and reset. The wall-clock reading `now` is a parameter. */
module Timers {
  import opened Wrappers
  import opened Geometry
  import opened Text

  /** Any mode other than `"stopwatch"` counts down. */
  datatype TimerMode = Stopwatch | Countdown

  datatype TimerState = TimerState(
    mode: TimerMode,
    countdownTime: real,
    startTime: Option<real>,
    elapsed: real,
    paused: bool)

  /** A running timer always knows when it was started. */
  predicate Valid(t: TimerState)
  {
    !t.paused ==> t.startTime.Some?
  }

  /** `Timer(screen, mode, countdown_time)`. */
  function NewTimer(mode: TimerMode, countdownTime: real): (t: TimerState)
    ensures Valid(t) && t.paused && t.startTime == None && t.elapsed == 0.0
    ensures t.mode == mode && t.countdownTime == countdownTime
  {
    TimerState(mode, countdownTime, None, 0.0, true)
  }

  function Started(t: TimerState, now: real): (t': TimerState)
    ensures Valid(t') && !t'.paused && t'.startTime == Some(now)
    ensures t'.elapsed == t.elapsed && t'.mode == t.mode && t'.countdownTime == t.countdownTime
  {
    t.(paused := false, startTime := Some(now))
  }

  /** Seconds run since the last start, or 0 while paused. */
  function Running(t: TimerState, now: real): real
    requires Valid(t)
  {
    if t.paused then 0.0 else now - t.startTime.value
  }

  /** `pause()`: a running timer banks the time since its start; a paused
      one is left alone. */
  function Paused(t: TimerState, now: real): (t': TimerState)
    requires Valid(t)
    ensures Valid(t') && t'.paused
    ensures t.paused ==> t' == t
    ensures t'.elapsed == t.elapsed + Running(t, now)
    ensures t'.startTime == t.startTime && t'.mode == t.mode && t'.countdownTime == t.countdownTime
  {
    if !t.paused then t.(paused := true, elapsed := t.elapsed + (now - t.startTime.value)) else t
  }

  /** `resume()`: only a paused timer restarts, from `now`. */
  function Resumed(t: TimerState, now: real): (t': TimerState)
    ensures Valid(t) ==> Valid(t')
    ensures !t'.paused
    ensures !t.paused ==> t' == t
    ensures t.paused ==> t' == Started(t, now)
  {
    if t.paused then t.(paused := false, startTime := Some(now)) else t
  }

  /** `reset()` returns to the state of a new timer of the same mode. */
  function Cleared(t: TimerState): (t': TimerState)
    ensures t' == NewTimer(t.mode, t.countdownTime)
  {
    t.(startTime := None, elapsed := 0.0, paused := true)
  }

  /** `get_time()`: seconds counted up, or seconds left (never below 0). */
  function Reading(t: TimerState, now: real): (r: real)
    requires Valid(t)
    ensures t.mode == Stopwatch ==> r == t.elapsed + Running(t, now)
    ensures t.mode == Countdown ==> r >= 0.0 && r >= t.countdownTime - t.elapsed - Running(t, now)
    ensures t.mode == Countdown && r > 0.0 ==> r == t.countdownTime - t.elapsed - Running(t, now)
  {
    match t.mode
    case Stopwatch => t.elapsed + Running(t, now)
    case Countdown => MaxR(t.countdownTime - t.elapsed - Running(t, now), 0.0)
  }

  /** `update()`: a running countdown that has reached zero pauses itself. */
  function Updated(t: TimerState, now: real): (t': TimerState)
    requires Valid(t)
    ensures Valid(t')
    ensures t.mode == Stopwatch || t.paused ==> t' == t
    ensures t.mode == Countdown && !t.paused ==>
      t' == (if Reading(t, now) <= 0.0 then Paused(t, now) else t)
  {
    if t.mode == Countdown && !t.paused && Reading(t, now) <= 0.0 then Paused(t, now) else t
  }

  /** Pausing does not change what the timer reads at that instant. */
  lemma PauseKeepsReading(t: TimerState, now: real)
    requires Valid(t)
    ensures Reading(Paused(t, now), now) == Reading(t, now)
  {
  }

  /** Time spent paused is not counted: a stopwatch paused at `p` and
      resumed at `q` later reads `q - p` less than one left running. */
  lemma {:induction false} PausedIntervalExcluded(t: TimerState, p: real, q: real, n: real)
    requires Valid(t) && !t.paused && t.mode == Stopwatch
    ensures Reading(Resumed(Paused(t, p), q), n) == Reading(t, n) - (q - p)
  {
    var t1 := Paused(t, p);
    assert t1.elapsed == t.elapsed + (p - t.startTime.value);
    var t2 := Resumed(t1, q);
    assert t2.elapsed == t1.elapsed && t2.startTime == Some(q) && !t2.paused;
  }

  /** Once `update` stops an expired countdown it reads 0 from then on. */
  lemma ExpiredCountdownStaysZero(t: TimerState, now: real, later: real)
    requires Valid(t) && t.mode == Countdown && !t.paused && Reading(t, now) <= 0.0
    ensures Updated(t, now).paused
    ensures Reading(Updated(t, now), later) == 0.0
  {
  }

  /** A stopwatch reading grows with the clock while it runs. */
  lemma StopwatchMonotone(t: TimerState, a: real, b: real)
    requires Valid(t) && t.mode == Stopwatch && a <= b
    ensures Reading(t, a) <= Reading(t, b)
  {
  }

  /** The `MM:SS` split in `draw()`: whole seconds, then minutes and
      seconds by floor division by 60. */
  function Split60(reading: real): (ms: (int, int))
    ensures 0 <= ms.1 < 60
    ensures ms.0 * 60 + ms.1 == Trunc(reading)
    ensures reading >= 0.0 ==> ms.0 >= 0
  {
    var secs := Trunc(reading);
    (secs / 60, secs % 60)
  }

  /** The text `draw()` shows. */
  function Display(reading: real): (s: string)
    ensures 0.0 <= reading < 6000.0 ==> |s| == 5 && s[2] == ':'
  {
    var ms := Split60(reading);
    Pad2(ms.0) + ":" + Pad2(ms.1)
  }

  /** The `Timer` object. */
  class Timer {
    var mode: TimerMode
    var countdownTime: real
    var startTime: Option<real>
    var elapsed: real
    var paused: bool

    function State(): TimerState
      reads this
    {
      TimerState(mode, countdownTime, startTime, elapsed, paused)
    }

    ghost predicate Inv()
      reads this
    {
      Valid(State())
    }

    constructor (mode: TimerMode, countdownTime: real)
      ensures State() == NewTimer(mode, countdownTime) && Inv()
    {
      this.mode, this.countdownTime := mode, countdownTime;
      startTime, elapsed, paused := None, 0.0, true;
    }

    method Start(now: real)
      modifies this
      ensures State() == Started(old(State()), now) && Inv()
    {
      paused := false;
      startTime := Some(now);
    }

    method Pause(now: real)
      requires Inv()
      modifies this
      ensures State() == Paused(old(State()), now) && Inv()
    {
      if !paused {
        paused := true;
        elapsed := elapsed + (now - startTime.value);
      }
    }

    method Resume(now: real)
      requires Inv()
      modifies this
      ensures State() == Resumed(old(State()), now) && Inv()
    {
      if paused {
        paused := false;
        startTime := Some(now);
      }
    }

    method Reset()
      modifies this
      ensures State() == Cleared(old(State())) && Inv()
    {
      startTime := None;
      elapsed := 0.0;
      paused := true;
    }

    function GetTime(now: real): (r: real)
      requires Inv()
      reads this
      ensures var running := if paused then 0.0 else now - startTime.value;
        (mode == Stopwatch ==> r == elapsed + running) &&
        (mode == Countdown ==> r == MaxR(countdownTime - elapsed - running, 0.0) && r >= 0.0)
    {
      Reading(State(), now)
    }

    method Update(now: real)
      requires Inv()
      modifies this
      ensures State() == Updated(old(State()), now) && Inv()
    {
      if mode == Countdown && !paused {
        var remaining := GetTime(now);
        if remaining <= 0.0 {
          Pause(now);
        }
      }
    }
  }
}
