/**
 `EpochProcessor`: turns a cumulative counter into a per-second rate by
 remembering the previous value and when it was seen. The clock
 (`DateTime.Now`) is a parameter counted in `DateTime` ticks; values are
 reals.
 */
module Processors {
  import opened Base

  /** `DateTime` ticks per second (a tick is 100 ns). */
  const TicksPerSecond: int := 10_000_000

  function Abs(x: int): nat {
    if x < 0 then -x else x
  }

  /**
   `Convert.ToInt32(span.TotalSeconds)` for a span of `ticks`: the nearest
   whole number of seconds, a half going to the even neighbour.
   */
  function RoundSeconds(ticks: int): (s: int)
    ensures 2 * Abs(s * TicksPerSecond - ticks) <= TicksPerSecond
    ensures 2 * Abs(s * TicksPerSecond - ticks) == TicksPerSecond ==> s % 2 == 0
  {
    var q, rem := ticks / TicksPerSecond, ticks % TicksPerSecond;
    if 2 * rem < TicksPerSecond then q
    else if 2 * rem > TicksPerSecond then q + 1
    else if q % 2 == 0 then q
    else q + 1
  }

  /** A span rounds to a positive number of seconds exactly when it exceeds half a second. */
  lemma RoundSecondsPositive(ticks: int)
    requires ticks >= 0
    ensures RoundSeconds(ticks) > 0 <==> 2 * ticks > TicksPerSecond
  {
  }

  /** `_lastVal` and `_lastTime`. */
  datatype Baseline = Baseline(lastVal: Option<real>, lastTime: Option<int>)

  /** The state after one `Process` call, and what it returned. */
  datatype Step = Step(baseline: Baseline, rate: Option<real>)

  /** A fresh processor remembers nothing. */
  const Fresh := Baseline(None, None)

  /** Both values are known and the clock moved forward by at least one rounded second. */
  predicate HasInterval(b: Baseline, val: Option<real>, now: int) {
    && val.Some? && b.lastVal.Some? && b.lastTime.Some?
    && now > b.lastTime.value
    && RoundSeconds(now - b.lastTime.value) > 0
  }

  /** The counter went down over a measurable interval: the rate would be negative. */
  predicate IsCounterReset(b: Baseline, val: Option<real>, now: int) {
    HasInterval(b, val, now) && val.value < b.lastVal.value
  }

  /** `Process(val)` at time `now` from baseline `b`. */
  function Transition(b: Baseline, val: Option<real>, now: int): (s: Step)
    ensures s.rate.Some? ==> s.rate.value >= 0.0
    ensures s.rate.Some? <==> HasInterval(b, val, now) && val.value >= b.lastVal.value
    ensures s.rate.Some? ==>
      s.rate.value * RoundSeconds(now - b.lastTime.value) as real == val.value - b.lastVal.value
    ensures IsCounterReset(b, val, now) ==> s.baseline == b
    ensures !IsCounterReset(b, val, now) ==> s.baseline == Baseline(val, Some(now))
  {
    if val.Some? && b.lastVal.Some? && b.lastTime.Some? && now > b.lastTime.value then
      var timeDiff := RoundSeconds(now - b.lastTime.value);
      if timeDiff > 0 then
        var rate := (val.value - b.lastVal.value) / timeDiff as real;
        if rate < 0.0 then Step(b, None)
        else Step(Baseline(val, Some(now)), Some(rate))
      else Step(Baseline(val, Some(now)), None)
    else Step(Baseline(val, Some(now)), None)
  }

  /** The first call on a fresh processor returns null and records its value and time. */
  lemma FirstCallRecordsBaseline(val: Option<real>, now: int)
    ensures Transition(Fresh, val, now) == Step(Baseline(val, Some(now)), None)
  {
  }

  /** A null value returns null and forgets the last value, so the next call returns null too. */
  lemma NullValueForgetsLastValue(b: Baseline, now: int, next: Option<real>, later: int)
    ensures Transition(b, None, now) == Step(Baseline(None, Some(now)), None)
    ensures Transition(Transition(b, None, now).baseline, next, later).rate == None
  {
  }

  /** A clock that did not move forward by a rounded second gives null but still moves the baseline. */
  lemma NoIntervalMovesBaseline(b: Baseline, val: Option<real>, now: int)
    requires b.lastTime.Some? && (now <= b.lastTime.value || RoundSeconds(now - b.lastTime.value) <= 0)
    ensures Transition(b, val, now) == Step(Baseline(val, Some(now)), None)
  {
  }

  /** 10 and then 20 one second later: 10 per second. */
  lemma TenPerSecond(t: int)
    ensures Transition(Transition(Fresh, Some(10.0), t).baseline, Some(20.0), t + TicksPerSecond).rate == Some(10.0)
  {
  }

  /**
   Because a counter reset keeps the old baseline, every later value below the
   pre-reset value is measured against it and gives null as well.
   */
  lemma ResetSuppressesLaterRates(b: Baseline, v1: real, t1: int, v2: real, t2: int)
    requires IsCounterReset(b, Some(v1), t1)
    requires v2 < b.lastVal.value
    ensures Transition(b, Some(v1), t1).rate == None
    ensures Transition(Transition(b, Some(v1), t1).baseline, Some(v2), t2).rate == None
  {
  }

  /** 20, then 5 a second later (a reset), then 10 a second after that: both give null. */
  lemma ResetExample(t: int)
    ensures var s1 := Transition(Transition(Fresh, Some(20.0), t).baseline, Some(5.0), t + TicksPerSecond);
            && s1.rate == None
            && s1.baseline == Baseline(Some(20.0), Some(t))
            && Transition(s1.baseline, Some(10.0), t + 2 * TicksPerSecond).rate == None
  {
  }

  class EpochProcessor {
    var lastVal: Option<real>
    var lastTime: Option<int>

    constructor ()
      ensures lastVal == None && lastTime == None
    {
      lastVal, lastTime := None, None;
    }

    /** `Process(val)`, with `now` standing for `DateTime.Now`. */
    method Process(val: Option<real>, now: int) returns (r: Option<real>)
      modifies this
      ensures Step(Baseline(lastVal, lastTime), r) == Transition(Baseline(old(lastVal), old(lastTime)), val, now)
    {
      r := None;
      if val.Some? && lastVal.Some? && lastTime.Some? && now > lastTime.value {
        var timeDiff := RoundSeconds(now - lastTime.value);
        if timeDiff > 0 {
          r := Some((val.value - lastVal.value) / timeDiff as real);
          // A drop in the counter gives no rate, and the early return keeps the old baseline.
          if r.value < 0.0 {
            return None;
          }
        }
      }
      lastVal := val;
      lastTime := Some(now);
    }
  }
}
