/** The ticks of an interval (crates/monoio/src/time/interval.rs). Instants and durations are in nanoseconds, instants
    counted from some time long ago. */
module Interval {
  import opened Prelude

  const LATE: nat := 5_000_000
  const U64_MAX: nat := 0xFFFF_FFFF_FFFF_FFFF

  datatype MissedTickBehavior = Burst | Delay | Skip

  /** The deadline after a missed one; None is the panic of the conversion to u64. */
  function NextTimeout(b: MissedTickBehavior, timeout: nat, now: nat, period: nat): Option<nat>
    requires now > timeout && period > 0
  {
    match b
    case Burst => Some(timeout + period)
    case Delay => Some(now + period)
    case Skip =>
      var past := (now - timeout) % period;
      if past > U64_MAX then None else Some(now + period - past)
  }

  /** The deadline that poll_tick sets after the one at `timeout`, at time `now`. */
  function NextDeadline(b: MissedTickBehavior, timeout: nat, now: nat, period: nat): Option<nat>
    requires period > 0
  {
    if now > timeout + LATE then NextTimeout(b, timeout, now, period) else Some(timeout + period)
  }

  /** `t` is a multiple of the period, `k` of them, after `start`. */
  predicate OnGrid(start: nat, period: nat, k: nat, t: nat) { t == start + k * period }

  /** A late tick under Skip: the next deadline is the first point of the grid that is still ahead. */
  lemma SkipIsNextGridPoint(timeout: nat, now: nat, period: nat)
    requires period > 0 && now > timeout + LATE
    ensures NextTimeout(Skip, timeout, now, period) == None <==> (now - timeout) % period > U64_MAX
    ensures var next := NextTimeout(Skip, timeout, now, period);
      next.Some? ==>
        && now < next.value <= now + period
        && OnGrid(timeout, period, (now - timeout) / period + 1, next.value)
  {
  }

  /** Skip panics only for a period of more than 584 years. */
  lemma SkipPanicsOnlyForHugePeriods(timeout: nat, now: nat, period: nat)
    requires period > 0 && now > timeout && NextTimeout(Skip, timeout, now, period) == None
    ensures period > U64_MAX
  {
  }

  /** A late tick under Delay leaves the grid unless it is late by whole periods. */
  lemma DelayLeavesTheGrid(timeout: nat, now: nat, period: nat)
    requires period > 0 && now > timeout + LATE
    ensures (exists k: nat :: OnGrid(timeout, period, k, NextTimeout(Delay, timeout, now, period).value))
       <==> (now - timeout) % period == 0
  {
    var late, next := now - timeout, NextTimeout(Delay, timeout, now, period).value;
    if k: nat :| OnGrid(timeout, period, k, next) {
      MultipleBefore(late, period, k);
    }
    if late % period == 0 {
      MultipleAfter(late, period);
      assert OnGrid(timeout, period, late / period + 1, next);
    }
  }

  lemma MultipleBefore(late: nat, period: nat, k: nat)
    requires period > 0 && late + period == k * period
    ensures late % period == 0
  {
    Distribute(k - 1, 1, period);
    if k > 0 {
      ModOfMultiple(k - 1, period);
    }
  }

  lemma MultipleAfter(late: nat, period: nat)
    requires period > 0 && late % period == 0
    ensures late + period == (late / period + 1) * period
  {
  }

  lemma Distribute(a: int, b: int, p: int)
    ensures (a + b) * p == a * p + b * p
  {
  }

  lemma AtLeastOne(x: int, p: nat)
    requires x >= 1
    ensures x * p >= p
  {
  }

  lemma ModOfMultiple(k: nat, period: nat)
    requires period > 0
    ensures (k * period) % period == 0
  {
    var q, r := (k * period) / period, (k * period) % period;
    assert k * period == q * period + r;
    Distribute(k - q, q, period);
    assert (k - q) * period == r;
    if k - q >= 1 {
      AtLeastOne(k - q, period);
    } else if q - k >= 1 {
      AtLeastOne(q - k, period);
      Distribute(k - q, q - k, period);
    }
  }

  // ----- every run -----

  /** Ticks at `ticks`, each polled ready at the time in `nows`, under the behaviour set then. */
  ghost predicate Run(start: nat, period: nat, ticks: seq<nat>, nows: seq<nat>, behaviors: seq<MissedTickBehavior>) {
    && period > 0 && |ticks| > 0 && |nows| == |behaviors| == |ticks| - 1 && ticks[0] == start
    && (forall i {:trigger nows[i]} :: 0 <= i < |nows| ==>
          NextDeadline(behaviors[i], ticks[i], nows[i], period) == Some(ticks[i + 1]))
  }

  /** How many periods one step moves on. */
  function Periods(b: MissedTickBehavior, timeout: nat, now: nat, period: nat): nat
    requires period > 0
  {
    if b.Skip? && now > timeout + LATE then (now - timeout) / period + 1 else 1
  }

  lemma StepStaysOnGrid(b: MissedTickBehavior, timeout: nat, now: nat, period: nat)
    requires period > 0 && (b.Delay? ==> now <= timeout + LATE)
    ensures var next := NextDeadline(b, timeout, now, period);
      next.Some? ==> OnGrid(timeout, period, Periods(b, timeout, now, period), next.value)
  {
  }

  /** The number of the `i`-th tick on the grid. */
  ghost function Index(period: nat, ticks: seq<nat>, nows: seq<nat>, behaviors: seq<MissedTickBehavior>, i: nat): nat
    requires period > 0 && i <= |nows| == |behaviors| == |ticks| - 1
  {
    if i == 0 then 0
    else Index(period, ticks, nows, behaviors, i - 1) + Periods(behaviors[i - 1], ticks[i - 1], nows[i - 1], period)
  }

  /** As long as Delay is only used in time, every tick is start + k * period, and k grows with every tick; by exactly
      one under Burst. */
  lemma {:induction false} TicksStayOnGrid(start: nat, period: nat, ticks: seq<nat>, nows: seq<nat>,
                                           behaviors: seq<MissedTickBehavior>, i: nat)
    requires Run(start, period, ticks, nows, behaviors) && i < |ticks|
    requires forall j :: 0 <= j < i && behaviors[j].Delay? ==> nows[j] <= ticks[j] + LATE
    ensures OnGrid(start, period, Index(period, ticks, nows, behaviors, i), ticks[i])
    ensures i > 0 ==>
              var before, k := Index(period, ticks, nows, behaviors, i - 1), Index(period, ticks, nows, behaviors, i);
              before < k && (behaviors[i - 1].Burst? ==> k == before + 1)
    ensures (forall j :: 0 <= j < i ==> behaviors[j].Burst?) ==> ticks[i] == start + i * period
  {
    if i > 0 {
      TicksStayOnGrid(start, period, ticks, nows, behaviors, i - 1);
      StepStaysOnGrid(behaviors[i - 1], ticks[i - 1], nows[i - 1], period);
      assert nows[i - 1] == nows[i - 1];
      var k := Index(period, ticks, nows, behaviors, i - 1);
      var p := Periods(behaviors[i - 1], ticks[i - 1], nows[i - 1], period);
      Distribute(k, p, period);
      Distribute(i - 1, 1, period);
    }
  }

  // ----- as the code has it -----

  datatype Tick = NotYet | At(instant: nat) | Panicked

  class Interval {
    var deadline: nat
    const period: nat
    var missedTickBehavior: MissedTickBehavior

    /** interval_at, which panics for a zero period. */
    constructor (start: nat, period: nat)
      requires period > 0
      ensures deadline == start && this.period == period && missedTickBehavior == Burst
    {
      deadline, this.period, missedTickBehavior := start, period, Burst;
    }

    method SetMissedTickBehavior(behavior: MissedTickBehavior)
      modifies this`missedTickBehavior
      ensures missedTickBehavior == behavior
    {
      missedTickBehavior := behavior;
    }

    /** poll_tick; `elapsed` tells whether the sleep is over, `now` is the time when it is asked. Up to 5 ms late, and
        always under Burst, the next deadline is one period after the last; later than that it is one period from now
        under Delay, and the next multiple of the period from the last one under Skip. */
    method PollTick(elapsed: bool, now: nat) returns (r: Tick)
      requires period > 0
      modifies this`deadline
      ensures r.NotYet? <==> !elapsed
      ensures elapsed ==>
                var next := NextDeadline(missedTickBehavior, old(deadline), now, period);
                if next.None? then r.Panicked?
                else r == At(old(deadline)) && deadline == next.value && deadline > old(deadline)
      ensures elapsed ==>
                var last := old(deadline);
                if now <= last + 5_000_000 || missedTickBehavior.Burst? then r == At(last) && deadline == last + period
                else if missedTickBehavior.Delay? then r == At(last) && deadline == now + period
                else if (now - last) % period > 0xFFFF_FFFF_FFFF_FFFF then r.Panicked?
                else
                  && r == At(last) && now < deadline <= now + period
                  && OnGrid(last, period, (now - last) / period + 1, deadline)
      ensures !r.At? ==> deadline == old(deadline)
    {
      if !elapsed {
        return NotYet;
      }
      var timeout := deadline;
      if now > timeout + LATE {
        SkipIsNextGridPoint(timeout, now, period);
      }
      var next;
      if now > timeout + LATE {
        next := NextTimeout(missedTickBehavior, timeout, now, period);
      } else {
        next := Some(timeout + period);
      }
      if next.None? {
        return Panicked;
      }
      deadline := next.value;
      r := At(timeout);
    }
  }
}
