/** The pacing decision of `make_done_handler`: when a flush is issued the
    handler captures `next_timepoint = now + 1s`; when the flush completes
    without error, the next portion is delayed by a timer until that point if
    it has not yet been reached, and otherwise posted to run at once.

    Time is counted in integer ticks of the steady clock (nanoseconds, so one
    second is 10^9 ticks); nothing below depends on that value other than it
    being positive. */
module Pacing {

  /** The pacing interval, `1s`. */
  const Interval: nat := 1_000_000_000

  /** What the completion handler arranges for the next portion. */
  datatype Continuation =
    | Delay(ticks: nat)  // a steady timer armed for `ticks`
    | Immediate          // `io_ctx_.post` of the next portion

  function Max(a: int, b: int): int {
    if a < b then b else a
  }

  /** `next_timepoint`, captured when the handler is built at flush dispatch. */
  function Deadline(dispatch: int): (d: int)
    ensures d - dispatch == Interval && dispatch < d
  {
    dispatch + Interval
  }

  /** The decision the handler takes when the flush completes at `now`. */
  function Decide(deadline: int, now: int): (c: Continuation)
    ensures c.Delay? <==> now < deadline
    ensures c.Delay? ==> c.ticks > 0 && now + c.ticks == deadline
  {
    if now < deadline then Delay(deadline - now) else Immediate
  }

  /** The earliest time at which the next portion can start, given the
      decision taken at `now`. */
  function Resume(deadline: int, now: int): (t: int)
    ensures t == Max(deadline, now)
  {
    match Decide(deadline, now)
    case Delay(d) => now + d
    case Immediate => now
  }

  /** The dispatch time of the next portion when the flush issued at
      `dispatch` completes `latency` ticks later and the next portion runs as
      soon as it may. */
  function NextDispatch(dispatch: int, latency: nat): (t: int)
    ensures t == dispatch + Max(Interval, latency)
  {
    Resume(Deadline(dispatch), dispatch + latency)
  }

  /** Consecutive dispatch times are at least one interval apart. */
  predicate Paced(ts: seq<int>) {
    forall i :: 0 < i < |ts| ==> ts[i - 1] + Interval <= ts[i]
  }

  /** In a paced sequence, `j - i` steps take at least `j - i` intervals. */
  lemma {:induction false} PacedSpan(ts: seq<int>, i: nat, j: nat)
    requires Paced(ts) && i <= j < |ts|
    ensures ts[i] + (j - i) * Interval <= ts[j]
  {
    if i < j {
      PacedSpan(ts, i, j - 1);
      assert ts[j - 1] + Interval <= ts[j];
    }
  }

  /** The dispatch times of a session whose `k`-th flush takes
      `latencies[k]` ticks to complete, starting at `t0`. */
  function Timeline(t0: int, latencies: seq<nat>): (ts: seq<int>)
    ensures |ts| == |latencies| + 1 && ts[0] == t0
    decreases |latencies|
  {
    if latencies == [] then [t0]
    else [t0] + Timeline(NextDispatch(t0, latencies[0]), latencies[1..])
  }

  /** Each gap of the timeline is the interval or the flush latency,
      whichever is longer. */
  lemma {:induction false} TimelineGap(t0: int, latencies: seq<nat>, k: nat)
    requires k < |latencies|
    ensures Timeline(t0, latencies)[k + 1] == Timeline(t0, latencies)[k] + Max(Interval, latencies[k])
    decreases k
  {
    if k > 0 {
      TimelineGap(NextDispatch(t0, latencies[0]), latencies[1..], k - 1);
    }
  }

  /** Hence the timeline is paced. */
  lemma TimelinePaced(t0: int, latencies: seq<nat>)
    ensures Paced(Timeline(t0, latencies))
  {
    var ts := Timeline(t0, latencies);
    forall i | 0 < i < |ts|
      ensures ts[i - 1] + Interval <= ts[i]
    {
      TimelineGap(t0, latencies, i - 1);
    }
  }

  /** Extending the latencies by one extends the timeline by the next dispatch. */
  lemma {:induction false} TimelineSnoc(t0: int, latencies: seq<nat>, latency: nat)
    ensures Timeline(t0, latencies + [latency])
         == Timeline(t0, latencies) + [NextDispatch(Timeline(t0, latencies)[|latencies|], latency)]
    decreases |latencies|
  {
    if latencies != [] {
      assert (latencies + [latency])[1..] == latencies[1..] + [latency];
      TimelineSnoc(NextDispatch(t0, latencies[0]), latencies[1..], latency);
    }
  }

  /** The time a run of flushes spends between dispatches when each step
      waits for its own deadline only. */
  function TotalGap(latencies: seq<nat>): int {
    if latencies == [] then 0 else Max(Interval, latencies[0]) + TotalGap(latencies[1..])
  }

  /** The last dispatch happens `TotalGap` after the first. */
  lemma {:induction false} TimelineEnd(t0: int, latencies: seq<nat>)
    ensures Timeline(t0, latencies)[|latencies|] == t0 + TotalGap(latencies)
    decreases |latencies|
  {
    if latencies != [] {
      TimelineEnd(NextDispatch(t0, latencies[0]), latencies[1..]);
    }
  }

  /** No catch-up: a slow flush at step `j` is never made up by later steps.
      Every step takes at least one interval, and the excess of step `j`
      stays in the total however fast the other flushes complete. */
  lemma {:induction false} NoCatchUp(latencies: seq<nat>, j: nat)
    requires j < |latencies|
    ensures TotalGap(latencies) >= (|latencies| - 1) * Interval + Max(Interval, latencies[j])
  {
    if j > 0 {
      NoCatchUp(latencies[1..], j - 1);
      assert latencies[1..][j - 1] == latencies[j];
    } else {
      AtLeastOneIntervalEach(latencies[1..]);
    }
  }

  lemma {:induction false} AtLeastOneIntervalEach(latencies: seq<nat>)
    ensures TotalGap(latencies) >= |latencies| * Interval
  {
    if latencies != [] {
      AtLeastOneIntervalEach(latencies[1..]);
    }
  }
}
