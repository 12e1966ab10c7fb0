/** The paced chunk-stream session: the `response_data` record shared by the
    callbacks of one response, `send_next_portion`, the completion handler
    built by `make_done_handler`, the timer and post continuations it
    schedules, and `request_processor`, which flushes the headers once and
    sends the first portion.

    The response builder is seen only through the calls made on it, logged in
    order as `Event`s. The callbacks the event loop holds for the session are
    seen as its `phase`: the loop delivers a flush completion, a timer expiry
    or a posted call by invoking the matching method below. */
module Session {
  import opened Payload
  import opened Pacing
  import Routes

  /** A call made on the response builder. */
  datatype Event =
    | HeaderFlush       // the three header fields appended, then `flush()`
    | AppendChunk(data: string)
    | Flush             // `flush()` with no completion handler
    | FlushWithHandler  // `flush(make_done_handler(data))`
    | Done              // `done()`

  /** What the session is waiting for. */
  datatype Phase =
    | Initializing               // created; headers and first portion to come
    | AwaitFlush(deadline: int)  // a completion handler holding `next_timepoint`
    | AwaitTimer(expiry: int)    // a steady timer armed to expire at `expiry`
    | AwaitPost                  // the next portion posted to the event loop
    | Finalized                  // `done()` was called; nothing is pending
    | Failed                     // a flush or timer error; nothing is pending

  /** `n` non-final portions: each appends a chunk and flushes with a handler. */
  function Portions(chunk: string, n: nat): (t: seq<Event>)
    ensures |t| == 2 * n
  {
    if n == 0 then [] else Portions(chunk, n - 1) + [AppendChunk(chunk), FlushWithHandler]
  }

  /** The calls made once the headers and `n` non-final portions are out. */
  function Started(chunk: string, n: nat): seq<Event> {
    [HeaderFlush] + Portions(chunk, n)
  }

  /** The calls made by a session of `k` portions that ran to the end. */
  function Complete(chunk: string, k: nat): seq<Event>
    requires k >= 1
  {
    Started(chunk, k - 1) + [AppendChunk(chunk), Flush, Done]
  }

  /** Non-final portions never send headers, never flush without a handler
      and never finish the response. */
  lemma {:induction false} PortionsExclude(chunk: string, n: nat)
    ensures HeaderFlush !in Portions(chunk, n) && Flush !in Portions(chunk, n) && Done !in Portions(chunk, n)
  {
    if n > 0 {
      PortionsExclude(chunk, n - 1);
    }
  }

  /** `n` non-final portions append `n` chunks and flush `n` times with a
      handler, and every chunk they append is `chunk`. */
  lemma {:induction false} PortionsCounts(chunk: string, n: nat)
    ensures multiset(Portions(chunk, n))[AppendChunk(chunk)] == n
    ensures multiset(Portions(chunk, n))[FlushWithHandler] == n
    ensures forall e :: e in Portions(chunk, n) && e.AppendChunk? ==> e.data == chunk
  {
    if n > 0 {
      PortionsCounts(chunk, n - 1);
      assert multiset(Portions(chunk, n))
          == multiset(Portions(chunk, n - 1)) + multiset([AppendChunk(chunk), FlushWithHandler]);
    }
  }

  /** A session that stopped after `n` non-final portions (one that failed,
      or one still streaming) sent the headers once, first, then `n` chunks,
      and has not finished the response. */
  lemma StartedShape(chunk: string, n: nat)
    ensures Started(chunk, n)[0] == HeaderFlush && HeaderFlush !in Started(chunk, n)[1..]
    ensures multiset(Started(chunk, n))[AppendChunk(chunk)] == n
    ensures Done !in Started(chunk, n)
    ensures forall e :: e in Started(chunk, n) && e.AppendChunk? ==> e.data == chunk
  {
    PortionsExclude(chunk, n);
    PortionsCounts(chunk, n);
    assert Started(chunk, n)[1..] == Portions(chunk, n);
  }

  /** A session of `k` portions that ran to the end sent the headers first
      and called `done()` last, with `2k` calls in between. */
  lemma CompleteOrder(chunk: string, k: nat)
    requires k >= 1
    ensures |Complete(chunk, k)| == 2 * k + 2
    ensures Complete(chunk, k)[0] == HeaderFlush && HeaderFlush !in Complete(chunk, k)[1..]
    ensures Complete(chunk, k)[2 * k + 1] == Done && Done !in Complete(chunk, k)[..2 * k + 1]
  {
    var body := Portions(chunk, k - 1);
    PortionsExclude(chunk, k - 1);
    var t := Complete(chunk, k);
    assert t[1..] == body + [AppendChunk(chunk), Flush, Done];
    assert t[..2 * k + 1] == [HeaderFlush] + body + [AppendChunk(chunk), Flush];
  }

  /** ... and it sent exactly `k` chunks: `k - 1` flushed with a handler and
      the last one without ... */
  lemma CompleteChunkCount(chunk: string, k: nat)
    requires k >= 1
    ensures multiset(Complete(chunk, k))[AppendChunk(chunk)] == k
    ensures multiset(Complete(chunk, k))[FlushWithHandler] == k - 1
    ensures multiset(Complete(chunk, k))[Flush] == 1
  {
    PortionsExclude(chunk, k - 1);
    PortionsCounts(chunk, k - 1);
    CompleteMultiset(chunk, k);
  }

  /** ... and sent the headers and called `done()` exactly once each ... */
  lemma CompleteOnce(chunk: string, k: nat)
    requires k >= 1
    ensures multiset(Complete(chunk, k))[HeaderFlush] == 1
    ensures multiset(Complete(chunk, k))[Done] == 1
  {
    PortionsExclude(chunk, k - 1);
    CompleteMultiset(chunk, k);
  }

  lemma CompleteMultiset(chunk: string, k: nat)
    requires k >= 1
    ensures multiset(Complete(chunk, k))
         == multiset{HeaderFlush} + multiset(Portions(chunk, k - 1)) + multiset{AppendChunk(chunk), Flush, Done}
  {
    var tail := [AppendChunk(chunk), Flush, Done];
    assert Complete(chunk, k) == [HeaderFlush] + Portions(chunk, k - 1) + tail;
    assert multiset(tail) == multiset{AppendChunk(chunk), Flush, Done};
  }

  /** ... and every chunk it sent is `chunk`. */
  lemma CompleteChunks(chunk: string, k: nat)
    requires k >= 1
    ensures forall e :: e in Complete(chunk, k) && e.AppendChunk? ==> e.data == chunk
  {
    PortionsCounts(chunk, k - 1);
    assert Complete(chunk, k) == [HeaderFlush] + Portions(chunk, k - 1) + [AppendChunk(chunk), Flush, Done];
  }

  /** The calls made while streaming, after the headers and `total - counter`
      non-final portions, one start time recorded per portion. */
  ghost predicate Streaming(chunk: string, total: nat, counter: nat, output: seq<Event>, starts: seq<int>) {
    && counter <= total
    && output == Started(chunk, total - counter)
    && |starts| == total - counter
  }

  /** The invariant of a session of `total` portions of `chunk`: the counter
      stays between 1 and `total`, the calls made so far are fixed by the
      counter and the phase, and the portions so far started at paced times,
      the last no later than the latest clock reading. */
  ghost predicate Inv(chunk: string, total: nat, counter: nat, output: seq<Event>,
                      phase: Phase, starts: seq<int>, clock: int) {
    && 1 <= counter <= total
    && Paced(starts)
    && (|starts| > 0 ==> starts[|starts| - 1] <= clock)
    && match phase
       case Initializing =>
         counter == total && starts == [] && (output == [] || output == [HeaderFlush])
       case AwaitFlush(deadline) =>
         Streaming(chunk, total, counter, output, starts) && |starts| > 0
         && deadline == Deadline(starts[|starts| - 1])
       case AwaitTimer(expiry) =>
         Streaming(chunk, total, counter, output, starts) && |starts| > 0
         && expiry == Deadline(starts[|starts| - 1])
       case AwaitPost =>
         Streaming(chunk, total, counter, output, starts) && |starts| > 0
         && Deadline(starts[|starts| - 1]) <= clock
       case Finalized =>
         counter == 1 && output == Complete(chunk, total) && |starts| == total
       case Failed =>
         Streaming(chunk, total, counter, output, starts)
  }

  /** The next portion may be sent at `now`: the headers are out and no
      portion has been sent yet, or a timer has expired, or a posted call
      runs. The clock never goes back. */
  ghost predicate DueAt(phase: Phase, output: seq<Event>, clock: int, now: int) {
    match phase
    case Initializing => output == [HeaderFlush]
    case AwaitTimer(expiry) => expiry <= now && clock <= now
    case AwaitPost => clock <= now
    case _ => false
  }

  /** What the invariant says about the calls made: `done()` has been called
      (once) exactly when the session is finalized, one chunk was appended per
      portion sent, and until the last portion the counter is the initial
      count less the portions sent. */
  lemma InvTrace(chunk: string, total: nat, counter: nat, output: seq<Event>,
                 phase: Phase, starts: seq<int>, clock: int)
    requires Inv(chunk, total, counter, output, phase, starts, clock)
    ensures phase.Finalized? <==> Done in output
    ensures multiset(output)[Done] <= 1
    ensures multiset(output)[AppendChunk(chunk)] == |starts|
    ensures !phase.Finalized? ==> counter == total - |starts|
  {
    if phase.Finalized? {
      assert output == Complete(chunk, total);
      CompleteChunkCount(chunk, total);
      CompleteOnce(chunk, total);
      assert multiset(output)[Done] == 1;
    } else if phase.Initializing? {
      assert output == [] || output == [HeaderFlush];
    } else {
      assert Streaming(chunk, total, counter, output, starts);
      StartedShape(chunk, total - counter);
      assert multiset(output)[Done] == 0;
    }
  }

  /** A failed flush or timer, and a finished response, schedule nothing:
      no further portion is ever due. */
  lemma NothingDueAfterStop(output: seq<Event>, clock: int, now: int)
    ensures !DueAt(Failed, output, clock, now)
    ensures !DueAt(Finalized, output, clock, now)
  {
  }

  /** Sending a portion when it is due keeps the invariant: the last portion
      completes the response, any other adds one non-final portion. */
  lemma SendStep(chunk: string, total: nat, counter: nat, output: seq<Event>,
                 phase: Phase, starts: seq<int>, clock: int, now: int)
    requires Inv(chunk, total, counter, output, phase, starts, clock)
    requires DueAt(phase, output, clock, now)
    ensures counter == 1 ==>
      Inv(chunk, total, 1, output + [AppendChunk(chunk)] + [Flush, Done], Finalized, starts + [now], now)
    ensures counter > 1 ==>
      Inv(chunk, total, counter - 1, output + [AppendChunk(chunk)] + [FlushWithHandler],
          AwaitFlush(Deadline(now)), starts + [now], now)
  {
  }

  /** The shared state of one streamed response (`response_data`). */
  class ResponseData {
    var chunkSize: nat
    var counter: nat
    /** The calls made so far on the response builder. */
    var output: seq<Event>
    var phase: Phase

    /** The count the session started with. */
    ghost const total: nat
    ghost const chunk: string
    /** The clock reading at the start of each portion sent so far. */
    ghost var starts: seq<int>
    /** The latest clock reading the session has seen. */
    ghost var clock: int

    ghost predicate Valid()
      reads this
    {
      chunk == Cycle(chunkSize) && Inv(chunk, total, counter, output, phase, starts, clock)
    }

    ghost predicate Due(now: int)
      reads this
    {
      DueAt(phase, output, clock, now)
    }

    /** `std::make_shared<response_data>(...)`: nothing sent yet. */
    constructor (chunkSize: nat, count: nat)
      requires count >= 1
      ensures Valid()
      ensures this.chunkSize == chunkSize && counter == count && total == count
      ensures output == [] && phase == Initializing
    {
      this.chunkSize := chunkSize;
      this.counter := count;
      this.output := [];
      this.phase := Initializing;
      this.total := count;
      this.starts := [];
      this.chunk := Cycle(chunkSize);
    }

    /** The header part of `request_processor`: headers appended and flushed. */
    method FlushHeaders()
      requires Valid() && phase == Initializing && output == []
      modifies this
      ensures Valid() && phase == Initializing && output == [HeaderFlush]
      ensures chunkSize == old(chunkSize) && counter == old(counter)
      ensures starts == old(starts) && clock == old(clock)
    {
      output := output + [HeaderFlush];
    }

    /** `send_next_portion`, run at clock reading `now`. The last portion is
        flushed and the response finished; any other decrements the counter
        and flushes with a handler whose deadline is one interval from now. */
    method SendNextPortion(now: int)
      requires Valid() && Due(now)
      modifies this
      ensures Valid()
      ensures chunkSize == old(chunkSize)
      ensures starts == old(starts) + [now] && clock == now
      ensures old(counter) == 1 ==>
        && counter == 1
        && output == old(output) + [AppendChunk(Cycle(chunkSize)), Flush, Done]
        && phase == Finalized
      ensures old(counter) > 1 ==>
        && counter == old(counter) - 1
        && output == old(output) + [AppendChunk(Cycle(chunkSize)), FlushWithHandler]
        && phase == AwaitFlush(Deadline(now))
    {
      SendStep(chunk, total, counter, output, phase, starts, clock, now);
      var buffer := MakeBuffer(chunkSize);
      assert buffer == chunk;
      var appended := output + [AppendChunk(buffer)];
      starts, clock := starts + [now], now;
      if counter == 1 {
        output, phase := appended + [Flush, Done], Finalized;
        assert Inv(chunk, total, counter, output, phase, starts, clock);
      } else {
        counter := counter - 1;
        output, phase := appended + [FlushWithHandler], AwaitFlush(Deadline(now));
        assert Inv(chunk, total, counter, output, phase, starts, clock);
      }
    }

    /** The completion handler of `make_done_handler`, invoked when the flush
        completes at `now`, with `error` standing for a non-empty error code. */
    method OnFlushComplete(error: bool, now: int)
      requires Valid() && phase.AwaitFlush? && clock <= now
      modifies this
      ensures Valid()
      ensures chunkSize == old(chunkSize) && counter == old(counter) && output == old(output)
      ensures starts == old(starts) && clock == now
      ensures error ==> phase == Failed
      ensures !error ==> phase == match Decide(old(phase).deadline, now)
                                  case Delay(d) => AwaitTimer(now + d)
                                  case Immediate => AwaitPost
    {
      clock := now;
      if !error {
        match Decide(phase.deadline, now)
        case Delay(d) =>
          phase := AwaitTimer(now + d);
        case Immediate =>
          phase := AwaitPost;
      } else {
        phase := Failed;
      }
    }

    /** The timer continuation, invoked when the timer fires at `now` (never
        before its expiry) or is cancelled (`error`). */
    method OnTimer(error: bool, now: int)
      requires Valid() && phase.AwaitTimer? && clock <= now
      requires !error ==> phase.expiry <= now
      modifies this
      ensures Valid()
      ensures chunkSize == old(chunkSize)
      ensures error ==> phase == Failed && counter == old(counter) && output == old(output) && starts == old(starts) && clock == now
      ensures !error ==> starts == old(starts) + [now] && clock == now
      ensures !error && old(counter) == 1 ==>
        counter == 1 && output == old(output) + [AppendChunk(Cycle(chunkSize)), Flush, Done] && phase == Finalized
      ensures !error && old(counter) > 1 ==>
        && counter == old(counter) - 1
        && output == old(output) + [AppendChunk(Cycle(chunkSize)), FlushWithHandler]
        && phase == AwaitFlush(Deadline(now))
    {
      if !error {
        SendNextPortion(now);
      } else {
        clock := now;
        phase := Failed;
      }
    }

    /** The posted continuation, run by the event loop at `now`. */
    method OnPost(now: int)
      requires Valid() && phase == AwaitPost && clock <= now
      modifies this
      ensures Valid()
      ensures chunkSize == old(chunkSize)
      ensures starts == old(starts) + [now] && clock == now
      ensures old(counter) == 1 ==>
        counter == 1 && output == old(output) + [AppendChunk(Cycle(chunkSize)), Flush, Done] && phase == Finalized
      ensures old(counter) > 1 ==>
        && counter == old(counter) - 1
        && output == old(output) + [AppendChunk(Cycle(chunkSize)), FlushWithHandler]
        && phase == AwaitFlush(Deadline(now))
    {
      SendNextPortion(now);
    }
  }

  /** `request_processor`, run at clock reading `now`: the session is
      created, the headers flushed once, and the first portion sent. */
  method RequestProcessor(chunkSize: nat, count: nat, now: int) returns (data: ResponseData)
    requires count >= 1
    ensures fresh(data) && data.Valid()
    ensures data.chunkSize == chunkSize && data.total == count
    ensures data.starts == [now] && data.clock == now
    ensures count == 1 ==> data.output == Complete(Cycle(chunkSize), 1) && data.phase == Finalized
    ensures count > 1 ==>
      && data.output == Started(Cycle(chunkSize), 1)
      && data.counter == count - 1
      && data.phase == AwaitFlush(Deadline(now))
  {
    data := new ResponseData(chunkSize, count);
    data.FlushHeaders();
    data.SendNextPortion(now);
  }

  /** A GET handler of the router, run at clock reading `now`: an accepted
      route starts a session with the chunk size and count of its verdict,
      a rejected one starts nothing. */
  method Serve(r: Routes.Route, now: int) returns (v: Routes.Verdict, data: ResponseData?)
    ensures v == Routes.Dispatch(r)
    ensures v.Rejected? <==> data == null
    ensures v.Accepted? ==>
      && fresh(data) && data.Valid()
      && data.chunkSize == v.chunkSize && data.total == v.count
      && data.starts == [now]
      && (v.count == 1 ==> data.output == Complete(Cycle(v.chunkSize), 1) && data.phase == Finalized)
      && (v.count > 1 ==> data.output == Started(Cycle(v.chunkSize), 1) && data.phase == AwaitFlush(Deadline(now)))
  {
    v := Routes.Dispatch(r);
    if v.Accepted? {
      data := RequestProcessor(v.chunkSize, v.count, now);
    } else {
      data := null;
    }
  }

  /** One cycle of the event loop for a session waiting on a flush: the
      flush issued at `dispatch` completes without error `latency` ticks
      later, and the timer or the posted call then runs as soon as it may.
      The next portion is sent at `next`. */
  method DeliverFlush(data: ResponseData, dispatch: int, latency: nat) returns (next: int)
    requires data.Valid() && data.phase.AwaitFlush? && data.clock == dispatch
    requires data.starts != [] && data.starts[|data.starts| - 1] == dispatch
    modifies data
    ensures data.Valid() && data.chunkSize == old(data.chunkSize)
    ensures next == NextDispatch(dispatch, latency)
    ensures data.starts == old(data.starts) + [next] && data.clock == next
    ensures old(data.counter) == 1 ==> data.phase == Finalized
    ensures old(data.counter) > 1 ==> data.phase.AwaitFlush? && data.counter == old(data.counter) - 1
  {
    var completion := dispatch + latency;
    data.OnFlushComplete(false, completion);
    if data.phase.AwaitTimer? {
      next := data.phase.expiry;
      data.OnTimer(false, next);
    } else {
      next := completion;
      data.OnPost(next);
    }
  }

  /** What holds after the first `k` flushes of a session driven by
      `StreamWithoutErrors`: the portions so far started on the timeline of
      the first `k` latencies, and `dispatch` is the latest start. */
  ghost predicate Streamed(data: ResponseData, chunkSize: nat, count: nat, t0: int,
                           latencies: seq<nat>, k: nat, dispatch: int)
    reads data
  {
    && data.Valid() && data.chunkSize == chunkSize && data.total == count
    && (data.phase.AwaitFlush? || data.phase == Finalized)
    && |latencies| == count - 1 && k == |data.starts| - 1 && k <= |latencies|
    && data.starts == Timeline(t0, latencies[..k])
    && dispatch == data.starts[k]
    && (data.phase.AwaitFlush? ==> k < |latencies| && data.clock == dispatch)
  }

  /** One flush of `StreamWithoutErrors`: the `k`-th flush completes after
      `latencies[k]` ticks, and the session moves one step along the
      timeline. */
  method StreamStep(data: ResponseData, chunkSize: nat, count: nat, t0: int,
                    latencies: seq<nat>, k: nat, dispatch: int) returns (next: int)
    requires Streamed(data, chunkSize, count, t0, latencies, k, dispatch)
    requires data.phase.AwaitFlush?
    modifies data
    ensures Streamed(data, chunkSize, count, t0, latencies, k + 1, next)
    ensures old(data.counter) == 1 ==> data.phase == Finalized
    ensures old(data.counter) > 1 ==> data.phase.AwaitFlush? && data.counter == old(data.counter) - 1
  {
    next := DeliverFlush(data, dispatch, latencies[k]);
    assert latencies[..k + 1] == latencies[..k] + [latencies[k]];
    TimelineSnoc(t0, latencies[..k], latencies[k]);
  }

  /** A session driven to the end with every flush succeeding, the `k`-th
      flush completing `latencies[k]` ticks after it was issued, and every
      timer or posted call running as soon as it may. It sends exactly the
      calls of `Complete`, and its portions start on `Timeline`. */
  method StreamWithoutErrors(chunkSize: nat, count: nat, t0: int, latencies: seq<nat>)
    returns (data: ResponseData)
    requires count >= 1 && |latencies| == count - 1
    ensures fresh(data) && data.Valid() && data.phase == Finalized
    ensures data.output == Complete(Cycle(chunkSize), count)
    ensures data.starts == Timeline(t0, latencies)
  {
    data := RequestProcessor(chunkSize, count, t0);
    assert data.starts == Timeline(t0, latencies[..0]);
    var k, dispatch := 0, t0;
    while data.phase != Finalized
      invariant fresh(data)
      invariant Streamed(data, chunkSize, count, t0, latencies, k, dispatch)
      decreases data.counter, if data.phase == Finalized then 0 else 1
    {
      dispatch := StreamStep(data, chunkSize, count, t0, latencies, k, dispatch);
      k := k + 1;
    }
    assert latencies[..k] == latencies;
  }
}
