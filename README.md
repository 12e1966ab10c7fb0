# Paced chunked-stream session of the RESTinio long-output sample

This project is a Dafny model of the long-output example server
(`dev/long_output/main.cpp`). The server answers a GET request by streaming a
chunked response. It sends `count` chunks of `chunk_size` synthetic bytes and
waits at least one second between successive chunk flushes. The model covers
four parts of that file:

- **Payload** (`payload.dfy`): `make_buffer`, the nested loop that fills a
  string to exactly `size` characters by cycling over `symbols`.
- **Pacing** (`pacing.dfy`): the decision in the completion handler built by
  `make_done_handler`. The handler captures `next_timepoint = now + 1s` when
  the flush is issued. When the flush completes, it either arms a timer for
  the rest of the interval or posts the next portion at once. Around this
  decision the module models timelines of dispatch times: pacing,
  gap = max(interval, flush latency), and no catch-up.
- **Session** (`session.dfy`): the `response_data` record as the class
  `ResponseData`, with its `chunkSize`, `counter`, the calls made on the
  response builder (`output`, a sequence of `Event`s) and the callback the
  event loop holds for it (`phase`). It also has `send_next_portion`, the
  flush-completion handler, the timer and post continuations, and
  `request_processor`, which flushes the headers once and then sends the
  first portion. The event loop is abstract: each callback is a method. The
  flush and timer callbacks take an error flag, and every callback takes the
  clock reading. `StreamWithoutErrors` drives
  a session to the end with every flush successful.
- **Routes** (`routes.dfy`): the multiplier lambda, `extract_chunk_size`
  (a `size_t` product, so it wraps modulo 2^64) and the accept/reject rules
  of the three GET handlers, starting from already-parsed route parameters.

Time is counted in integer ticks of the steady clock: nanoseconds, so the
interval `1s` is 10^9 ticks.

The literal `"123456789_"` reads as ten symbols, but the array
`char symbols[] = "123456789_"` has eleven elements and the loop runs to
`std::end(symbols)`, so it also emits the terminating NUL. The real cycle is eleven characters,
`'1'..'9', '_', '\0'`, and the model follows the code: `Payload.Symbols` has
eleven elements, and `Payload.BufferCarriesNul` states that the NUL appears
at positions 10, 21, 32, … of every buffer long enough to reach them.

## Model

| member | source | states |
|---|---|---|
| `Payload.Cycle` | dev/long_output/main.cpp:44-55 | the buffer of size `n` has length exactly `n`, and character `i` is `symbols[i mod 11]` (so `n = 0` gives the empty string) |
| `Payload.MakeBuffer` | dev/long_output/main.cpp:44-55 | the outer loop (until the size is reached) around the inner loop (over all eleven array elements, stopping at the size) returns exactly `Cycle(size)` |
| `Payload.CyclePrefix` | dev/long_output/main.cpp:49-52 | for `m <= n` the buffer of size `m` is a prefix of the buffer of size `n` |
| `Payload.CycleUnique` | dev/long_output/main.cpp:48-52 | any string that follows the symbol cycle at every position is the buffer of its length, so the output depends only on the size |
| `Payload.CycleIsRepetition` | dev/long_output/main.cpp:48-52 | the buffer is the whole 11-element array repeated `n / 11` times followed by its first `n % 11` symbols |
| `Payload.BufferCarriesNul` | dev/long_output/main.cpp:48-51 | `std::end(symbols)` includes the terminator: `'\0'` is emitted at every position `11j + 10` |
| `Pacing.Deadline` | dev/long_output/main.cpp:60 | `next_timepoint` is the dispatch time plus exactly one interval, so it lies strictly after the dispatch |
| `Pacing.Decide` | dev/long_output/main.cpp:60-75 | on success the handler delays exactly when `now < next_timepoint`; the delay is positive and ends exactly at `next_timepoint`; otherwise the continuation is immediate |
| `Pacing.Resume` | dev/long_output/main.cpp:63-75 | the next portion may start at `max(next_timepoint, now)` |
| `Pacing.NextDispatch` | dev/long_output/main.cpp:59-75 | with `next_timepoint` captured at dispatch `t`, and a completion `latency` ticks later, the next dispatch is at `t + max(1s, latency)` |
| `Pacing.PacedSpan` | dev/long_output/main.cpp:60-75 | in a paced sequence of dispatches, `j - i` steps take at least `j - i` intervals |
| `Pacing.TimelineGap` | dev/long_output/main.cpp:60-75 | each gap between consecutive dispatches of a timeline is `max(1s, latency)` of that step |
| `Pacing.TimelinePaced` | dev/long_output/main.cpp:60-75 | consecutive dispatches of every timeline are at least one interval apart |
| `Pacing.TimelineEnd` | dev/long_output/main.cpp:60-75 | the last dispatch is the first plus the sum of the per-step gaps `max(1s, latency)` |
| `Pacing.AtLeastOneIntervalEach` | dev/long_output/main.cpp:60-75 | `n` steps take at least `n` intervals, however fast the flushes complete |
| `Pacing.NoCatchUp` | dev/long_output/main.cpp:60-75 | a slow step is never made up: the total is at least `(n-1)` intervals plus that step's own latency, because each deadline is anchored to its own dispatch |
| `Session.PortionsExclude` | dev/long_output/main.cpp:87-90 | non-final portions never flush headers, never flush without a handler and never call `done()` |
| `Session.PortionsCounts` | dev/long_output/main.cpp:81-89 | `n` non-final portions append exactly `n` chunks, all equal, and flush exactly `n` times with a handler |
| `Session.StartedShape` | dev/long_output/main.cpp:106-115 | a session stopped after `n` non-final portions flushed the headers once and first, appended `n` chunks and did not call `done()` |
| `Session.CompleteOrder` | dev/long_output/main.cpp:80-116 | a completed session of `k` portions made `2k + 2` calls: headers first and never again, `done()` last and not before |
| `Session.CompleteChunkCount` | dev/long_output/main.cpp:80-91 | a completed session of `k` portions appended exactly `k` chunks, flushed `k - 1` times with a handler and once without |
| `Session.CompleteOnce` | dev/long_output/main.cpp:83-86 | a completed session flushed the headers exactly once and called `done()` exactly once |
| `Session.CompleteChunks` | dev/long_output/main.cpp:81 | every chunk a completed session appended is `make_buffer(chunk_size_)` |
| `Session.InvTrace` | dev/long_output/main.cpp:80-91 | in every reachable state, `done()` was called (at most once) exactly when the session is finalized, one chunk was appended per portion, and until the last portion `counter_ = k - i` after `i` portions |
| `Session.NothingDueAfterStop` | dev/long_output/main.cpp:61-71 | after a flush or timer error (the `if(!ec)` tests fail) or after `done()`, no further portion is due, so `send_next_portion` is never called again |
| `Session.SendStep` | dev/long_output/main.cpp:80-91 | a portion sent when due keeps the session invariant: the last portion finalizes, any other adds one non-final portion with a deadline one interval after its dispatch |
| `Session.ResponseData.constructor` | dev/long_output/main.cpp:29-38 | the record starts with the given chunk size and counter and no calls made |
| `Session.ResponseData.FlushHeaders` | dev/long_output/main.cpp:105-112 | the headers are appended and flushed once, before anything else |
| `Session.ResponseData.SendNextPortion` | dev/long_output/main.cpp:80-91 | appends one chunk `Cycle(chunk_size_)`; with `counter_ == 1` it flushes, calls `done()` and leaves the counter at 1; otherwise it decrements the counter by one and flushes with a handler whose deadline is one interval on; `chunk_size_` is unchanged |
| `Session.ResponseData.OnFlushComplete` | dev/long_output/main.cpp:61-77 | on error the session fails and nothing else changes (no chunk, no `done()`, same counter); on success it arms a timer to `next_timepoint` or posts the next portion, as `Decide` says |
| `Session.ResponseData.OnTimer` | dev/long_output/main.cpp:66-71 | a timer error leaves the counter and calls unchanged and the session failed; a timer that fires sends the next portion |
| `Session.ResponseData.OnPost` | dev/long_output/main.cpp:75 | the posted continuation sends the next portion |
| `Session.RequestProcessor` | dev/long_output/main.cpp:93-116 | the session is created, the headers are flushed once, and the first portion is sent: with count 1 that completes the response |
| `Session.Serve` | dev/long_output/main.cpp:132-164 | a handler's verdict is `Dispatch` of the route; an accepted one runs `request_processor` with exactly its chunk size and count (the positive count meets its requirement), a rejected one starts no session |
| `Session.DeliverFlush` | dev/long_output/main.cpp:59-78 | a successful flush completion followed by its timer or post sends the next portion at `NextDispatch(dispatch, latency)` |
| `Session.StreamWithoutErrors` | dev/long_output/main.cpp:80-116 | a session of count `k >= 1` whose flushes all succeed makes exactly the calls of `Complete` (headers once first, `k` chunks, `done()` once and last), and its portions are dispatched on `Timeline` |
| `Routes.Multiplier` | dev/long_output/main.cpp:119-123 | the multiplier is 1 exactly for `""`, `"B"`, `"b"`, 1024 exactly for `"K"`, `"k"`, and 1048576 for anything else |
| `Routes.ChunkSize` | dev/long_output/main.cpp:125-126 | the chunk size is `value * multiplier` whenever that fits in `size_t`, and 0 for value 0 |
| `Routes.ChunkSizeZero` | dev/long_output/main.cpp:118-127 | without wrap-around the chunk size is 0 exactly when the value is 0 |
| `Routes.ChunkSizeWraps` | dev/long_output/main.cpp:125-126 | the product wraps modulo 2^64: 2^44 `M` resolves to 0, 2^54 + 1 `K` to 1024, and 2^45 − 1 `M` to 2^64 − 2^20, a non-zero size the handler accepts |
| `Routes.HandleRoot` | dev/long_output/main.cpp:132-135 | `/` always accepts, with chunk size 102400 and count 10000 |
| `Routes.HandleSize` | dev/long_output/main.cpp:137-149 | `/:value:multiplier` accepts exactly when the chunk size is non-zero, and then with that chunk size and count 10000 |
| `Routes.HandleSizeCount` | dev/long_output/main.cpp:151-164 | `/:value:multiplier/:count` accepts exactly when the chunk size and the count are both non-zero, and then with those values |
| `Routes.Dispatch` | dev/long_output/main.cpp:132-164 | every accepted request has a positive chunk size and count, so it meets the `count >= 1` that `request_processor` needs; a zero chunk size or count rejects |
| `Routes.SampleRequests` | dev/long_output/main.cpp:132-164 | `/5k` gives 5120, `/2M` gives 2097152, `/10` gives 10 (count 10000), `/10/3` gives (10, 3); `/0` and `/100/0` are rejected |

## Left out

- `main`, `restinio::run` and the listener settings (address, port, write time limit): process start-up and server I/O.
- The Asio `io_context`, `steady_timer` and `post`, and `steady_clock::now()`: each callback is a method that the environment calls with a clock reading, and the flush and timer callbacks also with an error flag (a posted call has no error path). Chunk generation is modelled as taking no time, so one clock reading serves a whole portion.
- `Session.ResponseData.OnTimer`: requires that a timer that fires without error does not fire before its expiry. This is a guarantee of `steady_timer`, not a check in the code.
- `Session.ResponseData.SendNextPortion`: like every callback method, it requires clock readings never to go back. This is a guarantee of `steady_clock`.
- `Session.DeliverFlush`: an idealised event loop. The timer fires exactly at its expiry and the posted call runs at the completion time. Later runs only lengthen the gaps.
- `std::shared_ptr` ownership of `response_data` across callbacks: it has no behaviour beyond keeping the record alive.
- Header formatting (`append_header`, `append_header_date_field`), chunked-transfer encoding and socket flushing: RESTinio internals. The model records only the order of the calls made on the response builder.
- The regex route matching of `express_router_t` and the parsing in `restinio::cast_to`, including its exception on out-of-range numbers: parameters enter the model already parsed as `size_t` values below 2^64.
- Payload.MakeBuffer: the model allocates without limit. It does not model the `std::length_error` from `buffer.reserve(size)` for a size above `max_size()`, nor the `std::bad_alloc` when memory runs out. The router accepts such sizes, for example `/17592186044415M` (2^64 − 2^20, no wrap) or the wrapped `/35184372088831M` (also 2^64 − 2^20, as `Routes.ChunkSizeWraps` states), and in the source the exception leaves the handler after the headers have already been flushed, before `request_accepted()` is returned.
- Fairness and concurrency of the re-post through the event loop: these are properties of the runtime, not of this code.
