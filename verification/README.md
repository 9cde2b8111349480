# NetFault Lab in Dafny

NetFault Lab is a TCP proxy that forwards bytes between a client and an upstream and injects
faults on the way: latency and jitter, rate limits, resets and half-closes. This project models
the engine that forwards one connection, the event loop that drives all of them, and the random
streams the faults are drawn from.

Each part exists twice. A class holds the fields the program updates in place (the ring is an
`array`, the delay line a list of segments, the bucket three 64-bit integers) and follows its
loops and branches. A set of functions on values says what each operation means. Every method is
proved to do what its function says of the old state, and the guarantees are proved about the
functions, over whole runs.

| module | models |
|---|---|
| `ByteQueues`, `Backpressure`, `DelayLines`, `TokenBuckets`, `FaultRng`, `TimerQueues`, `SocketIos` | one header each: the ring, the watermark tracker, the per-byte eligibility times, the rate bucket, SplitMix64, the deadline queue, the socket interface |
| `Arithmetic` | rounding division, 64-bit truncation, greatest common divisors |
| `Grains` | which levels a bucket can have, overflows included, and so when its arithmetic stays within 64 bits |
| `Flows`, `Pacing`, `Waiting` | one direction of a connection: its invariant, its rate envelope, what it waits for, and that waiting ends |
| `RelayModel`, `RelayInvariant`, `RelaySettings`, `RelayRuns` | the relay as functions, what each operation keeps, and the guarantees of whole runs |
| `Relays` | the relay as objects, refining those functions |
| `RuntimeModel`, `RuntimeInvariant`, `RuntimeRuns` | the event loop as steps on connections, tokens, timers and the timer descriptor, what each step keeps, and the guarantees of whole runs |
| `Progress`, `RuntimeProgress` | whatever is done to a relay, a direction that sends nothing only comes nearer to sending; so no run of the event loop stalls one on time |
| `Overflows` | runs of accepted plans whose bucket arithmetic overflows, and the exact conditions these give |
| `Proxies` | the event loop as objects, refining those steps: a table that owns connections, each of which owns its `Relays.Relay` |

## The environment

- The kernel's answers to `receive`, `send` and `shutdown` are a script per connection, arbitrary
  and of any length; when it runs out every call would block. Any finite behaviour of the kernel
  is some script, and every theorem is about all of them.
- Time is an argument, in nanoseconds, and does not go back.
- A client waiting to be accepted is an `Offer`: whether the upstream can be reached, whether the
  connect is pending, and whether the fault plan applies to it (the program draws that from a
  floating-point probability).
- `TimerFd` has the two fields that matter: the deadline the kernel has armed, and whether an
  expiration is unread. That `timerfd_settime` may fail is the argument `settable`.
- Where the program throws, the method returns a failure and changes nothing; inside the relay
  none of these failures can occur.

## Where the code and its comments, or its parts, disagree

- The comment on `eligible_at` says it may be slightly early. Unless the refill overflows it never is: `EligibleAtAdequate`
  bounds how late it can be, and it is late because it ignores the carry.
- The carry is said to make throughput exact regardless of refill cadence. Validation bounds the
  rate but not the burst, and with a large burst the 64-bit cap and product wrap. The relay and the
  runtime are modelled with the refill as it is computed, overflow included. `RefillErrs` says exactly
  when one refill errs, up or down, and three conditions on rate and burst say what follows:
  - every refill is exact if and only if the bucket `Fits` (`RefillExactIffFits`);
  - the rate envelope holds if and only if there is `NoEarlyFill` (`RateIsKeptIff`; `RateBreaksAt` is
    an accepted plan that breaks it);
  - a plan that `NeverStarves` keeps every wait bounded, however late the wakes
    (`RelayRuns.AnyWaitsAreBounded`, and in the event loop `RuntimeProgress.PumpsInVainAreBounded`); one
    that `CanStarve` stalls (`StallsForever`; `StallsAt` is an accepted plan that stalls within a day). For
    plans of either kind the condition is therefore exact (`StallsAreBoundedIff`). Some accepted plans are
    of neither kind; "Left out" says which. Looked at often enough, a bucket starves under no plan but
    those with a burst of 2^64 - 1 bytes, or of 2^64 - 2 at a rate that does not divide 10^9
    (`PromptWaitsAreBounded`).

  Below about 8200 bytes per second the waits of `StallsForever` that pass the bound take longer than
  the 2^63 ns of the program's clock, so there the failing half of `StallsAreBoundedIff` rests on a clock
  without end. From there on they fit it (`StallsOnTheClock`).

  Every burst up to 18446744070 bytes meets all three (`SmallBurstFits`, `SmallBurstNeverStarves`).
  Everything else proved of runs holds of every configuration that validation accepts.
- `flush` asks for the budget of the contiguous part of the ring; `next_wake` and
  `desired_interest` ask for that of the whole queue. Interest therefore implies a send
  (`WholeImpliesContiguous`, `BlockedOnOneThing`), but the converse can fail: `ContiguousOnly`
  says exactly when and `ContiguousOnlyHappens` is a run that gets there. Such a direction waits on
  a timer although its socket is what stopped it; `FruitlessWakesAreBounded` covers that wait too.
- Stale pump entries stay in the heap after an earlier wake supersedes them. They are harmless
  extra pumps; the invariant asks only that the wake that is scheduled has its entry.

## Model

| member | source | states |
|---|---|---|
| `RelayRuns.StreamsAreFifo` | src/common/relay.cpp:150-231 | In every run and for each direction, bytes received are bytes sent followed by bytes queued; the read counter is the write counter plus the queue size; the queue never exceeds the high-water mark. |
| `RelayRuns.HalfClosesInOrder` | src/common/relay.cpp:233-281 | A side's write direction is shut at most once and nothing is sent to it afterwards; it is shut only after the other side's end of stream with every byte sent, save a client half-close injected at or past its threshold. |
| `RelayRuns.DrainedIsDelivered` | src/common/relay.cpp:310-314 | A fully drained relay into which no half-close was injected has sent everything it received, both ways. |
| `RelayRuns.ReadsHaveRoom` | src/common/relay.cpp:153-157 | Whenever reads are not paused, the span offered to `receive` is non-empty and ends at or below the high-water mark, and the unsigned subtraction does not wrap; a paused direction holds more than the low-water mark. |
| `RelayRuns.HysteresisIsAmortised` | include/netfault/backpressure.hpp:31-58 | Pauses times (high - low) are at most the bytes read, resumes times (high - low) at most the bytes written; pauses minus resumes is one exactly when paused; saturations equal pauses when high is the capacity and are zero otherwise. |
| `RelayRuns.DelaysAreKept` | src/common/relay.cpp:118-138 | Each byte becomes eligible between arrival + max(0, latency - jitter) and arrival + latency + jitter, and leaves no earlier than that, clamping and merging notwithstanding. |
| `RelayRuns.RateIsKept` | src/common/relay.cpp:139-147 | In any window of any run a rate-limited direction forwards at most its burst plus rate times the length of the window, if its bucket cannot be filled early. |
| `Overflows.RateIsKeptIff` | include/netfault/token_bucket.hpp:62-70 | Exact condition: for rates validation accepts and 64-bit bursts, every window of every run of every plan keeps the envelope if and only if the cap of an empty bucket is formed without truncation. |
| `Overflows.RateBreaks` | include/netfault/token_bucket.hpp:64-70 | Every other accepted rate and burst has a run that breaks the envelope: it sends what the wrapped cap wants missing, and a whole burst once that cap has passed. |
| `Overflows.RateBreaksAt` | include/netfault/token_bucket.hpp:64-70 | Such an input: at 10^9 bytes per second and a burst of 2 * 10^10, a run forwards 38446744074 bytes within 3 ns. |
| `RelayRuns.StallsAreBounded` | src/common/relay.cpp:283-308 | For every accepted plan: whatever arrives while it waits, a time-blocked direction of any reached relay wakes at most min(burst, 4096) times in a row without anything to send, and never if only latency holds its bytes, as long as no refill loses earnings and leaves less than a quantum. |
| `RelayRuns.PromptWaitsAreBounded` | src/common/relay.cpp:283-308 | No refill does so when each look and wake comes within (2^64 - 10^9) / rate ns of the last, so the bound holds then, for every accepted plan but those with a burst of 2^64 - 1 bytes, or of 2^64 - 2 at a rate that does not divide 10^9. |
| `RelayRuns.AnyWaitsAreBounded` | src/common/relay.cpp:283-308 | For rates and bursts that never starve the bound holds however late looks and wakes come. |
| `RuntimeProgress.PumpsInVainAreBounded` | src/proxy/proxy.cpp:570-607 | The same of the event loop: from any reachable state and in any run, as long as a live connection waits on time and sends nothing to a destination, at most min(burst, 4096) pumps find its wake reached, none without a rate limit, if the configured plan never starves. |
| `RuntimeProgress.TimerPumps` | src/proxy/proxy.cpp:295-331 | Handling the timer at `now` pumps every connection whose wake has come by then, unless it closes it; whatever the plan. |
| `RuntimeProgress.StepMoves` | src/proxy/proxy.cpp:163-206 | Every event and arming leaves each connection as it was, closes it, or pumps it, its directions having sent or come nearer to sending. |
| `Progress.FlushLeads` | src/common/relay.cpp:187-231 | A flush either sends, or leaves a direction with no fewer eligible bytes at any later time and with what it should have earned meanwhile. |
| `Progress.ReadLeads` | src/common/relay.cpp:150-185 | So does draining a readable socket, whatever it answers. |
| `Progress.VainWake` | src/common/relay.cpp:283-308 | Between two questions, whatever happened: if the wake was reached, nothing was sent and the direction is blocked on time again, then it awaits a strictly larger quantum. |
| `Overflows.StallsAreBoundedIff` | include/netfault/token_bucket.hpp:64-78 | For plans that never starve or can starve at will: a rate and burst keep every direction of every run from stalling, however late its looks and wakes, if and only if they never starve, that is, no product below a cap exceeds 64 bits with any carry on the grain of the rate. |
| `Overflows.DividingRatesAreDecided` | include/netfault/token_bucket.hpp:64-78 | Every rate that divides 512 is of one of the two kinds, and so is every rate that divides 10^9 unless some level with tokens for any quantum wraps below its cap. |
| `Overflows.StallsOnTheClock` | include/netfault/token_bucket.hpp:72-78 | From 8200 bytes per second on, more waits in vain than the bound allows end before 2^63 ns. |
| `Overflows.StallsForever` | include/netfault/token_bucket.hpp:72-78 | Where such a product wraps even with the smallest carry a look can top it up to, or the largest burst wraps the token count, some run leads to a direction that can wait in vain any number of times, for little more than 2^64 / rate ns each. |
| `Overflows.StallsAt` | include/netfault/token_bucket.hpp:72-78 | Such an input: at 10^9 bytes per second and a burst of 36893488146, once the bucket is empty, 4097 waits in vain end within 86400 s. |
| `RelayRuns.BlockedOnOneThing` | src/common/relay.cpp:283-330 | A write-open, connected destination with queued bytes has write interest or a wake, never both and never neither; the wake is strictly later; write interest means a flush at that instant uses up one of the answers to `send`. |
| `RelayRuns.ContiguousOnlyHappens` | src/common/relay.cpp:196-290 | A run after which 50 of 200 queued bytes are contiguous and may go out, yet no write interest is registered and a wake is due only when 200 tokens exist. |
| `RelayRuns.FaultsOvershootLittle` | src/common/relay.cpp:233-251 | Whenever in a run a reset or half-close is injected, the bytes written are in [configured threshold, threshold + configured high-water mark). |
| `RelayRuns.LiveIsBelowThresholds` | src/common/relay.cpp:233-251 | A relay that has not asked to be closed is below its reset threshold, and its client below the half-close threshold unless that fault has fired or the client is shut. |
| `RelayRuns.SettingsAreKept` | src/common/relay.cpp:37-82 | The limits a relay works under throughout are those its configuration and plan gave it: capacity, watermarks, thresholds, which directions are delayed or limited and by how much. |
| `RelayRuns.Reached` | src/common/relay.cpp:150-330 | Any sequence of calls at non-decreasing times, against any kernel answers, keeps the whole-relay invariant, and no lifecycle fault is due on a relay left open. |
| `RelayInvariant.ResetOvershoot` | src/common/relay.cpp:247-250 | An injected reset happens with the total written in [threshold, threshold + high-water mark). |
| `RelayInvariant.HalfCloseOvershoot` | src/common/relay.cpp:235-246 | A half-close is injected with the bytes written to the client in [threshold, threshold + high-water mark). |
| `RelayInvariant.ReadSpanIsRoom` | src/common/relay.cpp:154-156 | A direction within its watermarks and not paused has a non-empty read span that fits below the high-water mark, and the 64-bit subtraction is exact. |
| `RelayInvariant.HandleReadableKeeps` | src/common/relay.cpp:150-185 | Draining a readable socket keeps the invariant whatever the socket answers. |
| `RelayInvariant.FlushKeeps` | src/common/relay.cpp:187-231 | A flush keeps the invariant, and leaves no lifecycle fault due unless it asks for a close. |
| `RelayInvariant.PropagateKeeps` | src/common/relay.cpp:268-281 | Forwarding half-closes keeps the invariant. |
| `RelayInvariant.NewRelayInv` | src/common/relay.cpp:37-82 | A newly constructed relay satisfies the invariant and has no fault due. |
| `Pacing.RateWindow` | src/common/relay.cpp:139-147 | A direction whose bucket is never filled early keeps to its envelope in any closed window of time. |
| `Pacing.BudgetIsWorthwhile` | src/common/relay.cpp:16-31 | A send budget is zero, or everything eligible, or at least min(eligible, burst, 4096). |
| `Pacing.SocketXorTime` | src/common/relay.cpp:283-308 | With bytes queued, either the faults let something out now or a wake is due strictly later, and not both. |
| `Pacing.WholeImpliesContiguous` | src/common/relay.cpp:195-199 | If the faults let out some of the whole queue they let out some of its contiguous front. |
| `Pacing.ContiguousOnly` | src/common/relay.cpp:290-329 | The converse fails exactly when the tokens afford the release quantum of the contiguous front but not that of the whole queue. |
| `Pacing.SettleAgain` | include/netfault/token_bucket.hpp:54-57 | Asking for a budget or a wake twice at one time gets the same answers, even where the bucket overflows. |
| `Pacing.AskingIsHarmless` | include/netfault/token_bucket.hpp:11-14 | Asking for a budget or a wake changes no later answer, where the bucket does not overflow. |
| `Waiting.WakeEarns` | src/common/relay.cpp:293-306 | By the wake, the tokens for the awaited quantum should have been earned. |
| `Waiting.FruitlessWakeRaisesQuantum` | src/common/relay.cpp:283-308 | Whatever arrives meanwhile, a wake that finds nothing to send finds a strictly larger release quantum, as long as no refill starves the bucket; without a rate limit every wake finds something. |
| `Waiting.FruitlessWakesAreBounded` | src/common/relay.cpp:23-31 | At most min(burst, 4096) such wakes in a row find nothing to send, none if only latency holds the bytes. |
| `Waiting.PromptIsEnough` | include/netfault/token_bucket.hpp:72-77 | A refill that comes within (2^64 - 10^9) / rate ns of the last loses nothing, unless the burst is 2^64 - 1 bytes, or 2^64 - 2 at a rate that does not divide 10^9. |
| `Waiting.NeverStarvesIsEnough` | include/netfault/token_bucket.hpp:64-77 | If no product below the cap exceeds 64 bits, with any carry on the grain, either at the levels short of a quantum or at all levels, no refill starves a bucket that started full, however late. |
| `Waiting.SmallBurstNeverStarves` | include/netfault/token_bucket.hpp:64-77 | Bursts up to 18446744070 bytes never starve, at any rate validation accepts. |
| `Waiting.FullSpeedNeverStarves` | include/netfault/token_bucket.hpp:64-77 | At 10^9 bytes per second bursts up to 36893488145 never starve, the next burst being that of `StallsAt`. |
| `Waiting.DividingRateNeverStarves` | include/netfault/token_bucket.hpp:64-77 | A rate that divides 10^9 never starves if no level of the burst wraps below its cap. |
| `Waiting.BinaryRateNeverStarves` | include/netfault/token_bucket.hpp:64-77 | A rate that divides 512 never starves if no level short of a quantum wraps below its cap. |
| `Grains.RefillIsGrained` | include/netfault/token_bucket.hpp:54-81 | Every level of a bucket that started full is a multiple of gcd(rate, 512), even after overflows, and of gcd(rate, 10^9) where no product wraps. |
| `Grains.SteadyRefill` | include/netfault/token_bucket.hpp:62-80 | Where no level on the grain wraps, no refill falls short and the grain is kept, early fills included. |
| `Grains.TokensFit` | include/netfault/token_bucket.hpp:62-77 | Below the cap, tokens plus what is earned stay within 64 bits for all bursts but 2^64 - 1, and 2^64 - 2 at rates that do not divide 10^9. |
| `Relays.Relay.constructor` | src/common/relay.cpp:37-82 | The relay object starts as the model relay of its configuration, plan and connection id. |
| `Relays.Relay.HandleReadable` | src/common/relay.cpp:150-185 | The read loop over the ring and the socket does what the read function says of the old state, and ends: each round narrows the room below the high-water mark. |
| `Relays.Relay.Flush` | src/common/relay.cpp:187-231 | The write loop does what the flush function says of the old state, and ends: each round shortens the queue. No queue, delay line or bucket refuses what was sent. |
| `Relays.Relay.CheckLifecycleFaults` | src/common/relay.cpp:233-251 | Injects a due half-close once and reports a due reset. |
| `Relays.Relay.PropagateHalfCloses` | src/common/relay.cpp:268-281 | Shuts the upstream, then the client, where the half-close is due. |
| `Relays.Relay.NextWake` | src/common/relay.cpp:283-308 | Returns the wake of the specification, refilling the bucket it consulted and changing nothing else. |
| `Relays.Relay.FullyDrained` | src/common/relay.cpp:310-314 | True exactly when both reads ended and each queue is empty or cannot be written. |
| `Relays.Relay.DesiredInterest` | src/common/relay.cpp:316-330 | Returns the interest of the specification, refilling the bucket it consulted and changing nothing else. |
| `Relays.Relay.MarkUpstreamConnected` | src/common/relay.cpp:84-87 | Ends connecting and derives the state anew. |
| `Relays.Relay.NoteHalfClosedRead` | src/common/relay.cpp:105-110 | Closes one read direction and derives the state anew. |
| `Relays.FaultChannel.Stamp` | src/common/relay.cpp:118-130 | Draws one jitter sample, clamps the delay at zero, records the segment and its statistics; nothing without a delay line. |
| `Relays.FaultChannel.Sendable` | src/common/relay.cpp:132-148 | Returns the budget of the specification and refills the bucket. |
| `Relays.FaultChannel.Take` | src/common/relay.cpp:204-211 | Accounts for sent bytes in the delay line and the bucket, neither of which refuses. |
| `Relays.FaultChannel.Wake` | src/common/relay.cpp:293-307 | Returns when a blocked channel could make progress. |
| `Relays.ReceiveInto` | src/common/relay.cpp:155-157 | Received bytes land right after the tail, at most as many as fit, and no queued byte changes. |
| `Relays.Direction.ReceiveFrom` | src/common/relay.cpp:154-157 | Receives up to the high-water mark; what is asked for is the read span of the specification. |
| `Relays.Direction.SendThrough` | src/common/relay.cpp:195-200 | Offers the oldest queued bytes to the socket: what leaves is a prefix of the queue. |
| `Relays.Direction.ObserveBackpressure` | src/common/relay.cpp:253-256 | Observes the occupancy; the tracker never refuses it. |
| `Relays.MakeChannel` | src/common/relay.cpp:51-81 | Builds a fault channel exactly for the directions the plan paces, seeded by master seed, connection and direction. |
| `Flows.IngressKeeps` | src/common/relay.cpp:158-169 | Taking bytes in keeps one direction in order: FIFO, watermarks, hysteresis accounts, delay line in step with the ring, rate envelope. |
| `Flows.EgressKeeps` | src/common/relay.cpp:200-221 | Sending bytes that the budget allows keeps one direction in order. |
| `Flows.SettleKeeps` | include/netfault/token_bucket.hpp:54-81 | Refilling keeps one direction in order. |
| `Flows.BudgetMayLeave` | src/common/relay.cpp:132-148 | Whatever the budget allows is eligible, queued and affordable. |
| `TokenBuckets.RefillErrs` | include/netfault/token_bucket.hpp:54-81 | The 64-bit refill earns too much exactly when a truncated cap fills the bucket early, too little exactly when the product or the token sum wraps below the cap, and what it should otherwise. |
| `TokenBuckets.RefillExactIffFits` | include/netfault/token_bucket.hpp:54-81 | Whatever a bucket that starts full goes through, each of its refills is exact, if and only if no product it can form exceeds 64 bits. |
| `TokenBuckets.RefillIsExact` | include/netfault/token_bucket.hpp:11-14 | A bucket of such a rate and burst earns rate bytes per second up to the burst, to the byte-nanosecond, and goes on doing so. |
| `TokenBuckets.EarlyFillHappens` | include/netfault/token_bucket.hpp:62-70 | Where the cap can be truncated, a full bucket spent down accordingly is filled too early. |
| `TokenBuckets.ShortfallHappens` | include/netfault/token_bucket.hpp:72-78 | Where only the product can wrap, a bucket reaches the largest carry its rate allows and then loses what it earned. |
| `TokenBuckets.NeverOverfills` | include/netfault/token_bucket.hpp:62-70 | If the cap of an empty bucket is formed without truncation, no refill earns too much. |
| `TokenBuckets.SmallBurstFits` | include/netfault/token_bucket.hpp:62-73 | Every burst up to 18446744070 bytes meets the condition for exactness. |
| `TokenBuckets.FullBucketEmpties` | include/netfault/token_bucket.hpp:76-77 | At the largest 64-bit burst one earned token wraps the token count of a full bucket to zero. |
| `TokenBuckets.RefillCadence` | include/netfault/token_bucket.hpp:11-14 | Where nothing overflows, refilling at t1 and then at t2 is refilling at t2. |
| `TokenBuckets.FirstInstantIsExact` | include/netfault/token_bucket.hpp:38-39 | Identifies the first instant at which min(bytes, burst) tokens exist. |
| `TokenBuckets.EligibleAtAdequate` | include/netfault/token_bucket.hpp:38-49 | The reported time is never early; late by less than the ignored carry plus one rounding step; and is `now` exactly when the tokens exist already. |
| `TokenBuckets.EligibleAtLater` | include/netfault/token_bucket.hpp:43-48 | Short of tokens, the reported time is strictly later. |
| `TokenBuckets.TokenBucket.RefillTo` | include/netfault/token_bucket.hpp:54-81 | Changes tokens and carry as the 64-bit refill does; a time that does not advance changes nothing. |
| `TokenBuckets.TokenBucket.Consume` | include/netfault/token_bucket.hpp:31-36 | Takes the bytes off the level, or refuses to overdraw and changes nothing. |
| `TokenBuckets.TokenBucket.NextEligible` | include/netfault/token_bucket.hpp:40-49 | Refills and returns the eligible time, exact for any wait the relay asks for. |
| `TokenBuckets.TokenBucket.AvailableAt` | include/netfault/token_bucket.hpp:26-29 | Refills and returns the whole tokens. |
| `TokenBuckets.TokenBucket.Create` | include/netfault/token_bucket.hpp:19-24 | A zero rate or burst is refused; a new bucket is full. |
| `DelayLines.DelayLine.OnCommit` | include/netfault/delay_line.hpp:20-34 | Appends one eligibility time per byte, never before an earlier one, whether a segment is merged or added. |
| `DelayLines.DelayLine.ReleasableNow` | include/netfault/delay_line.hpp:37-46 | Walking the segments counts the longest eligible prefix of bytes. |
| `DelayLines.DelayLine.OnConsume` | include/netfault/delay_line.hpp:49-63 | Drops exactly that many of the oldest bytes, splitting a segment if need be, or refuses and changes nothing. |
| `DelayLines.DelayLine.NextEligibleAfter` | include/netfault/delay_line.hpp:66-73 | Walking the segments finds the first time still ahead. |
| `DelayLines.ReleasableExact` | include/netfault/delay_line.hpp:36-73 | The releasable prefix is exactly the eligible bytes; it grows over time, first at the next eligible time and not before. |
| `DelayLines.CommitInOrder` | include/netfault/delay_line.hpp:13-15 | Commits keep eligibility times non-decreasing along the stream. |
| `DelayLines.NextEligibleIsFirst` | include/netfault/delay_line.hpp:66-73 | The next eligible time is that of the first byte past the releasable prefix. |
| `ByteQueues.ByteQueue.WritableSpan` | include/netfault/byte_queue.hpp:25-32 | The span is the cells after the tail, as many as are free without wrapping. |
| `ByteQueues.ByteQueue.ReadableSpan` | include/netfault/byte_queue.hpp:34-40 | The span holds a prefix of the queued bytes, empty only if nothing is queued. |
| `ByteQueues.ByteQueue.CommitWrite` | include/netfault/byte_queue.hpp:42-48 | Appends the cells after the tail to the contents, or refuses and changes nothing. |
| `ByteQueues.ByteQueue.Consume` | include/netfault/byte_queue.hpp:50-59 | Drops the oldest bytes and keeps the rest in order across the wrap, or refuses and changes nothing. |
| `ByteQueues.SpansNonEmpty` | include/netfault/byte_queue.hpp:25-40 | There is a cell to write exactly when the ring is not full and one to read exactly when it is not empty. |
| `ByteQueues.WritableIsFree` | include/netfault/byte_queue.hpp:25-32 | Writing into the writable span disturbs no queued byte. |
| `Backpressure.PausedDurationIsTotal` | include/netfault/backpressure.hpp:45-63 | The reported duration is the total length of the stretches between observations spent paused. |
| `Backpressure.BackpressureTracker.ObserveOccupancy` | include/netfault/backpressure.hpp:31-58 | Follows the hysteresis and its counters, or refuses an impossible occupancy and changes nothing. |
| `Backpressure.BackpressureTracker.PausedFor` | include/netfault/backpressure.hpp:60-63 | Returns past pauses plus the current one. |
| `Backpressure.BackpressureTracker.Create` | include/netfault/backpressure.hpp:17-22 | Watermarks must satisfy low < high. |
| `TimerQueues.PopTakesFirst` | include/netfault/timer_queue.hpp:37-52 | A pop takes the first due entry by (deadline, sequence), refuses exactly when none is due, and the reported deadline bounds every entry. |
| `TimerQueues.TimerQueue.Add` | include/netfault/timer_queue.hpp:27-30 | Adds an entry under the next sequence number. |
| `TimerQueues.TimerQueue.TakeDue` | include/netfault/timer_queue.hpp:37-44 | Removes and returns the first entry if it is due. |
| `TimerQueues.TimerQueue.Earliest` | include/netfault/timer_queue.hpp:47-52 | Returns the earliest deadline. |
| `FaultRng.MixBijective` | include/netfault/fault_rng.hpp:14-19 | The mixing function has a two-sided inverse on the 64-bit words. |
| `FaultRng.ConnectionSeedsDistinct` | include/netfault/fault_rng.hpp:37-41 | Under one master seed two connections share a seed only if they share an id. |
| `FaultRng.DirectionSeedsDistinct` | include/netfault/fault_rng.hpp:43-46 | Under one connection seed distinct directions have distinct stream seeds. |
| `FaultRng.StreamIsPermutation` | include/netfault/fault_rng.hpp:21-31 | Over its 2^64 draw counts a stream returns each word at exactly one, which is computed. |
| `FaultRng.StateAtDraws` | include/netfault/fault_rng.hpp:27-31 | Drawing one by one reaches the state that the draw count determines. |
| `FaultRng.DrawsDoNotRepeat` | include/netfault/fault_rng.hpp:27-31 | Drawing one by one, no two of the first 2^64 draws return the same word. |
| `FaultRng.SplitMix64.Next` | include/netfault/fault_rng.hpp:27-31 | Returns the mixed state and advances it. |
| `FaultRng.SampleJitter` | include/netfault/fault_rng.hpp:56-64 | Returns the sample of the stream and draws exactly one word, or none when there is no jitter. |
| `FaultRng.SampleOf` | include/netfault/fault_rng.hpp:53-64 | A sample lies in [-jitter, +jitter]. |
| `SocketIos.SocketIo.Receive` | include/netfault/socket_io.hpp:25-25 | A transfer fills between one and all cells of the span and touches no others; anything else transfers nothing. |
| `SocketIos.SocketIo.Send` | include/netfault/socket_io.hpp:26-26 | A transfer takes a non-empty prefix of the span; anything else takes nothing. |
| `SocketIos.Receiving` | src/common/socket_io.cpp:8-25 | A receive transfers one to `len` bytes, or reports would-block, end of stream (as it does on an empty span) or an error. |
| `SocketIos.Sending` | src/common/socket_io.cpp:27-41 | A send transfers one to `len` bytes, or reports would-block or an error, a transfer of none being a broken pipe. |
| `SocketIos.SocketIo.ShutdownWrite` | src/common/socket_io.cpp:43-45 | Reports success or failure. |
| `RuntimeModel.DrainProgress` | src/proxy/proxy.cpp:295-331 | Handling a due entry leaves strictly fewer entries due: whatever it schedules is strictly later. |
| `RuntimeModel.ProcessEventAddsLater` | src/proxy/proxy.cpp:306-327 | Every entry added while handling one at `now` is due strictly after `now` and belongs to the same connection. |
| `RuntimeModel.WakeOfBothLater` | src/proxy/proxy.cpp:590-607 | The wake to be scheduled is strictly later than `now`. |
| `RuntimeRuns.ReachableInOrder` | src/proxy/proxy.cpp:152-206 | Every state the loop can reach is in order: books, tokens, timers, interests, wakes and all relays. |
| `RuntimeRuns.BooksBalance` | src/proxy/proxy.cpp:441-514 | Bindings are exactly the two tokens of each live connection; accepted connections are the live ones plus the four close counters; the live ones are at most the configured maximum. |
| `RuntimeRuns.TokensResolve` | src/proxy/proxy.cpp:481-489 | Both tokens of a live connection resolve to it and the right side; tokens are at least four and below the next to be assigned. |
| `RuntimeRuns.GoneForGood` | src/proxy/proxy.cpp:516-525 | In any run a closed connection never returns, its tokens are never bound again, and events carrying them change nothing. |
| `RuntimeRuns.NoLostWake` | src/proxy/proxy.cpp:570-607 | In every reachable state a time-blocked destination of a live connection has a pump entry no later than its wake, and one blocked on its socket has write interest. |
| `RuntimeRuns.NothingStallsUnwatched` | src/proxy/proxy.cpp:261-293 | Once the timer is armed, a destination with queued bytes has write interest, or the timer is set no later than its wake, or has expired. |
| `RuntimeRuns.TimerCoversAll` | src/proxy/proxy.cpp:261-293 | After arming, the timer is set for the earliest entry or an expiration is unread, the skip-if-unchanged cache notwithstanding. |
| `RuntimeRuns.ReadsRegistered` | src/proxy/proxy.cpp:626-635 | Read interest is registered exactly when the source is open and not paused. |
| `RuntimeRuns.LiveStreamsAreFifo` | src/common/relay.cpp:150-231 | Every live connection of a reachable state forwards losslessly and in order, with no lifecycle fault due. |
| `RuntimeRuns.FullyClosedIsDelivered` | src/proxy/proxy.cpp:609-621 | Every connection a run has closed had lost nothing; one closed as fully closed had both streams end and, unless a half-close was injected, everything delivered. |
| `RuntimeRuns.TimeoutsSound` | src/proxy/proxy.cpp:314-327 | Every connection a run has closed as timed out had then been idle for the limit, or was still connecting at its deadline. |
| `RuntimeRuns.ClosedOnce` | src/proxy/proxy.cpp:637-665 | Every accepted connection is live or has been closed exactly once; the four close counters count those closes by how they ended. |
| `RuntimeRuns.OneIdleEntry` | src/proxy/proxy.cpp:321-326 | With idle timeouts on, each live connection has exactly one idle entry, no later than its idle deadline. |
| `RuntimeRuns.NoEntryIfDisabled` | src/proxy/proxy.cpp:507-512 | With a timeout disabled nothing has an entry for it. |
| `RuntimeRuns.TimeoutsComplete` | src/proxy/proxy.cpp:295-331 | Handling the timer at `now` leaves nothing due, no survivor idle for the limit, and none connecting past its deadline. |
| `RuntimeRuns.OnlyTheTimerTimesOut` | src/proxy/proxy.cpp:516-588 | No other event, and no arming, times a connection out. |
| `RuntimeRuns.StepKeeps` | src/proxy/proxy.cpp:163-206 | Every event and every arming keeps the runtime in order. |
| `RuntimeInvariant.PumpKeeps` | src/proxy/proxy.cpp:570-588 | A pump restores order for its connection and leaves the others alone. |
| `RuntimeInvariant.DrainKeeps` | src/proxy/proxy.cpp:295-331 | Draining keeps the runtime in order and leaves nothing due. |
| `RuntimeInvariant.AcceptOneKeeps` | src/proxy/proxy.cpp:456-512 | Accepting, rejecting or failing to connect keeps the runtime in order. |
| `RuntimeInvariant.SocketReadyKeeps` | src/proxy/proxy.cpp:516-566 | Any socket event keeps the runtime in order. |
| `Proxies.Connection.FlushAndForward` | src/proxy/proxy.cpp:577-586 | Flushes both ways and, unless told to close, forwards half-closes. |
| `Proxies.Connection.NoteWake` | src/proxy/proxy.cpp:596-606 | Notes a wake only if it is earlier than the one already scheduled. |
| `Proxies.Connection.ApplyInterest` | src/proxy/proxy.cpp:626-635 | Leaves the registered interest equal to the desired one. |
| `Proxies.Connection.HandleReadable` | src/proxy/proxy.cpp:558-563 | Reads one socket into the relay the connection owns. |
| `Proxies.LiveAgain` | src/proxy/proxy.cpp:683-683 | A change to one connection, which shares nothing with any other, leaves the table in order. |
| `Proxies.MakeConnection` | src/proxy/proxy.cpp:470-494 | A new connection owns a new relay, with interests registered for both sockets. |
| `Proxies.ProxyRuntime.ProcessDueTimers` | src/proxy/proxy.cpp:295-331 | The loop handles every due entry, first deadline first, and ends with none due. |
| `Proxies.ProxyRuntime.ProcessEvent` | src/proxy/proxy.cpp:302-327 | Pumps, times out or reschedules, or discards a stale entry. |
| `Proxies.ProxyRuntime.ScheduleRelayWake` | src/proxy/proxy.cpp:590-607 | Schedules a pump entry only for a wake earlier than the one already scheduled. |
| `Proxies.ProxyRuntime.PumpConnection` | src/proxy/proxy.cpp:570-588 | Flushes both ways, closes if told to, forwards half-closes, refreshes and schedules, all on the relay object the table owns. |
| `Proxies.ProxyRuntime.RefreshOrClose` | src/proxy/proxy.cpp:609-621 | Closes a fully drained connection, or refreshes both interests. |
| `Proxies.ProxyRuntime.ArmTimerFd` | src/proxy/proxy.cpp:261-293 | Sets the timer unless the cache says it is set, and remembers the deadline only if setting worked. |
| `Proxies.ProxyRuntime.AcceptReady` | src/proxy/proxy.cpp:440-514 | Handles every waiting client in turn. |
| `Proxies.ProxyRuntime.AcceptOne` | src/proxy/proxy.cpp:454-512 | Rejects above the maximum or on a failed connect, else enters the connection with fresh id, tokens, interests and timers. |
| `Proxies.ProxyRuntime.ReadIfReady` | src/proxy/proxy.cpp:556-564 | Reads a readable or hung-up socket, unless it is the upstream of a pending connect. |
| `Proxies.ProxyRuntime.SocketReady` | src/proxy/proxy.cpp:516-566 | Completes a connect or fails it, closes on a pending error, reads when readable, and pumps. |
| `Proxies.ProxyRuntime.CloseConnection` | src/proxy/proxy.cpp:637-665 | Removes the connection and its two bindings, counts and logs the close, at most once. |
| `Proxies.ProxyRuntime.HandleEvent` | src/proxy/proxy.cpp:163-206 | Every event does to the objects what the step does to the model. |

## Left out

- RelayRuns.StallsAreBounded: holds as long as no refill starves the bucket. `RelayRuns.PromptWaitsAreBounded`, `RelayRuns.AnyWaitsAreBounded` and `Overflows.StallsAreBoundedIff` say when none does.
- Overflows.StallsAreBoundedIff: is about plans that `NeverStarves` or `CanStarve`, which leaves two kinds of accepted plan undecided. Bursts of 2^64 - 2 and 2^64 - 1 at rates that do not divide 10^9, unless a level short of a quantum wraps. And plans whose `TopProduct` exceeds 2^64 - 10^9, at levels short of a quantum, somewhere by at least gcd(rate, 512) but nowhere by `rate`, and at some level at all by at least gcd(rate, 10^9): there it depends on which carries those levels can have. No rate that divides 512 is of the second kind, and a rate that divides 10^9 only if the levels that wrap all have tokens for any quantum (`Overflows.DividingRatesAreDecided`).
- Overflows.StallsForever: bounds the time of its waits but not by the end of the clock, which at rates below 8200 comes before the bound on waits is passed; `Overflows.StallsOnTheClock` covers the other rates.
- Waiting.PromptIsEnough: says nothing of a burst of 2^64 - 1 bytes, which one token more empties (`TokenBuckets.FullBucketEmpties`), nor of 2^64 - 2 at a rate that does not divide 10^9.
- RelayRuns.PromptWaitsAreBounded: says nothing of those bursts either.
- RuntimeProgress.PumpsInVainAreBounded: is about plans that never starve, and counts pumps, not time.
- RelayRuns.RateIsKept: requires that the bucket cannot be filled early, which `Overflows.RateIsKeptIff` shows to be the exact condition.
- TokenBuckets.TokenBucket.NextEligible: equals the eligible time of the specification only for waits of at most 18446744070 tokens; the relay never waits for more than 4096.
- RelayRuns.LiveIsBelowThresholds: says nothing of a client whose write direction was shut by other means, as the code then no longer injects the half-close.
- RuntimeRuns.NoLostWake: measures the wake from the connection's last pump; what the environment does afterwards is the next event. That the wake then comes to something is `RuntimeProgress.TimerPumps` and `RuntimeProgress.PumpsInVainAreBounded`.
- Proxies.ProxyRuntime.AcceptOne: gives each connection a socket interface of its own, holding its script of answers, where the program shares one that has no state.
- TimerQueues.TimerQueue.TakeDue: the heap is a set from which the least entry is taken; the standard library's array heap is not modelled.
- Eventual drain after an injected half-close, and freedom from spinning: the code guarantees neither, as reads may stay paused for good and hang-up events are always delivered.
- Overflow of byte counters, connection ids, tokens and steady-clock time points beyond 64 bits; ids are reduced to 64 bits only where they seed the random streams.
- The floating-point probability with which a plan applies to a connection.
- Descriptors and foreign calls (`socket`, `accept4`, `epoll_ctl`, `setsockopt`, interrupted calls), including the edge that `epoll_ctl` fails.
- Signals, the metrics snapshot and file, and the closing of every connection at shutdown.
- Logging, close details, metrics JSON and error strings.
- The client, the server, argument and endpoint parsing, and the benchmark's percentiles.
- The checks of socket buffer sizes and loopback addresses in the configuration.
