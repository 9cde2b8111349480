/** Guarantees of a relay over whole runs: any configuration, any kernel answers, any sequence of
    calls at non-decreasing times. */
module RelayRuns {
  import opened Basics
  import opened Arithmetic
  import opened TokenBuckets
  import opened Grains
  import opened SocketIos
  import opened Flows
  import opened Pacing
  import opened Waiting
  import opened RelayModel
  import opened RelayInvariant
  import opened RelaySettings

  datatype Setup = Setup(
    config: RelayConfig, plan: FaultPlan, connectionId: bv64, connecting: bool, wire: Wire, start: Time)
  {
    predicate Valid() { config.Valid() && plan.Valid() }

    function Initial(): Relay
      requires Valid()
    {
      NewRelay(config, plan, connectionId, connecting, wire, start)
    }
  }

  datatype Call =
    | Readable(side: Side, hangup: bool, now: Time)
    | Flushing(side: Side, now: Time)
    | Propagating(now: Time)
    | Connected(now: Time)
    | AskingWake(side: Side, now: Time)
    | AskingInterest(side: Side, now: Time)

  function Perform(r: Relay, call: Call): (Relay, PumpResult) {
    match call
    case Readable(side, hangup, now) => HandleReadable(r, side, hangup, now)
    case Flushing(side, now) => Flush(r, side, now)
    case Propagating(_) => (PropagateHalfCloses(r), Continue)
    case Connected(_) => (MarkConnected(r), Continue)
    case AskingWake(side, now) => (NextWake(r, side, now).0, Continue)
    case AskingInterest(side, now) => (DesiredInterest(r, side, now).0, Continue)
  }

  /** The calls up to the first that asks for the connection to be closed. */
  function Run(r: Relay, calls: seq<Call>): (Relay, PumpResult)
    decreases |calls|
  {
    if calls == [] then (r, Continue)
    else
      var (s, result) := Perform(r, calls[0]);
      if result.Close? then (s, result) else Run(s, calls[1..])
  }

  /** Times do not go back. */
  ghost predicate Ordered(calls: seq<Call>, from: Time, to: Time)
    decreases |calls|
  {
    if calls == [] then from <= to else from <= calls[0].now && Ordered(calls[1..], calls[0].now, to)
  }

  lemma ReadingKeeps(r: Relay, side: Side, hangup: bool, now: Time)
    requires RelayInv(r, now) && NoFaultDue(r)
    ensures RelayInv(HandleReadable(r, side, hangup, now).0, now) && NoFaultDue(HandleReadable(r, side, hangup, now).0)
  {
    HandleReadableKeeps(r, side, hangup, now);
    HandleReadableFrame(r, side, hangup, now);
  }

  lemma PerformKeeps(r: Relay, call: Call, t: Time)
    requires RelayInv(r, t) && NoFaultDue(r) && t <= call.now
    ensures RelayInv(Perform(r, call).0, call.now)
    ensures Perform(r, call).1.Continue? ==> NoFaultDue(Perform(r, call).0)
  {
    LaterRelay(r, t, call.now);
    match call
    case Readable(side, hangup, now) => ReadingKeeps(r, side, hangup, now);
    case Flushing(side, now) => FlushKeeps(r, side, now);
    case Propagating(now) => PropagateKeeps(r, now);
    case Connected(now) => MarkConnectedKeeps(r, now);
    case AskingWake(side, now) => AskingKeeps(r, side, now);
    case AskingInterest(side, now) => AskingKeeps(r, side, now);
  }

  lemma {:induction false} RunKeeps(r: Relay, calls: seq<Call>, from: Time, to: Time)
    requires RelayInv(r, from) && NoFaultDue(r) && Ordered(calls, from, to)
    ensures RelayInv(Run(r, calls).0, to)
    ensures Run(r, calls).1.Continue? ==> NoFaultDue(Run(r, calls).0)
    decreases |calls|
  {
    if calls == [] {
      LaterRelay(r, from, to);
    } else {
      PerformKeeps(r, calls[0], from);
      var (s, result) := Perform(r, calls[0]);
      OrderedBound(calls[1..], calls[0].now, to);
      if result.Close? {
        LaterRelay(s, calls[0].now, to);
      } else {
        RunKeeps(s, calls[1..], calls[0].now, to);
      }
    }
  }

  lemma {:induction false} OrderedBound(calls: seq<Call>, from: Time, to: Time)
    requires Ordered(calls, from, to)
    ensures from <= to
    decreases |calls|
  {
    if calls != [] {
      OrderedBound(calls[1..], calls[0].now, to);
    }
  }

  /** Every relay any run reaches satisfies the invariant. */
  lemma Reached(setup: Setup, calls: seq<Call>, to: Time)
    requires setup.Valid() && Ordered(calls, setup.start, to)
    ensures RelayInv(Run(setup.Initial(), calls).0, to)
    ensures Run(setup.Initial(), calls).1.Continue? ==> NoFaultDue(Run(setup.Initial(), calls).0)
  {
    NewRelayInv(setup.config, setup.plan, setup.connectionId, setup.connecting, setup.wire, setup.start);
    RunKeeps(setup.Initial(), calls, setup.start, to);
  }

  lemma PerformSettings(r: Relay, call: Call)
    ensures SameSettings(r, Perform(r, call).0)
  {
    match call
    case Readable(side, hangup, now) => ReadSettings(r, side, hangup, now);
    case Flushing(side, now) => FlushSettings(r, side, now);
    case Propagating(_) => PropagateSettings(r);
    case Connected(_) =>
    case AskingWake(side, now) => AskingSettings(r, side, now);
    case AskingInterest(side, now) => AskingSettings(r, side, now);
  }

  lemma {:induction false} RunSettings(r: Relay, calls: seq<Call>)
    ensures SameSettings(r, Run(r, calls).0)
    decreases |calls|
  {
    if calls != [] {
      PerformSettings(r, calls[0]);
      if Perform(r, calls[0]).1.Continue? {
        RunSettings(Perform(r, calls[0]).0, calls[1..]);
      }
    }
  }

  /** A relay works throughout under the limits it was configured with. */
  lemma SettingsAreKept(setup: Setup, calls: seq<Call>, source: Side)
    requires setup.Valid()
    ensures var r := Run(setup.Initial(), calls).0;
            var f := r.flows.At(source);
            var plan := setup.plan;
            && f.lane.capacity == setup.config.capacity
            && f.lane.tracker.low == setup.config.low && f.lane.tracker.high == setup.config.high
            && r.resetAfter == plan.resetAfter && r.halfCloseAfter == plan.halfCloseAfter
            && (Delayed(f) <==> plan.AppliesTo(source) && (plan.latency > 0 || plan.jitter > 0))
            && (Limited(f) <==> plan.AppliesTo(source) && plan.rate > 0)
            && (f.lane.fault.Some? ==>
                  && MinDelay(f.lane.fault.value) == Max(0, plan.latency - plan.jitter) * NS_PER_MS
                  && MaxDelay(f.lane.fault.value) == (plan.latency + plan.jitter) * NS_PER_MS)
            && (Limited(f) ==> BucketOf(f).rate == plan.rate && BucketOf(f).burst == plan.EffectiveBurst())
  {
    RunSettings(setup.Initial(), calls);
    var g := setup.Initial().flows.At(source);
    assert SettingsOf(Run(setup.Initial(), calls).0.flows.At(source)) == SettingsOf(g);
    assert g == NewFlow(setup.config, NewChannel(setup.plan, setup.connectionId, source, setup.start));
  }

  // ---- The guarantees ----

  /** End to end, each direction delivers exactly what it received, in order: the bytes sent are a
      prefix of the bytes received, the rest is queued, and the counters say so. */
  lemma StreamsAreFifo(setup: Setup, calls: seq<Call>, to: Time, source: Side)
    requires setup.Valid() && Ordered(calls, setup.start, to)
    ensures var r := Run(setup.Initial(), calls).0;
            var f := r.flows.At(source);
            && f.received == f.sent + f.lane.queue
            && r.metrics.bytesRead.At(source) == r.metrics.bytesWritten.At(source.Other()) + |f.lane.queue|
            && |f.lane.queue| <= f.lane.peak <= setup.config.high
  {
    Reached(setup, calls, to);
    SettingsAreKept(setup, calls, source);
  }

  /** Each side's write direction is shut at most once and nothing is sent to it afterwards. The
      upstream's is shut only after the client's end of stream with every client byte sent; the
      client's likewise, unless a half-close was injected past its threshold. */
  lemma HalfClosesInOrder(setup: Setup, calls: seq<Call>, to: Time, side: Side)
    requires setup.Valid() && Ordered(calls, setup.start, to)
    ensures var r := Run(setup.Initial(), calls).0;
            var f := r.FlowTo(side);
            && r.shuts.At(side) == (if r.writeOpen.At(side) then [] else [|f.sent|])
            && (!r.writeOpen.At(side) && !(side.Client? && r.halfCloseInjected) ==>
                  !r.readOpen.At(side.Other()) && f.sent == f.received)
            && (r.halfCloseInjected ==> 0 < setup.plan.halfCloseAfter <= |r.FlowTo(Client).sent|)
  {
    Reached(setup, calls, to);
    SettingsAreKept(setup, calls, side);
  }

  /** An orderly shutdown loses nothing: a fully drained relay into which no half-close was
      injected has sent everything it received, both ways. */
  lemma DrainedIsDelivered(setup: Setup, calls: seq<Call>, to: Time, source: Side)
    requires setup.Valid() && Ordered(calls, setup.start, to)
    ensures var r := Run(setup.Initial(), calls).0;
            FullyDrained(r) && !r.halfCloseInjected ==> r.flows.At(source).sent == r.flows.At(source).received
  {
    Reached(setup, calls, to);
  }

  /** In every reached relay a source that is not paused has room below the high-water mark: what
      is offered to `receive` is never empty, which would read as the end of the stream, and the
      64-bit subtraction behind it does not wrap. A paused one is above the low-water mark. */
  lemma ReadsHaveRoom(setup: Setup, calls: seq<Call>, to: Time, source: Side)
    requires setup.Valid() && Ordered(calls, setup.start, to)
    ensures var l := Run(setup.Initial(), calls).0.flows.At(source).lane;
            && (!l.tracker.paused ==>
                  && |l.queue| < setup.config.high
                  && 0 < ReadSpan(l) <= setup.config.high - |l.queue|
                  && Wrap64(l.tracker.high - |l.queue|) == setup.config.high - |l.queue|)
            && (l.tracker.paused ==> setup.config.low < |l.queue| <= setup.config.high)
  {
    HysteresisHolds(setup, calls, to, source);
    var l := Run(setup.Initial(), calls).0.flows.At(source).lane;
    if !l.tracker.paused {
      ReadSpanIsRoom(l);
    }
  }

  /** Pauses and resumes are amortised against traffic, alternate, and saturation means pausing. */
  lemma HysteresisIsAmortised(setup: Setup, calls: seq<Call>, to: Time, source: Side)
    requires setup.Valid() && Ordered(calls, setup.start, to)
    ensures var f := Run(setup.Initial(), calls).0.flows.At(source);
            var t := f.lane.tracker;
            var gap := setup.config.high - setup.config.low;
            && t.pauseCount * gap <= |f.received| && t.resumeCount * gap <= |f.sent|
            && t.pauseCount - t.resumeCount == (if t.paused then 1 else 0)
            && t.saturationCount == (if setup.config.high == setup.config.capacity then t.pauseCount else 0)
  {
    HysteresisHolds(setup, calls, to, source);
    AmortisedGap(Run(setup.Initial(), calls).0.flows.At(source), setup.config.high - setup.config.low);
  }

  lemma HysteresisHolds(setup: Setup, calls: seq<Call>, to: Time, source: Side)
    requires setup.Valid() && Ordered(calls, setup.start, to)
    ensures var f := Run(setup.Initial(), calls).0.flows.At(source);
            && Hysteresis(f) && Watermarks(f.lane) && f.lane.capacity == setup.config.capacity
            && f.lane.tracker.low == setup.config.low && f.lane.tracker.high == setup.config.high
  {
    Reached(setup, calls, to);
    SettingsAreKept(setup, calls, source);
  }

  lemma AmortisedGap(f: Flow, gap: int)
    requires Hysteresis(f) && Watermarks(f.lane) && gap == f.lane.tracker.high - f.lane.tracker.low
    ensures f.lane.tracker.pauseCount * gap <= |f.received| && f.lane.tracker.resumeCount * gap <= |f.sent|
  {
  }

  /** A delayed byte leaves no earlier than its arrival plus the least configured delay, and it is
      eligible no later than its arrival plus the greatest. */
  lemma DelaysAreKept(setup: Setup, calls: seq<Call>, to: Time, source: Side, k: nat)
    requires setup.Valid() && Ordered(calls, setup.start, to)
    requires setup.plan.AppliesTo(source) && (setup.plan.latency > 0 || setup.plan.jitter > 0)
    requires k < |Run(setup.Initial(), calls).0.flows.At(source).received|
    ensures var f := Run(setup.Initial(), calls).0.flows.At(source);
            var plan := setup.plan;
            && Delayed(f)
            && |f.sentAt| == |f.sent| && |f.receivedAt| == |f.received| == |Line(f).stamps|
            && f.receivedAt[k] + Max(0, plan.latency - plan.jitter) * NS_PER_MS <= Line(f).stamps[k]
            && Line(f).stamps[k] <= f.receivedAt[k] + (plan.latency + plan.jitter) * NS_PER_MS
            && (k < |f.sent| ==> f.sentAt[k] >= Line(f).stamps[k])
  {
    Reached(setup, calls, to);
    SettingsAreKept(setup, calls, source);
  }

  lemma ReachedLimits(setup: Setup, calls: seq<Call>, to: Time, source: Side)
    requires setup.Valid() && Ordered(calls, setup.start, to)
    ensures var f := Run(setup.Initial(), calls).0.flows.At(source);
            && FlowInv(f, to)
            && (Limited(f) <==> setup.plan.AppliesTo(source) && setup.plan.rate > 0)
            && (Limited(f) ==> BucketOf(f).rate == setup.plan.rate && BucketOf(f).burst == setup.plan.EffectiveBurst())
  {
    Reached(setup, calls, to);
    SettingsAreKept(setup, calls, source);
  }

  lemma PlanRateWindow(plan: FaultPlan, f: Flow, t: Time, t1: Time, t2: Time)
    requires FlowInv(f, t) && Limited(f) && t1 <= t2
    requires plan.Valid() && plan.rate > 0 && plan.KeepsRate()
    requires BucketOf(f).rate == plan.rate && BucketOf(f).burst == plan.EffectiveBurst()
    ensures CountWithin(f.sentAt, t1, t2) * NS_PER_SECOND
            <= plan.EffectiveBurst() * NS_PER_SECOND + (t2 - t1) * plan.rate
  {
    RateWindow(f, t, t1, t2);
  }

  lemma SettledLimits(f: Flow, now: Time)
    ensures Limited(SettleFlow(f, now)) == Limited(f)
    ensures Limited(f) ==> BucketOf(SettleFlow(f, now)).rate == BucketOf(f).rate
                           && BucketOf(SettleFlow(f, now)).burst == BucketOf(f).burst
  {
  }

  /** In any window of time a rate-limited direction forwards at most its burst plus its rate, if
      its bucket cannot be filled early. */
  lemma RateIsKept(setup: Setup, calls: seq<Call>, to: Time, source: Side, t1: Time, t2: Time)
    requires setup.Valid() && Ordered(calls, setup.start, to) && t1 <= t2
    requires setup.plan.AppliesTo(source) && setup.plan.rate > 0 && setup.plan.KeepsRate()
    ensures var f := Run(setup.Initial(), calls).0.flows.At(source);
            CountWithin(f.sentAt, t1, t2) * NS_PER_SECOND
            <= setup.plan.EffectiveBurst() * NS_PER_SECOND + (t2 - t1) * setup.plan.rate
  {
    ReachedLimits(setup, calls, to, source);
    var f := Run(setup.Initial(), calls).0.flows.At(source);
    PlanRateWindow(setup.plan, f, to, t1, t2);
  }

  /** A reached direction just asked at `now`, and blocked on time. */
  ghost predicate Blocked(setup: Setup, calls: seq<Call>, now: Time, destination: Side) {
    && setup.Valid() && Ordered(calls, setup.start, now)
    && var f := AskedFlow(setup, calls, now, destination);
       f.lane.queue != [] && BudgetNow(f, now) == 0
  }

  ghost function AskedFlow(setup: Setup, calls: seq<Call>, now: Time, destination: Side): Flow
    requires setup.Valid()
  {
    SettleTo(Run(setup.Initial(), calls).0, destination, now).FlowTo(destination)
  }

  lemma AskedFlowIs(setup: Setup, calls: seq<Call>, now: Time, destination: Side)
    requires setup.Valid() && Ordered(calls, setup.start, now)
    ensures var f := AskedFlow(setup, calls, now, destination);
            && FlowInv(f, now) && Metered(f) && Asked(f, now) && (Limited(f) ==> Grained(BucketOf(f)))
            && (Limited(f) <==> setup.plan.AppliesTo(destination.Other()) && setup.plan.rate > 0)
            && (Limited(f) ==> BucketOf(f).rate == setup.plan.rate && BucketOf(f).burst == setup.plan.EffectiveBurst())
  {
    ReachedLimits(setup, calls, now, destination.Other());
    var f := Run(setup.Initial(), calls).0.FlowTo(destination);
    SettleKeeps(f, now);
    SettledIsAsked(f, now);
    SettledLimits(f, now);
    assert AskedFlow(setup, calls, now, destination) == SettleFlow(f, now);
  }

  /** No reached relay stalls on time: whatever arrives while it waits, at most min(burst, 4096) of
      its wakes in a row find nothing to send, and none if only latency holds its bytes, as long as
      no refill starves its bucket. */
  lemma StallsAreBounded(setup: Setup, calls: seq<Call>, now: Time, destination: Side, waits: seq<Wait>)
    requires Blocked(setup, calls, now, destination)
    requires var f := AskedFlow(setup, calls, now, destination);
             FruitlessWaits(f, now, waits) && WaitsRefill(f, NotStarving, now, waits)
    ensures |waits| <= LargestQuantum(setup.plan.EffectiveBurst())
    ensures !(setup.plan.AppliesTo(destination.Other()) && setup.plan.rate > 0) ==> waits == []
  {
    AskedFlowIs(setup, calls, now, destination);
    FruitlessWakesAreBounded(AskedFlow(setup, calls, now, destination), now, waits);
  }

  /** No refill starves a bucket that is looked at, or woken, promptly. */
  lemma PromptWaitsAreBounded(setup: Setup, calls: seq<Call>, now: Time, destination: Side, waits: seq<Wait>)
    requires Blocked(setup, calls, now, destination)
    requires var f := AskedFlow(setup, calls, now, destination);
             FruitlessWaits(f, now, waits) && WaitsRefill(f, Prompt, now, waits)
    ensures |waits| <= LargestQuantum(setup.plan.EffectiveBurst())
  {
    forall b: Bucket, t: Time | Prompt(b, t)
      ensures NotStarving(b, t)
    {
      PromptIsEnough(b, t);
    }
    WaitsImply(AskedFlow(setup, calls, now, destination), Prompt, NotStarving, now, waits);
    StallsAreBounded(setup, calls, now, destination, waits);
  }

  /** Nor one of a rate and burst that never starve, however late the looks and wakes are. */
  lemma AnyWaitsAreBounded(setup: Setup, calls: seq<Call>, now: Time, destination: Side, waits: seq<Wait>)
    requires Blocked(setup, calls, now, destination)
    requires setup.plan.rate > 0 && NeverStarves(setup.plan.rate, setup.plan.EffectiveBurst())
    requires FruitlessWaits(AskedFlow(setup, calls, now, destination), now, waits)
    ensures |waits| <= LargestQuantum(setup.plan.EffectiveBurst())
  {
    var f := AskedFlow(setup, calls, now, destination);
    AskedFlowIs(setup, calls, now, destination);
    NeverStarvingWaits(f, now, waits);
    StallsAreBounded(setup, calls, now, destination, waits);
  }

  /** A relay nothing has closed is below its reset threshold, and its client below the half-close
      threshold unless that fault already fired or the client's write direction is shut. */
  lemma LiveIsBelowThresholds(setup: Setup, calls: seq<Call>, to: Time)
    requires setup.Valid() && Ordered(calls, setup.start, to)
    requires Run(setup.Initial(), calls).1.Continue?
    ensures var r := Run(setup.Initial(), calls).0;
            var plan := setup.plan;
            && (plan.resetAfter > 0 ==> |r.flows.client.sent| + |r.flows.upstream.sent| < plan.resetAfter)
            && (plan.halfCloseAfter > 0 && !r.halfCloseInjected && r.writeOpen.client ==>
                  |r.flows.upstream.sent| < plan.halfCloseAfter)
  {
    Reached(setup, calls, to);
    SettingsAreKept(setup, calls, Client);
  }

  lemma {:induction false} ReadCause(r: Relay, source: Side, hangup: bool, now: Time)
    ensures var result := HandleReadable(r, source, hangup, now).1;
            result.Close? ==> result.cause == ReadError
    decreases |r.wire.receives|
  {
    var step := ReadOnce(r, source, hangup, now);
    if step.Again? {
      ReadCause(step.relay, source, hangup, now);
    }
  }

  /** Only a flush injects faults. */
  lemma OnlyFlushInjects(r: Relay, call: Call)
    requires !call.Flushing? && r.lastActivity <= call.now
    ensures Perform(r, call).1 != Close(Reset, InjectedReset)
    ensures Perform(r, call).0.halfCloseInjected == r.halfCloseInjected
  {
    if call.Readable? {
      ReadCause(r, call.side, call.hangup, call.now);
      HandleReadableFrame(r, call.side, call.hangup, call.now);
    }
  }

  lemma FlushOvershoots(r: Relay, destination: Side, now: Time)
    requires RelayInv(r, now) && NoFaultDue(r)
    ensures var (s, result) := Flush(r, destination, now);
            && (result == Close(Reset, InjectedReset) ==>
                  0 < r.resetAfter <= s.metrics.TotalWritten()
                    < r.resetAfter + r.FlowTo(destination).lane.tracker.high)
            && (s.halfCloseInjected && !r.halfCloseInjected ==>
                  0 < r.halfCloseAfter <= s.metrics.bytesWritten.client
                    < r.halfCloseAfter + r.FlowTo(Client).lane.tracker.high)
  {
    ResetOvershoot(r, destination, now);
    HalfCloseOvershoot(r, destination, now);
  }

  /** Whenever in a run a lifecycle fault fires, the bytes written are at its configured threshold
      and less than one high-water mark past it. */
  lemma FaultsOvershootLittle(setup: Setup, calls: seq<Call>, call: Call)
    requires setup.Valid() && Ordered(calls, setup.start, call.now)
    requires Run(setup.Initial(), calls).1.Continue?
    ensures var r := Run(setup.Initial(), calls).0;
            var (s, result) := Perform(r, call);
            && (result == Close(Reset, InjectedReset) ==>
                  0 < setup.plan.resetAfter <= s.metrics.TotalWritten() < setup.plan.resetAfter + setup.config.high)
            && (s.halfCloseInjected && !r.halfCloseInjected ==>
                  0 < setup.plan.halfCloseAfter <= s.metrics.bytesWritten.client
                    < setup.plan.halfCloseAfter + setup.config.high)
  {
    Reached(setup, calls, call.now);
    var r := Run(setup.Initial(), calls).0;
    if call.Flushing? {
      FlushOvershoots(r, call.side, call.now);
      SettingsAreKept(setup, calls, call.side.Other());
      SettingsAreKept(setup, calls, Upstream);
    } else {
      OnlyFlushInjects(r, call);
    }
  }

  /** In every reached relay, a write-open and connected destination with queued bytes is blocked
      on exactly one of its socket and time; a time block ends strictly later; and write interest
      means that a flush at that instant gets to `send`: it uses up one of the kernel's answers. */
  lemma BlockedOnOneThing(setup: Setup, calls: seq<Call>, now: Time, destination: Side)
    requires setup.Valid() && Ordered(calls, setup.start, now)
    requires var r := Run(setup.Initial(), calls).0;
             r.Writable(destination) && r.QueueTo(destination) != []
    ensures var r := Run(setup.Initial(), calls).0;
            var wake := NextWake(r, destination, now).1;
            && DesiredInterest(r, destination, now).1.write != wake.Some?
            && (wake.Some? ==> wake.value > now)
            && (wake.None? && r.wire.sends != [] ==> |Flush(r, destination, now).0.wire.sends| < |r.wire.sends|)
  {
    Reached(setup, calls, now);
    var r := Run(setup.Initial(), calls).0;
    OneBlock(r, destination, now);
    if NextWake(r, destination, now).1.None? && r.wire.sends != [] {
      FlushSends(r, destination, now);
    }
  }

  lemma {:induction false} FlushLoopSends(r: Relay, destination: Side, now: Time)
    ensures |FlushLoop(r, destination, now).0.wire.sends| <= |r.wire.sends|
    decreases |r.wire.sends|
  {
    var step := FlushOnce(r, destination, now);
    if step.Again? {
      FlushLoopSends(step.relay, destination, now);
    }
  }

  /** With a budget for the contiguous front, a flush gets to `send`. */
  lemma FlushSends(r: Relay, destination: Side, now: Time)
    requires r.Writable(destination) && r.QueueTo(destination) != [] && r.wire.sends != []
    requires BudgetTo(r, destination, r.FlowTo(destination).lane.Contiguous(), now) > 0
    ensures |Flush(r, destination, now).0.wire.sends| < |r.wire.sends|
  {
    var step := FlushOnce(r, destination, now);
    if step.Again? {
      FlushLoopSends(step.relay, destination, now);
    }
  }

  lemma OneBlock(r: Relay, destination: Side, now: Time)
    requires RelayInv(r, now) && r.Writable(destination) && r.QueueTo(destination) != []
    ensures var wake := NextWake(r, destination, now).1;
            && DesiredInterest(r, destination, now).1.write != wake.Some?
            && (wake.Some? ==> wake.value > now)
            && (wake.None? ==> BudgetTo(r, destination, r.FlowTo(destination).lane.Contiguous(), now) > 0)
  {
    var f := r.FlowTo(destination);
    SocketXorTime(f, now);
    WholeImpliesContiguous(f.lane.fault, |f.lane.queue|, f.lane.Contiguous(), now);
  }

  // ---- Where the two budgets disagree ----

  /** A run that leaves 50 bytes at the end of the ring and 150 at its start, and 126 tokens. */
  function WrappedSetup(): Setup {
    Setup(RelayConfig(1024, 512, 1024), FaultPlan(0, BothDirections, 0, 0, 1000, 1100, 0, 0), 0, false,
          Wire([Data(seq(1024, _ => 0)), Data(seq(150, _ => 0))], [Accepts(974), SendWouldBlock], []), 0)
  }

  function WrappedCalls(): seq<Call> {
    [Readable(Client, false, 0), Flushing(Upstream, 0), Readable(Client, false, 0)]
  }

  /** What the steps of that run look at. */
  ghost predicate At(r: Relay, head: nat, size: nat, paused: bool, tokens: nat,
                     receives: seq<RecvAnswer>, sends: seq<SendAnswer>)
  {
    var l := r.flows.client.lane;
    var there :=
      && r.readOpen.client && r.writeOpen.upstream && !r.connecting
      && r.resetAfter == 0 && r.halfCloseAfter == 0
      && r.wire.receives == receives && r.wire.sends == sends
      && l.capacity == 1024 && l.head == head && |l.queue| == size
      && l.tracker.paused == paused && l.tracker.low == 512 && l.tracker.high == 1024
      && l.fault.Some? && l.fault.value.delay.None?
      && l.fault.value.bucket == Some(BucketData(1000, 1100, tokens * NS_PER_SECOND, 0));
    there
  }

  lemma WrappedFill(r: Relay)
    requires At(r, 0, 0, false, 1100, WrappedSetup().wire.receives, WrappedSetup().wire.sends)
    ensures var (s, result) := Perform(r, Readable(Client, false, 0));
            result == Continue && At(s, 0, 1024, true, 1100, [Data(seq(150, _ => 0))], WrappedSetup().wire.sends)
  {
    var step := ReadOnce(r, Client, false, 0);
    assert WrappedSetup().wire.receives[1..] == [Data(seq(150, _ => 0))];
    assert step.Again? && At(step.relay, 0, 1024, true, 1100, [Data(seq(150, _ => 0))], WrappedSetup().wire.sends);
    assert HandleReadable(r, Client, false, 0) == HandleReadable(step.relay, Client, false, 0);
    assert HandleReadable(step.relay, Client, false, 0) == (step.relay, Continue);
  }

  lemma WrappedSend(r: Relay, receives: seq<RecvAnswer>)
    requires At(r, 0, 1024, true, 1100, receives, [Accepts(974), SendWouldBlock])
    ensures var step := FlushOnce(r, Upstream, 0);
            step.Again? && At(step.relay, 974, 50, false, 126, receives, [SendWouldBlock])
  {
    TokensAre(1100);
    TokensAre(126);
    assert [Accepts(974), SendWouldBlock][1..] == [SendWouldBlock];
  }

  lemma TokensAre(tokens: nat)
    requires tokens <= 1100
    ensures BucketData(1000, 1100, tokens * NS_PER_SECOND, 0).Tokens() == tokens
  {
  }

  lemma WrappedFlush(r: Relay, receives: seq<RecvAnswer>)
    requires At(r, 0, 1024, true, 1100, receives, [Accepts(974), SendWouldBlock])
    ensures var (s, result) := Perform(r, Flushing(Upstream, 0));
            result == Continue && At(s, 974, 50, false, 126, receives, [])
  {
    WrappedSend(r, receives);
    var r1 := FlushOnce(r, Upstream, 0).relay;
    TokensAre(126);
    var last := FlushOnce(r1, Upstream, 0);
    assert last.Done? && last.result == Continue && At(last.relay, 974, 50, false, 126, receives, []);
    assert FlushLoop(r, Upstream, 0) == FlushLoop(r1, Upstream, 0) == (last.relay, Continue);
  }

  lemma WrappedRefill(r: Relay)
    requires At(r, 974, 50, false, 126, [Data(seq(150, _ => 0))], [])
    ensures var (s, result) := Perform(r, Readable(Client, false, 0));
            result == Continue && At(s, 974, 200, false, 126, [], [])
  {
    var step := ReadOnce(r, Client, false, 0);
    assert step.Again? && At(step.relay, 974, 200, false, 126, [], []);
    var last := ReadOnce(step.relay, Client, false, 0);
    assert last.Done? && last.result == Continue && At(last.relay, 974, 200, false, 126, [], []);
    assert HandleReadable(r, Client, false, 0) == HandleReadable(step.relay, Client, false, 0);
    assert HandleReadable(step.relay, Client, false, 0) == (last.relay, Continue);
  }

  lemma WrappedRun(setup: Setup, calls: seq<Call>)
    requires setup == WrappedSetup() && calls == WrappedCalls()
    ensures setup.Valid() && Ordered(calls, 0, 0)
    ensures At(Run(setup.Initial(), calls).0, 974, 200, false, 126, [], [])
  {
    var r := setup.Initial();
    WrappedFill(r);
    var r1 := Perform(r, calls[0]).0;
    WrappedFlush(r1, [Data(seq(150, _ => 0))]);
    var r2 := Perform(r1, calls[1]).0;
    WrappedRefill(r2);
    ThreeCalls(r, calls);
  }

  lemma ThreeCalls(r: Relay, calls: seq<Call>)
    requires |calls| == 3 && Perform(r, calls[0]).1.Continue?
    requires var r1 := Perform(r, calls[0]).0; Perform(r1, calls[1]).1.Continue?
    ensures var r1 := Perform(r, calls[0]).0;
            var r2 := Perform(r1, calls[1]).0;
            Run(r, calls).0 == Perform(r2, calls[2]).0
  {
    var r1 := Perform(r, calls[0]).0;
    var r2 := Perform(r1, calls[1]).0;
    assert Run(r, calls) == Run(r1, calls[1..]);
    assert Run(r1, calls[1..]) == Run(r2, calls[1..][1..]);
    assert calls[1..][1..] == [calls[2]] && [calls[2]][1..] == [];
  }

  /** 50 of 200 queued bytes are contiguous and may go out, yet the relay registers no write interest
      and waits for the time at which 200 tokens exist. */
  ghost predicate Disagree(r: Relay) {
    var disagree :=
      && r.Writable(Upstream) && |r.QueueTo(Upstream)| == 200 && r.FlowTo(Upstream).lane.Contiguous() == 50
      && BudgetTo(r, Upstream, 50, 0) == 50 && BudgetTo(r, Upstream, 200, 0) == 0
      && !DesiredInterest(r, Upstream, 0).1.write && NextWake(r, Upstream, 0).1 == Some(74_000_000);
    disagree
  }

  lemma DisagreementAt(r: Relay)
    requires At(r, 974, 200, false, 126, [], [])
    ensures Disagree(r)
  {
    TokensAre(126);
    assert CeilDiv(74 * NS_PER_SECOND, 1000) == 74_000_000;
  }

  /** Interest and wakes ask for the whole queue, a flush for its contiguous front, and in a reached
      relay they can disagree. */
  lemma ContiguousOnlyHappens() returns (setup: Setup, calls: seq<Call>)
    ensures setup.Valid() && Ordered(calls, 0, 0)
    ensures Disagree(Run(setup.Initial(), calls).0)
  {
    setup, calls := WrappedSetup(), WrappedCalls();
    WrappedRun(setup, calls);
    DisagreementAt(Run(setup.Initial(), calls).0);
  }
}
