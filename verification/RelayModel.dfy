/** The relay of one connection on values: every operation as a function of the state, the time
    and the kernel's scripted answers. */
module RelayModel {
  import opened Basics
  import opened ByteQueues
  import opened Backpressure
  import opened DelayLines
  import opened TokenBuckets
  import opened SocketIos
  import opened Flows
  import opened Pacing
  import FaultRng

  // ---- Configuration ----

  datatype FaultDirections = BothDirections | ClientToUpstream | UpstreamToClient

  /** Times in milliseconds, as configured. */
  datatype FaultPlan = FaultPlan(
    masterSeed: bv64, directions: FaultDirections, latency: int, jitter: int,
    rate: nat, burst: nat, resetAfter: nat, halfCloseAfter: nat)
  {
    predicate Paced() {
      latency > 0 || jitter > 0 || rate > 0
    }

    predicate AppliesTo(source: Side) {
      if source.Client? then !directions.UpstreamToClient? else !directions.ClientToUpstream?
    }

    function EffectiveBurst(): nat {
      if burst != 0 then burst else rate
    }

    /** What validation accepts, sizes being 64-bit numbers; the probability is not part of the
        model. */
    predicate Valid() {
      && 0 <= latency && 0 <= jitter
      && jitter <= latency + 10_000
      && latency + jitter <= 60_000
      && (burst != 0 ==> rate != 0)
      && rate <= NS_PER_SECOND && burst < TWO_TO_THE_64
    }

    /** No bucket of this plan is ever filled early. */
    predicate KeepsRate() {
      rate > 0 ==> NoEarlyFill(rate, EffectiveBurst())
    }
  }

  const NS_PER_MS: nat := 1_000_000

  datatype RelayConfig = RelayConfig(capacity: nat, low: nat, high: nat) {
    predicate Valid() {
      1024 <= capacity <= 16 * 1024 * 1024 && low < high <= capacity
    }
  }

  // ---- State ----

  datatype ConnectionState =
    | ConnectingUpstream | Active | ClientReadClosed | UpstreamReadClosed | Draining
    | FullyClosed | Reset | Failed | TimedOut

  function DeriveState(connecting: bool, readOpen: Pair<bool>): ConnectionState {
    if connecting then ConnectingUpstream
    else if !readOpen.client && !readOpen.upstream then Draining
    else if !readOpen.client then ClientReadClosed
    else if !readOpen.upstream then UpstreamReadClosed
    else Active
  }

  datatype Cause = ReadError | WriteError | InjectedReset

  datatype PumpResult = Continue | Close(final: ConnectionState, cause: Cause)

  datatype Interest = Interest(read: bool, write: bool)

  datatype Metrics = Metrics(
    bytesRead: Pair<nat>, bytesWritten: Pair<nat>,
    readOperations: nat, writeOperations: nat, partialWrites: nat, eagainEvents: nat)
  {
    function TotalWritten(): nat { bytesWritten.client + bytesWritten.upstream }
  }

  /** `flows` is indexed by the side the bytes come from. */
  datatype Relay = Relay(
    flows: Pair<Flow>, connecting: bool, readOpen: Pair<bool>, writeOpen: Pair<bool>,
    resetAfter: nat, halfCloseAfter: nat, halfCloseInjected: bool,
    state: ConnectionState, metrics: Metrics, acceptedAt: Time, lastActivity: Time,
    wire: Wire, shuts: Pair<seq<nat>>)
  {
    function FlowTo(destination: Side): Flow { flows.At(destination.Other()) }

    function QueueTo(destination: Side): seq<byte> { FlowTo(destination).lane.queue }

    function FaultTo(destination: Side): Option<Channel> { FlowTo(destination).lane.fault }

    /** The destination can be written at all, its socket and the faults permitting. */
    predicate Writable(destination: Side) {
      writeOpen.At(destination) && !(destination.Upstream? && connecting)
    }
  }

  function NewChannel(plan: FaultPlan, connectionId: bv64, source: Side, now: Time): Option<Channel>
    requires plan.Valid()
  {
    if !plan.Paced() || !plan.AppliesTo(source) then None
    else
      var seed := FaultRng.DirectionSeed(FaultRng.ConnectionSeed(plan.masterSeed, connectionId),
                                         if source.Client? then 0 else 1);
      Some(Channel(
        if plan.latency > 0 || plan.jitter > 0 then Some(DelayData([], 0, 0)) else None,
        if plan.rate > 0 then Some(NewBucket(plan.rate, plan.EffectiveBurst(), now)) else None,
        FaultRng.JitterStream(seed, plan.jitter * NS_PER_MS), 0,
        plan.latency * NS_PER_MS, plan.jitter * NS_PER_MS, 0, 0))
  }

  function NewFlow(config: RelayConfig, fault: Option<Channel>): Flow
    requires config.Valid()
  {
    Flow(LaneData(config.capacity, 0, [], 0, NewTracker(config.low, config.high), fault), [], [], [], [])
  }

  function NewRelay(
      config: RelayConfig, plan: FaultPlan, connectionId: bv64, connecting: bool, wire: Wire, now: Time): Relay
    requires config.Valid() && plan.Valid()
  {
    Relay(Pair(NewFlow(config, NewChannel(plan, connectionId, Client, now)),
               NewFlow(config, NewChannel(plan, connectionId, Upstream, now))),
          connecting, Pair(true, true), Pair(true, true),
          plan.resetAfter, plan.halfCloseAfter, false,
          if connecting then ConnectingUpstream else Active,
          Metrics(Pair(0, 0), Pair(0, 0), 0, 0, 0, 0), now, now, wire, Pair([], []))
  }

  function MarkConnected(r: Relay): Relay {
    r.(connecting := false, state := DeriveState(false, r.readOpen))
  }

  // ---- Reading ----

  function CloseForError(error: int, cause: Cause): PumpResult {
    Close(if error == ECONNRESET || error == EPIPE then Reset else Failed, cause)
  }

  function NoteHalfClosedRead(r: Relay, source: Side): Relay {
    var readOpen := r.readOpen.Put(source, false);
    r.(readOpen := readOpen, state := DeriveState(r.connecting, readOpen))
  }

  function NoteEagain(r: Relay): Relay {
    r.(metrics := r.metrics.(eagainEvents := r.metrics.eagainEvents + 1))
  }

  /** Length of the span offered to `receive`: contiguous room, up to the high-water mark. The
      subtraction is the 64-bit one. */
  function ReadSpan(l: Lane): nat {
    Min(WritableLen(l.capacity, l.head, |l.queue|), Wrap64(l.tracker.high - |l.queue|))
  }

  lemma ReadSpanFits(l: Lane)
    ensures ReadSpan(l) <= l.capacity - |l.queue|
  {
    SpansNonEmpty(l.capacity, l.head, |l.queue|);
  }

  function Received(r: Relay, source: Side, data: seq<byte>, now: Time): Relay
    requires |data| <= ReadSpan(r.flows.At(source).lane)
  {
    ReadSpanFits(r.flows.At(source).lane);
    var m := r.metrics;
    r.(flows := r.flows.Put(source, Ingress(r.flows.At(source), data, now)),
       lastActivity := now,
       metrics := m.(readOperations := m.readOperations + 1,
                     bytesRead := m.bytesRead.Put(source, m.bytesRead.At(source) + |data|)))
  }

  /** One round of a transfer loop: go on, or stop with a result. */
  datatype Step = Again(relay: Relay) | Done(relay: Relay, result: PumpResult)

  function ReadOnce(r: Relay, source: Side, hangup: bool, now: Time): (step: Step)
    ensures step.Again? ==> |step.relay.wire.receives| < |r.wire.receives|
  {
    var lane := r.flows.At(source).lane;
    if !r.readOpen.At(source) || lane.tracker.paused then Done(r, Continue)
    else
      var (result, data) := Receiving(r.wire.receives, ReadSpan(lane));
      var r1 := r.(wire := r.wire.(receives := Rest(r.wire.receives)));
      match result
      case Transferred(_) => Again(Received(r1, source, data, now))
      case PeerClosed => Done(NoteHalfClosedRead(r1, source), Continue)
      case WouldBlock =>
        Done(if hangup then NoteHalfClosedRead(NoteEagain(r1), source) else NoteEagain(r1), Continue)
      case Error(error) => Done(r1, CloseForError(error, ReadError))
  }

  function HandleReadable(r: Relay, source: Side, hangup: bool, now: Time): (Relay, PumpResult)
    decreases |r.wire.receives|
  {
    match ReadOnce(r, source, hangup, now)
    case Again(r1) => HandleReadable(r1, source, hangup, now)
    case Done(r1, result) => (r1, result)
  }

  // ---- Writing ----

  function SettleTo(r: Relay, destination: Side, now: Time): Relay {
    r.(flows := r.flows.Put(destination.Other(), SettleFlow(r.FlowTo(destination), now)))
  }

  function BudgetTo(r: Relay, destination: Side, limit: nat, now: Time): nat {
    Budget(r.FaultTo(destination), limit, now)
  }

  /** `bytes` of a budget of `budget` bytes went out of a settled flow. */
  function Sent(r: Relay, destination: Side, budget: nat, bytes: nat, now: Time): Relay
    requires bytes <= |r.QueueTo(destination)| && Takable(r.FaultTo(destination), bytes)
  {
    var m := r.metrics;
    r.(flows := r.flows.Put(destination.Other(), Egress(r.FlowTo(destination), bytes, now)),
       lastActivity := now,
       metrics := m.(partialWrites := m.partialWrites + (if bytes < budget then 1 else 0),
                     writeOperations := m.writeOperations + 1,
                     bytesWritten := m.bytesWritten.Put(destination, m.bytesWritten.At(destination) + bytes)))
  }

  function FlushOnce(r: Relay, destination: Side, now: Time): (step: Step)
    ensures step.Again? ==> |step.relay.wire.sends| < |r.wire.sends|
  {
    var lane := r.FlowTo(destination).lane;
    if lane.queue == [] then Done(r, Continue)
    else
      var span := lane.Contiguous();
      var budget := BudgetTo(r, destination, span, now);
      var r0 := SettleTo(r, destination, now);
      if budget == 0 then Done(r0, Continue)
      else
        var result := Sending(r.wire.sends, budget);
        var r1 := r0.(wire := r.wire.(sends := Rest(r.wire.sends)));
        match result
        case Transferred(bytes) =>
          BudgetIsTakable(lane.fault, span, bytes, now);
          Again(Sent(r1, destination, budget, bytes, now))
        case WouldBlock => Done(NoteEagain(r1), Continue)
        case Error(error) => Done(r1, CloseForError(error, WriteError))
        case PeerClosed => assert false; Done(r1, Continue)
  }

  function FlushLoop(r: Relay, destination: Side, now: Time): (Relay, PumpResult)
    decreases |r.wire.sends|
  {
    match FlushOnce(r, destination, now)
    case Again(r1) => FlushLoop(r1, destination, now)
    case Done(r1, result) => (r1, result)
  }

  /** Attempts to shut a side's write direction. */
  function ShutWrite(r: Relay, side: Side): Relay {
    var r1 := r.(wire := r.wire.(shutdowns := Rest(r.wire.shutdowns)));
    if ShuttingDown(r.wire.shutdowns) then
      r1.(writeOpen := r.writeOpen.Put(side, false),
          shuts := r.shuts.Put(side, r.shuts.At(side) + [|r.FlowTo(side).sent|]))
    else r1
  }

  predicate HalfCloseDue(r: Relay) {
    && r.halfCloseAfter > 0 && !r.halfCloseInjected && r.writeOpen.client
    && r.metrics.bytesWritten.client >= r.halfCloseAfter
  }

  function CheckLifecycle(r: Relay): (Relay, PumpResult) {
    var r1 := if HalfCloseDue(r) then ShutWrite(r.(halfCloseInjected := true), Client) else r;
    (r1, if r.resetAfter > 0 && r.metrics.TotalWritten() >= r.resetAfter then Close(Reset, InjectedReset) else Continue)
  }

  function Flush(r: Relay, destination: Side, now: Time): (Relay, PumpResult) {
    if !r.Writable(destination) then (r, Continue)
    else
      var (r1, result) := FlushLoop(r, destination, now);
      if result.Close? then (r1, result) else CheckLifecycle(r1)
  }

  predicate ForwardDue(r: Relay, side: Side) {
    !r.readOpen.At(side.Other()) && r.QueueTo(side) == [] && r.Writable(side)
  }

  function PropagateHalfCloses(r: Relay): Relay {
    var r1 := if ForwardDue(r, Upstream) then ShutWrite(r, Upstream) else r;
    if ForwardDue(r1, Client) then ShutWrite(r1, Client) else r1
  }

  // ---- Asking ----

  function NextWake(r: Relay, destination: Side, now: Time): (Relay, Option<Time>) {
    if !r.Writable(destination) || r.QueueTo(destination) == [] || r.FaultTo(destination).None? then (r, None)
    else (SettleTo(r, destination, now), WakeOf(r.FaultTo(destination), |r.QueueTo(destination)|, now))
  }

  predicate FullyDrained(r: Relay) {
    && !r.readOpen.client && !r.readOpen.upstream
    && (r.QueueTo(Upstream) == [] || !r.writeOpen.upstream)
    && (r.QueueTo(Client) == [] || !r.writeOpen.client)
  }

  function DesiredInterest(r: Relay, side: Side, now: Time): (Relay, Interest) {
    if side.Upstream? && r.connecting then (r, Interest(false, true))
    else
      var read := r.readOpen.At(side) && !r.flows.At(side).lane.tracker.paused;
      if !r.writeOpen.At(side) || r.QueueTo(side) == [] then (r, Interest(read, false))
      else (SettleTo(r, side, now), Interest(read, BudgetTo(r, side, |r.QueueTo(side)|, now) > 0))
  }
}
