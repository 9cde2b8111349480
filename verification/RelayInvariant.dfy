/** What every relay operation keeps, and how far lifecycle faults overshoot. */
module RelayInvariant {
  import opened Basics
  import opened ByteQueues
  import opened DelayLines
  import opened Grains
  import opened SocketIos
  import opened Flows
  import opened RelayModel

  ghost predicate FlowsInv(r: Relay, t: Time) {
    FlowInv(r.flows.client, t) && FlowInv(r.flows.upstream, t)
  }

  /** The byte counters are the lengths of the streams. */
  ghost predicate Counted(r: Relay) {
    && r.metrics.bytesRead.client == |r.flows.client.received|
    && r.metrics.bytesRead.upstream == |r.flows.upstream.received|
    && r.metrics.bytesWritten.upstream == |r.flows.client.sent|
    && r.metrics.bytesWritten.client == |r.flows.upstream.sent|
  }

  /** A side's write direction is shut at most once, and nothing is sent to it afterwards. */
  ghost predicate ShutOnce(r: Relay, side: Side) {
    r.shuts.At(side) == if r.writeOpen.At(side) then [] else [|r.FlowTo(side).sent|]
  }

  /** The source of `side`'s bytes has ended and every byte of it has been forwarded. */
  ghost predicate Delivered(r: Relay, side: Side) {
    !r.readOpen.At(side.Other()) && r.QueueTo(side) == []
  }

  ghost predicate ClosedInOrder(r: Relay) {
    && ShutOnce(r, Client) && ShutOnce(r, Upstream)
    && (!r.writeOpen.upstream ==> Delivered(r, Upstream) && !r.connecting)
    && (!r.writeOpen.client ==> Delivered(r, Client) || r.halfCloseInjected)
    && (r.halfCloseInjected ==> r.halfCloseAfter > 0 && r.metrics.bytesWritten.client >= r.halfCloseAfter)
    && r.state == DeriveState(r.connecting, r.readOpen)
  }

  /** What holds of a relay beside its flows. */
  ghost predicate ControlInv(r: Relay, t: Time) {
    && Counted(r) && ClosedInOrder(r)
    && r.acceptedAt <= r.lastActivity <= t
  }

  ghost predicate RelayInv(r: Relay, t: Time) {
    FlowsInv(r, t) && ControlInv(r, t)
  }

  /** No lifecycle fault is due: holds of every relay that has not been closed. */
  ghost predicate NoFaultDue(r: Relay) {
    && (r.resetAfter > 0 ==> r.metrics.TotalWritten() < r.resetAfter)
    && !HalfCloseDue(r)
  }

  lemma LaterRelay(r: Relay, t: Time, t': Time)
    requires RelayInv(r, t) && t <= t'
    ensures RelayInv(r, t')
  {
    LaterInv(r.flows.client, t, t');
    LaterInv(r.flows.upstream, t, t');
  }

  lemma JitterIsBounded(seed: bv64, jitter: nat)
    ensures forall k: nat :: -(jitter as int) <= FaultRng.JitterStream(seed, jitter)(k) <= jitter
  {
  }

  /** A channel through which nothing has passed. */
  ghost predicate Unused(fault: Option<Channel>, now: Time) {
    fault.Some? ==>
      && (fault.value.delay.Some? ==> fault.value.delay.value == DelayData([], 0, 0))
      && (fault.value.bucket.Some? ==>
            fault.value.bucket.value.last <= now && Grained(fault.value.bucket.value))
      && forall k: nat :: -(fault.value.jitter as int) <= fault.value.jitterOf(k) <= fault.value.jitter
  }

  lemma NewChannelUnused(plan: FaultPlan, connectionId: bv64, source: Side, now: Time)
    requires plan.Valid()
    ensures Unused(NewChannel(plan, connectionId, source, now), now)
  {
    var seed := FaultRng.DirectionSeed(FaultRng.ConnectionSeed(plan.masterSeed, connectionId),
                                       if source.Client? then 0 else 1);
    JitterIsBounded(seed, plan.jitter * NS_PER_MS);
    if plan.rate > 0 {
      NewIsGrained(plan.rate, plan.EffectiveBurst(), now);
    }
  }

  lemma NewFlowInv(config: RelayConfig, fault: Option<Channel>, now: Time)
    requires config.Valid() && Unused(fault, now)
    ensures FlowInv(NewFlow(config, fault), now)
  {
  }

  lemma NewRelayInv(config: RelayConfig, plan: FaultPlan, connectionId: bv64, connecting: bool, wire: Wire, now: Time)
    requires config.Valid() && plan.Valid()
    ensures RelayInv(NewRelay(config, plan, connectionId, connecting, wire, now), now)
    ensures NoFaultDue(NewRelay(config, plan, connectionId, connecting, wire, now))
  {
    NewChannelUnused(plan, connectionId, Client, now);
    NewChannelUnused(plan, connectionId, Upstream, now);
    NewFlowInv(config, NewChannel(plan, connectionId, Client, now), now);
    NewFlowInv(config, NewChannel(plan, connectionId, Upstream, now), now);
  }

  // ---- Reading ----

  /** An unpaused relay never offers `receive` an empty span, which it would take for the end of
      the stream; the high-water subtraction does not wrap, and what fits it may arrive. */
  lemma ReadSpanIsRoom(l: Lane)
    requires Watermarks(l) && !l.tracker.paused
    ensures 0 < ReadSpan(l) <= l.tracker.high - |l.queue|
    ensures Wrap64(l.tracker.high - |l.queue|) == l.tracker.high - |l.queue|
  {
    SpansNonEmpty(l.capacity, l.head, |l.queue|);
  }

  /** Replacing one flow by a good one. */
  lemma PutFlow(r: Relay, s: Relay, side: Side, f: Flow, t: Time)
    requires FlowsInv(r, t) && FlowInv(f, t) && s.flows == r.flows.Put(side, f)
    ensures FlowsInv(s, t)
  {
  }

  lemma ArrivalKeeps(f: Flow, data: seq<byte>, now: Time)
    requires FlowInv(f, now) && !f.lane.tracker.paused && 0 < |data| <= ReadSpan(f.lane)
    ensures |f.lane.queue| + |data| <= f.lane.capacity
    ensures FlowInv(Ingress(f, data, now), now)
  {
    ReadSpanIsRoom(f.lane);
    IngressKeeps(f, data, now);
  }

  lemma ReadOnceFlows(r: Relay, source: Side, hangup: bool, now: Time)
    requires FlowsInv(r, now)
    ensures FlowsInv(ReadOnce(r, source, hangup, now).relay, now)
  {
    var f := r.flows.At(source);
    var (_, data) := Receiving(r.wire.receives, ReadSpan(f.lane));
    var s := ReadOnce(r, source, hangup, now).relay;
    if s.flows != r.flows {
      ArrivalKeeps(f, data, now);
      PutFlow(r, s, source, Ingress(f, data, now), now);
    }
  }

  lemma ReceivedControl(r: Relay, source: Side, data: seq<byte>, now: Time)
    requires ControlInv(r, now) && r.readOpen.At(source) && |data| <= ReadSpan(r.flows.At(source).lane)
    ensures ControlInv(Received(r, source, data, now), now)
  {
  }

  lemma EofControl(r: Relay, source: Side, now: Time)
    requires ControlInv(r, now)
    ensures ControlInv(NoteHalfClosedRead(r, source), now)
  {
  }

  lemma ReadOnceControl(r: Relay, source: Side, hangup: bool, now: Time)
    requires ControlInv(r, now)
    ensures ControlInv(ReadOnce(r, source, hangup, now).relay, now)
  {
    var lane := r.flows.At(source).lane;
    if r.readOpen.At(source) && !lane.tracker.paused {
      var (result, data) := Receiving(r.wire.receives, ReadSpan(lane));
      var r1 := r.(wire := r.wire.(receives := Rest(r.wire.receives)));
      match result
      case Transferred(_) => ReceivedControl(r1, source, data, now);
      case PeerClosed => EofControl(r1, source, now);
      case WouldBlock => EofControl(NoteEagain(r1), source, now);
      case Error(_) =>
    }
  }

  lemma ReadOnceKeeps(r: Relay, source: Side, hangup: bool, now: Time)
    requires RelayInv(r, now)
    ensures RelayInv(ReadOnce(r, source, hangup, now).relay, now)
  {
    ReadOnceFlows(r, source, hangup, now);
    ReadOnceControl(r, source, hangup, now);
  }

  lemma {:induction false} HandleReadableKeeps(r: Relay, source: Side, hangup: bool, now: Time)
    requires RelayInv(r, now)
    ensures RelayInv(HandleReadable(r, source, hangup, now).0, now)
    decreases |r.wire.receives|
  {
    ReadOnceKeeps(r, source, hangup, now);
    var step := ReadOnce(r, source, hangup, now);
    if step.Again? {
      HandleReadableKeeps(step.relay, source, hangup, now);
    }
  }

  /** Reading touches nothing but the source's own flow, its end of stream, and the counters. */
  ghost predicate ReadFrame(r: Relay, s: Relay, source: Side) {
    && s.flows.At(source.Other()) == r.flows.At(source.Other())
    && s.connecting == r.connecting && s.writeOpen == r.writeOpen
    && s.readOpen.At(source.Other()) == r.readOpen.At(source.Other())
    && s.resetAfter == r.resetAfter && s.halfCloseAfter == r.halfCloseAfter
    && s.halfCloseInjected == r.halfCloseInjected && s.acceptedAt == r.acceptedAt
    && s.metrics.bytesWritten == r.metrics.bytesWritten
    && s.lastActivity >= r.lastActivity
  }

  lemma ReceivedFrame(r: Relay, source: Side, data: seq<byte>, now: Time)
    requires r.lastActivity <= now && |data| <= ReadSpan(r.flows.At(source).lane)
    ensures ReadFrame(r, Received(r, source, data, now), source)
  {
  }

  lemma ReadOnceFrame(r: Relay, source: Side, hangup: bool, now: Time)
    requires r.lastActivity <= now
    ensures ReadFrame(r, ReadOnce(r, source, hangup, now).relay, source)
    ensures ReadOnce(r, source, hangup, now).relay.lastActivity <= now
  {
    var (result, data) := Receiving(r.wire.receives, ReadSpan(r.flows.At(source).lane));
    if result.Transferred? {
      ReceivedFrame(r.(wire := r.wire.(receives := Rest(r.wire.receives))), source, data, now);
    }
  }

  lemma {:induction false} HandleReadableFrame(r: Relay, source: Side, hangup: bool, now: Time)
    requires r.lastActivity <= now
    ensures ReadFrame(r, HandleReadable(r, source, hangup, now).0, source)
    decreases |r.wire.receives|
  {
    ReadOnceFrame(r, source, hangup, now);
    var step := ReadOnce(r, source, hangup, now);
    if step.Again? {
      HandleReadableFrame(step.relay, source, hangup, now);
    }
  }

  // ---- Writing ----

  lemma SettleToControl(r: Relay, destination: Side, now: Time)
    requires ControlInv(r, now)
    ensures ControlInv(SettleTo(r, destination, now), now)
  {
  }

  lemma SettleToKeeps(r: Relay, destination: Side, now: Time)
    requires RelayInv(r, now)
    ensures RelayInv(SettleTo(r, destination, now), now)
  {
    SettleToControl(r, destination, now);
    SettleKeeps(r.FlowTo(destination), now);
    PutFlow(r, SettleTo(r, destination, now), destination.Other(), SettleFlow(r.FlowTo(destination), now), now);
  }

  lemma DepartureKeeps(f: Flow, span: nat, bytes: nat, now: Time)
    requires FlowInv(f, now) && span <= |f.lane.queue| && 0 < bytes <= Budget(f.lane.fault, span, now)
    ensures bytes <= span && Takable(SettleFlow(f, now).lane.fault, bytes)
    ensures FlowInv(Egress(SettleFlow(f, now), bytes, now), now)
  {
    BudgetIsTakable(f.lane.fault, span, bytes, now);
    BudgetMayLeave(f, span, bytes, now);
    SettleKeeps(f, now);
    EgressKeeps(SettleFlow(f, now), bytes, now);
  }

  /** What one round of writing makes of a flow. */
  function FlowAfterSend(f: Flow, sends: seq<SendAnswer>, now: Time): Flow {
    if f.lane.queue == [] then f
    else
      var span := f.lane.Contiguous();
      var budget := Budget(f.lane.fault, span, now);
      var result := Sending(sends, budget);
      if budget == 0 || !result.Transferred? then SettleFlow(f, now)
      else
        BudgetIsTakable(f.lane.fault, span, result.bytes, now);
        Egress(SettleFlow(f, now), result.bytes, now)
  }

  lemma FlowAfterSendKeeps(f: Flow, sends: seq<SendAnswer>, now: Time)
    requires FlowInv(f, now)
    ensures FlowInv(FlowAfterSend(f, sends, now), now)
  {
    SettleKeeps(f, now);
    var span := f.lane.Contiguous();
    var result := Sending(sends, Budget(f.lane.fault, span, now));
    if result.Transferred? {
      DepartureKeeps(f, span, result.bytes, now);
    }
  }

  lemma PutBack<T>(p: Pair<T>, side: Side)
    ensures p.Put(side, p.At(side)) == p
    ensures forall x, y :: p.Put(side, x).At(side) == x && p.Put(side, x).Put(side, y) == p.Put(side, y)
  {
  }

  lemma FlushOnceFlow(r: Relay, destination: Side, now: Time)
    ensures FlushOnce(r, destination, now).relay.flows
            == r.flows.Put(destination.Other(), FlowAfterSend(r.FlowTo(destination), r.wire.sends, now))
  {
    PutBack(r.flows, destination.Other());
    var f := r.FlowTo(destination);
    if f.lane.queue != [] {
      var span := f.lane.Contiguous();
      var result := Sending(r.wire.sends, Budget(f.lane.fault, span, now));
      if result.Transferred? {
        BudgetIsTakable(f.lane.fault, span, result.bytes, now);
      }
    }
  }

  lemma FlushOnceFlows(r: Relay, destination: Side, now: Time)
    requires FlowsInv(r, now)
    ensures FlowsInv(FlushOnce(r, destination, now).relay, now)
  {
    var f := FlowAfterSend(r.FlowTo(destination), r.wire.sends, now);
    FlushOnceFlow(r, destination, now);
    FlowAfterSendKeeps(r.FlowTo(destination), r.wire.sends, now);
    PutFlow(r, FlushOnce(r, destination, now).relay, destination.Other(), f, now);
  }

  /** Writing touches nothing but the flow to the destination and the counters; its bytes come
      from the front of the queue. */
  ghost predicate WriteFrame(r: Relay, s: Relay, destination: Side) {
    && s.flows.At(destination) == r.flows.At(destination)
    && s.connecting == r.connecting && s.writeOpen == r.writeOpen && s.readOpen == r.readOpen
    && s.resetAfter == r.resetAfter && s.halfCloseAfter == r.halfCloseAfter
    && s.halfCloseInjected == r.halfCloseInjected && s.acceptedAt == r.acceptedAt
    && s.state == r.state && s.shuts == r.shuts
    && s.metrics.bytesRead == r.metrics.bytesRead
    && s.FlowTo(destination).received == r.FlowTo(destination).received
    && s.metrics.bytesWritten.At(destination.Other()) == r.metrics.bytesWritten.At(destination.Other())
    && r.lastActivity <= s.lastActivity
  }

  /** `sent` bytes went from the front of the queue to the destination. */
  ghost predicate Moved(r: Relay, s: Relay, destination: Side, sent: nat) {
    && s.metrics.bytesWritten.At(destination) == r.metrics.bytesWritten.At(destination) + sent
    && |s.FlowTo(destination).sent| == |r.FlowTo(destination).sent| + sent
    && |s.QueueTo(destination)| + sent == |r.QueueTo(destination)|
  }

  lemma SentFrame(r: Relay, destination: Side, budget: nat, bytes: nat, now: Time)
    requires r.lastActivity <= now && bytes <= |r.QueueTo(destination)| && Takable(r.FaultTo(destination), bytes)
    ensures WriteFrame(r, Sent(r, destination, budget, bytes, now), destination)
  {
  }

  lemma SettleFrame(r: Relay, destination: Side, now: Time)
    ensures WriteFrame(r, SettleTo(r, destination, now), destination)
  {
  }

  lemma FlushOnceFrame(r: Relay, destination: Side, now: Time)
    requires r.lastActivity <= now
    ensures WriteFrame(r, FlushOnce(r, destination, now).relay, destination)
    ensures FlushOnce(r, destination, now).relay.lastActivity <= now
  {
    SettleFrame(r, destination, now);
    var lane := r.FlowTo(destination).lane;
    var span := lane.Contiguous();
    var budget := BudgetTo(r, destination, span, now);
    var result := Sending(r.wire.sends, budget);
    if lane.queue != [] && result.Transferred? {
      BudgetIsTakable(lane.fault, span, result.bytes, now);
      SentFrame(SettleTo(r, destination, now).(wire := r.wire.(sends := Rest(r.wire.sends))),
                destination, budget, result.bytes, now);
    }
  }

  lemma SentMoves(r: Relay, destination: Side, budget: nat, bytes: nat, now: Time)
    requires bytes <= |r.QueueTo(destination)| && Takable(r.FaultTo(destination), bytes)
    ensures Moved(r, Sent(r, destination, budget, bytes, now), destination, bytes)
  {
  }

  lemma FlushOnceMoves(r: Relay, destination: Side, now: Time) returns (sent: nat)
    ensures Moved(r, FlushOnce(r, destination, now).relay, destination, sent)
  {
    var span := r.FlowTo(destination).lane.Contiguous();
    var budget := BudgetTo(r, destination, span, now);
    var result := Sending(r.wire.sends, budget);
    sent := 0;
    if FlushOnce(r, destination, now).Again? {
      sent := result.bytes;
      BudgetIsTakable(r.FaultTo(destination), span, sent, now);
      SentMoves(SettleTo(r, destination, now).(wire := r.wire.(sends := Rest(r.wire.sends))),
                destination, budget, sent, now);
    }
  }

  lemma {:induction false} FlushLoopFlows(r: Relay, destination: Side, now: Time)
    requires FlowsInv(r, now)
    ensures FlowsInv(FlushLoop(r, destination, now).0, now)
    decreases |r.wire.sends|
  {
    FlushOnceFlows(r, destination, now);
    var step := FlushOnce(r, destination, now);
    if step.Again? {
      FlushLoopFlows(step.relay, destination, now);
    }
  }

  lemma {:induction false} FlushLoopFrame(r: Relay, destination: Side, now: Time) returns (sent: nat)
    requires r.lastActivity <= now
    ensures var s := FlushLoop(r, destination, now).0;
            WriteFrame(r, s, destination) && Moved(r, s, destination, sent) && s.lastActivity <= now
    decreases |r.wire.sends|
  {
    FlushOnceFrame(r, destination, now);
    sent := FlushOnceMoves(r, destination, now);
    var step := FlushOnce(r, destination, now);
    if step.Again? {
      var more := FlushLoopFrame(step.relay, destination, now);
      sent := sent + more;
    }
  }

  /** Writes keep the control part as long as the destination is open. */
  lemma WritesKeepControl(r: Relay, s: Relay, destination: Side, sent: nat, now: Time)
    requires ControlInv(r, now) && r.writeOpen.At(destination)
    requires WriteFrame(r, s, destination) && Moved(r, s, destination, sent) && s.lastActivity <= now
    ensures ControlInv(s, now)
  {
  }

  lemma ShutWriteKeeps(r: Relay, side: Side, now: Time)
    requires ControlInv(r, now) && r.writeOpen.At(side)
    requires side.Upstream? ==> Delivered(r, side) && !r.connecting
    requires side.Client? ==> Delivered(r, side) || r.halfCloseInjected
    ensures ControlInv(ShutWrite(r, side), now)
  {
  }

  lemma CheckLifecycleKeeps(r: Relay, now: Time)
    requires ControlInv(r, now)
    ensures ControlInv(CheckLifecycle(r).0, now)
    ensures CheckLifecycle(r).0.flows == r.flows
    ensures CheckLifecycle(r).1.Continue? ==> NoFaultDue(CheckLifecycle(r).0)
  {
    if HalfCloseDue(r) {
      ShutWriteKeeps(r.(halfCloseInjected := true), Client, now);
    }
  }

  lemma FlushControl(r: Relay, destination: Side, now: Time)
    requires ControlInv(r, now)
    ensures var (s, result) := Flush(r, destination, now);
            && ControlInv(s, now)
            && (NoFaultDue(r) && result.Continue? ==> NoFaultDue(s))
            && s.lastActivity >= r.lastActivity && s.acceptedAt == r.acceptedAt && s.connecting == r.connecting
  {
    if r.Writable(destination) {
      var sent := FlushLoopFrame(r, destination, now);
      WritesKeepControl(r, FlushLoop(r, destination, now).0, destination, sent, now);
      CheckLifecycleKeeps(FlushLoop(r, destination, now).0, now);
    }
  }

  lemma FlushFlows(r: Relay, destination: Side, now: Time)
    requires FlowsInv(r, now)
    ensures FlowsInv(Flush(r, destination, now).0, now)
  {
    if r.Writable(destination) {
      FlushLoopFlows(r, destination, now);
    }
  }

  lemma FlushKeeps(r: Relay, destination: Side, now: Time)
    requires RelayInv(r, now) && NoFaultDue(r)
    ensures var (s, result) := Flush(r, destination, now);
            && RelayInv(s, now)
            && (result.Continue? ==> NoFaultDue(s))
            && s.lastActivity >= r.lastActivity && s.acceptedAt == r.acceptedAt && s.connecting == r.connecting
  {
    FlushControl(r, destination, now);
    FlushFlows(r, destination, now);
  }

  lemma PropagateControl(r: Relay, now: Time)
    requires ControlInv(r, now)
    ensures ControlInv(PropagateHalfCloses(r), now)
  {
    var r1 := r;
    if ForwardDue(r, Upstream) {
      ShutWriteKeeps(r, Upstream, now);
      r1 := ShutWrite(r, Upstream);
    }
    if ForwardDue(r1, Client) {
      ShutWriteKeeps(r1, Client, now);
    }
  }

  lemma PropagateFrame(r: Relay)
    ensures var s := PropagateHalfCloses(r);
            && s.flows == r.flows && s.connecting == r.connecting
            && s.lastActivity == r.lastActivity && s.acceptedAt == r.acceptedAt
            && (NoFaultDue(r) ==> NoFaultDue(s))
  {
  }

  lemma PropagateKeeps(r: Relay, now: Time)
    requires RelayInv(r, now) && NoFaultDue(r)
    ensures RelayInv(PropagateHalfCloses(r), now) && NoFaultDue(PropagateHalfCloses(r))
  {
    PropagateControl(r, now);
    PropagateFrame(r);
  }

  lemma AskingKeeps(r: Relay, side: Side, now: Time)
    requires RelayInv(r, now)
    ensures RelayInv(NextWake(r, side, now).0, now) && RelayInv(DesiredInterest(r, side, now).0, now)
    ensures NoFaultDue(r) ==> NoFaultDue(NextWake(r, side, now).0) && NoFaultDue(DesiredInterest(r, side, now).0)
  {
    SettleToKeeps(r, side, now);
  }

  lemma MarkConnectedKeeps(r: Relay, now: Time)
    requires RelayInv(r, now)
    ensures RelayInv(MarkConnected(r), now)
  {
  }

  // ---- Watermarks alone, without which the read loop could be offered an empty span ----

  ghost predicate Marked(r: Relay) {
    var marked := Watermarks(r.flows.client.lane) && Watermarks(r.flows.upstream.lane);
    marked
  }

  lemma MarkedPut(r: Relay, s: Relay, side: Side, f: Flow)
    requires Marked(r) && Watermarks(f.lane) && s.flows == r.flows.Put(side, f)
    ensures Marked(s)
  {
  }

  lemma AcceptedMarks(l: Lane, data: seq<byte>, now: Time)
    requires Watermarks(l) && !l.tracker.paused && 0 < |data| <= ReadSpan(l)
    ensures |l.queue| + |data| <= l.capacity && Watermarks(Accepted(l, data, now))
  {
    ReadSpanIsRoom(l);
  }

  lemma ReleasedMarks(l: Lane, bytes: nat, now: Time)
    requires Watermarks(l) && bytes <= |l.queue| && Takable(l.fault, bytes)
    ensures Watermarks(Released(l, bytes, now))
  {
  }

  lemma ReadOnceMarked(r: Relay, source: Side, hangup: bool, now: Time)
    requires Marked(r)
    ensures Marked(ReadOnce(r, source, hangup, now).relay)
  {
    var f := r.flows.At(source);
    var (_, data) := Receiving(r.wire.receives, ReadSpan(f.lane));
    var s := ReadOnce(r, source, hangup, now).relay;
    if s.flows != r.flows {
      AcceptedMarks(f.lane, data, now);
      MarkedPut(r, s, source, Ingress(f, data, now));
    }
  }

  lemma {:induction false} ReadMarked(r: Relay, source: Side, hangup: bool, now: Time)
    requires Marked(r)
    ensures Marked(HandleReadable(r, source, hangup, now).0)
    decreases |r.wire.receives|
  {
    ReadOnceMarked(r, source, hangup, now);
    var step := ReadOnce(r, source, hangup, now);
    if step.Again? {
      ReadMarked(step.relay, source, hangup, now);
    }
  }

  lemma FlowAfterSendMarks(f: Flow, sends: seq<SendAnswer>, now: Time)
    requires Watermarks(f.lane)
    ensures Watermarks(FlowAfterSend(f, sends, now).lane)
  {
    var span := f.lane.Contiguous();
    var result := Sending(sends, Budget(f.lane.fault, span, now));
    if result.Transferred? {
      BudgetIsTakable(f.lane.fault, span, result.bytes, now);
      if result.bytes <= |f.lane.queue| {
        ReleasedMarks(Settled(f.lane, now), result.bytes, now);
      }
    }
  }

  lemma {:induction false} FlushLoopMarked(r: Relay, destination: Side, now: Time)
    requires Marked(r)
    ensures Marked(FlushLoop(r, destination, now).0)
    decreases |r.wire.sends|
  {
    var step := FlushOnce(r, destination, now);
    FlushOnceFlow(r, destination, now);
    FlowAfterSendMarks(r.FlowTo(destination), r.wire.sends, now);
    MarkedPut(r, step.relay, destination.Other(), FlowAfterSend(r.FlowTo(destination), r.wire.sends, now));
    if step.Again? {
      FlushLoopMarked(step.relay, destination, now);
    }
  }

  lemma FlushMarked(r: Relay, destination: Side, now: Time)
    requires Marked(r)
    ensures Marked(Flush(r, destination, now).0)
  {
    if r.Writable(destination) {
      FlushLoopMarked(r, destination, now);
    }
  }

  lemma PropagateMarked(r: Relay)
    requires Marked(r)
    ensures Marked(PropagateHalfCloses(r))
  {
    PropagateFrame(r);
  }

  lemma WakeMarked(r: Relay, destination: Side, now: Time)
    requires Marked(r)
    ensures Marked(NextWake(r, destination, now).0)
  {
    MarkedPut(r, SettleTo(r, destination, now), destination.Other(), SettleFlow(r.FlowTo(destination), now));
  }

  lemma InterestMarked(r: Relay, side: Side, now: Time)
    requires Marked(r)
    ensures Marked(DesiredInterest(r, side, now).0)
  {
    MarkedPut(r, SettleTo(r, side, now), side.Other(), SettleFlow(r.FlowTo(side), now));
  }

  lemma NewMarked(config: RelayConfig, plan: FaultPlan, id: bv64, connecting: bool, wire: Wire, now: Time)
    requires config.Valid() && plan.Valid()
    ensures Marked(NewRelay(config, plan, id, connecting, wire, now))
  {
  }

  // ---- Lifecycle faults ----

  lemma QueueBelowHigh(r: Relay, side: Side, t: Time)
    requires FlowsInv(r, t)
    ensures |r.QueueTo(side)| <= r.FlowTo(side).lane.tracker.high
  {
  }

  /** One flush writes at most what was queued for its destination. */
  lemma FlushTotals(r: Relay, destination: Side, now: Time)
    requires r.lastActivity <= now
    ensures var s := Flush(r, destination, now).0;
            && s.metrics.TotalWritten() <= r.metrics.TotalWritten() + |r.QueueTo(destination)|
            && s.metrics.bytesWritten.client <= r.metrics.bytesWritten.client + |r.QueueTo(Client)|
  {
    if r.Writable(destination) {
      var _ := FlushLoopFrame(r, destination, now);
    }
  }

  /** How a flush of a relay with no fault due ends. */
  lemma FlushVerdict(r: Relay, destination: Side, now: Time)
    requires r.lastActivity <= now && NoFaultDue(r)
    ensures var (s, result) := Flush(r, destination, now);
            && (result == Close(Reset, InjectedReset) ==> 0 < r.resetAfter <= s.metrics.TotalWritten())
            && (s.halfCloseInjected && !r.halfCloseInjected ==>
                  && 0 < r.halfCloseAfter <= s.metrics.bytesWritten.client
                  && r.metrics.bytesWritten.client < r.halfCloseAfter)
  {
    if r.Writable(destination) {
      var _ := FlushLoopFrame(r, destination, now);
      FlushLoopCause(r, destination, now);
    }
  }

  lemma {:induction false} FlushLoopCause(r: Relay, destination: Side, now: Time)
    ensures var result := FlushLoop(r, destination, now).1;
            result.Close? ==> result.cause == WriteError
    decreases |r.wire.sends|
  {
    var step := FlushOnce(r, destination, now);
    if step.Again? {
      FlushLoopCause(step.relay, destination, now);
    }
  }

  /** An injected reset happens at the first flush that reaches the threshold, and at most one
      queue of bytes late. */
  lemma ResetOvershoot(r: Relay, destination: Side, now: Time)
    requires RelayInv(r, now) && NoFaultDue(r)
    ensures var (s, result) := Flush(r, destination, now);
            result == Close(Reset, InjectedReset) ==>
              && r.resetAfter > 0
              && r.resetAfter <= s.metrics.TotalWritten() < r.resetAfter + r.FlowTo(destination).lane.tracker.high
  {
    QueueBelowHigh(r, destination, now);
    FlushTotals(r, destination, now);
    FlushVerdict(r, destination, now);
  }

  /** A half-close is injected at the first flush that takes the client's bytes past the
      threshold, at most one queue of bytes late. */
  lemma HalfCloseOvershoot(r: Relay, destination: Side, now: Time)
    requires RelayInv(r, now) && NoFaultDue(r)
    ensures var (s, result) := Flush(r, destination, now);
            s.halfCloseInjected && !r.halfCloseInjected ==>
              && r.halfCloseAfter > 0
              && r.halfCloseAfter <= s.metrics.bytesWritten.client
                 < r.halfCloseAfter + r.FlowTo(Client).lane.tracker.high
  {
    QueueBelowHigh(r, Client, now);
    FlushTotals(r, destination, now);
    FlushVerdict(r, destination, now);
  }
}
