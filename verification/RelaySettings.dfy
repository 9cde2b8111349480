/** The configured limits of a relay: no operation changes them. */
module RelaySettings {
  import opened Basics
  import opened SocketIos
  import opened Flows
  import opened RelayModel

  datatype ChannelSettings = ChannelSettings(
    delayed: bool, latency: nat, jitter: nat, limited: bool, rate: nat, burst: nat, jitterOf: nat -> int)

  datatype FlowSettings = FlowSettings(capacity: nat, low: nat, high: nat, fault: Option<ChannelSettings>)

  ghost function SettingsOf(f: Flow): FlowSettings {
    FlowSettings(f.lane.capacity, f.lane.tracker.low, f.lane.tracker.high,
      if f.lane.fault.None? then None
      else
        var ch := f.lane.fault.value;
        Some(ChannelSettings(ch.delay.Some?, ch.latency, ch.jitter, ch.bucket.Some?,
             if ch.bucket.Some? then ch.bucket.value.rate else 0,
             if ch.bucket.Some? then ch.bucket.value.burst else 0, ch.jitterOf)))
  }

  ghost predicate SameSettings(r: Relay, s: Relay) {
    && SettingsOf(s.flows.client) == SettingsOf(r.flows.client)
    && SettingsOf(s.flows.upstream) == SettingsOf(r.flows.upstream)
    && s.resetAfter == r.resetAfter && s.halfCloseAfter == r.halfCloseAfter
  }

  lemma FlowOperations(f: Flow, now: Time)
    ensures SettingsOf(SettleFlow(f, now)) == SettingsOf(f)
  {
  }

  lemma IngressSettings(f: Flow, data: seq<byte>, now: Time)
    requires |f.lane.queue| + |data| <= f.lane.capacity
    ensures SettingsOf(Ingress(f, data, now)) == SettingsOf(f)
  {
  }

  lemma EgressSettings(f: Flow, bytes: nat, now: Time)
    requires bytes <= |f.lane.queue| && Takable(f.lane.fault, bytes)
    ensures SettingsOf(Egress(f, bytes, now)) == SettingsOf(f)
  {
  }

  lemma ReadOnceSettings(r: Relay, source: Side, hangup: bool, now: Time)
    ensures SameSettings(r, ReadOnce(r, source, hangup, now).relay)
  {
    var lane := r.flows.At(source).lane;
    var (result, data) := Receiving(r.wire.receives, ReadSpan(lane));
    ReadSpanFits(lane);
    IngressSettings(r.flows.At(source), data, now);
  }

  lemma {:induction false} ReadSettings(r: Relay, source: Side, hangup: bool, now: Time)
    ensures SameSettings(r, HandleReadable(r, source, hangup, now).0)
    decreases |r.wire.receives|
  {
    ReadOnceSettings(r, source, hangup, now);
    var step := ReadOnce(r, source, hangup, now);
    if step.Again? {
      ReadSettings(step.relay, source, hangup, now);
    }
  }

  lemma SettleSettings(r: Relay, destination: Side, now: Time)
    ensures SameSettings(r, SettleTo(r, destination, now))
  {
    FlowOperations(r.FlowTo(destination), now);
  }

  lemma FlushOnceSettings(r: Relay, destination: Side, now: Time)
    ensures SameSettings(r, FlushOnce(r, destination, now).relay)
  {
    SettleSettings(r, destination, now);
    var f := r.FlowTo(destination);
    if f.lane.queue != [] {
      var span := f.lane.Contiguous();
      var result := Sending(r.wire.sends, BudgetTo(r, destination, span, now));
      if result.Transferred? {
        BudgetIsTakable(f.lane.fault, span, result.bytes, now);
        EgressSettings(SettleFlow(f, now), result.bytes, now);
      }
    }
  }

  lemma {:induction false} FlushLoopSettings(r: Relay, destination: Side, now: Time)
    ensures SameSettings(r, FlushLoop(r, destination, now).0)
    decreases |r.wire.sends|
  {
    FlushOnceSettings(r, destination, now);
    var step := FlushOnce(r, destination, now);
    if step.Again? {
      FlushLoopSettings(step.relay, destination, now);
    }
  }

  lemma FlushSettings(r: Relay, destination: Side, now: Time)
    ensures SameSettings(r, Flush(r, destination, now).0)
  {
    FlushLoopSettings(r, destination, now);
  }

  lemma PropagateSettings(r: Relay)
    ensures SameSettings(r, PropagateHalfCloses(r))
  {
  }

  lemma AskingSettings(r: Relay, side: Side, now: Time)
    ensures SameSettings(r, NextWake(r, side, now).0)
    ensures SameSettings(r, DesiredInterest(r, side, now).0)
  {
    SettleSettings(r, side, now);
  }
}
