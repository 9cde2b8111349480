/** Progress of a relay of a plan that never starves: whatever is done to a relay, either bytes leave
    a direction, or the direction only grows nearer to sending. */
module Progress {
  import opened Basics
  import opened SocketIos
  import opened Flows
  import opened Pacing
  import opened Waiting
  import opened RelayModel
  import opened RelayInvariant
  import opened RelaySettings

  // ---- Directions of a plan ----

  /** The plan has no rate limit, or one that never starves. */
  ghost predicate Sustains(plan: FaultPlan) {
    plan.rate > 0 ==> NeverStarves(plan.rate, plan.EffectiveBurst())
  }

  /** A rate limit of the direction is that of the plan. */
  ghost predicate Tuned(plan: FaultPlan, f: Flow) {
    Limited(f) ==> BucketOf(f).rate == plan.rate && BucketOf(f).burst == plan.EffectiveBurst()
  }

  ghost predicate Able(plan: FaultPlan, r: Relay, t: Time) {
    var able := FlowsInv(r, t) && Tuned(plan, r.flows.client) && Tuned(plan, r.flows.upstream);
    able
  }

  lemma TunedIsHardy(plan: FaultPlan, f: Flow, t: Time)
    requires Sustains(plan) && Tuned(plan, f) && FlowInv(f, t)
    ensures Hardy(f) && Metered(f)
  {
  }

  lemma StillAble(plan: FaultPlan, r: Relay, s: Relay, t: Time, now: Time)
    requires Able(plan, r, t) && SameSettings(r, s) && FlowsInv(s, now)
    ensures Able(plan, s, now)
  {
  }

  lemma LaterAble(plan: FaultPlan, r: Relay, t: Time, now: Time)
    requires Able(plan, r, t) && t <= now
    ensures Able(plan, r, now)
  {
    LaterInv(r.flows.client, t, now);
    LaterInv(r.flows.upstream, t, now);
  }

  lemma NewIsAble(config: RelayConfig, plan: FaultPlan, r: Relay, id: bv64, connecting: bool, wire: Wire, now: Time)
    requires config.Valid() && plan.Valid() && r == NewRelay(config, plan, id, connecting, wire, now)
    ensures Able(plan, r, now)
  {
    NewRelayInv(config, plan, id, connecting, wire, now);
  }

  // ---- Bytes leave, or the direction grows ----

  ghost predicate Advances(f: Flow, g: Flow, at: Time) {
    |f.sent| <= |g.sent| && (|g.sent| == |f.sent| ==> Grown(f, g, at))
  }

  lemma AdvancesThrough(f: Flow, g: Flow, h: Flow, at: Time, later: Time)
    requires Advances(f, g, at) && Advances(g, h, later) && at <= later
    ensures Advances(f, h, later)
  {
    if |h.sent| == |f.sent| {
      GrownThrough(f, g, h, at, later);
    }
  }

  lemma LookAdvances(plan: FaultPlan, f: Flow, now: Time)
    requires Sustains(plan) && Tuned(plan, f) && FlowInv(f, now)
    ensures Advances(f, SettleFlow(f, now), now)
  {
    TunedIsHardy(plan, f, now);
    HardyNow(f, now);
    LookGrows(f, now);
  }

  /** A round of writing sends, or is a mere look. */
  lemma SendAdvances(plan: FaultPlan, f: Flow, sends: seq<SendAnswer>, now: Time)
    requires Sustains(plan) && Tuned(plan, f) && FlowInv(f, now)
    ensures Advances(f, FlowAfterSend(f, sends, now), now)
  {
    GrownFromItself(f, now);
    LookAdvances(plan, f, now);
    var budget := Budget(f.lane.fault, f.lane.Contiguous(), now);
    var result := Sending(sends, budget);
    if f.lane.queue != [] && budget > 0 && result.Transferred? {
      BudgetIsTakable(f.lane.fault, f.lane.Contiguous(), result.bytes, now);
      assert |FlowAfterSend(f, sends, now).sent| == |f.sent| + result.bytes;
    }
  }

  // ---- Both directions of a relay ----

  ghost predicate AllAdvance(r: Relay, s: Relay, at: Time) {
    var advance := Advances(r.flows.client, s.flows.client, at) && Advances(r.flows.upstream, s.flows.upstream, at);
    advance
  }

  /** What becomes of an able relay at `now`. */
  ghost predicate Leads(plan: FaultPlan, r: Relay, s: Relay, now: Time) {
    var leads := Able(plan, s, now) && AllAdvance(r, s, now);
    leads
  }

  lemma LeadsNowhere(plan: FaultPlan, r: Relay, s: Relay, now: Time)
    requires Able(plan, r, now) && s.flows == r.flows
    ensures Leads(plan, r, s, now)
  {
    GrownFromItself(r.flows.client, now);
    GrownFromItself(r.flows.upstream, now);
  }

  lemma LeadsOn(plan: FaultPlan, r: Relay, s: Relay, u: Relay, now: Time)
    requires Leads(plan, r, s, now) && Leads(plan, s, u, now)
    ensures Leads(plan, r, u, now)
  {
    AdvancesThrough(r.flows.client, s.flows.client, u.flows.client, now, now);
    AdvancesThrough(r.flows.upstream, s.flows.upstream, u.flows.upstream, now, now);
  }

  /** One direction advances. */
  lemma OneLeads(plan: FaultPlan, r: Relay, s: Relay, side: Side, f: Flow, now: Time)
    requires Able(plan, r, now) && SameSettings(r, s) && FlowsInv(s, now)
    requires s.flows == r.flows.Put(side, f) && Advances(r.flows.At(side), f, now)
    ensures Leads(plan, r, s, now)
  {
    StillAble(plan, r, s, now, now);
    GrownFromItself(r.flows.At(side.Other()), now);
  }

  // ---- Every operation ----

  lemma ReadOnceLeads(plan: FaultPlan, r: Relay, source: Side, hangup: bool, now: Time)
    requires Able(plan, r, now)
    ensures Leads(plan, r, ReadOnce(r, source, hangup, now).relay, now)
  {
    var s := ReadOnce(r, source, hangup, now).relay;
    if s.flows == r.flows {
      LeadsNowhere(plan, r, s, now);
    } else {
      var f := r.flows.At(source);
      var (_, data) := Receiving(r.wire.receives, ReadSpan(f.lane));
      ReadSpanIsRoom(f.lane);
      ArrivalGrows(f, data, now);
      ReadOnceFlows(r, source, hangup, now);
      ReadOnceSettings(r, source, hangup, now);
      OneLeads(plan, r, s, source, Ingress(f, data, now), now);
    }
  }

  lemma {:induction false} ReadLeads(plan: FaultPlan, r: Relay, source: Side, hangup: bool, now: Time)
    requires Able(plan, r, now)
    ensures Leads(plan, r, HandleReadable(r, source, hangup, now).0, now)
    decreases |r.wire.receives|
  {
    ReadOnceLeads(plan, r, source, hangup, now);
    var step := ReadOnce(r, source, hangup, now);
    if step.Again? {
      ReadLeads(plan, step.relay, source, hangup, now);
      LeadsOn(plan, r, step.relay, HandleReadable(r, source, hangup, now).0, now);
    }
  }

  lemma FlushOnceLeads(plan: FaultPlan, r: Relay, destination: Side, now: Time)
    requires Sustains(plan) && Able(plan, r, now)
    ensures Leads(plan, r, FlushOnce(r, destination, now).relay, now)
  {
    var f := r.FlowTo(destination);
    SendAdvances(plan, f, r.wire.sends, now);
    FlushOnceFlow(r, destination, now);
    FlushOnceFlows(r, destination, now);
    FlushOnceSettings(r, destination, now);
    OneLeads(plan, r, FlushOnce(r, destination, now).relay, destination.Other(),
             FlowAfterSend(f, r.wire.sends, now), now);
  }

  lemma {:induction false} FlushLoopLeads(plan: FaultPlan, r: Relay, destination: Side, now: Time)
    requires Sustains(plan) && Able(plan, r, now)
    ensures Leads(plan, r, FlushLoop(r, destination, now).0, now)
    decreases |r.wire.sends|
  {
    FlushOnceLeads(plan, r, destination, now);
    var step := FlushOnce(r, destination, now);
    if step.Again? {
      FlushLoopLeads(plan, step.relay, destination, now);
      LeadsOn(plan, r, step.relay, FlushLoop(r, destination, now).0, now);
    }
  }

  lemma FlushLeads(plan: FaultPlan, r: Relay, destination: Side, now: Time)
    requires Sustains(plan) && Able(plan, r, now)
    ensures Leads(plan, r, Flush(r, destination, now).0, now)
  {
    if r.Writable(destination) {
      FlushLoopLeads(plan, r, destination, now);
      var (s, result) := FlushLoop(r, destination, now);
      LeadsNowhere(plan, s, CheckLifecycle(s).0, now);
      LeadsOn(plan, r, s, Flush(r, destination, now).0, now);
    } else {
      LeadsNowhere(plan, r, r, now);
    }
  }

  lemma SettleLeads(plan: FaultPlan, r: Relay, destination: Side, now: Time)
    requires Sustains(plan) && Able(plan, r, now)
    ensures Leads(plan, r, SettleTo(r, destination, now), now)
  {
    var f := r.FlowTo(destination);
    LookAdvances(plan, f, now);
    SettleKeeps(f, now);
    SettleSettings(r, destination, now);
    PutFlow(r, SettleTo(r, destination, now), destination.Other(), SettleFlow(f, now), now);
    OneLeads(plan, r, SettleTo(r, destination, now), destination.Other(), SettleFlow(f, now), now);
  }

  lemma AskingLeads(plan: FaultPlan, r: Relay, side: Side, now: Time)
    requires Sustains(plan) && Able(plan, r, now)
    ensures Leads(plan, r, NextWake(r, side, now).0, now) && Leads(plan, r, DesiredInterest(r, side, now).0, now)
  {
    SettleLeads(plan, r, side, now);
    LeadsNowhere(plan, r, r, now);
  }

  // ---- What a wake that finds nothing has cost ----

  ghost predicate TimeBlocked(r: Relay, destination: Side, now: Time) {
    NextWake(r, destination, now).1.Some?
  }

  ghost predicate AskedIfBlocked(r: Relay, destination: Side, now: Time) {
    TimeBlocked(r, destination, now) ==> Asked(r.FlowTo(destination), now)
  }

  /** Every direction that is blocked on time has just been asked. */
  ghost predicate JustAsked(r: Relay, now: Time) {
    var asked := AskedIfBlocked(r, Client, now) && AskedIfBlocked(r, Upstream, now);
    asked
  }

  lemma AskingAsks(r: Relay, destination: Side, now: Time)
    requires FlowsInv(r, now)
    ensures AskedIfBlocked(NextWake(r, destination, now).0, destination, now)
  {
    SettledIsAsked(r.FlowTo(destination), now);
  }

  lemma StillAsked(r: Relay, destination: Side, now: Time)
    requires AskedIfBlocked(r, destination.Other(), now)
    ensures AskedIfBlocked(NextWake(r, destination, now).0, destination.Other(), now)
  {
  }

  ghost function QuantumTo(r: Relay, destination: Side, now: Time): nat {
    QuantumNow(r.FlowTo(destination), now)
  }

  lemma BlockedFlow(plan: FaultPlan, r: Relay, destination: Side, t: Time)
    requires Able(plan, r, t) && TimeBlocked(r, destination, t)
    ensures var f := r.FlowTo(destination);
            && FlowInv(f, t) && f.lane.queue != [] && BudgetNow(f, t) == 0
            && WakeNow(f, t) == NextWake(r, destination, t).1 && WakeNow(f, t).value > t
            && (Limited(f) ==> QuantumNow(f, t) <= LargestQuantum(plan.EffectiveBurst()))
  {
    SocketXorTime(r.FlowTo(destination), t);
  }

  /** If a direction blocked on time has sent nothing by a look at or after its wake, and is blocked
      on time again, then it is limited, and what it waits for has become larger. */
  lemma VainWake(plan: FaultPlan, r: Relay, t: Time, s: Relay, now: Time, destination: Side)
    requires Able(plan, r, t) && JustAsked(r, t) && TimeBlocked(r, destination, t)
    requires Able(plan, s, now) && JustAsked(s, now) && TimeBlocked(s, destination, now)
    requires AllAdvance(r, s, now) && |s.FlowTo(destination).sent| == |r.FlowTo(destination).sent|
    requires now >= NextWake(r, destination, t).1.value
    ensures Limited(r.FlowTo(destination)) && QuantumTo(r, destination, t) < QuantumTo(s, destination, now)
  {
    BlockedFlow(plan, r, destination, t);
    BlockedFlow(plan, s, destination, now);
    FruitlessMeansLarger(r.FlowTo(destination), s.FlowTo(destination), t, now);
  }
}
