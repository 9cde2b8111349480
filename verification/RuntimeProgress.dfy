/** Progress in every run of the event loop: a live connection's direction that is blocked on time is
    pumped when its wake has come, and soon one of those pumps has something to send. */
module RuntimeProgress {
  import opened Basics
  import opened Flows
  import opened Waiting
  import opened RelayModel
  import opened RelayInvariant
  import opened TimerQueues
  import opened RuntimeModel
  import opened RuntimeInvariant
  import opened Runs = RuntimeRuns
  import opened Progress

  // ---- One connection ----

  ghost predicate ConnAble(plan: FaultPlan, c: Conn) {
    var able := Able(plan, c.relay, c.pumpedAt) && JustAsked(c.relay, c.pumpedAt);
    able
  }

  /** The connection is as it was, or was last pumped at `now`, its directions having advanced. */
  ghost predicate Carried(c: Conn, d: Conn, now: Time) {
    var carried := d == c || (c.pumpedAt <= d.pumpedAt == now && AllAdvance(c.relay, d.relay, now));
    carried
  }

  /** The connection as a pump that does not close it leaves it. */
  function Pumped(c: Conn, now: Time): Conn {
    var (r, _) := FlushBoth(c.relay, now);
    Scheduled(Refreshed(c.(relay := PropagateHalfCloses(r), pumpedAt := now), now), now)
  }

  lemma FlushBothLeads(plan: FaultPlan, r: Relay, now: Time)
    requires Sustains(plan) && Able(plan, r, now)
    ensures Leads(plan, r, FlushBoth(r, now).0, now)
  {
    LeadsNowhere(plan, r, r, now);
    if !r.connecting {
      FlushLeads(plan, r, Upstream, now);
      var (r1, result) := Flush(r, Upstream, now);
      if result.Continue? {
        FlushLeads(plan, r1, Client, now);
        LeadsOn(plan, r, r1, Flush(r1, Client, now).0, now);
      }
    }
  }

  lemma RefreshedLeads(plan: FaultPlan, c: Conn, now: Time)
    requires Sustains(plan) && Able(plan, c.relay, now)
    ensures Leads(plan, c.relay, Refreshed(c, now).relay, now) && Refreshed(c, now).pumpedAt == c.pumpedAt
  {
    AskingLeads(plan, c.relay, Client, now);
    var c1 := WithInterest(c, Client, now);
    AskingLeads(plan, c1.relay, Upstream, now);
    LeadsOn(plan, c.relay, c1.relay, Refreshed(c, now).relay, now);
  }

  lemma WakeOfBothLeads(plan: FaultPlan, r: Relay, now: Time)
    requires Sustains(plan) && Able(plan, r, now)
    ensures var s := WakeOfBoth(r, now).0;
            Leads(plan, r, s, now) && JustAsked(s, now)
  {
    AskingLeads(plan, r, Upstream, now);
    var r1 := NextWake(r, Upstream, now).0;
    AskingLeads(plan, r1, Client, now);
    LeadsOn(plan, r, r1, WakeOfBoth(r, now).0, now);
    AskingAsks(r, Upstream, now);
    StillAsked(r1, Client, now);
    AskingAsks(r1, Client, now);
  }

  lemma PumpedLeads(plan: FaultPlan, c: Conn, now: Time)
    requires Sustains(plan) && Able(plan, c.relay, now)
    ensures var d := Pumped(c, now);
            ConnAble(plan, d) && d.pumpedAt == now && Leads(plan, c.relay, d.relay, now)
  {
    FlushBothLeads(plan, c.relay, now);
    var (r, _) := FlushBoth(c.relay, now);
    var s := PropagateHalfCloses(r);
    PropagateFrame(r);
    LeadsNowhere(plan, r, s, now);
    LeadsOn(plan, c.relay, r, s, now);
    var c1 := c.(relay := s, pumpedAt := now);
    RefreshedLeads(plan, c1, now);
    var c2 := Refreshed(c1, now);
    LeadsOn(plan, c.relay, s, c2.relay, now);
    WakeOfBothLeads(plan, c2.relay, now);
    LeadsOn(plan, c.relay, c2.relay, Pumped(c, now).relay, now);
  }

  // ---- The table ----

  ghost predicate FitTable(plan: FaultPlan, conns: map<nat, Conn>, nextId: nat, t: Time) {
    forall id :: id in conns ==> id < nextId && conns[id].pumpedAt <= t && ConnAble(plan, conns[id])
  }

  /** From `a` to `b`, connections below `nextId` have been carried on or closed. */
  ghost predicate CarriedTable(a: map<nat, Conn>, b: map<nat, Conn>, nextId: nat, now: Time) {
    forall id :: id in b && id < nextId ==> id in a && Carried(a[id], b[id], now)
  }

  ghost predicate Fit(rt: Runtime, t: Time) {
    var fit := FitTable(rt.config.plan, rt.conns, rt.nextId, t);
    fit
  }

  /** From `rt` to `s`, connections have been carried on, closed, or newly accepted. */
  ghost predicate Moves(rt: Runtime, s: Runtime, now: Time) {
    var moves := s.config == rt.config && rt.nextId <= s.nextId && CarriedTable(rt.conns, s.conns, rt.nextId, now);
    moves
  }

  lemma PutFits(plan: FaultPlan, conns: map<nat, Conn>, nextId: nat, id: nat, d: Conn, later: nat, t: Time, now: Time)
    requires FitTable(plan, conns, nextId, t) && t <= now && id < later && nextId <= later
    requires ConnAble(plan, d) && d.pumpedAt <= now
    ensures FitTable(plan, conns[id := d], later, now)
  {
  }

  lemma PutCarried(conns: map<nat, Conn>, nextId: nat, id: nat, d: Conn, now: Time)
    requires id < nextId ==> id in conns && Carried(conns[id], d, now)
    ensures CarriedTable(conns, conns[id := d], nextId, now)
  {
  }

  lemma CarriedOn(c: Conn, d: Conn, e: Conn, now: Time)
    requires Carried(c, d, now) && Carried(d, e, now)
    ensures Carried(c, e, now)
  {
    if d != c && e != d {
      AdvancesThrough(c.relay.flows.client, d.relay.flows.client, e.relay.flows.client, now, now);
      AdvancesThrough(c.relay.flows.upstream, d.relay.flows.upstream, e.relay.flows.upstream, now, now);
    }
  }

  lemma MovesOn(rt: Runtime, m: Runtime, s: Runtime, now: Time)
    requires Moves(rt, m, now) && Moves(m, s, now)
    ensures Moves(rt, s, now)
  {
    forall id | id in s.conns && id < rt.nextId
      ensures id in rt.conns && Carried(rt.conns[id], s.conns[id], now)
    {
      CarriedOn(rt.conns[id], m.conns[id], s.conns[id], now);
    }
  }

  lemma SameMoves(rt: Runtime, s: Runtime, t: Time, now: Time)
    requires Fit(rt, t) && t <= now && s.config == rt.config && s.nextId == rt.nextId && s.conns == rt.conns
    ensures Fit(s, now) && Moves(rt, s, now)
  {
  }

  lemma GoneMoves(rt: Runtime, s: Runtime, id: nat, t: Time, now: Time)
    requires Fit(rt, t) && t <= now && s.config == rt.config && s.nextId == rt.nextId && s.conns == rt.conns - {id}
    ensures Fit(s, now) && Moves(rt, s, now)
  {
  }

  lemma CloseMoves(rt: Runtime, id: nat, c: Conn, final: ConnectionState, t: Time, now: Time)
    requires Fit(rt, t) && t <= now && id in rt.conns
    ensures var s := CloseConnection(PutConn(rt, id, c), id, final, now);
            Fit(s, now) && Moves(rt, s, now)
  {
    assert rt.conns[id := c] - {id} == rt.conns - {id};
    GoneMoves(rt, CloseConnection(PutConn(rt, id, c), id, final, now), id, t, now);
  }

  lemma OneMoves(rt: Runtime, s: Runtime, id: nat, d: Conn, t: Time, now: Time)
    requires Fit(rt, t) && t <= now && s.config == rt.config && s.nextId == rt.nextId
    requires id in rt.conns && s.conns == rt.conns[id := d]
    requires ConnAble(rt.config.plan, d) && Carried(rt.conns[id], d, now) && d.pumpedAt == now
    ensures Fit(s, now) && Moves(rt, s, now)
  {
    PutFits(rt.config.plan, rt.conns, rt.nextId, id, d, rt.nextId, t, now);
    PutCarried(rt.conns, rt.nextId, id, d, now);
  }

  // ---- Every step ----

  lemma PumpIs(rt: Runtime, id: nat, now: Time)
    requires id in rt.conns
    ensures var s := PumpConnection(rt, id, now);
            && s.config == rt.config && s.nextId == rt.nextId
            && (s.conns == rt.conns - {id} || s.conns == rt.conns[id := Pumped(rt.conns[id], now)])
  {
    var c := rt.conns[id];
    var (r1, result) := FlushBoth(c.relay, now);
    if result.Continue? {
      var rt2 := PutConn(rt, id, c.(relay := PropagateHalfCloses(r1), pumpedAt := now));
      var rt3 := RefreshOrClose(rt2, id, now);
      if id in rt3.conns {
        ScheduleIsPut(rt3, id, now);
      }
    }
  }

  lemma PumpCarries(plan: FaultPlan, c: Conn, d: Conn, now: Time)
    requires Sustains(plan) && Leads(plan, c.relay, d.relay, now) && c.pumpedAt <= now
    ensures ConnAble(plan, Pumped(d, now)) && Carried(c, Pumped(d, now), now) && Pumped(d, now).pumpedAt == now
  {
    PumpedLeads(plan, d, now);
    LeadsOn(plan, c.relay, d.relay, Pumped(d, now).relay, now);
  }

  lemma PumpPutIs(rt: Runtime, id: nat, c: Conn, now: Time)
    requires id in rt.conns
    ensures var s := PumpConnection(PutConn(rt, id, c), id, now);
            && s.config == rt.config && s.nextId == rt.nextId
            && (s.conns == rt.conns - {id} || s.conns == rt.conns[id := Pumped(c, now)])
  {
    PumpIs(PutConn(rt, id, c), id, now);
    assert rt.conns[id := c] - {id} == rt.conns - {id};
  }

  /** A connection that has become `c` is pumped. */
  lemma PumpMoves(rt: Runtime, id: nat, c: Conn, t: Time, now: Time)
    requires Sustains(rt.config.plan) && Fit(rt, t) && t <= now && id in rt.conns
    requires Leads(rt.config.plan, rt.conns[id].relay, c.relay, now)
    ensures var s := PumpConnection(PutConn(rt, id, c), id, now);
            Fit(s, now) && Moves(rt, s, now)
  {
    var s := PumpConnection(PutConn(rt, id, c), id, now);
    PumpPutIs(rt, id, c, now);
    FitLeads(rt, id, t, now);
    PumpCarries(rt.config.plan, rt.conns[id], c, now);
    if s.conns == rt.conns - {id} {
      GoneMoves(rt, s, id, t, now);
    } else {
      OneMoves(rt, s, id, Pumped(c, now), t, now);
    }
  }

  lemma FitLeads(rt: Runtime, id: nat, t: Time, now: Time)
    requires Fit(rt, t) && t <= now && id in rt.conns
    ensures Able(rt.config.plan, rt.conns[id].relay, now)
    ensures Leads(rt.config.plan, rt.conns[id].relay, rt.conns[id].relay, now) && rt.conns[id].pumpedAt <= now
  {
    var r := rt.conns[id].relay;
    LaterAble(rt.config.plan, r, rt.conns[id].pumpedAt, now);
    LeadsNowhere(rt.config.plan, r, r, now);
  }

  lemma EventMoves(rt: Runtime, e: TimerEvent, t: Time, now: Time)
    requires Sustains(rt.config.plan) && Fit(rt, t) && t <= now
    ensures Fit(ProcessEvent(rt, e, now), now) && Moves(rt, ProcessEvent(rt, e, now), now)
  {
    if e.id in rt.conns {
      ProcessEventIs(rt, e, now);
      if e.kind.Pump? {
        FitLeads(rt, e.id, t, now);
        PumpMoves(rt, e.id, Woken(rt.conns[e.id], now), t, now);
      } else {
        PutSame(rt, e.id);
        CloseMoves(rt, e.id, rt.conns[e.id], TimedOut, t, now);
        if ProcessEvent(rt, e, now) != CloseConnection(rt, e.id, TimedOut, now) {
          SameMoves(rt, ProcessEvent(rt, e, now), t, now);
        }
      }
    } else {
      SameMoves(rt, rt, t, now);
    }
  }

  lemma {:induction false} DrainMoves(rt: Runtime, t: Time, now: Time)
    requires Sustains(rt.config.plan) && Fit(rt, t) && t <= now
    ensures Fit(Drain(rt, now), now) && Moves(rt, Drain(rt, now), now)
    decreases Due(rt.timers, now)
  {
    var (ts, popped) := PopDue(rt.timers, now);
    if popped.None? {
      SameMoves(rt, rt, t, now);
    } else {
      DrainProgress(rt, now);
      var rt1 := rt.(timers := ts);
      SameMoves(rt, rt1, t, now);
      EventMoves(rt1, popped.value, now, now);
      var m := ProcessEvent(rt1, popped.value, now);
      DrainMoves(m, now, now);
      MovesOn(rt, rt1, m, now);
      MovesOn(rt, m, Drain(m, now), now);
    }
  }

  lemma ServeMoves(rt: Runtime, id: nat, side: Side, r: Relay, ready: Readiness, t: Time, now: Time)
    requires Sustains(rt.config.plan) && Fit(rt, t) && t <= now && id in rt.conns
    requires Leads(rt.config.plan, rt.conns[id].relay, r, now)
    ensures var s := ServeSocket(rt, id, side, r, ready, now);
            Fit(s, now) && Moves(rt, s, now)
  {
    var c := rt.conns[id];
    var (r1, result) := ReadIfReady(r, side, ready, now);
    if Failing(r, ready) {
      CloseMoves(rt, id, c.(relay := r), FailureOf(ready), t, now);
    } else if result.Close? {
      CloseMoves(rt, id, c.(relay := r1), result.final, t, now);
    } else {
      ServeSocketReads(rt, id, side, r, ready, now);
      LeadsNowhere(rt.config.plan, r, r, now);
      ReadLeads(rt.config.plan, r, side, ready.readHangup || ready.hangup, now);
      LeadsOn(rt.config.plan, c.relay, r, r1, now);
      PumpMoves(rt, id, c.(relay := r1), t, now);
    }
  }

  lemma SocketMoves(rt: Runtime, token: nat, ready: Readiness, t: Time, now: Time)
    requires Sustains(rt.config.plan) && Fit(rt, t) && t <= now
    ensures Fit(SocketReady(rt, token, ready, now), now) && Moves(rt, SocketReady(rt, token, ready, now), now)
  {
    if token in rt.bindings && rt.bindings[token].id in rt.conns {
      var id, side := rt.bindings[token].id, rt.bindings[token].side;
      var r := rt.conns[id].relay;
      FitLeads(rt, id, t, now);
      LeadsNowhere(rt.config.plan, r, MarkConnected(r), now);
      if side.Upstream? && r.connecting && ready.writable {
        if ready.connectFailed {
          PutSame(rt, id);
          CloseMoves(rt, id, rt.conns[id], Failed, t, now);
        } else {
          ServeMoves(rt, id, side, MarkConnected(r), ready, t, now);
        }
      } else {
        ServeMoves(rt, id, side, r, ready, t, now);
      }
    } else {
      SameMoves(rt, rt, t, now);
    }
  }

  lemma NoFaultsAble(plan: FaultPlan, r: Relay, t: Time)
    requires Able(NO_FAULTS, r, t)
    ensures Able(plan, r, t)
  {
  }

  lemma NewConnAble(config: RuntimeConfig, id: nat, token: nat, offer: Offer)
    requires config.Valid()
    ensures ConnAble(config.plan, NewConn(config, id, token, offer))
    ensures NewConn(config, id, token, offer).pumpedAt == offer.now
  {
    var c := NewConn(config, id, token, offer);
    NewIsAble(config.relay, if offer.faulty then config.plan else NO_FAULTS,
              c.relay, SeedId(id), offer.connecting, offer.wire, offer.now);
    if !offer.faulty {
      NoFaultsAble(config.plan, c.relay, offer.now);
    }
  }

  lemma EnterMoves(rt: Runtime, c: Conn, offer: Offer, t: Time, now: Time)
    requires Fit(rt, t) && t <= offer.now <= now
    requires ConnAble(rt.config.plan, c) && c.pumpedAt == offer.now
    ensures Fit(Enter(rt, c, offer), offer.now) && Moves(rt, Enter(rt, c, offer), now)
  {
    PutFits(rt.config.plan, rt.conns, rt.nextId, rt.nextId, c, rt.nextId + 1, t, offer.now);
    PutCarried(rt.conns, rt.nextId, rt.nextId, c, now);
  }

  lemma AcceptOneMoves(rt: Runtime, offer: Offer, t: Time, now: Time)
    requires rt.config.Valid() && Fit(rt, t) && t <= offer.now <= now
    ensures Fit(AcceptOne(rt, offer), offer.now) && Moves(rt, AcceptOne(rt, offer), now)
  {
    NewConnAble(rt.config, rt.nextId, rt.nextToken, offer);
    EnterMoves(rt, NewConn(rt.config, rt.nextId, rt.nextToken, offer), offer, t, now);
    SameMoves(rt, rt, t, offer.now);
    SameMoves(rt, rt, t, now);
  }

  lemma {:induction false} AcceptMoves(rt: Runtime, offers: seq<Offer>, t: Time, now: Time)
    requires rt.config.Valid() && Fit(rt, t) && OffersOrdered(offers, t, now)
    ensures Fit(AcceptReady(rt, offers), now) && Moves(rt, AcceptReady(rt, offers), now)
    decreases |offers|
  {
    if offers == [] {
      SameMoves(rt, rt, t, now);
    } else {
      OffersEnd(offers[1..], offers[0].now, now);
      AcceptOneMoves(rt, offers[0], t, now);
      AcceptMoves(AcceptOne(rt, offers[0]), offers[1..], offers[0].now, now);
      MovesOn(rt, AcceptOne(rt, offers[0]), AcceptReady(rt, offers), now);
    }
  }

  lemma {:induction false} OffersEnd(offers: seq<Offer>, from: Time, to: Time)
    requires OffersOrdered(offers, from, to)
    ensures from <= to
    decreases |offers|
  {
    if offers != [] {
      OffersEnd(offers[1..], offers[0].now, to);
    }
  }

  ghost function StepTime(step: Runs.Step, to: Time): Time {
    if step.Handling? then step.event.now else to
  }

  lemma FitLater(rt: Runtime, t: Time, now: Time)
    requires Fit(rt, t) && t <= now
    ensures Fit(rt, now)
  {
  }

  /** Every step carries every connection on. */
  lemma StepMoves(rt: Runtime, step: Runs.Step, t: Time, to: Time)
    requires rt.config.Valid() && Sustains(rt.config.plan) && Fit(rt, t) && Happens(step, t, to)
    ensures Fit(Runs.Take(rt, step), to) && Moves(rt, Runs.Take(rt, step), StepTime(step, to))
  {
    match step
    case Arming(settable) => SameMoves(rt, Runs.Take(rt, step), t, to);
    case Handling(event) =>
      match event {
        case ListenerReady(offers, now) =>
          AcceptMoves(rt, offers, t, now);
        case TimerReady(now) =>
          var rt1 := rt.(fd := ReadTimerFd(rt.fd), lastArmed := None);
          TimerReadyIs(rt, now);
          SameMoves(rt, rt1, t, now);
          DrainMoves(rt1, now, now);
          MovesOn(rt, rt1, Runs.Take(rt, step), now);
        case SocketEvent(token, ready, now) =>
          SocketMoves(rt, token, ready, t, now);
        case ClockMoves(now) => SameMoves(rt, Runs.Take(rt, step), t, now);
      }
      FitLater(Runs.Take(rt, step), event.now, to);
  }

  lemma {:induction false} RunFits(rt: Runtime, moments: seq<Moment>, t: Time, to: Time)
    requires rt.config.Valid() && Sustains(rt.config.plan) && Fit(rt, t) && RunOf(moments, t, to)
    ensures Fit(TakeAll(rt, moments), to) && TakeAll(rt, moments).config == rt.config
    decreases |moments|
  {
    if moments == [] {
      FitLater(rt, t, to);
    } else {
      StepMoves(rt, moments[0].step, t, moments[0].at);
      StepOnlyNew(rt, moments[0].step);
      RunFits(Runs.Take(rt, moments[0].step), moments[1..], moments[0].at, to);
    }
  }

  lemma ReachableFits(config: RuntimeConfig, rt: Runtime, t: Time)
    requires Reachable(config, rt, t) && Sustains(config.plan)
    ensures Fit(rt, t) && rt.config == config
  {
    var moments :| RunOf(moments, 0, t) && rt == TakeAll(NewRuntime(config), moments);
    RunFits(NewRuntime(config), moments, 0, t);
  }

  // ---- Waiting on time, along a run ----

  /** A live connection whose direction to `destination` was blocked on time when it was last pumped. */
  ghost predicate WaitsOnTime(rt: Runtime, id: nat, destination: Side) {
    var waits := id in rt.conns && TimeBlocked(rt.conns[id].relay, destination, rt.conns[id].pumpedAt);
    waits
  }

  ghost function WakeAt(rt: Runtime, id: nat, destination: Side): Time
    requires WaitsOnTime(rt, id, destination)
  {
    NextWake(rt.conns[id].relay, destination, rt.conns[id].pumpedAt).1.value
  }

  ghost function SentTo(rt: Runtime, id: nat, destination: Side): nat
    requires id in rt.conns
  {
    |rt.conns[id].relay.FlowTo(destination).sent|
  }

  /** All along the run the direction waits on time, and nothing leaves it. */
  ghost predicate KeepsWaiting(rt: Runtime, moments: seq<Moment>, id: nat, destination: Side)
    requires rt.config.Valid()
    decreases |moments|
  {
    && WaitsOnTime(rt, id, destination)
    && (moments != [] ==>
          (StepOnlyNew(rt, moments[0].step);
           var s := Runs.Take(rt, moments[0].step);
           && WaitsOnTime(s, id, destination) && SentTo(s, id, destination) == SentTo(rt, id, destination)
           && KeepsWaiting(s, moments[1..], id, destination)))
  }

  /** How often along the run the connection is pumped with its wake reached; each time the wake is
      renewed. */
  ghost function VainPumps(rt: Runtime, moments: seq<Moment>, id: nat, destination: Side, wake: Time): nat
    requires rt.config.Valid() && KeepsWaiting(rt, moments, id, destination)
    decreases |moments|
  {
    if moments == [] then 0
    else
      StepOnlyNew(rt, moments[0].step);
      var s := Runs.Take(rt, moments[0].step);
      if s.conns[id].pumpedAt >= wake then 1 + VainPumps(s, moments[1..], id, destination, WakeAt(s, id, destination))
      else VainPumps(s, moments[1..], id, destination, wake)
  }

  /** What the connection `c` waits for, and the pumps in vain to come, are bounded together. */
  ghost predicate Within(plan: FaultPlan, c: Conn, destination: Side, pumps: nat) {
    var within :=
      if Limited(c.relay.FlowTo(destination)) then
        pumps + QuantumTo(c.relay, destination, c.pumpedAt) <= LargestQuantum(plan.EffectiveBurst())
      else pumps == 0;
    within
  }

  lemma NoPumpsWithin(plan: FaultPlan, c: Conn, destination: Side)
    requires ConnAble(plan, c) && TimeBlocked(c.relay, destination, c.pumpedAt)
    ensures Within(plan, c, destination, 0)
  {
    BlockedFlow(plan, c.relay, destination, c.pumpedAt);
  }

  lemma OnePumpWithin(plan: FaultPlan, c: Conn, d: Conn, destination: Side, more: nat)
    requires ConnAble(plan, c) && ConnAble(plan, d) && StillWaits(c, d, destination)
    requires TimeBlocked(d.relay, destination, d.pumpedAt)
    requires d.pumpedAt >= NextWake(c.relay, destination, c.pumpedAt).1.value
    requires Within(plan, d, destination, more)
    ensures Within(plan, c, destination, 1 + more)
  {
    VainWake(plan, c.relay, c.pumpedAt, d.relay, d.pumpedAt, destination);
    assert Limited(d.relay.FlowTo(destination));
  }

  /** From `c`, nothing has left the direction, whose wake has not been reached. */
  ghost predicate StillWaits(c: Conn, d: Conn, destination: Side) {
    var waits :=
      && TimeBlocked(c.relay, destination, c.pumpedAt) && c.pumpedAt <= d.pumpedAt
      && AllAdvance(c.relay, d.relay, d.pumpedAt)
      && |d.relay.FlowTo(destination).sent| == |c.relay.FlowTo(destination).sent|;
    waits
  }

  lemma WaitsOn(c: Conn, d: Conn, e: Conn, destination: Side, now: Time)
    requires StillWaits(c, d, destination) && Carried(d, e, now)
    requires |e.relay.FlowTo(destination).sent| == |d.relay.FlowTo(destination).sent|
    ensures StillWaits(c, e, destination)
  {
    if e != d {
      AdvancesThrough(c.relay.flows.client, d.relay.flows.client, e.relay.flows.client, d.pumpedAt, now);
      AdvancesThrough(c.relay.flows.upstream, d.relay.flows.upstream, e.relay.flows.upstream, d.pumpedAt, now);
    }
  }

  lemma WaitsFromItself(plan: FaultPlan, c: Conn, destination: Side)
    requires ConnAble(plan, c) && TimeBlocked(c.relay, destination, c.pumpedAt)
    ensures StillWaits(c, c, destination)
  {
    LeadsNowhere(plan, c.relay, c.relay, c.pumpedAt);
  }

  lemma WaitStep(rt: Runtime, moments: seq<Moment>, t: Time, to: Time, id: nat, destination: Side, c: Conn)
    requires rt.config.Valid() && Sustains(rt.config.plan) && Fit(rt, t) && RunOf(moments, t, to)
    requires KeepsWaiting(rt, moments, id, destination) && StillWaits(c, rt.conns[id], destination)
    requires moments != []
    ensures var s := Runs.Take(rt, moments[0].step);
            && s.config == rt.config && Fit(s, moments[0].at)
            && KeepsWaiting(s, moments[1..], id, destination) && WaitsOnTime(s, id, destination)
            && ConnAble(rt.config.plan, s.conns[id]) && StillWaits(c, s.conns[id], destination)
  {
    var step, at := moments[0].step, moments[0].at;
    StepMoves(rt, step, t, at);
    StepOnlyNew(rt, step);
    WaitsOn(c, rt.conns[id], Runs.Take(rt, step).conns[id], destination, StepTime(step, at));
  }

  lemma {:induction false} VainPumpsWithin(
      rt: Runtime, moments: seq<Moment>, t: Time, to: Time, id: nat, destination: Side, c: Conn)
    requires rt.config.Valid() && Sustains(rt.config.plan) && Fit(rt, t) && RunOf(moments, t, to)
    requires KeepsWaiting(rt, moments, id, destination)
    requires ConnAble(rt.config.plan, c) && StillWaits(c, rt.conns[id], destination)
    ensures Within(rt.config.plan, c, destination,
                   VainPumps(rt, moments, id, destination, NextWake(c.relay, destination, c.pumpedAt).1.value))
    decreases |moments|
  {
    if moments == [] {
      NoPumpsWithin(rt.config.plan, c, destination);
    } else {
      var s, rest := Runs.Take(rt, moments[0].step), moments[1..];
      WaitStep(rt, moments, t, to, id, destination, c);
      var d := s.conns[id];
      if d.pumpedAt >= NextWake(c.relay, destination, c.pumpedAt).1.value {
        WaitsFromItself(rt.config.plan, d, destination);
        VainPumpsWithin(s, rest, moments[0].at, to, id, destination, d);
        var more := VainPumps(s, rest, id, destination, WakeAt(s, id, destination));
        OnePumpWithin(rt.config.plan, c, d, destination, more);
      } else {
        VainPumpsWithin(s, rest, moments[0].at, to, id, destination, c);
      }
    }
  }

  /** Under a plan that never starves, no run of the event loop stalls a direction on time: while it
      waits and nothing leaves it, at most min(burst, 4096) pumps find its wake reached, and none if
      only latency holds its bytes. The next such pump sends, leaves it waiting for its socket
      instead, or ends the wait for good. */
  lemma PumpsInVainAreBounded(
      config: RuntimeConfig, rt: Runtime, moments: seq<Moment>, t: Time, to: Time, id: nat, destination: Side)
    requires Reachable(config, rt, t) && RunOf(moments, t, to)
    requires config.plan.rate > 0 ==> NeverStarves(config.plan.rate, config.plan.EffectiveBurst())
    requires rt.config.Valid() && KeepsWaiting(rt, moments, id, destination)
    ensures var limited := Limited(rt.conns[id].relay.FlowTo(destination));
            VainPumps(rt, moments, id, destination, WakeAt(rt, id, destination))
            <= if limited then LargestQuantum(config.plan.EffectiveBurst()) else 0
  {
    ReachableFits(config, rt, t);
    WaitsFromItself(config.plan, rt.conns[id], destination);
    VainPumpsWithin(rt, moments, t, to, id, destination, rt.conns[id]);
  }

  // ---- The timer ends every wait ----

  /** Every connection left is as it was, or has been pumped at `now`. */
  ghost predicate Touched(a: map<nat, Conn>, b: map<nat, Conn>, now: Time) {
    forall id :: id in b ==> id in a && (b[id] == a[id] || b[id].pumpedAt == now)
  }

  lemma PumpedIsPumped(c: Conn, now: Time)
    ensures Pumped(c, now).pumpedAt == now
  {
  }

  lemma EventTouches(rt: Runtime, e: TimerEvent, now: Time)
    ensures Touched(rt.conns, ProcessEvent(rt, e, now).conns, now)
  {
    if e.id in rt.conns {
      ProcessEventIs(rt, e, now);
      PumpPutIs(rt, e.id, Woken(rt.conns[e.id], now), now);
      PumpedIsPumped(Woken(rt.conns[e.id], now), now);
    }
  }

  lemma {:induction false} DrainTouches(rt: Runtime, now: Time)
    ensures Touched(rt.conns, Drain(rt, now).conns, now)
    decreases Due(rt.timers, now)
  {
    var (ts, popped) := PopDue(rt.timers, now);
    if popped.Some? {
      DrainProgress(rt, now);
      EventTouches(rt.(timers := ts), popped.value, now);
      DrainTouches(ProcessEvent(rt.(timers := ts), popped.value, now), now);
    }
  }

  /** Handling the timer pumps every connection whose wake has come, if it does not close it. */
  lemma TimerPumps(config: RuntimeConfig, rt: Runtime, t: Time, now: Time, id: nat, destination: Side)
    requires Reachable(config, rt, t) && t <= now && rt.config.Valid()
    requires WaitsOnTime(rt, id, destination) && WakeAt(rt, id, destination) <= now
    ensures var s := HandleEvent(rt, TimerReady(now));
            id in s.conns ==> s.conns[id].pumpedAt == now
  {
    ReachableInOrder(config, rt, t);
    ProcessDueKeeps(rt, t, now);
    TimerReadyIs(rt, now);
    DrainTouches(rt.(fd := ReadTimerFd(rt.fd), lastArmed := None), now);
    var s := HandleEvent(rt, TimerReady(now));
    if id in s.conns && s.conns[id] == rt.conns[id] {
      InOrderLater(s, id, now, now);
      NoWakeDue(s, id, now, destination);
    }
  }

  lemma NoWakeDue(rt: Runtime, id: nat, now: Time, destination: Side)
    requires WaitsOnTime(rt, id, destination) && Due(rt.timers, now) == {}
    requires Covered(rt.conns[id]) && Timed(rt.config, rt.timers.events, id, rt.conns[id])
    ensures WakeAt(rt, id, destination) > now
  {
    assert forall e :: e in rt.timers.events ==> e !in Due(rt.timers, now);
  }
}
