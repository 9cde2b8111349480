/** What every step of the event loop keeps. The predicates here and elsewhere that name their
    conjunction (`var kept := ...; kept`) do so to be checked as one condition: Dafny would otherwise
    take each conjunct apart at every place where the predicate is to be shown. */
module RuntimeInvariant {
  import opened Basics
  import opened Pacing
  import opened RelayModel
  import opened RelayInvariant
  import opened TimerQueues
  import opened RuntimeModel

  // ---- Bookkeeping ----

  function TokenOf(id: nat, side: Side): nat {
    2 * id + if side.Client? then 2 else 3
  }

  /** The connection and side a token was handed out for. */
  function BindingOf(token: nat): Binding {
    Binding(if token < 2 then 0 else (token - 2) / 2, if token % 2 == 0 then Client else Upstream)
  }

  lemma TokenRoundTrip(id: nat, side: Side)
    ensures BindingOf(TokenOf(id, side)) == Binding(id, side)
  {
  }

  /** Connection ids and tokens are assigned in step and never reused. */
  ghost predicate Numbering(rt: Runtime) {
    var numbered :=
      && rt.nextId >= 1 && rt.nextToken == TokenOf(rt.nextId, Client)
      && forall id :: id in rt.conns ==>
           && 1 <= id < rt.nextId
           && rt.conns[id].clientToken == TokenOf(id, Client) && rt.conns[id].upstreamToken == TokenOf(id, Upstream);
    numbered
  }

  ghost function Tokens(conns: set<nat>): set<nat> {
    set id, side: Side | id in conns :: TokenOf(id, side)
  }

  /** The bindings of a set of live connections: their two tokens each, and no others. */
  ghost function BindingsOf(conns: set<nat>): map<nat, Binding> {
    map token | token in Tokens(conns) :: BindingOf(token)
  }

  /** Every accepted connection is live or has been counted as closed. */
  ghost predicate Tallied(rt: Runtime) {
    var tallied := rt.nextId - 1 == |rt.conns| + rt.closes.Total() && |rt.conns| <= rt.config.maxConnections;
    tallied
  }

  ghost predicate Booked(rt: Runtime) {
    var booked := Numbering(rt) && rt.bindings == BindingsOf(rt.conns.Keys) && Tallied(rt);
    booked
  }

  // ---- One connection and its timers ----

  /** The relay is sound at its last pump and no lifecycle fault is due. */
  ghost predicate Sound(c: Conn) {
    var sound := RelayInv(c.relay, c.pumpedAt) && NoFaultDue(c.relay);
    sound
  }

  /** The registered interest, and the wake scheduled, are those the relay wanted when pumped. */
  ghost predicate Covered(c: Conn) {
    var covered :=
      && c.clientMask == DesiredInterest(c.relay, Client, c.pumpedAt).1
      && c.upstreamMask == DesiredInterest(c.relay, Upstream, c.pumpedAt).1
      && forall destination: Side ::
           var wake := NextWake(c.relay, destination, c.pumpedAt).1;
           wake.Some? ==> c.scheduledWake.Some? && c.scheduledWake.value <= wake.value;
    covered
  }

  ghost predicate IdleEntry(config: RuntimeConfig, events: set<TimerEvent>, id: nat, c: Conn) {
    config.idleTimeout > 0 ==>
      && (exists e :: e in events && e.id == id && e.kind == IdleTimeout)
      && (forall e, f ::
            e in events && f in events && e.id == id && f.id == id && e.kind == IdleTimeout && f.kind == IdleTimeout ==>
              e == f)
      && (forall e :: e in events && e.id == id && e.kind == IdleTimeout ==>
            e.deadline <= c.relay.lastActivity + config.IdleLimit())
  }

  ghost predicate ConnectEntry(config: RuntimeConfig, events: set<TimerEvent>, id: nat, c: Conn) {
    && (config.connectTimeout > 0 && c.relay.connecting ==>
          exists e :: e in events && e.id == id && e.kind == ConnectTimeout)
    && (forall e :: e in events && e.id == id && e.kind == ConnectTimeout ==>
          e.deadline == c.relay.acceptedAt + config.ConnectLimit())
  }

  ghost predicate WakeEntry(events: set<TimerEvent>, id: nat, c: Conn) {
    c.scheduledWake.Some? ==>
      exists e :: e in events && e.id == id && e.kind == Pump && e.deadline == c.scheduledWake.value
  }

  ghost predicate Timed(config: RuntimeConfig, events: set<TimerEvent>, id: nat, c: Conn) {
    var timed := IdleEntry(config, events, id, c) && ConnectEntry(config, events, id, c) && WakeEntry(events, id, c);
    timed
  }

  ghost predicate ConnInv(config: RuntimeConfig, events: set<TimerEvent>, id: nat, c: Conn, t: Time) {
    var connected := Sound(c) && c.pumpedAt <= t && Covered(c) && Timed(config, events, id, c);
    connected
  }

  ghost predicate AllConns(rt: Runtime, t: Time) {
    forall id :: id in rt.conns ==> ConnInv(rt.config, rt.timers.events, id, rt.conns[id], t)
  }

  /** Timers are only ever set for accepted connections, and timeouts only if enabled. */
  ghost predicate KnownTimers(rt: Runtime) {
    && (forall e :: e in rt.timers.events ==> e.id < rt.nextId)
    && OnlyIfEnabled(rt.config, rt.timers.events)
  }

  ghost predicate OnlyIfEnabled(config: RuntimeConfig, events: set<TimerEvent>) {
    forall e :: e in events ==>
      && (e.kind == IdleTimeout ==> config.idleTimeout > 0)
      && (e.kind == ConnectTimeout ==> config.connectTimeout > 0)
  }

  /** What the arming cache remembers, the kernel has armed or has reported. */
  ghost predicate Armed(rt: Runtime) {
    rt.lastArmed.Some? ==> rt.fd.armed == Some(Max(rt.lastArmed.value, 1)) || rt.fd.expired
  }

  /** The connection had been idle for the limit, or was still connecting at its deadline. */
  ghost predicate Overdue(config: RuntimeConfig, r: Relay, now: Time) {
    || (config.idleTimeout > 0 && r.lastActivity + config.IdleLimit() <= now)
    || (config.connectTimeout > 0 && r.connecting && r.acceptedAt + config.ConnectLimit() <= now)
  }

  /** Whatever was received from `source` was sent on in order, or is still queued. */
  ghost predicate Lossless(r: Relay, source: Side) {
    var f := r.flows.At(source);
    f.received == f.sent + f.lane.queue
  }

  /** Both streams have ended, and everything has been sent on. */
  ghost predicate AllDelivered(r: Relay) {
    && !r.readOpen.client && !r.readOpen.upstream
    && (!r.halfCloseInjected ==> r.flows.client.sent == r.flows.client.received)
    && (!r.halfCloseInjected ==> r.flows.upstream.sent == r.flows.upstream.received)
  }

  /** The connection had lost nothing, and was closed for good reason. */
  ghost predicate Justified(config: RuntimeConfig, c: Closing) {
    var justified :=
      && Lossless(c.relay, Client) && Lossless(c.relay, Upstream)
      && (c.final == FullyClosed || c.final == Reset || c.final == Failed || c.final == TimedOut)
      && (c.final == FullyClosed ==> AllDelivered(c.relay))
      && (c.final == TimedOut ==> Overdue(config, c.relay, c.at));
    justified
  }

  lemma SoundIsLossless(r: Relay, t: Time)
    requires RelayInv(r, t)
    ensures Lossless(r, Client) && Lossless(r, Upstream)
    ensures FullyDrained(r) ==> AllDelivered(r)
  {
  }

  /** How often each final state occurs in a log. */
  function Tally(log: seq<Closing>): Closes {
    if log == [] then Closes(0, 0, 0, 0) else Tally(log[..|log| - 1]).Count(log[|log| - 1].final)
  }

  /** Each accepted connection that is gone has been logged once, with good reason, and counted. */
  ghost predicate Logged(rt: Runtime) {
    var logged :=
      && rt.closes == Tally(rt.log)
      && (forall k :: 0 <= k < |rt.log| ==>
            Justified(rt.config, rt.log[k]) && 1 <= rt.log[k].id < rt.nextId && rt.log[k].id !in rt.conns)
      && (forall j, k :: 0 <= j < k < |rt.log| ==> rt.log[j].id != rt.log[k].id);
    logged
  }

  /** What is in order whatever the connections are up to. */
  ghost predicate Kept(rt: Runtime) {
    var kept := rt.config.Valid() && Booked(rt) && KnownTimers(rt) && Armed(rt) && Logged(rt);
    kept
  }

  ghost predicate RuntimeInv(rt: Runtime, t: Time) {
    var inOrder := Kept(rt) && AllConns(rt, t);
    inOrder
  }

  lemma NewRuntimeInv(config: RuntimeConfig, t: Time)
    requires config.Valid()
    ensures RuntimeInv(NewRuntime(config), t)
  {
  }

  /** Entries of one connection are the same in two queues. */
  ghost predicate SameFor(a: set<TimerEvent>, b: set<TimerEvent>, id: nat) {
    forall e: TimerEvent :: e.id == id ==> (e in a <==> e in b)
  }

  /** Two queues differ at most in the entries of one connection. */
  ghost predicate SameBut(a: set<TimerEvent>, b: set<TimerEvent>, id: nat) {
    forall e: TimerEvent :: e.id != id ==> (e in a <==> e in b)
  }

  lemma TimedElsewhere(
      config: RuntimeConfig, a: set<TimerEvent>, b: set<TimerEvent>, id: nat, c: Conn, t: Time, t': Time)
    requires ConnInv(config, a, id, c, t) && SameFor(a, b, id) && t <= t'
    ensures ConnInv(config, b, id, c, t')
  {
    if config.idleTimeout > 0 {
      var e :| e in a && e.id == id && e.kind == IdleTimeout;
      assert e in b;
    }
    if config.connectTimeout > 0 && c.relay.connecting {
      var e :| e in a && e.id == id && e.kind == ConnectTimeout;
      assert e in b;
    }
    if c.scheduledWake.Some? {
      var e :| e in a && e.id == id && e.kind == Pump && e.deadline == c.scheduledWake.value;
      assert e in b;
    }
  }

  // ---- Pumping one connection ----

  /** Two relays that answer every question at `now` alike. */
  ghost predicate SameAnswers(r: Relay, s: Relay, now: Time) {
    forall side: Side ::
      && DesiredInterest(s, side, now).1 == DesiredInterest(r, side, now).1
      && NextWake(s, side, now).1 == NextWake(r, side, now).1
  }

  lemma SettledInterest(r: Relay, destination: Side, side: Side, now: Time)
    ensures DesiredInterest(SettleTo(r, destination, now), side, now).1 == DesiredInterest(r, side, now).1
  {
    if side == destination {
      SettleAgain(r.FaultTo(side), |r.QueueTo(side)|, now);
    }
  }

  lemma SettledWake(r: Relay, destination: Side, side: Side, now: Time)
    ensures NextWake(SettleTo(r, destination, now), side, now).1 == NextWake(r, side, now).1
  {
    if side == destination {
      SettleAgain(r.FaultTo(side), |r.QueueTo(side)|, now);
    }
  }

  lemma SettledAnswers(r: Relay, destination: Side, now: Time)
    ensures SameAnswers(r, SettleTo(r, destination, now), now)
  {
    forall side: Side
      ensures DesiredInterest(SettleTo(r, destination, now), side, now).1 == DesiredInterest(r, side, now).1
      ensures NextWake(SettleTo(r, destination, now), side, now).1 == NextWake(r, side, now).1
    {
      SettledInterest(r, destination, side, now);
      SettledWake(r, destination, side, now);
    }
  }

  lemma InterestAnswers(c: Conn, side: Side, now: Time)
    ensures SameAnswers(c.relay, WithInterest(c, side, now).relay, now)
  {
    SettledAnswers(c.relay, side, now);
  }

  lemma NextWakeAnswers(r: Relay, destination: Side, now: Time)
    ensures SameAnswers(r, NextWake(r, destination, now).0, now)
  {
    SettledAnswers(r, destination, now);
  }

  lemma AnswersThrough(r: Relay, s: Relay, u: Relay, now: Time)
    requires SameAnswers(r, s, now) && SameAnswers(s, u, now)
    ensures SameAnswers(r, u, now)
  {
  }

  lemma WakeAnswers(r: Relay, now: Time)
    ensures SameAnswers(r, WakeOfBoth(r, now).0, now)
    ensures var wake := WakeOfBoth(r, now).1;
            forall destination: Side ::
              var needed := NextWake(r, destination, now).1;
              needed.Some? ==> wake.Some? && wake.value <= needed.value
  {
    var r1 := NextWake(r, Upstream, now).0;
    NextWakeAnswers(r, Upstream, now);
    NextWakeAnswers(r1, Client, now);
    AnswersThrough(r, r1, NextWake(r1, Client, now).0, now);
    WakeServesBoth(r, now);
  }

  /** The wake for both destinations is no later than the one either of them needs. */
  lemma WakeServesBoth(r: Relay, now: Time)
    ensures var wake, up, down := WakeOfBoth(r, now).1, NextWake(r, Upstream, now).1, NextWake(r, Client, now).1;
            && (up.Some? ==> wake.Some? && wake.value <= up.value)
            && (down.Some? ==> wake.Some? && wake.value <= down.value)
  {
    SettledWake(r, Upstream, Client, now);
  }

  /** A relay that time, or talking to sockets, has moved on from another. */
  ghost predicate MovedOn(r: Relay, s: Relay) {
    && r.lastActivity <= s.lastActivity && s.acceptedAt == r.acceptedAt && s.connecting == r.connecting
  }

  /** Sound at `now`, with no lifecycle fault due. */
  ghost predicate Good(r: Relay, now: Time) {
    var good := RelayInv(r, now) && NoFaultDue(r);
    good
  }

  lemma FlushBothFinal(r: Relay, now: Time)
    ensures var result := FlushBoth(r, now).1; result.Close? ==> result.final == Reset || result.final == Failed
  {
    FlushFinal(r, Upstream, now);
    FlushFinal(Flush(r, Upstream, now).0, Client, now);
  }

  lemma FlushFinal(r: Relay, destination: Side, now: Time)
    ensures var result := Flush(r, destination, now).1;
            result.Close? ==> result.final == Reset || result.final == Failed
  {
    FlushLoopFinal(r, destination, now);
  }

  lemma {:induction false} FlushLoopFinal(r: Relay, destination: Side, now: Time)
    ensures var result := FlushLoop(r, destination, now).1;
            result.Close? ==> result.final == Reset || result.final == Failed
    decreases |r.wire.sends|
  {
    var step := FlushOnce(r, destination, now);
    if step.Again? {
      FlushLoopFinal(step.relay, destination, now);
    }
  }

  lemma FlushBothKeeps(r: Relay, now: Time)
    requires Good(r, now)
    ensures var (s, result) := FlushBoth(r, now);
            && MovedOn(r, s) && RelayInv(s, now) && (result.Continue? ==> Good(s, now))
            && (result.Close? ==> result.final == Reset || result.final == Failed)
  {
    FlushBothFinal(r, now);
    if !r.connecting {
      FlushKeeps(r, Upstream, now);
      var (r1, result) := Flush(r, Upstream, now);
      if result.Continue? {
        FlushKeeps(r1, Client, now);
      }
    }
  }

  lemma PropagateGood(r: Relay, now: Time)
    requires Good(r, now)
    ensures Good(PropagateHalfCloses(r), now) && MovedOn(r, PropagateHalfCloses(r))
  {
    PropagateKeeps(r, now);
    PropagateFrame(r);
  }

  lemma AskingGood(r: Relay, side: Side, now: Time)
    requires Good(r, now)
    ensures Good(DesiredInterest(r, side, now).0, now) && MovedOn(r, DesiredInterest(r, side, now).0)
    ensures Good(NextWake(r, side, now).0, now) && MovedOn(r, NextWake(r, side, now).0)
  {
    AskingKeeps(r, side, now);
  }

  function Refreshed(c: Conn, now: Time): Conn {
    WithInterest(WithInterest(c, Client, now), Upstream, now)
  }

  lemma RefreshedGood(c: Conn, now: Time)
    requires Good(c.relay, now)
    ensures var d := Refreshed(c, now);
            && Good(d.relay, now) && MovedOn(c.relay, d.relay)
            && d.scheduledWake == c.scheduledWake && d.pumpedAt == c.pumpedAt
            && d.clientToken == c.clientToken && d.upstreamToken == c.upstreamToken
            && d.clientMask == DesiredInterest(d.relay, Client, now).1
            && d.upstreamMask == DesiredInterest(d.relay, Upstream, now).1
  {
    AskingGood(c.relay, Client, now);
    InterestAnswers(c, Client, now);
    var c1 := WithInterest(c, Client, now);
    AskingGood(c1.relay, Upstream, now);
    InterestAnswers(c1, Upstream, now);
  }

  lemma WakeOfBothGood(r: Relay, now: Time)
    requires Good(r, now)
    ensures Good(WakeOfBoth(r, now).0, now) && MovedOn(r, WakeOfBoth(r, now).0)
  {
    AskingGood(r, Upstream, now);
    AskingGood(NextWake(r, Upstream, now).0, Client, now);
  }

  /** The connection as scheduling its wake leaves it. */
  function Scheduled(c: Conn, now: Time): Conn {
    var (relay, wake) := WakeOfBoth(c.relay, now);
    c.(relay := relay, scheduledWake := if WakeNeeded(c, wake) then wake else c.scheduledWake)
  }

  /** After refreshing interests and scheduling the wake, everything the relay wants is covered. */
  lemma ScheduledCovered(c: Conn, now: Time)
    requires Good(c.relay, now) && c.pumpedAt == now
    requires c.clientMask == DesiredInterest(c.relay, Client, now).1
    requires c.upstreamMask == DesiredInterest(c.relay, Upstream, now).1
    ensures var d := Scheduled(c, now);
            Sound(d) && Covered(d) && MovedOn(c.relay, d.relay) && d.pumpedAt == now
  {
    WakeOfBothGood(c.relay, now);
    WakeAnswers(c.relay, now);
  }

  // ---- Steps on one connection ----

  /** Everything but connection `id` is in order. */
  ghost predicate RestInv(rt: Runtime, id: nat, t: Time) {
    var restInOrder := Kept(rt) && OtherConns(rt, id, t);
    restInOrder
  }

  ghost predicate OtherConns(rt: Runtime, id: nat, t: Time) {
    forall other :: other in rt.conns && other != id ==>
      ConnInv(rt.config, rt.timers.events, other, rt.conns[other], t)
  }

  /** Connection `id` is sound and timed, though its interests and wake may be out of date. */
  ghost predicate Pumpable(rt: Runtime, id: nat, now: Time) {
    var pumpable :=
      id in rt.conns ==> Good(rt.conns[id].relay, now) && Timed(rt.config, rt.timers.events, id, rt.conns[id]);
    pumpable
  }

  lemma RemoveOne<T>(m: map<nat, T>, id: nat)
    requires id in m
    ensures |m - {id}| == |m| - 1
  {
    assert (m - {id}).Keys == m.Keys - {id};
    assert |m.Keys| == |m| && |(m - {id}).Keys| == |m - {id}|;
  }

  lemma CloseBindings(conns: set<nat>, id: nat)
    requires id in conns
    ensures BindingsOf(conns - {id}) == BindingsOf(conns) - {TokenOf(id, Client), TokenOf(id, Upstream)}
  {
    assert Tokens(conns - {id}) == Tokens(conns) - {TokenOf(id, Client), TokenOf(id, Upstream)};
  }

  lemma CloseBooked(rt: Runtime, id: nat, final: ConnectionState, now: Time)
    requires Booked(rt)
    ensures Booked(CloseConnection(rt, id, final, now))
  {
    if id in rt.conns {
      RemoveOne(rt.conns, id);
      CloseBindings(rt.conns.Keys, id);
      assert (rt.conns - {id}).Keys == rt.conns.Keys - {id};
    }
  }

  lemma PutBooked(rt: Runtime, id: nat, c: Conn)
    requires Booked(rt) && id in rt.conns
    requires c.clientToken == rt.conns[id].clientToken && c.upstreamToken == rt.conns[id].upstreamToken
    ensures Booked(PutConn(rt, id, c))
  {
    assert rt.conns[id := c].Keys == rt.conns.Keys;
    assert |rt.conns[id := c]| == |rt.conns[id := c].Keys| == |rt.conns.Keys| == |rt.conns|;
  }

  /** Connections whose timers have not changed are still in order later. */
  lemma OthersKeep(rt: Runtime, id: nat, events: set<TimerEvent>, t: Time, now: Time)
    requires OtherConns(rt, id, t) && t <= now && SameBut(rt.timers.events, events, id)
    ensures forall other :: other in rt.conns && other != id ==> ConnInv(rt.config, events, other, rt.conns[other], now)
  {
    forall other | other in rt.conns && other != id
      ensures ConnInv(rt.config, events, other, rt.conns[other], now)
    {
      TimedElsewhere(rt.config, rt.timers.events, events, other, rt.conns[other], t, now);
    }
  }

  /** Connection `id`, if there is one, may be closed as `final` at `now`. */
  ghost predicate MayClose(rt: Runtime, id: nat, final: ConnectionState, now: Time) {
    id in rt.conns ==> Justified(rt.config, Closing(id, final, rt.conns[id].relay, now))
  }

  /** One more closing, of a connection that is still live, keeps the log right. */
  lemma LogGrows(rt: Runtime, s: Runtime, c: Closing)
    requires Logged(rt) && Justified(rt.config, c) && c.id in rt.conns && 1 <= c.id < rt.nextId
    requires s.config == rt.config && s.nextId == rt.nextId && s.conns == rt.conns - {c.id}
    requires s.log == rt.log + [c] && s.closes == rt.closes.Count(c.final)
    ensures Logged(s)
  {
    assert s.log[..|rt.log|] == rt.log;
  }

  lemma CloseLogged(rt: Runtime, id: nat, final: ConnectionState, now: Time)
    requires Logged(rt) && Numbering(rt) && MayClose(rt, id, final, now)
    ensures Logged(CloseConnection(rt, id, final, now))
  {
    if id in rt.conns {
      LogGrows(rt, CloseConnection(rt, id, final, now), Closing(id, final, rt.conns[id].relay, now));
    }
  }

  lemma CloseKept(rt: Runtime, id: nat, final: ConnectionState, now: Time)
    requires Kept(rt) && MayClose(rt, id, final, now)
    ensures Kept(CloseConnection(rt, id, final, now))
  {
    CloseBooked(rt, id, final, now);
    CloseLogged(rt, id, final, now);
  }

  lemma CloseIs(rt: Runtime, id: nat, final: ConnectionState, now: Time)
    ensures var s := CloseConnection(rt, id, final, now);
            && s.config == rt.config && s.timers == rt.timers && id !in s.conns
            && forall other :: other in s.conns ==>
                 other in rt.conns && other != id && s.conns[other] == rt.conns[other]
  {
  }

  lemma CloseKeeps(rt: Runtime, id: nat, final: ConnectionState, t: Time, now: Time)
    requires RestInv(rt, id, t) && t <= now && MayClose(rt, id, final, now)
    ensures RuntimeInv(CloseConnection(rt, id, final, now), now)
    ensures id !in CloseConnection(rt, id, final, now).conns
  {
    CloseKept(rt, id, final, now);
    CloseIs(rt, id, final, now);
    OthersKeep(rt, id, rt.timers.events, t, now);
  }

  lemma PutKept(rt: Runtime, id: nat, c: Conn, timers: Timers)
    requires Kept(rt) && id in rt.conns && SameBut(rt.timers.events, timers.events, id)
    requires OnlyIfEnabled(rt.config, timers.events)
    requires c.clientToken == rt.conns[id].clientToken && c.upstreamToken == rt.conns[id].upstreamToken
    ensures Kept(PutConn(rt, id, c).(timers := timers))
  {
    PutBooked(rt, id, c);
  }

  /** Connection `id` is put back in order, no other connection's timers having changed. */
  lemma PutKeeps(rt: Runtime, id: nat, c: Conn, timers: Timers, t: Time, now: Time)
    requires RestInv(rt, id, t) && t <= now && id in rt.conns
    requires c.clientToken == rt.conns[id].clientToken && c.upstreamToken == rt.conns[id].upstreamToken
    requires SameBut(rt.timers.events, timers.events, id) && OnlyIfEnabled(rt.config, timers.events)
    requires ConnInv(rt.config, timers.events, id, c, now)
    ensures RuntimeInv(PutConn(rt, id, c).(timers := timers), now)
  {
    PutKept(rt, id, c, timers);
    OthersKeep(rt, id, timers.events, t, now);
  }

  /** Changing one connection leaves the rest alone. */
  lemma PutRest(rt: Runtime, id: nat, c: Conn, t: Time)
    requires RestInv(rt, id, t) && id in rt.conns
    requires c.clientToken == rt.conns[id].clientToken && c.upstreamToken == rt.conns[id].upstreamToken
    ensures RestInv(PutConn(rt, id, c), id, t)
  {
    PutConnKept(rt, id, c);
    PutOthers(rt, id, c, t);
  }

  lemma PutOthers(rt: Runtime, id: nat, c: Conn, t: Time)
    requires OtherConns(rt, id, t)
    ensures OtherConns(PutConn(rt, id, c), id, t)
  {
  }

  /** The log stays right as long as connections only leave, or arrive under new ids. */
  lemma SameLog(rt: Runtime, s: Runtime)
    requires Logged(rt) && s.log == rt.log && s.closes == rt.closes && s.config == rt.config
    requires s.nextId >= rt.nextId && forall id :: id in s.conns ==> id in rt.conns || id >= rt.nextId
    ensures Logged(s)
  {
  }

  lemma KeptIs(rt: Runtime)
    ensures Kept(rt) <==> rt.config.Valid() && Booked(rt) && KnownTimers(rt) && Armed(rt) && Logged(rt)
  {
  }

  lemma PutConnKept(rt: Runtime, id: nat, c: Conn)
    requires Kept(rt) && id in rt.conns
    requires c.clientToken == rt.conns[id].clientToken && c.upstreamToken == rt.conns[id].upstreamToken
    ensures Kept(PutConn(rt, id, c))
  {
    PutBooked(rt, id, c);
  }

  lemma TimedMovedOn(config: RuntimeConfig, events: set<TimerEvent>, id: nat, c: Conn, d: Conn)
    requires Timed(config, events, id, c) && d.scheduledWake == c.scheduledWake
    requires c.relay.lastActivity <= d.relay.lastActivity && d.relay.acceptedAt == c.relay.acceptedAt
    requires d.relay.connecting ==> c.relay.connecting
    ensures Timed(config, events, id, d)
  {
  }

  lemma TimedScheduled(config: RuntimeConfig, ts: Timers, id: nat, c: Conn, d: Conn)
    requires Timed(config, ts.events, id, c) && MovedOn(c.relay, d.relay) && d.scheduledWake.Some?
    ensures Timed(config, Schedule(ts, d.scheduledWake.value, id, Pump).events, id, d)
  {
    var events := Schedule(ts, d.scheduledWake.value, id, Pump).events;
    assert TimerEvent(d.scheduledWake.value, ts.next, id, Pump) in events;
    if config.idleTimeout > 0 {
      var e :| e in ts.events && e.id == id && e.kind == IdleTimeout;
      assert e in events;
    }
    if config.connectTimeout > 0 && d.relay.connecting {
      var e :| e in ts.events && e.id == id && e.kind == ConnectTimeout;
      assert e in events;
    }
  }

  function WakeTimers(ts: Timers, id: nat, c: Conn, now: Time): Timers {
    var wake := WakeOfBoth(c.relay, now).1;
    if WakeNeeded(c, wake) then Schedule(ts, wake.value, id, Pump) else ts
  }

  /** A freshly refreshed connection, its entry for `wake` (if any) added, is in order. */
  lemma ScheduledInOrder(config: RuntimeConfig, ts: Timers, id: nat, c: Conn, now: Time)
    requires Good(c.relay, now) && Timed(config, ts.events, id, c) && c.pumpedAt == now
    requires c.clientMask == DesiredInterest(c.relay, Client, now).1
    requires c.upstreamMask == DesiredInterest(c.relay, Upstream, now).1
    ensures ConnInv(config, WakeTimers(ts, id, c, now).events, id, Scheduled(c, now), now)
    ensures Scheduled(c, now).clientToken == c.clientToken && Scheduled(c, now).upstreamToken == c.upstreamToken
  {
    ScheduledCovered(c, now);
    var d := Scheduled(c, now);
    if WakeNeeded(c, WakeOfBoth(c.relay, now).1) {
      TimedScheduled(config, ts, id, c, d);
    } else {
      TimedMovedOn(config, ts.events, id, c, d);
    }
  }

  lemma ScheduleIsPut(rt: Runtime, id: nat, now: Time)
    requires id in rt.conns
    ensures var c := rt.conns[id];
            ScheduleRelayWake(rt, id, now)
            == PutConn(rt, id, Scheduled(c, now)).(timers := WakeTimers(rt.timers, id, c, now))
  {
  }

  lemma WakeTimersAre(config: RuntimeConfig, ts: Timers, id: nat, c: Conn, now: Time)
    ensures SameBut(ts.events, WakeTimers(ts, id, c, now).events, id)
    ensures OnlyIfEnabled(config, ts.events) ==> OnlyIfEnabled(config, WakeTimers(ts, id, c, now).events)
  {
  }

  lemma IdleEnabled(rt: Runtime, id: nat, t: Time)
    requires RestInv(rt, id, t)
    ensures OnlyIfEnabled(rt.config, rt.timers.events)
  {
  }

  /** Scheduling the wake of a freshly refreshed connection puts it in order. */
  lemma ScheduleKeeps(rt: Runtime, id: nat, t: Time, now: Time)
    requires RestInv(rt, id, t) && t <= now && id in rt.conns
    requires var c := rt.conns[id];
             && Good(c.relay, now) && Timed(rt.config, rt.timers.events, id, c)
             && c.pumpedAt == now
             && c.clientMask == DesiredInterest(c.relay, Client, now).1
             && c.upstreamMask == DesiredInterest(c.relay, Upstream, now).1
    ensures RuntimeInv(ScheduleRelayWake(rt, id, now), now)
  {
    var c := rt.conns[id];
    ScheduledInOrder(rt.config, rt.timers, id, c, now);
    IdleEnabled(rt, id, t);
    WakeTimersAre(rt.config, rt.timers, id, c, now);
    PutKeeps(rt, id, Scheduled(c, now), WakeTimers(rt.timers, id, c, now), t, now);
    ScheduleIsPut(rt, id, now);
  }

  /** The last steps of a pump: refresh the interests or close, and schedule the wake. */
  lemma FinishKeeps(rt: Runtime, id: nat, t: Time, now: Time)
    requires RestInv(rt, id, t) && t <= now && id in rt.conns && Pumpable(rt, id, now)
    requires rt.conns[id].pumpedAt == now
    ensures RuntimeInv(ScheduleRelayWake(RefreshOrClose(rt, id, now), id, now), now)
  {
    var c := rt.conns[id];
    if FullyDrained(c.relay) {
      SoundIsLossless(c.relay, now);
      CloseKeeps(rt, id, FullyClosed, t, now);
    } else {
      RefreshedGood(c, now);
      var c1 := Refreshed(c, now);
      PutRest(rt, id, c1, t);
      TimedMovedOn(rt.config, rt.timers.events, id, c, c1);
      ScheduleKeeps(PutConn(rt, id, c1), id, t, now);
    }
  }

  lemma PumpKeeps(rt: Runtime, id: nat, t: Time, now: Time)
    requires RestInv(rt, id, t) && t <= now && Pumpable(rt, id, now)
    ensures RuntimeInv(PumpConnection(rt, id, now), now)
  {
    if id in rt.conns {
      var c := rt.conns[id];
      FlushBothKeeps(c.relay, now);
      var (r1, result) := FlushBoth(c.relay, now);
      if result.Close? {
        PutRest(rt, id, c.(relay := r1), t);
        SoundIsLossless(r1, now);
        CloseKeeps(PutConn(rt, id, c.(relay := r1)), id, result.final, t, now);
      } else {
        PropagateGood(r1, now);
        var c1 := c.(relay := PropagateHalfCloses(r1), pumpedAt := now);
        PutRest(rt, id, c1, t);
        TimedMovedOn(rt.config, rt.timers.events, id, c, c1);
        FinishKeeps(PutConn(rt, id, c1), id, t, now);
      }
    } else {
      CloseKeeps(rt, id, FullyClosed, t, now);
    }
  }

  // ---- Draining due timers ----

  lemma PutSame(rt: Runtime, id: nat)
    requires id in rt.conns
    ensures PutConn(rt, id, rt.conns[id]) == rt
  {
    assert rt.conns[id := rt.conns[id]] == rt.conns;
  }

  lemma PoppedKept(rt: Runtime, ts: Timers)
    requires Kept(rt) && ts.events <= rt.timers.events
    ensures Kept(rt.(timers := ts))
  {
    PoppedLog(rt, ts);
    PoppedTimers(rt, ts);
  }

  lemma PoppedLog(rt: Runtime, ts: Timers)
    requires Kept(rt)
    ensures Logged(rt.(timers := ts)) && Booked(rt.(timers := ts)) && Armed(rt.(timers := ts))
  {
    SameLog(rt, rt.(timers := ts));
  }

  lemma PoppedTimers(rt: Runtime, ts: Timers)
    requires Kept(rt) && ts.events <= rt.timers.events
    ensures KnownTimers(rt.(timers := ts))
  {
  }

  /** Taking an entry out leaves every other connection in order. */
  lemma PoppedRest(rt: Runtime, e: TimerEvent, ts: Timers, t: Time)
    requires RuntimeInv(rt, t) && ts.events == rt.timers.events - {e}
    ensures RestInv(rt.(timers := ts), e.id, t)
  {
    PoppedKept(rt, ts);
    PoppedOthers(rt, e, ts, t);
  }

  lemma PoppedOthers(rt: Runtime, e: TimerEvent, ts: Timers, t: Time)
    requires AllConns(rt, t) && ts.events == rt.timers.events - {e}
    ensures OtherConns(rt.(timers := ts), e.id, t)
  {
    OthersKeep(rt, e.id, ts.events, t, t);
  }

  /** What each kind of entry does, spelled out. */
  lemma ProcessEventIs(rt: Runtime, e: TimerEvent, now: Time)
    requires e.id in rt.conns
    ensures var c := rt.conns[e.id];
            ProcessEvent(rt, e, now) ==
            match e.kind
            case Pump => PumpConnection(PutConn(rt, e.id, Woken(c, now)), e.id, now)
            case ConnectTimeout => if c.relay.connecting then CloseConnection(rt, e.id, TimedOut, now) else rt
            case IdleTimeout =>
              if now >= IdleDeadline(rt.config, c) then CloseConnection(rt, e.id, TimedOut, now)
              else rt.(timers := IdleAgain(rt, e.id))
  {
  }

  function Woken(c: Conn, now: Time): Conn {
    if c.scheduledWake.Some? && c.scheduledWake.value <= now then c.(scheduledWake := None) else c
  }

  function IdleDeadline(config: RuntimeConfig, c: Conn): Time {
    c.relay.lastActivity + config.IdleLimit()
  }

  function IdleAgain(rt: Runtime, id: nat): Timers
    requires id in rt.conns
  {
    Schedule(rt.timers, IdleDeadline(rt.config, rt.conns[id]), id, IdleTimeout)
  }

  /** Entry `e` has just been taken from the queue of `rt`, which was in order at `t`. */
  ghost predicate JustPopped(rt: Runtime, e: TimerEvent, t: Time, now: Time) {
    var popped :=
      && RestInv(rt, e.id, t) && t <= now && e.deadline <= now && e.id in rt.conns
      && ConnInv(rt.config, rt.timers.events + {e}, e.id, rt.conns[e.id], t)
      && OnlyIfEnabled(rt.config, rt.timers.events + {e});
    popped
  }

  /** The surviving entries of a connection still serve it, once the entry of kind `gone` is no
      longer needed. */
  lemma TimedStill(config: RuntimeConfig, events: set<TimerEvent>, e: TimerEvent, c: Conn, now: Time)
    requires Timed(config, events + {e}, e.id, c) && e.deadline <= now && e.kind != IdleTimeout
    requires e.kind == ConnectTimeout ==> !c.relay.connecting
    ensures Timed(config, events, e.id, if e.kind == Pump then Woken(c, now) else c)
  {
    if config.idleTimeout > 0 {
      var f :| f in events + {e} && f.id == e.id && f.kind == IdleTimeout;
      assert f in events;
    }
    if config.connectTimeout > 0 && c.relay.connecting {
      var f :| f in events + {e} && f.id == e.id && f.kind == ConnectTimeout;
      assert f in events;
    }
    if c.scheduledWake.Some? && !(e.kind == Pump && c.scheduledWake.value <= now) {
      var f :| f in events + {e} && f.id == e.id && f.kind == Pump && f.deadline == c.scheduledWake.value;
      assert f in events;
    }
  }

  lemma PumpPopped(rt: Runtime, e: TimerEvent, t: Time, now: Time)
    requires JustPopped(rt, e, t, now) && e.kind == Pump
    ensures RestInv(PutConn(rt, e.id, Woken(rt.conns[e.id], now)), e.id, t)
    ensures Pumpable(PutConn(rt, e.id, Woken(rt.conns[e.id], now)), e.id, now)
  {
    var c := rt.conns[e.id];
    PutRest(rt, e.id, Woken(c, now), t);
    TimedStill(rt.config, rt.timers.events, e, c, now);
    LaterRelay(c.relay, c.pumpedAt, now);
  }

  lemma PumpEventKeeps(rt: Runtime, e: TimerEvent, t: Time, now: Time)
    requires JustPopped(rt, e, t, now) && e.kind == Pump
    ensures RuntimeInv(ProcessEvent(rt, e, now), now)
  {
    PumpPopped(rt, e, t, now);
    PumpKeeps(PutConn(rt, e.id, Woken(rt.conns[e.id], now)), e.id, t, now);
    ProcessEventIs(rt, e, now);
  }

  /** A connection whose timers have been seen to is in order as it stands. */
  lemma AsItStands(rt: Runtime, id: nat, timers: Timers, t: Time, now: Time)
    requires RestInv(rt, id, t) && t <= now && id in rt.conns
    requires SameBut(rt.timers.events, timers.events, id) && OnlyIfEnabled(rt.config, timers.events)
    requires ConnInv(rt.config, timers.events, id, rt.conns[id], now)
    ensures RuntimeInv(rt.(timers := timers), now)
  {
    PutKeeps(rt, id, rt.conns[id], timers, t, now);
    PutSame(rt, id);
  }

  /** An entry that times its connection out finds it overdue. */
  lemma PoppedIsOverdue(rt: Runtime, e: TimerEvent, t: Time, now: Time)
    requires JustPopped(rt, e, t, now)
    requires || (e.kind == ConnectTimeout && rt.conns[e.id].relay.connecting)
             || (e.kind == IdleTimeout && now >= IdleDeadline(rt.config, rt.conns[e.id]))
    ensures MayClose(rt, e.id, TimedOut, now)
  {
    var c := rt.conns[e.id];
    assert e in rt.timers.events + {e};
    SoundIsLossless(c.relay, c.pumpedAt);
  }

  lemma ConnectEventKeeps(rt: Runtime, e: TimerEvent, t: Time, now: Time)
    requires JustPopped(rt, e, t, now) && e.kind == ConnectTimeout
    ensures RuntimeInv(ProcessEvent(rt, e, now), now)
  {
    ProcessEventIs(rt, e, now);
    var c := rt.conns[e.id];
    if c.relay.connecting {
      PoppedIsOverdue(rt, e, t, now);
      CloseKeeps(rt, e.id, TimedOut, t, now);
    } else {
      TimedStill(rt.config, rt.timers.events, e, c, now);
      AsItStands(rt, e.id, rt.timers, t, now);
    }
  }

  /** Setting the one idle entry anew, once it was taken, keeps there being exactly one. */
  lemma TimedIdleAgain(config: RuntimeConfig, ts: Timers, e: TimerEvent, c: Conn)
    requires Timed(config, ts.events + {e}, e.id, c) && e.kind == IdleTimeout && config.idleTimeout > 0
    requires e !in ts.events
    ensures Timed(config, Schedule(ts, IdleDeadline(config, c), e.id, IdleTimeout).events, e.id, c)
  {
    var renewed := TimerEvent(IdleDeadline(config, c), ts.next, e.id, IdleTimeout);
    var events' := Schedule(ts, IdleDeadline(config, c), e.id, IdleTimeout).events;
    assert renewed in events';
    assert forall f :: f in events' && f.id == e.id && f.kind == IdleTimeout ==> f == renewed;
    if config.connectTimeout > 0 && c.relay.connecting {
      var f :| f in ts.events + {e} && f.id == e.id && f.kind == ConnectTimeout;
      assert f in events';
    }
    if c.scheduledWake.Some? {
      var f :| f in ts.events + {e} && f.id == e.id && f.kind == Pump && f.deadline == c.scheduledWake.value;
      assert f in events';
    }
  }

  lemma IdleAgainInOrder(rt: Runtime, e: TimerEvent, t: Time, now: Time)
    requires JustPopped(rt, e, t, now) && e.kind == IdleTimeout && e !in rt.timers.events
    ensures ConnInv(rt.config, IdleAgain(rt, e.id).events, e.id, rt.conns[e.id], now)
    ensures SameBut(rt.timers.events, IdleAgain(rt, e.id).events, e.id)
    ensures OnlyIfEnabled(rt.config, IdleAgain(rt, e.id).events)
  {
    assert e in rt.timers.events + {e};
    TimedIdleAgain(rt.config, rt.timers, e, rt.conns[e.id]);
  }

  lemma IdleEventKeeps(rt: Runtime, e: TimerEvent, t: Time, now: Time)
    requires JustPopped(rt, e, t, now) && e.kind == IdleTimeout && e !in rt.timers.events
    ensures RuntimeInv(ProcessEvent(rt, e, now), now)
  {
    ProcessEventIs(rt, e, now);
    if now >= IdleDeadline(rt.config, rt.conns[e.id]) {
      PoppedIsOverdue(rt, e, t, now);
      CloseKeeps(rt, e.id, TimedOut, t, now);
    } else {
      IdleAgainInOrder(rt, e, t, now);
      AsItStands(rt, e.id, IdleAgain(rt, e.id), t, now);
    }
  }

  lemma PoppedIsJustPopped(rt: Runtime, ts: Timers, e: TimerEvent, t: Time, now: Time)
    requires RuntimeInv(rt, t) && t <= now && e in rt.timers.events && e.deadline <= now
    requires ts.events == rt.timers.events - {e} && e.id in rt.conns
    ensures JustPopped(rt.(timers := ts), e, t, now)
  {
    PoppedRest(rt, e, ts, t);
    InOrderOf(rt, e.id, t);
    PutBack(rt.timers.events, e);
  }

  lemma PutBack(events: set<TimerEvent>, e: TimerEvent)
    requires e in events
    ensures (events - {e}) + {e} == events
  {
  }

  lemma InOrderOf(rt: Runtime, id: nat, t: Time)
    requires RuntimeInv(rt, t) && id in rt.conns
    ensures ConnInv(rt.config, rt.timers.events, id, rt.conns[id], t)
    ensures OnlyIfEnabled(rt.config, rt.timers.events)
  {
  }

  /** A stale entry, whose connection is gone, is dropped without effect. */
  lemma StaleKeeps(rt: Runtime, ts: Timers, e: TimerEvent, t: Time, now: Time)
    requires RuntimeInv(rt, t) && t <= now && ts.events == rt.timers.events - {e} && e.id !in rt.conns
    ensures ProcessEvent(rt.(timers := ts), e, now) == rt.(timers := ts)
    ensures RuntimeInv(rt.(timers := ts), now)
  {
    PoppedRest(rt, e, ts, t);
    OthersKeep(rt.(timers := ts), e.id, ts.events, t, now);
  }

  lemma EventKeeps(rt: Runtime, ts: Timers, e: TimerEvent, t: Time, now: Time)
    requires RuntimeInv(rt, t) && t <= now && e in rt.timers.events && e.deadline <= now
    requires ts.events == rt.timers.events - {e}
    ensures RuntimeInv(ProcessEvent(rt.(timers := ts), e, now), now)
  {
    if e.id !in rt.conns {
      StaleKeeps(rt, ts, e, t, now);
    } else {
      PoppedIsJustPopped(rt, ts, e, t, now);
      match e.kind
      case Pump => PumpEventKeeps(rt.(timers := ts), e, t, now);
      case ConnectTimeout => ConnectEventKeeps(rt.(timers := ts), e, t, now);
      case IdleTimeout => IdleEventKeeps(rt.(timers := ts), e, t, now);
    }
  }

  /** Draining keeps the invariant, and leaves nothing due. */
  lemma {:induction false} DrainKeeps(rt: Runtime, t: Time, now: Time)
    requires RuntimeInv(rt, t) && t <= now
    ensures RuntimeInv(Drain(rt, now), now)
    ensures Due(Drain(rt, now).timers, now) == {}
    decreases Due(rt.timers, now)
  {
    PopTakesFirst(rt.timers, now);
    var (ts, popped) := PopDue(rt.timers, now);
    if popped.None? {
      RuntimeLater(rt, t, now);
    } else {
      EventKeeps(rt, ts, popped.value, t, now);
      DrainProgress(rt, now);
      DrainKeeps(ProcessEvent(rt.(timers := ts), popped.value, now), now, now);
    }
  }

  lemma RuntimeLater(rt: Runtime, t: Time, now: Time)
    requires RuntimeInv(rt, t) && t <= now
    ensures RuntimeInv(rt, now)
  {
    forall id | id in rt.conns
      ensures ConnInv(rt.config, rt.timers.events, id, rt.conns[id], now)
    {
      TimedElsewhere(rt.config, rt.timers.events, rt.timers.events, id, rt.conns[id], t, now);
    }
  }

  // ---- Accepting ----

  /** The newest connection's timers are its own; the others' are as they were. */
  lemma StartTimersAre(rt: Runtime, offer: Offer)
    requires KnownTimers(rt)
    ensures var ts := StartTimers(rt.config, rt.timers, rt.nextId, offer);
            && SameBut(rt.timers.events, ts.events, rt.nextId)
            && OnlyIfEnabled(rt.config, ts.events)
            && (forall e :: e in ts.events ==> e.id <= rt.nextId)
  {
  }

  lemma StartTimed(rt: Runtime, offer: Offer, c: Conn)
    requires KnownTimers(rt)
    requires c.relay.lastActivity == c.relay.acceptedAt == offer.now
    requires c.relay.connecting == offer.connecting && c.scheduledWake.None?
    ensures Timed(rt.config, StartTimers(rt.config, rt.timers, rt.nextId, offer).events, rt.nextId, c)
  {
    var events := StartTimers(rt.config, rt.timers, rt.nextId, offer).events;
    if rt.config.connectTimeout > 0 && offer.connecting {
      assert TimerEvent(offer.now + rt.config.ConnectLimit(), rt.timers.next, rt.nextId, ConnectTimeout) in events;
    }
    if rt.config.idleTimeout > 0 {
      var t1 := if offer.connecting && rt.config.connectTimeout > 0
                then Schedule(rt.timers, offer.now + rt.config.ConnectLimit(), rt.nextId, ConnectTimeout)
                else rt.timers;
      assert TimerEvent(offer.now + rt.config.IdleLimit(), t1.next, rt.nextId, IdleTimeout) in events;
    }
  }

  /** Nothing is queued yet, so a new connection needs no wake. */
  lemma NewConnCovered(rt: Runtime, offer: Offer)
    requires rt.config.Valid()
    ensures var c := NewConn(rt.config, rt.nextId, rt.nextToken, offer);
            && Sound(c) && Covered(c) && c.pumpedAt == offer.now && c.scheduledWake.None?
            && c.relay.lastActivity == c.relay.acceptedAt == offer.now && c.relay.connecting == offer.connecting
  {
    var plan := if offer.faulty then rt.config.plan else NO_FAULTS;
    NewRelayInv(rt.config.relay, plan, SeedId(rt.nextId), offer.connecting, offer.wire, offer.now);
    var relay := NewRelay(rt.config.relay, plan, SeedId(rt.nextId), offer.connecting, offer.wire, offer.now);
    StartCovered(Conn(relay, rt.nextToken, rt.nextToken + 1, NO_INTEREST, NO_INTEREST, None, offer.now));
  }

  lemma StartCovered(c: Conn)
    requires Good(c.relay, c.pumpedAt) && c.scheduledWake.None?
    requires c.relay.QueueTo(Client) == [] && c.relay.QueueTo(Upstream) == []
    ensures var d := Refreshed(c, c.pumpedAt);
            && Sound(d) && Covered(d) && d.pumpedAt == c.pumpedAt && d.scheduledWake.None?
            && d.relay == c.relay
  {
    RefreshedGood(c, c.pumpedAt);
  }

  lemma NewConnInOrder(rt: Runtime, offer: Offer)
    requires rt.config.Valid() && KnownTimers(rt)
    ensures var events := StartTimers(rt.config, rt.timers, rt.nextId, offer).events;
            ConnInv(rt.config, events, rt.nextId, NewConn(rt.config, rt.nextId, rt.nextToken, offer), offer.now)
  {
    NewConnCovered(rt, offer);
    StartTimed(rt, offer, NewConn(rt.config, rt.nextId, rt.nextToken, offer));
  }

  lemma AcceptBindings(conns: set<nat>, id: nat)
    ensures BindingsOf(conns + {id})
            == BindingsOf(conns)[TokenOf(id, Client) := Binding(id, Client)]
                                [TokenOf(id, Upstream) := Binding(id, Upstream)]
  {
    TokenRoundTrip(id, Client);
    TokenRoundTrip(id, Upstream);
    assert Tokens(conns + {id}) == Tokens(conns) + {TokenOf(id, Client), TokenOf(id, Upstream)};
  }

  /** `s` is `rt` with one more connection, under the next id and tokens. */
  ghost predicate Inserted(rt: Runtime, s: Runtime, c: Conn) {
    && c.clientToken == rt.nextToken && c.upstreamToken == rt.nextToken + 1
    && s.config == rt.config && s.closes == rt.closes && s.conns == rt.conns[rt.nextId := c]
    && s.bindings == rt.bindings[rt.nextToken := Binding(rt.nextId, Client)]
                                [rt.nextToken + 1 := Binding(rt.nextId, Upstream)]
    && s.nextId == rt.nextId + 1 && s.nextToken == rt.nextToken + 2
  }

  lemma InsertNumbered(rt: Runtime, s: Runtime, c: Conn)
    requires Numbering(rt) && Inserted(rt, s, c)
    ensures Numbering(s)
  {
  }

  lemma InsertBound(rt: Runtime, s: Runtime, c: Conn)
    requires Numbering(rt) && rt.bindings == BindingsOf(rt.conns.Keys) && Inserted(rt, s, c)
    ensures s.bindings == BindingsOf(s.conns.Keys)
  {
    AcceptBindings(rt.conns.Keys, rt.nextId);
    InsertOne(rt.conns, rt.nextId, c);
  }

  lemma InsertTallied(rt: Runtime, s: Runtime, c: Conn)
    requires Numbering(rt) && Tallied(rt) && |rt.conns| < rt.config.maxConnections && Inserted(rt, s, c)
    ensures Tallied(s)
  {
    InsertOne(rt.conns, rt.nextId, c);
  }

  /** Entering one more connection keeps the books. */
  lemma InsertBooked(rt: Runtime, s: Runtime, c: Conn)
    requires Booked(rt) && |rt.conns| < rt.config.maxConnections && Inserted(rt, s, c)
    ensures Booked(s)
  {
    InsertNumbered(rt, s, c);
    InsertBound(rt, s, c);
    InsertTallied(rt, s, c);
  }

  lemma InsertOne<T>(m: map<nat, T>, id: nat, value: T)
    requires id !in m
    ensures m[id := value].Keys == m.Keys + {id} && |m[id := value]| == |m| + 1
  {
    assert m[id := value].Keys == m.Keys + {id};
    assert |m[id := value]| == |m[id := value].Keys| && |m| == |m.Keys|;
  }

  lemma NewConnTokens(rt: Runtime, offer: Offer)
    requires rt.config.Valid()
    ensures var c := NewConn(rt.config, rt.nextId, rt.nextToken, offer);
            c.clientToken == rt.nextToken && c.upstreamToken == rt.nextToken + 1
  {
  }

  lemma AcceptKept(rt: Runtime, offer: Offer)
    requires Kept(rt) && |rt.conns| < rt.config.maxConnections && offer.reachable
    ensures Kept(AcceptOne(rt, offer))
  {
    KeptIs(rt);
    AcceptIs(rt, offer);
    SameLog(rt, AcceptOne(rt, offer));
    NewConnTokens(rt, offer);
    InsertBooked(rt, AcceptOne(rt, offer), NewConn(rt.config, rt.nextId, rt.nextToken, offer));
    StartTimersAre(rt, offer);
  }

  lemma AcceptIs(rt: Runtime, offer: Offer)
    requires rt.config.Valid() && |rt.conns| < rt.config.maxConnections && offer.reachable
    ensures var s := AcceptOne(rt, offer);
            && s.config == rt.config && s.timers == StartTimers(rt.config, rt.timers, rt.nextId, offer)
            && (forall id :: id in s.conns && id != rt.nextId ==> id in rt.conns && s.conns[id] == rt.conns[id])
            && rt.nextId in s.conns && s.conns[rt.nextId] == NewConn(rt.config, rt.nextId, rt.nextToken, offer)
  {
  }

  lemma AcceptedInOrder(rt: Runtime, offer: Offer, t: Time)
    requires RestInv(rt, rt.nextId, t) && t <= offer.now && KnownTimers(rt) && rt.config.Valid()
    requires |rt.conns| < rt.config.maxConnections && offer.reachable
    ensures AllConns(AcceptOne(rt, offer), offer.now)
  {
    AcceptIs(rt, offer);
    StartTimersAre(rt, offer);
    NewConnInOrder(rt, offer);
    OthersKeep(rt, rt.nextId, StartTimers(rt.config, rt.timers, rt.nextId, offer).events, t, offer.now);
  }

  lemma AcceptOneKeeps(rt: Runtime, offer: Offer, t: Time)
    requires RuntimeInv(rt, t) && t <= offer.now
    ensures RuntimeInv(AcceptOne(rt, offer), offer.now)
  {
    if |rt.conns| >= rt.config.maxConnections || !offer.reachable {
      RuntimeLater(rt, t, offer.now);
    } else {
      RestOf(rt, rt.nextId, t);
      AcceptKept(rt, offer);
      AcceptedInOrder(rt, offer, t);
    }
  }

  ghost predicate OffersOrdered(offers: seq<Offer>, from: Time, to: Time)
    decreases |offers|
  {
    if offers == [] then from <= to else from <= offers[0].now && OffersOrdered(offers[1..], offers[0].now, to)
  }

  lemma {:induction false} AcceptReadyKeeps(rt: Runtime, offers: seq<Offer>, t: Time, now: Time)
    requires RuntimeInv(rt, t) && OffersOrdered(offers, t, now)
    ensures RuntimeInv(AcceptReady(rt, offers), now)
    decreases |offers|
  {
    if offers == [] {
      RuntimeLater(rt, t, now);
    } else {
      AcceptOneKeeps(rt, offers[0], t);
      AcceptReadyKeeps(AcceptOne(rt, offers[0]), offers[1..], offers[0].now, now);
    }
  }

  // ---- Sockets ----

  /** What an event at `now` may have made of relay `r` so far. */
  ghost predicate Follows(r: Relay, s: Relay, now: Time) {
    var follows :=
      && Good(s, now)
      && r.lastActivity <= s.lastActivity && s.acceptedAt == r.acceptedAt && (s.connecting ==> r.connecting);
    follows
  }

  lemma FollowsOn(r: Relay, s: Relay, next: Relay, now: Time)
    requires Follows(r, s, now) && Good(next, now) && MovedOn(s, next)
    ensures Follows(r, next, now)
  {
  }

  /** A change to one relay that keeps it good keeps its timers right. */
  lemma RelayPut(rt: Runtime, id: nat, r: Relay, t: Time, now: Time)
    requires RuntimeInv(rt, t) && t <= now && id in rt.conns && Follows(rt.conns[id].relay, r, now)
    ensures RestInv(PutConn(rt, id, rt.conns[id].(relay := r)), id, t)
    ensures Pumpable(PutConn(rt, id, rt.conns[id].(relay := r)), id, now)
  {
    var c := rt.conns[id];
    InOrderLater(rt, id, t, now);
    TimedMovedOn(rt.config, rt.timers.events, id, c, c.(relay := r));
    RestOf(rt, id, t);
    PutRest(rt, id, c.(relay := r), t);
    PumpableAfter(rt, id, c.(relay := r), now);
  }

  lemma InOrderLater(rt: Runtime, id: nat, t: Time, now: Time)
    requires RuntimeInv(rt, t) && t <= now && id in rt.conns
    ensures var c := rt.conns[id];
            Sound(c) && c.pumpedAt <= now && Covered(c) && Timed(rt.config, rt.timers.events, id, c)
  {
    InOrderOf(rt, id, t);
  }

  lemma PumpableAfter(rt: Runtime, id: nat, c: Conn, now: Time)
    requires Good(c.relay, now) && Timed(rt.config, rt.timers.events, id, c)
    ensures Pumpable(PutConn(rt, id, c), id, now)
  {
  }

  lemma RestOf(rt: Runtime, id: nat, t: Time)
    requires RuntimeInv(rt, t)
    ensures RestInv(rt, id, t)
  {
  }

  lemma ConnGood(rt: Runtime, id: nat, t: Time, now: Time)
    requires RuntimeInv(rt, t) && t <= now && id in rt.conns
    ensures Good(rt.conns[id].relay, now)
  {
    var c := rt.conns[id];
    InOrderOf(rt, id, t);
    LaterRelay(c.relay, c.pumpedAt, now);
  }

  lemma ReadGood(r: Relay, side: Side, hangup: bool, now: Time)
    requires Good(r, now)
    ensures Good(HandleReadable(r, side, hangup, now).0, now) && MovedOn(r, HandleReadable(r, side, hangup, now).0)
  {
    HandleReadableKeeps(r, side, hangup, now);
    HandleReadableFrame(r, side, hangup, now);
  }

  lemma {:induction false} ReadFinal(r: Relay, source: Side, hangup: bool, now: Time)
    ensures var result := HandleReadable(r, source, hangup, now).1;
            result.Close? ==> result.final == Reset || result.final == Failed
    decreases |r.wire.receives|
  {
    var step := ReadOnce(r, source, hangup, now);
    if step.Again? {
      ReadFinal(step.relay, source, hangup, now);
    }
  }

  lemma CloseAfter(rt: Runtime, id: nat, r: Relay, final: ConnectionState, t: Time, now: Time)
    requires final == Reset || final == Failed
    requires RuntimeInv(rt, t) && t <= now && id in rt.conns && Follows(rt.conns[id].relay, r, now)
    ensures RuntimeInv(CloseConnection(PutConn(rt, id, rt.conns[id].(relay := r)), id, final, now), now)
  {
    RelayPut(rt, id, r, t, now);
    SoundIsLossless(r, now);
    CloseKeeps(PutConn(rt, id, rt.conns[id].(relay := r)), id, final, t, now);
  }

  lemma PumpAfter(rt: Runtime, id: nat, r: Relay, t: Time, now: Time)
    requires RuntimeInv(rt, t) && t <= now && id in rt.conns && Follows(rt.conns[id].relay, r, now)
    ensures RuntimeInv(PumpConnection(PutConn(rt, id, rt.conns[id].(relay := r)), id, now), now)
  {
    RelayPut(rt, id, r, t, now);
    PumpKeeps(PutConn(rt, id, rt.conns[id].(relay := r)), id, t, now);
  }

  lemma ReadFollows(r: Relay, s: Relay, side: Side, ready: Readiness, now: Time)
    requires Follows(r, s, now)
    ensures var (next, result) := ReadIfReady(s, side, ready, now);
            Follows(r, next, now) && (result.Close? ==> result.final == Reset || result.final == Failed)
  {
    var hangup := ready.readHangup || ready.hangup;
    ReadGood(s, side, hangup, now);
    ReadFinal(s, side, hangup, now);
    FollowsOn(r, s, HandleReadable(s, side, hangup, now).0, now);
  }

  lemma ServeSocketKeeps(rt: Runtime, id: nat, side: Side, r: Relay, ready: Readiness, t: Time, now: Time)
    requires RuntimeInv(rt, t) && t <= now && id in rt.conns && Follows(rt.conns[id].relay, r, now)
    ensures RuntimeInv(ServeSocket(rt, id, side, r, ready, now), now)
  {
    if Failing(r, ready) {
      CloseAfter(rt, id, r, FailureOf(ready), t, now);
    } else {
      ServeReadingKeeps(rt, id, side, r, ready, t, now);
    }
  }

  lemma ServeReadingKeeps(rt: Runtime, id: nat, side: Side, r: Relay, ready: Readiness, t: Time, now: Time)
    requires RuntimeInv(rt, t) && t <= now && id in rt.conns && Follows(rt.conns[id].relay, r, now)
    requires !Failing(r, ready)
    ensures RuntimeInv(ServeSocket(rt, id, side, r, ready, now), now)
  {
    ServeSocketReads(rt, id, side, r, ready, now);
    ReadFollows(rt.conns[id].relay, r, side, ready, now);
    var (r1, result) := ReadIfReady(r, side, ready, now);
    GoOnAfter(rt, id, r1, result, t, now);
  }

  lemma ServeSocketReads(rt: Runtime, id: nat, side: Side, r: Relay, ready: Readiness, now: Time)
    requires id in rt.conns && !Failing(r, ready)
    ensures var (r1, result) := ReadIfReady(r, side, ready, now);
            ServeSocket(rt, id, side, r, ready, now) == GoOn(rt, id, r1, result, now)
  {
  }

  /** The rest of serving a socket, once it has been read. */
  function GoOn(rt: Runtime, id: nat, r: Relay, result: PumpResult, now: Time): Runtime
    requires id in rt.conns
  {
    var rt1 := PutConn(rt, id, rt.conns[id].(relay := r));
    if result.Close? then CloseConnection(rt1, id, result.final, now) else PumpConnection(rt1, id, now)
  }

  /** Closing or pumping, as the result of a read says, puts the connection in order. */
  lemma GoOnAfter(rt: Runtime, id: nat, r: Relay, result: PumpResult, t: Time, now: Time)
    requires RuntimeInv(rt, t) && t <= now && id in rt.conns && Follows(rt.conns[id].relay, r, now)
    requires result.Close? ==> result.final == Reset || result.final == Failed
    ensures RuntimeInv(GoOn(rt, id, r, result, now), now)
  {
    if result.Close? {
      CloseAfter(rt, id, r, result.final, t, now);
    } else {
      PumpAfter(rt, id, r, t, now);
    }
  }

  lemma ConnectedGood(r: Relay, now: Time)
    requires Good(r, now)
    ensures Good(MarkConnected(r), now)
    ensures MarkConnected(r).lastActivity == r.lastActivity && MarkConnected(r).acceptedAt == r.acceptedAt
  {
    MarkConnectedKeeps(r, now);
  }

  lemma SocketReadyKeeps(rt: Runtime, token: nat, ready: Readiness, t: Time, now: Time)
    requires RuntimeInv(rt, t) && t <= now
    ensures RuntimeInv(SocketReady(rt, token, ready, now), now)
  {
    if token !in rt.bindings || rt.bindings[token].id !in rt.conns {
      RuntimeLater(rt, t, now);
    } else {
      var id, side := rt.bindings[token].id, rt.bindings[token].side;
      var r := rt.conns[id].relay;
      ConnGood(rt, id, t, now);
      if side.Upstream? && r.connecting && ready.writable {
        if ready.connectFailed {
          RestOf(rt, id, t);
          SoundIsLossless(r, now);
          CloseKeeps(rt, id, Failed, t, now);
        } else {
          ConnectedGood(r, now);
          ServeSocketKeeps(rt, id, side, MarkConnected(r), ready, t, now);
        }
      } else {
        ServeSocketKeeps(rt, id, side, r, ready, t, now);
      }
    }
  }
}
