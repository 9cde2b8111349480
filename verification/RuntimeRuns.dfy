/** Guarantees of the event loop over whole runs. */
module RuntimeRuns {
  import opened Basics
  import opened RelayModel
  import opened RelayInvariant
  import opened RelayRuns
  import opened TimerQueues
  import opened RuntimeModel
  import opened RuntimeInvariant

  // ---- Every reachable state ----

  /** One step of a run: an event is handled, or, events handled, the timer is armed. */
  datatype Step = Handling(event: LoopEvent) | Arming(settable: bool)

  ghost function Take(rt: Runtime, step: Step): Runtime
    requires rt.config.Valid()
  {
    match step
    case Handling(event) => HandleEvent(rt, event)
    case Arming(settable) => ArmTimerFd(rt, settable)
  }

  /** The step happens between `from` and `to`. */
  ghost predicate Happens(step: Step, from: Time, to: Time) {
    match step
    case Arming(_) => from <= to
    case Handling(ListenerReady(offers, now)) => OffersOrdered(offers, from, now) && now <= to
    case Handling(event) => from <= event.now <= to
  }

  lemma ArmKeeps(rt: Runtime, settable: bool, t: Time)
    requires RuntimeInv(rt, t)
    ensures RuntimeInv(ArmTimerFd(rt, settable), t)
  {
    SameConns(rt, ArmTimerFd(rt, settable), t);
  }

  /** The arming state may change as long as the cache stays truthful. */
  lemma SameConns(rt: Runtime, s: Runtime, t: Time)
    requires RuntimeInv(rt, t) && Armed(s)
    requires s == rt.(fd := s.fd, lastArmed := s.lastArmed)
    ensures RuntimeInv(s, t)
  {
    SameLog(rt, s);
    SameOthers(rt, s, t);
  }

  lemma SameOthers(rt: Runtime, s: Runtime, t: Time)
    requires s == rt.(fd := s.fd, lastArmed := s.lastArmed)
    ensures AllConns(rt, t) ==> AllConns(s, t)
    ensures Booked(rt) && KnownTimers(rt) ==> Booked(s) && KnownTimers(s)
  {
  }

  lemma ProcessDueKeeps(rt: Runtime, t: Time, now: Time)
    requires RuntimeInv(rt, t) && t <= now
    ensures RuntimeInv(HandleEvent(rt, TimerReady(now)), now)
    ensures Due(HandleEvent(rt, TimerReady(now)).timers, now) == {}
  {
    ReadKeeps(rt, t);
    TimerReadyIs(rt, now);
    DrainKeeps(rt.(fd := ReadTimerFd(rt.fd), lastArmed := None), t, now);
  }

  lemma TimerReadyIs(rt: Runtime, now: Time)
    requires rt.config.Valid()
    ensures HandleEvent(rt, TimerReady(now)) == Drain(rt.(fd := ReadTimerFd(rt.fd), lastArmed := None), now)
  {
  }

  /** Reading the expiration goes with forgetting what was armed. */
  lemma ReadKeeps(rt: Runtime, t: Time)
    requires RuntimeInv(rt, t)
    ensures RuntimeInv(rt.(fd := ReadTimerFd(rt.fd), lastArmed := None), t)
  {
    SameConns(rt, rt.(fd := ReadTimerFd(rt.fd), lastArmed := None), t);
  }

  lemma EventStepKeeps(rt: Runtime, event: LoopEvent, t: Time, now: Time)
    requires RuntimeInv(rt, t) && Happens(Handling(event), t, now)
    ensures event.now <= now && RuntimeInv(HandleEvent(rt, event), event.now)
  {
    match event
    case ListenerReady(offers, at) => AcceptReadyKeeps(rt, offers, t, at);
    case TimerReady(at) => ProcessDueKeeps(rt, t, at);
    case SocketEvent(token, ready, at) => SocketReadyKeeps(rt, token, ready, t, at);
    case ClockMoves(at) => ClockKeeps(rt, t, at);
  }

  lemma ArmedOf(rt: Runtime, t: Time)
    requires RuntimeInv(rt, t)
    ensures Armed(rt)
  {
  }

  /** An expiration that is due may be reported, but not forgotten. */
  lemma TickArmed(rt: Runtime, now: Time)
    requires Armed(rt)
    ensures Armed(rt.(fd := Tick(rt.fd, now)))
  {
  }

  lemma TickKeeps(rt: Runtime, t: Time, now: Time)
    requires RuntimeInv(rt, t) && t <= now
    ensures RuntimeInv(rt.(fd := Tick(rt.fd, now)), now)
  {
    var s := rt.(fd := Tick(rt.fd, now));
    ArmedOf(rt, t);
    TickArmed(rt, now);
    SameConns(rt, s, t);
    RuntimeLater(s, t, now);
  }

  lemma ClockIs(rt: Runtime, now: Time)
    requires rt.config.Valid()
    ensures HandleEvent(rt, ClockMoves(now)) == rt.(fd := Tick(rt.fd, now))
  {
  }

  lemma ClockKeeps(rt: Runtime, t: Time, now: Time)
    requires RuntimeInv(rt, t) && t <= now
    ensures RuntimeInv(HandleEvent(rt, ClockMoves(now)), now)
  {
    ClockIs(rt, now);
    TickKeeps(rt, t, now);
  }

  lemma StepKeeps(rt: Runtime, step: Step, t: Time, now: Time)
    requires RuntimeInv(rt, t) && Happens(step, t, now)
    ensures RuntimeInv(Take(rt, step), now)
  {
    match step
    case Arming(settable) =>
      ArmKeeps(rt, settable, t);
      RuntimeLater(ArmTimerFd(rt, settable), t, now);
    case Handling(event) =>
      EventStepKeeps(rt, event, t, now);
      RuntimeLater(HandleEvent(rt, event), event.now, now);
  }

  // ---- Tokens and ids are not reused ----

  /** From `rt` to `s` no connection has come back: new ones have new ids. */
  ghost predicate OnlyNew(rt: Runtime, s: Runtime) {
    && rt.nextId <= s.nextId && s.config == rt.config
    && forall id :: id in s.conns ==> id in rt.conns || id >= rt.nextId
  }

  lemma PumpOnlyNew(rt: Runtime, id: nat, now: Time)
    ensures OnlyNew(rt, PumpConnection(rt, id, now))
  {
  }

  lemma EventOnlyNew(rt: Runtime, e: TimerEvent, now: Time)
    ensures OnlyNew(rt, ProcessEvent(rt, e, now))
  {
    if e.id in rt.conns {
      ProcessEventIs(rt, e, now);
      PumpOnlyNew(PutConn(rt, e.id, Woken(rt.conns[e.id], now)), e.id, now);
    }
  }

  lemma {:induction false} DrainOnlyNew(rt: Runtime, now: Time)
    ensures OnlyNew(rt, Drain(rt, now))
    decreases Due(rt.timers, now)
  {
    var (ts, popped) := PopDue(rt.timers, now);
    if popped.Some? {
      DrainProgress(rt, now);
      EventOnlyNew(rt.(timers := ts), popped.value, now);
      DrainOnlyNew(ProcessEvent(rt.(timers := ts), popped.value, now), now);
    }
  }

  lemma {:induction false} AcceptOnlyNew(rt: Runtime, offers: seq<Offer>)
    requires rt.config.Valid()
    ensures OnlyNew(rt, AcceptReady(rt, offers))
    decreases |offers|
  {
    if offers != [] {
      AcceptOnlyNew(AcceptOne(rt, offers[0]), offers[1..]);
    }
  }

  lemma ServeOnlyNew(rt: Runtime, id: nat, side: Side, r: Relay, ready: Readiness, now: Time)
    requires id in rt.conns
    ensures OnlyNew(rt, ServeSocket(rt, id, side, r, ready, now))
  {
    var c := rt.conns[id];
    var (r1, _) := ReadIfReady(r, side, ready, now);
    PumpOnlyNew(PutConn(rt, id, c.(relay := r1)), id, now);
  }

  lemma SocketOnlyNew(rt: Runtime, token: nat, ready: Readiness, now: Time)
    ensures OnlyNew(rt, SocketReady(rt, token, ready, now))
  {
    if token in rt.bindings && rt.bindings[token].id in rt.conns {
      var b := rt.bindings[token];
      var r := rt.conns[b.id].relay;
      ServeOnlyNew(rt, b.id, b.side, MarkConnected(r), ready, now);
      ServeOnlyNew(rt, b.id, b.side, r, ready, now);
    }
  }

  lemma StepOnlyNew(rt: Runtime, step: Step)
    requires rt.config.Valid()
    ensures OnlyNew(rt, Take(rt, step))
  {
    match step
    case Arming(_) =>
    case Handling(event) =>
      match event {
        case ListenerReady(offers, _) => AcceptOnlyNew(rt, offers);
        case TimerReady(now) => DrainOnlyNew(rt.(fd := ReadTimerFd(rt.fd), lastArmed := None), now);
        case SocketEvent(token, ready, now) => SocketOnlyNew(rt, token, ready, now);
        case ClockMoves(_) =>
      }
  }

  // ---- Runs ----

  /** A step, and the time by which it has happened. */
  datatype Moment = Moment(step: Step, at: Time)

  /** The steps happen one after the other between two times. */
  ghost predicate RunOf(moments: seq<Moment>, from: Time, to: Time)
    decreases |moments|
  {
    if moments == [] then from <= to
    else Happens(moments[0].step, from, moments[0].at) && RunOf(moments[1..], moments[0].at, to)
  }

  ghost function TakeAll(rt: Runtime, moments: seq<Moment>): Runtime
    requires rt.config.Valid()
    decreases |moments|
  {
    if moments == [] then rt
    else
      StepOnlyNew(rt, moments[0].step);
      TakeAll(Take(rt, moments[0].step), moments[1..])
  }

  lemma {:induction false} RunKeepsOrder(rt: Runtime, moments: seq<Moment>, t: Time, to: Time)
    requires RuntimeInv(rt, t) && RunOf(moments, t, to)
    ensures RuntimeInv(TakeAll(rt, moments), to)
    decreases |moments|
  {
    if moments == [] {
      RuntimeLater(rt, t, to);
    } else {
      StepKeeps(rt, moments[0].step, t, moments[0].at);
      StepOnlyNew(rt, moments[0].step);
      RunKeepsOrder(Take(rt, moments[0].step), moments[1..], moments[0].at, to);
    }
  }

  /** A state that some run of the proxy under `config` is in at time `t`. */
  ghost predicate Reachable(config: RuntimeConfig, rt: Runtime, t: Time) {
    config.Valid() && exists moments :: RunOf(moments, 0, t) && rt == TakeAll(NewRuntime(config), moments)
  }

  /** Every reachable state is in order. */
  lemma ReachableInOrder(config: RuntimeConfig, rt: Runtime, t: Time)
    requires Reachable(config, rt, t)
    ensures RuntimeInv(rt, t) && rt.config.Valid()
  {
    var moments :| RunOf(moments, 0, t) && rt == TakeAll(NewRuntime(config), moments);
    NewRuntimeInv(config, 0);
    RunKeepsOrder(NewRuntime(config), moments, 0, t);
  }

  lemma LiveIs(config: RuntimeConfig, rt: Runtime, t: Time, id: nat)
    requires Reachable(config, rt, t) && id in rt.conns
    ensures var c := rt.conns[id];
            Sound(c) && c.pumpedAt <= t && Covered(c) && Timed(rt.config, rt.timers.events, id, c)
  {
    ReachableInOrder(config, rt, t);
    InOrderLater(rt, id, t, t);
  }

  lemma BooksAre(config: RuntimeConfig, rt: Runtime, t: Time)
    requires Reachable(config, rt, t)
    ensures Numbering(rt) && rt.bindings == BindingsOf(rt.conns.Keys) && Tallied(rt)
    ensures Logged(rt) && KnownTimers(rt)
  {
    ReachableInOrder(config, rt, t);
    KeptIs(rt);
  }

  // ---- The guarantees ----

  /** The table is consistent: exactly two bindings per live connection, tokens fresh and never
      below four, every accepted connection live or counted in one of the four close counters. */
  lemma BooksBalance(config: RuntimeConfig, rt: Runtime, t: Time)
    requires Reachable(config, rt, t)
    ensures forall token :: token in rt.bindings <==> token in Tokens(rt.conns.Keys)
    ensures rt.nextId - 1 == |rt.conns| + rt.closes.Total()
    ensures |rt.conns| <= rt.config.maxConnections
  {
    BooksAre(config, rt, t);
  }

  lemma TokensResolve(config: RuntimeConfig, rt: Runtime, t: Time, id: nat, side: Side)
    requires Reachable(config, rt, t) && id in rt.conns
    ensures var token := TokenOf(id, side);
            && token in rt.bindings && rt.bindings[token] == Binding(id, side) && 4 <= token < rt.nextToken
            && token == if side.Client? then rt.conns[id].clientToken else rt.conns[id].upstreamToken
  {
    BooksAre(config, rt, t);
    TokenRoundTrip(id, side);
    assert TokenOf(id, side) in Tokens(rt.conns.Keys);
  }

  /** No lost wake: a live connection's write-open, connected destination with queued bytes has
      write interest registered, or a pump entry no later than the wake it needs. */
  lemma NoLostWake(config: RuntimeConfig, rt: Runtime, t: Time, id: nat, destination: Side)
    requires Reachable(config, rt, t) && id in rt.conns
    requires var r := rt.conns[id].relay; r.Writable(destination) && r.QueueTo(destination) != []
    ensures var c := rt.conns[id];
            var wake := NextWake(c.relay, destination, c.pumpedAt).1;
            var mask := if destination.Client? then c.clientMask else c.upstreamMask;
            && mask.write != wake.Some?
            && (wake.Some? ==>
                  && wake.value > c.pumpedAt
                  && exists e :: e in rt.timers.events && e.id == id && e.kind == Pump && e.deadline <= wake.value)
  {
    LiveIs(config, rt, t, id);
    var c := rt.conns[id];
    OneBlock(c.relay, destination, c.pumpedAt);
  }

  /** Every live connection forwards in order and losslessly, and no lifecycle fault of its is due. */
  lemma LiveStreamsAreFifo(config: RuntimeConfig, rt: Runtime, t: Time, id: nat, source: Side)
    requires Reachable(config, rt, t) && id in rt.conns
    ensures var r := rt.conns[id].relay;
            var f := r.flows.At(source);
            && f.received == f.sent + f.lane.queue
            && r.metrics.bytesRead.At(source) == |f.received| && r.metrics.bytesWritten.At(source.Other()) == |f.sent|
            && NoFaultDue(r)
  {
    LiveIs(config, rt, t, id);
    SoundStreams(rt.conns[id], source);
  }

  lemma SoundStreams(c: Conn, source: Side)
    requires Sound(c)
    ensures var r := c.relay;
            var f := r.flows.At(source);
            && f.received == f.sent + f.lane.queue
            && r.metrics.bytesRead.At(source) == |f.received| && r.metrics.bytesWritten.At(source.Other()) == |f.sent|
            && NoFaultDue(r)
  {
  }

  lemma ClosingIsJustified(config: RuntimeConfig, rt: Runtime, t: Time, k: nat)
    requires Reachable(config, rt, t) && k < |rt.log|
    ensures rt.config.Valid() && Justified(rt.config, rt.log[k])
  {
    ReachableInOrder(config, rt, t);
  }

  /** Every connection ever closed had forwarded in order and losslessly. One closed as fully
      closed had both streams end, and, unless a half-close was injected, everything either side
      sent had reached the other. */
  lemma FullyClosedIsDelivered(config: RuntimeConfig, rt: Runtime, t: Time, k: nat, source: Side)
    requires Reachable(config, rt, t) && k < |rt.log|
    ensures Lossless(rt.log[k].relay, source)
    ensures rt.log[k].final == FullyClosed ==> AllDelivered(rt.log[k].relay)
  {
    ClosingIsJustified(config, rt, t, k);
  }

  /** Timeouts are sound: every connection ever closed as timed out had then been idle for the
      limit, or was still connecting at its deadline. */
  lemma TimeoutsSound(config: RuntimeConfig, rt: Runtime, t: Time, k: nat)
    requires Reachable(config, rt, t) && k < |rt.log| && rt.log[k].final == TimedOut
    ensures Overdue(rt.config, rt.log[k].relay, rt.log[k].at)
  {
    ClosingIsJustified(config, rt, t, k);
  }

  /** Every accepted connection is live, or has been closed and logged once; the close counters
      count what was logged. */
  lemma ClosedOnce(config: RuntimeConfig, rt: Runtime, t: Time)
    requires Reachable(config, rt, t)
    ensures rt.closes == Tally(rt.log) && rt.nextId - 1 == |rt.conns| + |rt.log|
    ensures forall j, k :: 0 <= j < k < |rt.log| ==> rt.log[j].id != rt.log[k].id
    ensures forall k :: 0 <= k < |rt.log| ==> 1 <= rt.log[k].id < rt.nextId && rt.log[k].id !in rt.conns
  {
    BooksAre(config, rt, t);
    TallyTotal(rt.log);
  }

  lemma {:induction false} TallyTotal(log: seq<Closing>)
    ensures Tally(log).Total() == |log|
  {
    if log != [] {
      TallyTotal(log[..|log| - 1]);
    }
  }

  /** Reads are registered exactly when the source is open and not paused for backpressure. */
  lemma ReadsRegistered(config: RuntimeConfig, rt: Runtime, t: Time, id: nat, side: Side)
    requires Reachable(config, rt, t) && id in rt.conns
    requires !(side.Upstream? && rt.conns[id].relay.connecting)
    ensures var c := rt.conns[id];
            var mask := if side.Client? then c.clientMask else c.upstreamMask;
            mask.read <==> c.relay.readOpen.At(side) && !c.relay.flows.At(side).lane.tracker.paused
  {
    LiveIs(config, rt, t, id);
    CoveredReads(rt.conns[id], side);
  }

  lemma CoveredReads(c: Conn, side: Side)
    requires Covered(c) && !(side.Upstream? && c.relay.connecting)
    ensures var mask := if side.Client? then c.clientMask else c.upstreamMask;
            mask.read <==> c.relay.readOpen.At(side) && !c.relay.flows.At(side).lane.tracker.paused
  {
  }

  /** Once armed, the timer is set for the earliest pending entry, or an expiration is waiting to
      be read. */
  lemma TimerCoversAll(config: RuntimeConfig, rt: Runtime, t: Time)
    requires Reachable(config, rt, t)
    ensures var s := ArmTimerFd(rt, true);
            && s.timers == rt.timers
            && (s.timers.events != {} && !s.fd.expired ==>
                  exists e :: IsTop(e, s.timers.events) && s.fd.armed == Some(Max(e.deadline, 1)))
  {
    if rt.timers.events != {} {
      ArmedAfter(config, rt, t);
      ArmedForTop(rt);
    }
  }

  lemma ArmedAfter(config: RuntimeConfig, rt: Runtime, t: Time)
    requires Reachable(config, rt, t)
    ensures Armed(ArmTimerFd(rt, true))
  {
    ReachableInOrder(config, rt, t);
    ArmKeeps(rt, true, t);
  }

  lemma ArmedForTop(rt: Runtime)
    requires Armed(ArmTimerFd(rt, true)) && rt.timers.events != {}
    ensures var s := ArmTimerFd(rt, true);
            s.fd.expired || s.fd.armed == Some(Max(Top(rt.timers).deadline, 1))
    ensures IsTop(Top(rt.timers), rt.timers.events)
  {
  }

  /** Nothing stalls unwatched: once the timer is armed, a write-open, connected destination with
      queued bytes has write interest registered, or the timer goes off no later than the wake it
      needs, or has gone off already. */
  lemma NothingStallsUnwatched(config: RuntimeConfig, rt: Runtime, t: Time, id: nat, destination: Side)
    requires Reachable(config, rt, t) && id in rt.conns
    requires var r := rt.conns[id].relay; r.Writable(destination) && r.QueueTo(destination) != []
    ensures var c := rt.conns[id];
            var wake := NextWake(c.relay, destination, c.pumpedAt).1;
            var fd := ArmTimerFd(rt, true).fd;
            || (if destination.Client? then c.clientMask else c.upstreamMask).write
            || fd.expired
            || (wake.Some? && fd.armed.Some? && fd.armed.value <= wake.value)
  {
    NoLostWake(config, rt, t, id, destination);
    TimerCoversAll(config, rt, t);
  }

  /** With idle timeouts on, each live connection has exactly one idle entry pending, set no later
      than the connection could time out. */
  lemma OneIdleEntry(config: RuntimeConfig, rt: Runtime, t: Time, id: nat) returns (e: TimerEvent)
    requires Reachable(config, rt, t) && id in rt.conns && rt.config.idleTimeout > 0
    ensures e.deadline <= rt.conns[id].relay.lastActivity + rt.config.IdleLimit()
    ensures forall f :: f in rt.timers.events && f.id == id && f.kind == IdleTimeout <==> f == e
  {
    LiveIs(config, rt, t, id);
    e :| e in rt.timers.events && e.id == id && e.kind == IdleTimeout;
  }

  /** With timeouts off nothing has an entry for one. */
  lemma NoEntryIfDisabled(config: RuntimeConfig, rt: Runtime, t: Time, e: TimerEvent)
    requires Reachable(config, rt, t) && e in rt.timers.events
    ensures rt.config.idleTimeout == 0 ==> e.kind != IdleTimeout
    ensures rt.config.connectTimeout == 0 ==> e.kind != ConnectTimeout
  {
    BooksAre(config, rt, t);
  }

  /** Timeouts are complete: handling the timer at `now` leaves nothing due, no survivor has been
      idle for the limit, and none is still connecting past its deadline. */
  lemma TimeoutsComplete(config: RuntimeConfig, rt: Runtime, t: Time, now: Time, id: nat)
    requires Reachable(config, rt, t) && t <= now && rt.config.Valid()
    requires id in HandleEvent(rt, TimerReady(now)).conns
    ensures var s := HandleEvent(rt, TimerReady(now));
            var r := s.conns[id].relay;
            && Due(s.timers, now) == {}
            && (s.config.idleTimeout > 0 ==> r.lastActivity + s.config.IdleLimit() > now)
            && (s.config.connectTimeout > 0 && r.connecting ==> r.acceptedAt + s.config.ConnectLimit() > now)
  {
    ReachableInOrder(config, rt, t);
    ProcessDueKeeps(rt, t, now);
    var s := HandleEvent(rt, TimerReady(now));
    InOrderLater(s, id, now, now);
    NothingDue(s.config, s.timers, id, s.conns[id], now);
  }

  lemma NothingDue(config: RuntimeConfig, ts: Timers, id: nat, c: Conn, now: Time)
    requires Timed(config, ts.events, id, c) && Due(ts, now) == {}
    ensures config.idleTimeout > 0 ==> c.relay.lastActivity + config.IdleLimit() > now
    ensures config.connectTimeout > 0 && c.relay.connecting ==> c.relay.acceptedAt + config.ConnectLimit() > now
  {
    assert forall e :: e in ts.events ==> e !in Due(ts, now);
  }

  lemma PumpNeverTimesOut(rt: Runtime, id: nat, now: Time)
    ensures PumpConnection(rt, id, now).closes.timedOut == rt.closes.timedOut
  {
    if id in rt.conns {
      FlushBothFinal(rt.conns[id].relay, now);
    }
  }

  lemma ServeNeverTimesOut(rt: Runtime, id: nat, side: Side, r: Relay, ready: Readiness, now: Time)
    requires id in rt.conns
    ensures ServeSocket(rt, id, side, r, ready, now).closes.timedOut == rt.closes.timedOut
  {
    var c := rt.conns[id];
    var (r1, result) := ReadIfReady(r, side, ready, now);
    if Failing(r, ready) {
      OtherCloses(PutConn(rt, id, c.(relay := r)), id, FailureOf(ready), now);
    } else if result.Close? {
      ReadFinal(r, side, ready.readHangup || ready.hangup, now);
      OtherCloses(PutConn(rt, id, c.(relay := r1)), id, result.final, now);
    } else {
      PumpNeverTimesOut(PutConn(rt, id, c.(relay := r1)), id, now);
    }
  }

  lemma OtherCloses(rt: Runtime, id: nat, final: ConnectionState, now: Time)
    requires final != TimedOut
    ensures CloseConnection(rt, id, final, now).closes.timedOut == rt.closes.timedOut
  {
  }

  lemma {:induction false} AcceptNeverTimesOut(rt: Runtime, offers: seq<Offer>)
    requires rt.config.Valid()
    ensures AcceptReady(rt, offers).closes == rt.closes
    decreases |offers|
  {
    if offers != [] {
      AcceptNeverTimesOut(AcceptOne(rt, offers[0]), offers[1..]);
    }
  }

  /** Nothing but the timer times a connection out. */
  lemma OnlyTheTimerTimesOut(rt: Runtime, step: Step)
    requires rt.config.Valid() && !(step.Handling? && step.event.TimerReady?)
    ensures Take(rt, step).closes.timedOut == rt.closes.timedOut
  {
    if step.Handling? {
      match step.event {
        case ListenerReady(offers, _) => AcceptNeverTimesOut(rt, offers);
        case SocketEvent(token, ready, now) =>
          if token in rt.bindings && rt.bindings[token].id in rt.conns {
            var b := rt.bindings[token];
            var r := rt.conns[b.id].relay;
            ServeNeverTimesOut(rt, b.id, b.side, MarkConnected(r), ready, now);
            ServeNeverTimesOut(rt, b.id, b.side, r, ready, now);
          }
        case ClockMoves(_) =>
      }
    }
  }

  /** Once gone, gone for good: a closed connection never returns in any run, its two tokens are
      never bound again, and an event carrying one of them changes nothing. */
  lemma {:induction false} GoneForGood(rt: Runtime, moments: seq<Moment>, t: Time, to: Time, id: nat, side: Side)
    requires RuntimeInv(rt, t) && RunOf(moments, t, to)
    requires id < rt.nextId && id !in rt.conns
    ensures var s := TakeAll(rt, moments);
            && id !in s.conns && TokenOf(id, side) !in s.bindings
            && forall ready, now :: SocketReady(s, TokenOf(id, side), ready, now) == s
    decreases |moments|
  {
    if moments == [] {
      Unbound(rt, t, id, side);
    } else {
      StepKeeps(rt, moments[0].step, t, moments[0].at);
      StepOnlyNew(rt, moments[0].step);
      GoneForGood(Take(rt, moments[0].step), moments[1..], moments[0].at, to, id, side);
    }
  }

  lemma Unbound(rt: Runtime, t: Time, id: nat, side: Side)
    requires RuntimeInv(rt, t) && id !in rt.conns
    ensures TokenOf(id, side) !in rt.bindings
  {
    if TokenOf(id, side) in rt.bindings {
      var other, otherSide: Side :| other in rt.conns && TokenOf(id, side) == TokenOf(other, otherSide);
      TokenRoundTrip(id, side);
      TokenRoundTrip(other, otherSide);
    }
  }
}
