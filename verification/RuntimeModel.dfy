/** The proxy's event loop on values: the connection table, token bindings, deadline queue and
    timer descriptor, and what each kind of event makes of them. */
module RuntimeModel {
  import opened Basics
  import opened SocketIos
  import opened Pacing
  import opened RelayModel
  import opened TimerQueues

  /** Timeouts in milliseconds; zero disables them. */
  datatype RuntimeConfig = RuntimeConfig(
    relay: RelayConfig, plan: FaultPlan, maxConnections: nat, connectTimeout: nat, idleTimeout: nat)
  {
    predicate Valid() {
      && relay.Valid() && plan.Valid() && maxConnections > 0
      && connectTimeout <= 600_000 && idleTimeout <= 600_000
    }

    function ConnectLimit(): nat { connectTimeout * NS_PER_MS }

    function IdleLimit(): nat { idleTimeout * NS_PER_MS }
  }

  const NO_INTEREST: Interest := Interest(false, false)

  const NO_FAULTS: FaultPlan := FaultPlan(0, BothDirections, 0, 0, 0, 0, 0, 0)

  /** `pumpedAt` records when the connection was last accepted or pumped. */
  datatype Conn = Conn(
    relay: Relay, clientToken: nat, upstreamToken: nat,
    clientMask: Interest, upstreamMask: Interest,
    scheduledWake: Option<Time>, pumpedAt: Time)

  datatype Binding = Binding(id: nat, side: Side)

  /** The kernel's timer: the deadline it is armed for, and whether an expiration is unread. */
  datatype TimerFd = TimerFd(armed: Option<Time>, expired: bool)

  datatype Closes = Closes(fullyClosed: nat, reset: nat, failed: nat, timedOut: nat) {
    function Total(): nat { fullyClosed + reset + failed + timedOut }

    function Count(final: ConnectionState): Closes {
      match final
      case Reset => this.(reset := reset + 1)
      case Failed => this.(failed := failed + 1)
      case TimedOut => this.(timedOut := timedOut + 1)
      case _ => this.(fullyClosed := fullyClosed + 1)
    }
  }

  /** What is logged of a connection when it is closed: how, when, and its relay at that moment. */
  datatype Closing = Closing(id: nat, final: ConnectionState, relay: Relay, at: Time)

  datatype Runtime = Runtime(
    config: RuntimeConfig, conns: map<nat, Conn>, bindings: map<nat, Binding>, timers: Timers,
    lastArmed: Option<Time>, fd: TimerFd, nextId: nat, nextToken: nat, closes: Closes, log: seq<Closing>)

  function NewRuntime(config: RuntimeConfig): Runtime {
    Runtime(config, map[], map[], TimersData({}, 1), None, TimerFd(None, false), 1, 4, Closes(0, 0, 0, 0), [])
  }

  // ---- One connection ----

  function CloseConnection(rt: Runtime, id: nat, final: ConnectionState, now: Time): Runtime {
    if id !in rt.conns then rt
    else
      var c := rt.conns[id];
      rt.(bindings := rt.bindings - {c.clientToken, c.upstreamToken},
          conns := rt.conns - {id},
          closes := rt.closes.Count(final),
          log := rt.log + [Closing(id, final, c.relay, now)])
  }

  function PutConn(rt: Runtime, id: nat, c: Conn): Runtime {
    rt.(conns := rt.conns[id := c])
  }

  function WithInterest(c: Conn, side: Side, now: Time): Conn {
    var (relay, mask) := DesiredInterest(c.relay, side, now);
    if side.Client? then c.(relay := relay, clientMask := mask) else c.(relay := relay, upstreamMask := mask)
  }

  function RefreshOrClose(rt: Runtime, id: nat, now: Time): Runtime {
    if id !in rt.conns then rt
    else if FullyDrained(rt.conns[id].relay) then CloseConnection(rt, id, FullyClosed, now)
    else PutConn(rt, id, WithInterest(WithInterest(rt.conns[id], Client, now), Upstream, now))
  }

  /** The earlier of the two destinations' wakes. */
  function WakeOfBoth(r: Relay, now: Time): (Relay, Option<Time>) {
    var (r1, first) := NextWake(r, Upstream, now);
    var (r2, second) := NextWake(r1, Client, now);
    (r2, if second.Some? && (first.None? || second.value < first.value) then second else first)
  }

  predicate WakeNeeded(c: Conn, wake: Option<Time>) {
    wake.Some? && (c.scheduledWake.None? || wake.value < c.scheduledWake.value)
  }

  function ScheduleRelayWake(rt: Runtime, id: nat, now: Time): Runtime {
    if id !in rt.conns then rt
    else
      var c := rt.conns[id];
      var (relay, wake) := WakeOfBoth(c.relay, now);
      if WakeNeeded(c, wake) then
        PutConn(rt, id, c.(relay := relay, scheduledWake := wake)).(timers := Schedule(rt.timers, wake.value, id, Pump))
      else PutConn(rt, id, c.(relay := relay))
  }

  function FlushBoth(r: Relay, now: Time): (Relay, PumpResult) {
    if r.connecting then (r, Continue)
    else
      var (r1, result) := Flush(r, Upstream, now);
      if result.Close? then (r1, result) else Flush(r1, Client, now)
  }

  function PumpConnection(rt: Runtime, id: nat, now: Time): Runtime {
    if id !in rt.conns then rt
    else
      var c := rt.conns[id];
      var (r1, result) := FlushBoth(c.relay, now);
      var rt1 := PutConn(rt, id, c.(relay := r1));
      if result.Close? then CloseConnection(rt1, id, result.final, now)
      else
        var rt2 := PutConn(rt, id, c.(relay := PropagateHalfCloses(r1), pumpedAt := now));
        ScheduleRelayWake(RefreshOrClose(rt2, id, now), id, now)
  }

  // ---- Timers ----

  function ProcessEvent(rt: Runtime, e: TimerEvent, now: Time): Runtime {
    if e.id !in rt.conns then rt
    else
      var c := rt.conns[e.id];
      match e.kind
      case Pump =>
        var woken := c.scheduledWake.Some? && c.scheduledWake.value <= now;
        PumpConnection(PutConn(rt, e.id, if woken then c.(scheduledWake := None) else c), e.id, now)
      case ConnectTimeout =>
        if c.relay.connecting then CloseConnection(rt, e.id, TimedOut, now) else rt
      case IdleTimeout =>
        var deadline := c.relay.lastActivity + rt.config.IdleLimit();
        if now >= deadline then CloseConnection(rt, e.id, TimedOut, now)
        else rt.(timers := Schedule(rt.timers, deadline, e.id, IdleTimeout))
  }

  /** All of `b` that is not in `a` is due only after `now`, for connections `a` already knows of. */
  ghost predicate AddsLater(a: Timers, b: Timers, id: nat, now: Time) {
    forall e :: e in b.events ==> e in a.events || (e.deadline > now && e.id == id)
  }

  lemma WakeOfBothLater(r: Relay, now: Time)
    ensures var wake := WakeOfBoth(r, now).1; wake.Some? ==> wake.value > now
  {
    var (r1, _) := NextWake(r, Upstream, now);
    WakeIsLater(r.FaultTo(Upstream), |r.QueueTo(Upstream)|, now);
    WakeIsLater(r1.FaultTo(Client), |r1.QueueTo(Client)|, now);
  }

  /** Whatever is scheduled while draining at `now` is due strictly later. */
  lemma ProcessEventAddsLater(rt: Runtime, e: TimerEvent, now: Time)
    ensures AddsLater(rt.timers, ProcessEvent(rt, e, now).timers, e.id, now)
  {
    if e.id in rt.conns && e.kind == Pump {
      var c := rt.conns[e.id];
      var woken := c.scheduledWake.Some? && c.scheduledWake.value <= now;
      PumpAddsLater(PutConn(rt, e.id, if woken then c.(scheduledWake := None) else c), e.id, now);
    }
  }

  lemma PumpAddsLater(rt: Runtime, id: nat, now: Time)
    ensures AddsLater(rt.timers, PumpConnection(rt, id, now).timers, id, now)
  {
    if id in rt.conns {
      var c := rt.conns[id];
      var (r1, result) := FlushBoth(c.relay, now);
      var rt2 := PutConn(rt, id, c.(relay := PropagateHalfCloses(r1), pumpedAt := now));
      var rt3 := RefreshOrClose(rt2, id, now);
      if id in rt3.conns {
        WakeOfBothLater(rt3.conns[id].relay, now);
      }
    }
  }

  /** Each round of draining leaves strictly fewer due entries: draining ends. */
  lemma DrainProgress(rt: Runtime, now: Time)
    ensures var (ts, popped) := PopDue(rt.timers, now);
            popped.Some? ==> Due(ProcessEvent(rt.(timers := ts), popped.value, now).timers, now) < Due(rt.timers, now)
  {
    PopTakesFirst(rt.timers, now);
    var (ts, popped) := PopDue(rt.timers, now);
    if popped.Some? {
      ProcessEventAddsLater(rt.(timers := ts), popped.value, now);
    }
  }

  /** Handles every due entry, first deadline first. */
  ghost function Drain(rt: Runtime, now: Time): Runtime
    decreases Due(rt.timers, now)
  {
    var (ts, popped) := PopDue(rt.timers, now);
    if popped.None? then rt
    else
      DrainProgress(rt, now);
      Drain(ProcessEvent(rt.(timers := ts), popped.value, now), now)
  }

  ghost function ProcessDueTimers(rt: Runtime, now: Time): Runtime {
    Drain(rt.(lastArmed := None), now)
  }

  function ReadTimerFd(fd: TimerFd): TimerFd {
    fd.(expired := false)
  }

  /** Time passes for the kernel: an armed deadline that is reached expires. */
  function Tick(fd: TimerFd, now: Time): TimerFd {
    if fd.armed.Some? && fd.armed.value <= now then TimerFd(None, true) else fd
  }

  /** Setting the timer discards an unread expiration; deadline zero would disarm, so it is moved. */
  function SetTimerFd(deadline: Option<Time>): TimerFd {
    TimerFd(if deadline.None? then None else Some(Max(deadline.value, 1)), false)
  }

  /** `settable` is the kernel's answer should the timer have to be set. */
  ghost function ArmTimerFd(rt: Runtime, settable: bool): Runtime {
    var deadline := NextDeadline(rt.timers);
    if deadline == rt.lastArmed || !settable then rt
    else rt.(fd := SetTimerFd(deadline), lastArmed := deadline)
  }

  // ---- Sockets ----

  /** A client waiting to be accepted, what becomes of connecting it upstream, and the kernel's
      later answers on its sockets. Whether the fault plan applies is sampled outside this model. */
  datatype Offer = Offer(reachable: bool, connecting: bool, faulty: bool, wire: Wire, now: Time)

  function SeedId(id: nat): bv64 {
    (id % TWO_TO_THE_64) as bv64
  }

  function NewConn(config: RuntimeConfig, id: nat, token: nat, offer: Offer): Conn
    requires config.Valid()
  {
    var relay := NewRelay(config.relay, if offer.faulty then config.plan else NO_FAULTS,
                          SeedId(id), offer.connecting, offer.wire, offer.now);
    var c := Conn(relay, token, token + 1, NO_INTEREST, NO_INTEREST, None, offer.now);
    WithInterest(WithInterest(c, Client, offer.now), Upstream, offer.now)
  }

  /** The timers a new connection starts with. */
  function StartTimers(config: RuntimeConfig, ts: Timers, id: nat, offer: Offer): Timers {
    var t1 := if offer.connecting && config.connectTimeout > 0
              then Schedule(ts, offer.now + config.ConnectLimit(), id, ConnectTimeout) else ts;
    if config.idleTimeout > 0 then Schedule(t1, offer.now + config.IdleLimit(), id, IdleTimeout) else t1
  }

  function AcceptOne(rt: Runtime, offer: Offer): Runtime
    requires rt.config.Valid()
  {
    if |rt.conns| >= rt.config.maxConnections || !offer.reachable then rt
    else Enter(rt, NewConn(rt.config, rt.nextId, rt.nextToken, offer), offer)
  }

  /** Enters a connection under the next id and tokens, and starts its timers. */
  function Enter(rt: Runtime, c: Conn, offer: Offer): Runtime {
    var id := rt.nextId;
    rt.(conns := rt.conns[id := c],
        bindings := rt.bindings[rt.nextToken := Binding(id, Client)][rt.nextToken + 1 := Binding(id, Upstream)],
        timers := StartTimers(rt.config, rt.timers, id, offer),
        nextId := id + 1, nextToken := rt.nextToken + 2)
  }

  function AcceptReady(rt: Runtime, offers: seq<Offer>): Runtime
    requires rt.config.Valid()
    decreases |offers|
  {
    if offers == [] then rt else AcceptReady(AcceptOne(rt, offers[0]), offers[1..])
  }

  /** What epoll reports of a socket, and what SO_ERROR would say: `connectFailed` when asked on
      connect completion, `error` otherwise. */
  datatype Readiness = Readiness(
    readable: bool, writable: bool, readHangup: bool, hangup: bool, errorFlag: bool,
    connectFailed: bool, error: Option<int>)

  /** A pending socket error was reported, which closes a connection that is past connecting. */
  predicate Failing(r: Relay, ready: Readiness) {
    ready.errorFlag && !r.connecting && ready.error.Some?
  }

  function FailureOf(ready: Readiness): ConnectionState {
    if ready.error == Some(ECONNRESET) then Reset else Failed
  }

  /** Reads a readable or hung-up socket, unless it is the upstream's and still connecting. */
  function ReadIfReady(r: Relay, side: Side, ready: Readiness, now: Time): (Relay, PumpResult) {
    var hangup := ready.readHangup || ready.hangup;
    if (ready.readable || hangup) && !(side.Upstream? && r.connecting) then HandleReadable(r, side, hangup, now)
    else (r, Continue)
  }

  /** Past connect completion: a pending socket error closes, a readable socket is read, and the
      connection is pumped. `r` is its relay so far. */
  function ServeSocket(rt: Runtime, id: nat, side: Side, r: Relay, ready: Readiness, now: Time): Runtime
    requires id in rt.conns
  {
    var c := rt.conns[id];
    if Failing(r, ready) then CloseConnection(PutConn(rt, id, c.(relay := r)), id, FailureOf(ready), now)
    else
      var (r1, result) := ReadIfReady(r, side, ready, now);
      var rt1 := PutConn(rt, id, c.(relay := r1));
      if result.Close? then CloseConnection(rt1, id, result.final, now) else PumpConnection(rt1, id, now)
  }

  function SocketReady(rt: Runtime, token: nat, ready: Readiness, now: Time): Runtime {
    if token !in rt.bindings || rt.bindings[token].id !in rt.conns then rt
    else
      var id, side := rt.bindings[token].id, rt.bindings[token].side;
      var r := rt.conns[id].relay;
      if side.Upstream? && r.connecting && ready.writable then
        if ready.connectFailed then CloseConnection(rt, id, Failed, now)
        else ServeSocket(rt, id, side, MarkConnected(r), ready, now)
      else ServeSocket(rt, id, side, r, ready, now)
  }

  // ---- The loop ----

  /** What the loop is told about; the kernel's clock may also just move on. */
  datatype LoopEvent =
    | ListenerReady(offers: seq<Offer>, now: Time)
    | TimerReady(now: Time)
    | SocketEvent(token: nat, ready: Readiness, now: Time)
    | ClockMoves(now: Time)

  ghost function HandleEvent(rt: Runtime, event: LoopEvent): Runtime
    requires rt.config.Valid()
  {
    match event
    case ListenerReady(offers, _) => AcceptReady(rt, offers)
    case TimerReady(now) => ProcessDueTimers(rt.(fd := ReadTimerFd(rt.fd)), now)
    case SocketEvent(token, ready, now) => SocketReady(rt, token, ready, now)
    case ClockMoves(now) => rt.(fd := Tick(rt.fd, now))
  }
}
