/** The proxy's runtime as objects updated in place, refining the runtime model: a table that owns
    its connections, each of which owns its relay. */
module Proxies {
  import opened Basics
  import opened SocketIos
  import opened Flows
  import opened RelayModel
  import opened TimerQueues
  import opened RuntimeModel
  import Relays
  import opened RelayInvariant

  // ---- One connection ----

  /** What is to be looked into: one connection, or the table of all of them. */
  datatype Inside = OfConnection | OfTable

  predicate Look(inside: Inside, k: nat) { true }

  class Connection {
    const relay: Relays.Relay
    const clientToken: nat
    const upstreamToken: nat
    var clientMask: Interest
    var upstreamMask: Interest
    var scheduledWake: Option<Time>
    ghost var pumpedAt: Time
    ghost var model: Conn
    ghost const repr: set<object>

    ghost predicate InStep()
      reads this, repr
    {
      && {this} + relay.Repr() <= repr && this !in relay.Repr()
      && relay.Valid() && Marked(relay.Model())
      && model == Conn(relay.Model(), clientToken, upstreamToken, clientMask, upstreamMask, scheduledWake, pumpedAt)
    }

    /** In step, which is looked into only where `Look` at a connection is mentioned: the table
        speaks of many connections without opening them up. */
    ghost predicate Valid()
      reads this, repr
      ensures Valid() ==> this in repr
    {
      this in repr && forall k: nat :: Look(OfConnection, k) ==> InStep()
    }

    constructor (relay: Relays.Relay, clientToken: nat, upstreamToken: nat, now: Time)
      requires relay.Valid() && Marked(relay.Model())
      ensures Valid() && fresh(repr - relay.Repr())
      ensures model == Conn(relay.Model(), clientToken, upstreamToken, NO_INTEREST, NO_INTEREST, None, now)
    {
      this.relay, this.clientToken, this.upstreamToken := relay, clientToken, upstreamToken;
      clientMask, upstreamMask, scheduledWake := NO_INTEREST, NO_INTEREST, None;
      pumpedAt := now;
      repr := {this} + relay.Repr();
      model := Conn(relay.Model(), clientToken, upstreamToken, NO_INTEREST, NO_INTEREST, None, now);
    }

    method AskInterest(side: Side, now: Time) returns (mask: Interest)
      requires Valid()
      modifies repr
      ensures Valid()
      ensures var (r, expected) := DesiredInterest(old(model.relay), side, now);
              model == old(model).(relay := r) && mask == expected
    {
      assert Look(OfConnection, 0);
      InterestMarked(relay.Model(), side, now);
      assert relay.DirectionFrom(side.Other()).repr <= repr;
      mask := relay.DesiredInterest(side, now);
      assert relay.Valid() && Marked(relay.Model());
      model := model.(relay := relay.Model());
    }

    /** Registers interest with epoll only when it has changed. */
    method ApplyInterest(side: Side, now: Time)
      requires Valid()
      modifies repr
      ensures Valid() && model == WithInterest(old(model), side, now)
    {
      assert Look(OfConnection, 0);
      var mask := AskInterest(side, now);
      var cached := if side.Client? then clientMask else upstreamMask;
      if mask != cached {
        SetMask(side, mask);
      }
    }

    method SetMask(side: Side, mask: Interest)
      requires Valid()
      modifies this
      ensures Valid()
      ensures model == if side.Client? then old(model).(clientMask := mask) else old(model).(upstreamMask := mask)
    {
      assert Look(OfConnection, 0);
      if side.Client? {
        clientMask := mask;
      } else {
        upstreamMask := mask;
      }
      model := model.(clientMask := clientMask, upstreamMask := upstreamMask);
    }

    method AskWake(destination: Side, now: Time) returns (wake: Option<Time>)
      requires Valid()
      modifies repr
      ensures Valid()
      ensures var (r, expected) := RelayModel.NextWake(old(model.relay), destination, now);
              model == old(model).(relay := r) && wake == expected
    {
      assert Look(OfConnection, 0);
      WakeMarked(relay.Model(), destination, now);
      assert relay.DirectionFrom(destination.Other()).repr <= repr;
      wake := relay.NextWake(destination, now);
      assert relay.Valid() && Marked(relay.Model());
      model := model.(relay := relay.Model());
    }

    /** When the relay, if blocked on time, should be looked at again. */
    method NextWake(now: Time) returns (wake: Option<Time>)
      requires Valid()
      modifies repr
      ensures Valid()
      ensures var (r, expected) := WakeOfBoth(old(model.relay), now);
              model == old(model).(relay := r) && wake == expected
    {
      assert Look(OfConnection, 0);
      wake := AskWake(Upstream, now);
      var candidate := AskWake(Client, now);
      if candidate.Some? && (wake.None? || candidate.value < wake.value) {
        wake := candidate;
      }
    }

    /** What the model of a connection says of its fields. */
    lemma Facts()
      requires Valid()
      ensures model.clientToken == clientToken && model.upstreamToken == upstreamToken
      ensures model.scheduledWake == scheduledWake
      ensures model.relay.connecting == relay.upstreamConnecting && model.relay.lastActivity == relay.lastActivity
    {
      assert Look(OfConnection, 0);
    }

    lemma MarkedLane(side: Side)
      requires relay.Valid() && Marked(relay.Model())
      ensures Watermarks(relay.DirectionFrom(side).lane)
    {
    }

    method FullyDrained() returns (drained: bool)
      requires Valid()
      ensures drained == RelayModel.FullyDrained(model.relay)
    {
      assert Look(OfConnection, 0);
      drained := relay.FullyDrained();
    }

    method SetWake(wake: Option<Time>)
      requires Valid()
      modifies this
      ensures Valid() && model == old(model).(scheduledWake := wake)
    {
      assert Look(OfConnection, 0);
      scheduledWake := wake;
      model := model.(scheduledWake := wake);
    }

    /** Notes the wake the relay wants, if none as early is scheduled. */
    method NoteWake(now: Time) returns (due: Option<Time>)
      requires Valid()
      modifies repr
      ensures Valid()
      ensures var c := old(model);
              var (r, wake) := WakeOfBoth(c.relay, now);
              && due == (if WakeNeeded(c, wake) then wake else None)
              && model == if WakeNeeded(c, wake) then c.(relay := r, scheduledWake := wake) else c.(relay := r)
    {
      Facts();
      var wake := NextWake(now);
      Facts();
      due := None;
      if wake.Some? && (scheduledWake.None? || wake.value < scheduledWake.value) {
        SetWake(wake);
        due := wake;
      }
    }

    method FlushTo(destination: Side, now: Time) returns (result: PumpResult)
      requires Valid()
      modifies repr
      ensures Valid()
      ensures var (r, expected) := Flush(old(model.relay), destination, now);
              model == old(model).(relay := r) && result == expected
    {
      assert Look(OfConnection, 0);
      FlushMarked(relay.Model(), destination, now);
      result := relay.Flush(destination, now);
      assert relay.Valid() && Marked(relay.Model());
      model := model.(relay := relay.Model());
    }

    method FlushBoth(now: Time) returns (result: PumpResult)
      requires Valid()
      modifies repr
      ensures Valid()
      ensures var (r, expected) := RuntimeModel.FlushBoth(old(model.relay), now);
              model == old(model).(relay := r) && result == expected
    {
      assert Look(OfConnection, 0);
      if relay.upstreamConnecting {
        return Continue;
      }
      result := FlushTo(Upstream, now);
      if result.Continue? {
        result := FlushTo(Client, now);
      }
    }

    method PropagateHalfCloses()
      requires Valid()
      modifies repr
      ensures Valid()
      ensures model == old(model).(relay := RelayModel.PropagateHalfCloses(old(model.relay)))
    {
      assert Look(OfConnection, 0);
      PropagateMarked(relay.Model());
      relay.PropagateHalfCloses();
      assert relay.Valid() && Marked(relay.Model());
      model := model.(relay := relay.Model());
    }

    ghost method NotePumped(now: Time)
      requires Valid()
      modifies this
      ensures Valid() && model == old(model).(pumpedAt := now)
    {
      assert Look(OfConnection, 0);
      pumpedAt := now;
      model := model.(pumpedAt := now);
    }

    /** Flushes both destinations, and forwards half-closes unless the connection is to be closed. */
    method FlushAndForward(now: Time) returns (result: PumpResult)
      requires Valid()
      modifies repr
      ensures Valid()
      ensures var c := old(model);
              var (r, expected) := RuntimeModel.FlushBoth(c.relay, now);
              && result == expected
              && model == if result.Close? then c.(relay := r)
                          else c.(relay := RelayModel.PropagateHalfCloses(r), pumpedAt := now)
    {
      result := FlushBoth(now);
      if result.Continue? {
        PropagateHalfCloses();
        NotePumped(now);
      }
    }

    method HandleReadable(side: Side, hangup: bool, now: Time) returns (result: PumpResult)
      requires Valid()
      modifies repr
      ensures Valid()
      ensures var (r, expected) := RelayModel.HandleReadable(old(model.relay), side, hangup, now);
              model == old(model).(relay := r) && result == expected
    {
      assert Look(OfConnection, 0);
      ReadMarked(relay.Model(), side, hangup, now);
      MarkedLane(side);
      result := relay.HandleReadable(side, hangup, now);
      assert relay.Valid() && Marked(relay.Model());
      model := model.(relay := relay.Model());
    }

    method MarkConnected()
      requires Valid()
      modifies repr
      ensures Valid() && model == old(model).(relay := RelayModel.MarkConnected(old(model.relay)))
    {
      assert Look(OfConnection, 0);
      relay.MarkUpstreamConnected();
      assert relay.Valid() && Marked(relay.Model());
      model := model.(relay := relay.Model());
    }
  }

  // ---- The table ----

  /** Connections share nothing with one another, and `repr` covers them all. */
  ghost predicate Apart(connections: map<nat, Connection>, repr: set<object>) {
    && (forall id :: id in connections ==> connections[id].repr <= repr && connections[id] in repr)
    && (forall i, j :: i in connections && j in connections && i != j ==> connections[i].repr !! connections[j].repr)
  }

  ghost predicate AllLive(connections: map<nat, Connection>, conns: map<nat, Conn>, repr: set<object>)
    reads repr
  {
    && Apart(connections, repr)
    && (forall id :: id in connections <==> id in conns)
    && (forall id :: id in connections ==> connections[id].Valid() && conns[id] == connections[id].model)
  }

  /** The connections are valid, and are those the model speaks of; looked into only where
      `Look` at the table is mentioned. */
  ghost predicate Live(connections: map<nat, Connection>, conns: map<nat, Conn>, repr: set<object>)
    reads repr
  {
    forall k: nat :: Look(OfTable, k) ==> AllLive(connections, conns, repr)
  }

  lemma LiveWithout(connections: map<nat, Connection>, conns: map<nat, Conn>, repr: set<object>, id: nat)
    requires Live(connections, conns, repr)
    ensures Live(connections - {id}, conns - {id}, repr)
  {
    assert Look(OfTable, 0);
  }

  lemma LiveWith(connections: map<nat, Connection>, conns: map<nat, Conn>, repr: set<object>, id: nat, c: Connection)
    requires Live(connections, conns, repr) && c.Valid() && c.repr !! repr
    ensures Live(connections[id := c], conns[id := c.model], repr + c.repr)
  {
    assert Look(OfTable, 0);
  }

  ghost predicate AllOthers(connections: map<nat, Connection>, conns: map<nat, Conn>, repr: set<object>, id: nat)
    requires id in connections
    reads repr - connections[id].repr
  {
    && Apart(connections, repr)
    && (forall other :: other in connections <==> other in conns)
    && (forall other :: other in connections && other != id ==>
          && connections[other] in repr - connections[id].repr
          && connections[other].repr <= repr - connections[id].repr
          && connections[other].Valid() && conns[other] == connections[other].model)
  }

  /** All connections but `id`, which share nothing with it, are as the model says. */
  ghost predicate OthersLive(connections: map<nat, Connection>, conns: map<nat, Conn>, repr: set<object>, id: nat)
    requires id in connections
    reads repr - connections[id].repr
  {
    forall k: nat :: Look(OfTable, k) ==> AllOthers(connections, conns, repr, id)
  }

  lemma LiveOthers(connections: map<nat, Connection>, conns: map<nat, Conn>, repr: set<object>, id: nat)
    requires Live(connections, conns, repr)
    ensures id in connections <==> id in conns
    ensures id in connections ==>
              && connections[id].Valid() && connections[id].repr <= repr
              && conns[id] == connections[id].model && OthersLive(connections, conns, repr, id)
  {
    assert Look(OfTable, 0);
  }

  /** Once connection `id` is valid again, all are. */
  lemma LiveAgain(connections: map<nat, Connection>, conns: map<nat, Conn>, repr: set<object>, id: nat)
    requires id in connections && OthersLive(connections, conns, repr, id) && connections[id].Valid()
    ensures Live(connections, conns[id := connections[id].model], repr)
  {
    assert Look(OfTable, 0);
  }

  lemma LiveSize(connections: map<nat, Connection>, conns: map<nat, Conn>, repr: set<object>)
    requires Live(connections, conns, repr)
    ensures connections.Keys == conns.Keys && |connections| == |conns|
  {
    assert Look(OfTable, 0);
    assert connections.Keys == conns.Keys;
    assert |connections| == |connections.Keys| == |conns.Keys| == |conns|;
  }

  lemma PutTwice<T>(m: map<nat, T>, id: nat, a: T, b: T)
    ensures m[id := a][id := b] == m[id := b]
    ensures id in m && m[id] == b ==> m[id := b] == m
  {
  }

  /** Serving a socket is the same whether or not the relay so far has been entered yet. */
  lemma ServeEntered(rt: Runtime, id: nat, side: Side, r: Relay, ready: Readiness, now: Time)
    requires id in rt.conns
    ensures ServeSocket(PutConn(rt, id, rt.conns[id].(relay := r)), id, side, r, ready, now)
            == ServeSocket(rt, id, side, r, ready, now)
  {
    var c := rt.conns[id];
    var r1 := ReadIfReady(r, side, ready, now).0;
    PutTwice(rt.conns, id, c.(relay := r), c.(relay := r));
    PutTwice(rt.conns, id, c.(relay := r), c.(relay := r1));
  }

  class ProxyRuntime {
    const config: RuntimeConfig
    const timerQueue: TimerQueue
    var connections: map<nat, Connection>
    var bindings: map<nat, Binding>
    var lastArmedDeadline: Option<Time>
    var timerFd: TimerFd
    var nextConnectionId: nat
    var nextToken: nat
    var closes: Closes
    ghost var log: seq<Closing>
    ghost var conns: map<nat, Conn>
    ghost var repr: set<object>

    ghost predicate Valid()
      reads this`connections, this`conns, this`repr, timerQueue, repr
    {
      var inOrder :=
        && config.Valid() && timerQueue.Valid() && timerQueue as object != this
        && this !in repr && timerQueue !in repr && Live(connections, conns, repr);
      inOrder
    }

    ghost function Model(): Runtime
      requires timerQueue.Valid()
      reads this, timerQueue
    {
      Runtime(config, conns, bindings, timerQueue.Model(), lastArmedDeadline, timerFd,
              nextConnectionId, nextToken, closes, log)
    }

    constructor (config: RuntimeConfig)
      requires config.Valid()
      ensures Valid() && fresh(timerQueue) && repr == {} && Model() == NewRuntime(config)
    {
      this.config := config;
      timerQueue := new TimerQueue();
      connections, conns, bindings := map[], map[], map[];
      lastArmedDeadline, timerFd := None, TimerFd(None, false);
      nextConnectionId, nextToken := 1, 4;
      closes, log := Closes(0, 0, 0, 0), [];
      repr := {};
    }

    /** Takes connection `id` out of the table. */
    method Drop(id: nat)
      requires Valid()
      modifies this`connections, this`conns
      ensures Valid() && conns == old(conns) - {id} && connections == old(connections) - {id}
    {
      LiveWithout(connections, conns, repr, id);
      connections, conns := connections - {id}, conns - {id};
    }

    method CloseConnection(id: nat, final: ConnectionState, now: Time)
      requires Valid()
      modifies this`connections, this`conns, this`bindings, this`closes, this`log
      ensures Valid() && Model() == RuntimeModel.CloseConnection(old(Model()), id, final, now)
    {
      LiveOthers(connections, conns, repr, id);
      if id !in connections {
        return;
      }
      var connection := connections[id];
      connection.Facts();
      bindings := bindings - {connection.clientToken, connection.upstreamToken};
      CountClose(id, final, now);
      Drop(id);
    }

    /** Counts and logs a close. */
    method CountClose(id: nat, final: ConnectionState, now: Time)
      requires Valid() && id in conns
      modifies this`closes, this`log
      ensures Valid() && closes == old(closes).Count(final)
      ensures log == old(log) + [Closing(id, final, conns[id].relay, now)]
    {
      closes := closes.Count(final);
      log := log + [Closing(id, final, conns[id].relay, now)];
    }

    /** Registers both sockets' interests. */
    method RefreshInterests(id: nat, now: Time)
      requires Valid() && id in connections && id in conns
      modifies this`conns, repr
      ensures Valid()
      ensures conns == old(conns)[id := WithInterest(WithInterest(old(conns[id]), Client, now), Upstream, now)]
    {
      LiveOthers(connections, conns, repr, id);
      var connection := connections[id];
      connection.ApplyInterest(Client, now);
      connection.ApplyInterest(Upstream, now);
      LiveAgain(connections, conns, repr, id);
      conns := conns[id := connection.model];
    }

    method RefreshOrClose(id: nat, now: Time)
      requires Valid()
      modifies this`connections, this`conns, this`bindings, this`closes, this`log, repr
      ensures Valid() && Model() == RuntimeModel.RefreshOrClose(old(Model()), id, now)
    {
      LiveOthers(connections, conns, repr, id);
      if id !in connections {
        return;
      }
      var drained := connections[id].FullyDrained();
      if drained {
        CloseConnection(id, FullyClosed, now);
      } else {
        RefreshInterests(id, now);
      }
    }

    /** Asks a connection for its wake, and notes it if none as early is scheduled. */
    method NoteWake(id: nat, now: Time) returns (due: Option<Time>)
      requires Valid() && id in connections && id in conns
      modifies this`conns, repr
      ensures Valid()
      ensures var c := old(conns[id]);
              var (r, wake) := WakeOfBoth(c.relay, now);
              && due == (if WakeNeeded(c, wake) then wake else None)
              && conns == old(conns)[id := if WakeNeeded(c, wake) then c.(relay := r, scheduledWake := wake)
                                           else c.(relay := r)]
    {
      LiveOthers(connections, conns, repr, id);
      var connection := connections[id];
      due := connection.NoteWake(now);
      LiveAgain(connections, conns, repr, id);
      conns := conns[id := connection.model];
    }

    method ScheduleRelayWake(id: nat, now: Time)
      requires Valid()
      modifies this`conns, timerQueue, repr
      ensures Valid() && Model() == RuntimeModel.ScheduleRelayWake(old(Model()), id, now)
    {
      LiveOthers(connections, conns, repr, id);
      if id !in connections {
        return;
      }
      var due := NoteWake(id, now);
      if due.Some? {
        timerQueue.Add(due.value, id, Pump);
      }
    }

    /** Flushes both destinations of a connection, and forwards half-closes if it goes on. */
    method FlushConnection(id: nat, now: Time) returns (result: PumpResult)
      requires Valid() && id in connections && id in conns
      modifies this`conns, repr
      ensures Valid()
      ensures var c := old(conns[id]);
              var (r, expected) := FlushBoth(c.relay, now);
              && result == expected
              && conns == old(conns)[id := if result.Close? then c.(relay := r)
                                           else c.(relay := PropagateHalfCloses(r), pumpedAt := now)]
    {
      LiveOthers(connections, conns, repr, id);
      var connection := connections[id];
      result := connection.FlushAndForward(now);
      LiveAgain(connections, conns, repr, id);
      conns := conns[id := connection.model];
    }

    /** Flushes both destinations, forwards half-closes, refreshes interests or closes, and
        schedules a wake when the relay is blocked on time. */
    method PumpConnection(id: nat, now: Time)
      requires Valid()
      modifies this, timerQueue, repr
      ensures Valid() && repr == old(repr) && Model() == RuntimeModel.PumpConnection(old(Model()), id, now)
    {
      LiveOthers(connections, conns, repr, id);
      if id !in connections {
        return;
      }
      var result := FlushConnection(id, now);
      if result.Close? {
        CloseConnection(id, result.final, now);
        return;
      }
      RefreshOrClose(id, now);
      ScheduleRelayWake(id, now);
    }

    // ---- Timers ----

    /** Forgets a wake that has come. */
    method ForgetWake(id: nat, now: Time)
      requires Valid() && id in connections && id in conns
      modifies this`conns, repr
      ensures Valid()
      ensures var c := old(conns[id]);
              var woken := c.scheduledWake.Some? && c.scheduledWake.value <= now;
              conns == old(conns)[id := if woken then c.(scheduledWake := None) else c]
    {
      LiveOthers(connections, conns, repr, id);
      var connection := connections[id];
      connection.Facts();
      if connection.scheduledWake.Some? && connection.scheduledWake.value <= now {
        connection.SetWake(None);
      }
      LiveAgain(connections, conns, repr, id);
      conns := conns[id := connection.model];
    }

    /** Acts on one due entry. */
    method ProcessEvent(event: TimerEvent, now: Time)
      requires Valid()
      modifies this, timerQueue, repr
      ensures Valid() && repr == old(repr) && Model() == RuntimeModel.ProcessEvent(old(Model()), event, now)
    {
      LiveOthers(connections, conns, repr, event.id);
      if event.id !in connections {
        return;
      }
      var connection := connections[event.id];
      connection.Facts();
      match event.kind
      case Pump =>
        ForgetWake(event.id, now);
        PumpConnection(event.id, now);
      case ConnectTimeout =>
        if connection.relay.upstreamConnecting {
          CloseConnection(event.id, TimedOut, now);
        }
      case IdleTimeout =>
        var deadline := connection.relay.lastActivity + config.IdleLimit();
        if now >= deadline {
          CloseConnection(event.id, TimedOut, now);
        } else {
          timerQueue.Add(deadline, event.id, IdleTimeout);
        }
    }

    /** Handles every due entry; ends because whatever it schedules is due strictly later. */
    method ProcessDueTimers(now: Time) returns (processed: nat)
      requires Valid()
      modifies this, timerQueue, repr
      ensures Valid() && repr == old(repr) && Model() == RuntimeModel.ProcessDueTimers(old(Model()), now)
      ensures Due(Model().timers, now) == {}
    {
      lastArmedDeadline := None;
      processed := 0;
      ghost var start := Model();
      while true
        invariant Valid() && repr == old(repr) && Drain(Model(), now) == Drain(start, now)
        decreases Due(Model().timers, now)
      {
        ghost var before := Model();
        PopTakesFirst(before.timers, now);
        var event := timerQueue.TakeDue(now);
        if event.None? {
          return;
        }
        DrainProgress(before, now);
        processed := processed + 1;
        ProcessEvent(event.value, now);
      }
    }

    method SetTimer(deadline: Option<Time>)
      requires Valid()
      modifies this`timerFd, this`lastArmedDeadline
      ensures Valid() && timerFd == SetTimerFd(deadline) && lastArmedDeadline == deadline
    {
      timerFd, lastArmedDeadline := SetTimerFd(deadline), deadline;
    }

    /** Arms the timer for the earliest entry, unless it is known to be armed for it already. */
    method ArmTimerFd(settable: bool)
      requires Valid()
      modifies this`timerFd, this`lastArmedDeadline
      ensures Valid() && Model() == RuntimeModel.ArmTimerFd(old(Model()), settable)
    {
      var deadline := timerQueue.Earliest();
      if deadline == lastArmedDeadline {
        return;
      }
      if !settable {
        return;
      }
      SetTimer(deadline);
    }

    // ---- Accepting ----

    method StartConnectionTimers(id: nat, offer: Offer)
      requires Valid()
      modifies timerQueue
      ensures Valid() && timerQueue.Model() == StartTimers(config, old(timerQueue.Model()), id, offer)
    {
      AddTimers(timerQueue, config, id, offer);
    }

    /** Puts a connection, which shares nothing with any other, into the table. */
    method Put(id: nat, connection: Connection)
      requires Valid() && connection.Valid() && connection.repr !! repr
      requires this !in connection.repr && timerQueue !in connection.repr
      modifies this`connections, this`conns, this`repr
      ensures Valid() && repr == old(repr) + connection.repr
      ensures conns == old(conns)[id := connection.model]
    {
      LiveWith(connections, conns, repr, id, connection);
      connections, conns := connections[id := connection], conns[id := connection.model];
      repr := repr + connection.repr;
    }

    /** Enters a connection under the next id and tokens, and starts its timers. */
    method Enter(connection: Connection, offer: Offer)
      requires Valid() && connection.Valid() && connection.repr !! repr
      requires this !in connection.repr && timerQueue !in connection.repr
      modifies this, timerQueue
      ensures Valid() && repr == old(repr) + connection.repr
      ensures Model() == RuntimeModel.Enter(old(Model()), old(connection.model), offer)
    {
      var id := nextConnectionId;
      Put(id, connection);
      BindTokens(id);
      StartConnectionTimers(id, offer);
    }

    /** Binds the next two tokens to the newest connection. */
    method BindTokens(id: nat)
      requires Valid()
      modifies this`nextConnectionId, this`bindings, this`nextToken
      ensures Valid() && nextConnectionId == id + 1 && nextToken == old(nextToken) + 2
      ensures var token := old(nextToken);
              bindings == old(bindings)[token := Binding(id, Client)][token + 1 := Binding(id, Upstream)]
    {
      nextConnectionId := id + 1;
      bindings := bindings[nextToken := Binding(id, Client)][nextToken + 1 := Binding(id, Upstream)];
      nextToken := nextToken + 2;
    }

    method AcceptOne(offer: Offer)
      requires Valid()
      modifies this, timerQueue
      ensures Valid() && fresh(repr - old(repr)) && Model() == RuntimeModel.AcceptOne(old(Model()), offer)
    {
      LiveSize(connections, conns, repr);
      if |connections| >= config.maxConnections || !offer.reachable {
        return;
      }
      var connection := MakeConnection(config, nextConnectionId, nextToken, offer);
      Enter(connection, offer);
    }

    /** Accepts until nobody is waiting. */
    method AcceptReady(offers: seq<Offer>)
      requires Valid()
      modifies this, timerQueue
      ensures Valid() && fresh(repr - old(repr)) && Model() == RuntimeModel.AcceptReady(old(Model()), offers)
    {
      for i := 0 to |offers|
        invariant Valid() && fresh(repr - old(repr))
        invariant RuntimeModel.AcceptReady(Model(), offers[i..]) == RuntimeModel.AcceptReady(old(Model()), offers)
      {
        assert offers[i..][0] == offers[i] && offers[i..][1..] == offers[i + 1..];
        AcceptOne(offers[i]);
      }
      assert offers[|offers|..] == [];
    }

    // ---- Sockets ----

    /** Reads a readable or hung-up socket, unless it is the upstream's and still connecting. */
    method ReadIfReady(id: nat, side: Side, ready: Readiness, now: Time) returns (result: PumpResult)
      requires Valid() && id in connections && id in conns
      modifies this`conns, repr
      ensures Valid()
      ensures var c := old(conns[id]);
              var (r, expected) := RuntimeModel.ReadIfReady(c.relay, side, ready, now);
              result == expected && conns == old(conns)[id := c.(relay := r)]
    {
      LiveOthers(connections, conns, repr, id);
      PutTwice(conns, id, conns[id], conns[id]);
      var connection := connections[id];
      connection.Facts();
      var hangup := ready.readHangup || ready.hangup;
      if !(ready.readable || hangup) || (side.Upstream? && connection.relay.upstreamConnecting) {
        return Continue;
      }
      result := connection.HandleReadable(side, hangup, now);
      LiveAgain(connections, conns, repr, id);
      conns := conns[id := connection.model];
    }

    method CompleteConnect(id: nat)
      requires Valid() && id in connections && id in conns
      modifies this`conns, repr
      ensures Valid()
      ensures conns == old(conns)[id := old(conns[id]).(relay := MarkConnected(old(conns[id].relay)))]
    {
      LiveOthers(connections, conns, repr, id);
      var connection := connections[id];
      connection.MarkConnected();
      LiveAgain(connections, conns, repr, id);
      conns := conns[id := connection.model];
    }

    method ServeSocket(id: nat, side: Side, ready: Readiness, now: Time)
      requires Valid() && id in connections && id in conns
      modifies this, timerQueue, repr
      ensures Valid() && repr == old(repr)
      ensures Model() == RuntimeModel.ServeSocket(old(Model()), id, side, old(conns[id].relay), ready, now)
    {
      LiveOthers(connections, conns, repr, id);
      var connection := connections[id];
      connection.Facts();
      PutTwice(conns, id, conns[id], conns[id]);
      if ready.errorFlag && !connection.relay.upstreamConnecting && ready.error.Some? {
        CloseConnection(id, if ready.error.value == ECONNRESET then Reset else Failed, now);
        return;
      }
      var result := ReadIfReady(id, side, ready, now);
      if result.Close? {
        CloseConnection(id, result.final, now);
        return;
      }
      PumpConnection(id, now);
    }

    method SocketReady(token: nat, ready: Readiness, now: Time)
      requires Valid()
      modifies this, timerQueue, repr
      ensures Valid() && repr == old(repr) && Model() == RuntimeModel.SocketReady(old(Model()), token, ready, now)
    {
      if token !in bindings {
        return;
      }
      var id, side := bindings[token].id, bindings[token].side;
      LiveOthers(connections, conns, repr, id);
      if id !in connections {
        return;
      }
      connections[id].Facts();
      ghost var rt := Model();
      if side.Upstream? && connections[id].relay.upstreamConnecting && ready.writable {
        if ready.connectFailed {
          CloseConnection(id, Failed, now);
          return;
        }
        CompleteConnect(id);
        ServeEntered(rt, id, side, MarkConnected(rt.conns[id].relay), ready, now);
      }
      ServeSocket(id, side, ready, now);
    }

    method HandleEvent(event: LoopEvent)
      requires Valid()
      modifies this, timerQueue, repr
      ensures Valid() && fresh(repr - old(repr)) && Model() == RuntimeModel.HandleEvent(old(Model()), event)
    {
      match event
      case ListenerReady(offers, _) =>
        AcceptReady(offers);
      case TimerReady(now) =>
        timerFd := ReadTimerFd(timerFd);
        var _ := ProcessDueTimers(now);
      case SocketEvent(token, ready, now) =>
        SocketReady(token, ready, now);
      case ClockMoves(now) =>
        timerFd := Tick(timerFd, now);
    }
  }

  method AddTimers(queue: TimerQueue, config: RuntimeConfig, id: nat, offer: Offer)
    requires queue.Valid()
    modifies queue
    ensures queue.Valid() && queue.Model() == StartTimers(config, old(queue.Model()), id, offer)
  {
    if offer.connecting && config.connectTimeout > 0 {
      queue.Add(offer.now + config.ConnectLimit(), id, ConnectTimeout);
    }
    if config.idleTimeout > 0 {
      queue.Add(offer.now + config.IdleLimit(), id, IdleTimeout);
    }
  }

  method MakeRelay(config: RuntimeConfig, id: nat, offer: Offer) returns (relay: Relays.Relay)
    requires config.Valid()
    ensures relay.Valid() && fresh(relay.Repr()) && Marked(relay.Model())
    ensures relay.Model() == NewRelay(config.relay, if offer.faulty then config.plan else NO_FAULTS,
                                      SeedId(id), offer.connecting, offer.wire, offer.now)
  {
    var plan := if offer.faulty then config.plan else NO_FAULTS;
    var io := new SocketIo(offer.wire);
    relay := new Relays.Relay(config.relay, plan, SeedId(id), offer.connecting, io, offer.now);
    NewMarked(config.relay, plan, SeedId(id), offer.connecting, offer.wire, offer.now);
  }

  /** A connection for an accepted client, its sockets registered. */
  method MakeConnection(config: RuntimeConfig, id: nat, token: nat, offer: Offer) returns (connection: Connection)
    requires config.Valid()
    ensures connection.Valid() && fresh(connection.repr) && connection.model == NewConn(config, id, token, offer)
  {
    var relay := MakeRelay(config, id, offer);
    connection := new Connection(relay, token, token + 1, offer.now);
    connection.ApplyInterest(Client, offer.now);
    connection.ApplyInterest(Upstream, offer.now);
  }
}
