/** The relay as the proxy holds it: objects updated in place, each method refining the
    corresponding function of the relay model. */
module Relays {
  import opened Basics
  import opened ByteQueues
  import opened Backpressure
  import opened DelayLines
  import opened TokenBuckets
  import opened SocketIos
  import opened Flows
  import opened Pacing
  import opened RelayModel
  import opened FaultRng
  import opened RelayInvariant

  /** Stamping is drawing a delay, then recording it. */
  lemma StampSteps(ch: Channel, ch1: Channel, d: nat, bytes: nat, now: Time)
    requires ch.delay.Some? && d == SegmentDelay(ch)
    requires ch1 == ch.(drawn := ch.drawn + if ch.jitter == 0 then 0 else 1)
    ensures Stamp(Some(ch), bytes, now)
            == Some(ch1.(delay := Some(Commit(ch1.delay.value, bytes, now + d)),
                         delayedSegments := ch1.delayedSegments + 1, delayBudget := ch1.delayBudget + d))
  {
  }

  class FaultChannel {
    const delay: DelayLine?
    const bucket: TokenBucket?
    const rng: SplitMix64
    const latency: nat
    const jitter: nat
    var delayedSegments: nat
    var delayBudget: nat
    ghost const seed: bv64
    ghost var drawn: nat
    ghost var model: Channel
    ghost const repr: set<object>

    ghost predicate Valid()
      reads this, repr
      ensures Valid() ==> this in repr
    {
      var inStep :=
        && {this, rng} <= repr && (delay != null ==> delay in repr) && (bucket != null ==> bucket in repr)
        && rng.state == StateAt(seed, drawn)
        && (delay != null ==> delay.Valid())
        && (bucket != null ==> bucket.Valid() && bucket.rate <= NS_PER_SECOND)
        && model == Channel(if delay == null then None else Some(delay.Model()),
                            if bucket == null then None else Some(bucket.Model()),
                            JitterStream(seed, jitter), drawn, latency, jitter, delayedSegments, delayBudget);
      inStep
    }

    constructor (delayed: bool, bucket: TokenBucket?, seed: bv64, latency: nat, jitter: nat)
      requires bucket != null ==> bucket.Valid() && bucket.rate <= NS_PER_SECOND
      ensures Valid() && fresh(repr - (if bucket == null then {} else {bucket}))
      ensures this.bucket == bucket
      ensures model == Channel(if delayed then Some(DelayData([], 0, 0)) else None,
                               if bucket == null then None else Some(bucket.Model()),
                               JitterStream(seed, jitter), 0, latency, jitter, 0, 0)
    {
      var line: DelayLine? := null;
      if delayed {
        line := new DelayLine();
      }
      delay := line;
      this.bucket := bucket;
      var stream := new SplitMix64(seed);
      rng, this.seed, drawn := stream, seed, 0;
      this.latency, this.jitter := latency, jitter;
      delayedSegments, delayBudget := 0, 0;
      ghost var parts: set<object> := {stream};
      if line != null { parts := parts + {line}; }
      if bucket != null { parts := parts + {bucket}; }
      repr := parts + {this};
      model := Channel(if delayed then Some(DelayData([], 0, 0)) else None,
                       if bucket == null then None else Some(bucket.Model()),
                       JitterStream(seed, jitter), 0, latency, jitter, 0, 0);
    }

    /** Draws the delay of the next segment. */
    method DrawDelay() returns (d: nat)
      requires Valid()
      modifies this`drawn, this`model, rng
      ensures Valid() && d == SegmentDelay(old(model))
      ensures model == old(model).(drawn := old(model.drawn) + if old(model.jitter) == 0 then 0 else 1)
    {
      var sample := SampleJitter(rng, jitter);
      if jitter != 0 {
        drawn := drawn + 1;
        model := model.(drawn := drawn);
      }
      d := if latency + sample < 0 then 0 else latency + sample;
    }

    method Record(bytes: nat, eligible: Time, d: nat)
      requires Valid() && delay != null
      modifies this`delayedSegments, this`delayBudget, this`model, delay
      ensures Valid()
      ensures model == old(model).(delay := Some(Commit(old(model.delay.value), bytes, eligible)),
                                   delayedSegments := old(model.delayedSegments) + 1,
                                   delayBudget := old(model.delayBudget) + d)
    {
      delay.OnCommit(bytes, eligible);
      delayedSegments := delayedSegments + 1;
      delayBudget := delayBudget + d;
      model := model.(delay := Some(delay.Model()), delayedSegments := delayedSegments, delayBudget := delayBudget);
    }

    method Stamp(bytes: nat, now: Time)
      requires Valid()
      modifies repr
      ensures Valid() && Some(model) == Flows.Stamp(Some(old(model)), bytes, now)
    {
      if delay == null {
        return;
      }
      ghost var ch := model;
      var d := DrawDelay();
      ghost var ch1 := model;
      Record(bytes, now + d, d);
      StampSteps(ch, ch1, d, bytes, now);
    }

    /** How many of `limit` bytes may be sent at `now`. */
    method Sendable(limit: nat, now: Time) returns (n: nat)
      requires Valid()
      modifies repr
      ensures Valid() && Some(model) == Settle(Some(old(model)), now)
      ensures n == Budget(Some(old(model)), limit, now)
    {
      n := limit;
      if delay != null {
        var releasable := delay.ReleasableNow(now);
        n := Min(n, releasable);
      }
      if bucket != null {
        var available := bucket.AvailableAt(now);
        model := model.(bucket := Some(bucket.Model()));
        if available < Quantum(n, bucket.burst) {
          return 0;
        }
        n := Min(n, available);
      }
    }

    method Take(bytes: nat)
      requires Valid() && Takable(Some(model), bytes)
      modifies repr
      ensures Valid() && Some(model) == Flows.Take(Some(old(model)), bytes)
    {
      if delay != null {
        var ok := delay.OnConsume(bytes);
        assert ok;
        model := model.(delay := Some(delay.Model()));
      }
      if bucket != null {
        var ok := bucket.Consume(bytes);
        assert ok;
        model := model.(bucket := Some(bucket.Model()));
      }
    }

    /** When a blocked channel over `size` queued bytes, just asked at `now`, should be looked at
        again. */
    method Wake(size: nat, now: Time) returns (wake: Option<Time>)
      requires Valid() && size > 0 && Budget(Some(model), size, now) == 0
      requires Settle(Some(model), now) == Some(model)
      modifies repr
      ensures Valid() && model == old(model)
      ensures wake == WakeOf(Some(old(model)), size, now)
    {
      wake := None;
      var releasable := size;
      if delay != null {
        releasable := delay.ReleasableNow(now);
        if releasable == 0 {
          wake := delay.NextEligibleAfter(now);
        }
      }
      if bucket != null && releasable > 0 {
        var eligible := bucket.NextEligible(Quantum(releasable, bucket.burst), now);
        wake := Earlier(wake, Some(eligible));
      }
    }
  }

  /** The writable span of a ring begins with `data`. */
  ghost predicate Follows(cells: seq<byte>, head: nat, size: nat, data: seq<byte>)
    requires head < |cells| && size <= |cells|
  {
    && |data| <= WritableLen(|cells|, head, size)
    && var tail := Slot(head + size, |cells|);
       cells[tail..tail + |data|] == data
  }

  /** What a receive wrote to the writable span is what follows the tail. */
  lemma DataLanded(cells: seq<byte>, head: nat, size: nat, start: nat, data: seq<byte>)
    requires head < |cells| && size <= |cells| && |data| <= WritableLen(|cells|, head, size)
    requires data != [] ==> start == Slot(head + size, |cells|)
    requires start + |data| <= |cells| && cells[start..start + |data|] == data
    ensures Follows(cells, head, size, data)
  {
  }

  /** Receives into the writable span of a queue, up to `limit` bytes; what is queued stays. */
  method ReceiveInto(queue: ByteQueue, io: SocketIo, source: Side, limit: nat, now: Time)
      returns (got: IoResult, ghost data: seq<byte>)
    requires queue.Valid()
    modifies io, queue.storage
    ensures queue.Contents() == old(queue.Contents())
    ensures var len := Min(WritableLen(queue.storage.Length, queue.head, queue.size), limit);
            (got, data) == Receiving(old(io.wire.receives), len)
    ensures Follows(queue.storage[..], queue.head, queue.size, data)
    ensures io.arrived == old(io.arrived).Put(source, old(io.arrived).At(source) + data)
    ensures io.arrivedAt == old(io.arrivedAt).Put(source, old(io.arrivedAt).At(source) + Repeat(now, |data|))
    ensures io.wire == old(io.wire).(receives := Rest(old(io.wire.receives)))
    ensures io.departed == old(io.departed) && io.departedAt == old(io.departedAt) && io.shuts == old(io.shuts)
  {
    var start, full := queue.WritableSpan();
    var len := Min(full, limit);
    ghost var before := queue.storage[..];
    data := Receiving(io.wire.receives, len).1;
    got := io.Receive(source, queue.storage, start, len, now);
    WritableIsFree(before, queue.storage[..], queue.head, queue.size);
    DataLanded(queue.storage[..], queue.head, queue.size, start, data);
  }

  class Direction {
    const queue: ByteQueue
    const backpressure: BackpressureTracker
    const fault: FaultChannel?
    ghost var lane: Lane
    ghost const repr: set<object>

    ghost function FaultRepr(): set<object> {
      if fault == null then {} else fault.repr
    }

    ghost predicate Valid()
      reads this, repr
      ensures Valid() ==> this in repr && queue.storage in repr
    {
      var own: set<object> := {this, queue, queue.storage, backpressure};
      var inStep :=
        && own + FaultRepr() <= repr && own !! FaultRepr() && (fault != null ==> fault in FaultRepr())
        && queue.Valid() && backpressure.Valid()
        && backpressure.high <= queue.storage.Length
        && (fault != null ==> fault.Valid())
        && lane == LaneData(queue.storage.Length, queue.head, queue.Contents(), queue.highWaterMark,
                            backpressure.Model(), if fault == null then None else Some(fault.model));
      inStep
    }

    constructor (capacity: pos, low: nat, high: nat, fault: FaultChannel?)
      requires low < high <= capacity
      requires fault != null ==> fault.Valid()
      ensures Valid() && fresh(repr - (if fault == null then {} else fault.repr))
      ensures this.fault == fault
      ensures lane == LaneData(capacity, 0, [], 0, NewTracker(low, high),
                               if fault == null then None else Some(fault.model))
    {
      var q := new ByteQueue(capacity);
      var tracker := new BackpressureTracker(low, high);
      queue, backpressure, this.fault := q, tracker, fault;
      repr := {this, q, q.storage, tracker} + (if fault == null then {} else fault.repr);
      lane := LaneData(capacity, 0, [], 0, NewTracker(low, high),
                       if fault == null then None else Some(fault.model));
    }

    method Commit(count: nat)
      requires Valid() && count <= WritableLen(queue.storage.Length, queue.head, queue.size)
      modifies this`lane, queue
      ensures Valid()
      ensures var l := old(lane);
              var start := Slot(l.head + |l.queue|, l.capacity);
              && |l.queue| + count <= l.capacity && start + count <= l.capacity == queue.storage.Length
              && var bytes := l.queue + queue.storage[start..start + count];
                 lane == l.(queue := bytes, peak := Max(l.peak, |bytes|))
    {
      SpansNonEmpty(queue.storage.Length, queue.head, queue.size);
      var ok := queue.CommitWrite(count);
      assert ok;
      lane := lane.(queue := queue.Contents(), peak := queue.highWaterMark);
    }

    method StampIngress(count: nat, now: Time)
      requires Valid()
      modifies this`lane, FaultRepr()
      ensures Valid() && lane == old(lane).(fault := Stamp(old(lane.fault), count, now))
    {
      if fault != null {
        fault.Stamp(count, now);
        lane := lane.(fault := Some(fault.model));
      }
    }

    method ObserveBackpressure(now: Time)
      requires Valid()
      modifies this`lane, backpressure
      ensures Valid() && lane == Watch(old(lane), now)
    {
      var seen := backpressure.ObserveOccupancy(queue.size, queue.storage.Length, now);
      assert seen.Some?;
      lane := lane.(tracker := backpressure.Model());
    }

    /** The writable span begins with `data`. */
    ghost predicate Holds(data: seq<byte>)
      requires Valid()
      reads this, repr
    {
      Follows(queue.storage[..], queue.head, queue.size, data)
    }

    /** Receives into the writable span, up to the high-water mark, without queueing yet. */
    method ReceiveFrom(io: SocketIo, source: Side, now: Time) returns (got: IoResult, ghost data: seq<byte>)
      requires Valid() && io !in repr
      modifies io, queue.storage
      ensures Valid() && lane == old(lane)
      ensures (got, data) == Receiving(old(io.wire.receives), ReadSpan(lane))
      ensures Holds(data)
      ensures io.arrived == old(io.arrived).Put(source, old(io.arrived).At(source) + data)
      ensures io.arrivedAt == old(io.arrivedAt).Put(source, old(io.arrivedAt).At(source) + Repeat(now, |data|))
      ensures io.wire == old(io.wire).(receives := Rest(old(io.wire.receives)))
      ensures io.departed == old(io.departed) && io.departedAt == old(io.departedAt) && io.shuts == old(io.shuts)
    {
      var toHighWater := Wrap64(backpressure.high - queue.size);
      got, data := ReceiveInto(queue, io, source, toHighWater, now);
    }

    /** Takes in `count` bytes just received into the writable span. */
    method Accept(count: nat, now: Time, ghost data: seq<byte>)
      requires Valid() && Holds(data) && count == |data|
      modifies repr
      ensures Valid()
      ensures |old(lane.queue)| + |data| <= old(lane.capacity) && lane == Accepted(old(lane), data, now)
    {
      Commit(count);
      StampIngress(count, now);
      ObserveBackpressure(now);
    }

    method Sendable(limit: nat, now: Time) returns (n: nat)
      requires Valid()
      modifies this`lane, FaultRepr()
      ensures Valid() && lane == Settled(old(lane), now)
      ensures n == Budget(old(lane.fault), limit, now)
    {
      if fault == null {
        return limit;
      }
      n := fault.Sendable(limit, now);
      lane := lane.(fault := Some(fault.model));
    }

    method Wake(now: Time) returns (wake: Option<Time>)
      requires Valid() && lane.queue != [] && fault != null
      requires Budget(lane.fault, |lane.queue|, now) == 0 && Settle(lane.fault, now) == lane.fault
      modifies FaultRepr()
      ensures Valid() && lane == old(lane) && wake == WakeOf(lane.fault, |lane.queue|, now)
    {
      wake := fault.Wake(queue.size, now);
    }

    /** Offers the `budget` oldest queued bytes to the destination's socket. */
    method SendThrough(io: SocketIo, destination: Side, budget: nat, now: Time)
        returns (got: IoResult, ghost bytes: nat)
      requires Valid() && io !in repr && budget <= lane.Contiguous()
      modifies io
      ensures Valid() && lane == old(lane)
      ensures got == Sending(old(io.wire.sends), budget) && bytes == (if got.Transferred? then got.bytes else 0)
      ensures bytes <= |lane.queue|
      ensures io.departed == old(io.departed).Put(destination, old(io.departed).At(destination) + lane.queue[..bytes])
      ensures var before := old(io.departedAt);
              io.departedAt == before.Put(destination, before.At(destination) + Repeat(now, bytes))
      ensures io.wire == old(io.wire).(sends := Rest(old(io.wire.sends)))
      ensures io.arrived == old(io.arrived) && io.arrivedAt == old(io.arrivedAt) && io.shuts == old(io.shuts)
    {
      var start, len := queue.ReadableSpan();
      got := io.Send(destination, queue.storage, start, budget, now);
      bytes := if got.Transferred? then got.bytes else 0;
      PrefixSlice(queue.storage[..], start, len, bytes);
      assert queue.storage[start..start + bytes] == queue.Contents()[..len][..bytes] == queue.Contents()[..bytes];
    }

    method Dequeue(count: nat)
      requires Valid() && count <= queue.size
      modifies this`lane, queue
      ensures Valid()
      ensures var l := old(lane);
              && count <= |l.queue|
              && lane == l.(head := HeadAfter(l.capacity, l.head, |l.queue|, count), queue := l.queue[count..])
    {
      var ok := queue.Consume(count);
      assert ok;
      lane := lane.(head := queue.head, queue := queue.Contents());
    }

    method TakeSent(count: nat)
      requires Valid() && Takable(lane.fault, count)
      modifies this`lane, FaultRepr()
      ensures Valid() && lane == old(lane).(fault := Take(old(lane.fault), count))
    {
      if fault != null {
        fault.Take(count);
        lane := lane.(fault := Some(fault.model));
      }
    }

    /** Drops `count` sent bytes. */
    method Release(count: nat, now: Time)
      requires Valid() && count <= queue.size && Takable(lane.fault, count)
      modifies this`lane, {queue, backpressure} + FaultRepr()
      ensures Valid() && lane == Released(old(lane), count, now)
    {
      Dequeue(count);
      TakeSent(count);
      ObserveBackpressure(now);
    }
  }

  // ---- The relay ----

  /** The fault channel of one direction, when the plan paces that direction. */
  method MakeChannel(plan: FaultPlan, connectionId: bv64, source: Side, now: Time) returns (channel: FaultChannel?)
    requires plan.Valid()
    ensures channel == null <==> NewChannel(plan, connectionId, source, now).None?
    ensures channel != null ==> channel.Valid() && fresh(channel.repr)
                                && Some(channel.model) == NewChannel(plan, connectionId, source, now)
  {
    if !plan.Paced() || !plan.AppliesTo(source) {
      return null;
    }
    var seed := DirectionSeed(ConnectionSeed(plan.masterSeed, connectionId), if source.Client? then 0 else 1);
    var bucket: TokenBucket? := null;
    if plan.rate > 0 {
      bucket := new TokenBucket(plan.rate, plan.EffectiveBurst(), now);
    }
    channel := new FaultChannel(plan.latency > 0 || plan.jitter > 0, bucket, seed,
                                plan.latency * NS_PER_MS, plan.jitter * NS_PER_MS);
  }

  method MakeDirection(config: RelayConfig, plan: FaultPlan, connectionId: bv64, source: Side, now: Time)
      returns (d: Direction)
    requires config.Valid() && plan.Valid()
    ensures d.Valid() && fresh(d.repr)
    ensures d.lane == NewFlow(config, NewChannel(plan, connectionId, source, now)).lane
  {
    var channel := MakeChannel(plan, connectionId, source, now);
    d := new Direction(config.capacity, config.low, config.high, channel);
  }

  method MakeDirections(
      config: RelayConfig, plan: FaultPlan, connectionId: bv64, now: Time, ghost connecting: bool, ghost wire: Wire)
      returns (c2u: Direction, u2c: Direction)
    requires config.Valid() && plan.Valid()
    ensures c2u.Valid() && u2c.Valid() && fresh(c2u.repr) && fresh(u2c.repr) && c2u.repr !! u2c.repr
    ensures Pair(Flow(c2u.lane, [], [], [], []), Flow(u2c.lane, [], [], [], []))
            == NewRelay(config, plan, connectionId, connecting, wire, now).flows
  {
    c2u := MakeDirection(config, plan, connectionId, Client, now);
    u2c := MakeDirection(config, plan, connectionId, Upstream, now);
  }

  class Relay {
    const clientToUpstream: Direction
    const upstreamToClient: Direction
    const io: SocketIo
    const resetAfter: nat
    const halfCloseAfter: nat
    const acceptedAt: Time
    var upstreamConnecting: bool
    var readOpen: Pair<bool>
    var writeOpen: Pair<bool>
    var halfCloseInjected: bool
    var state: ConnectionState
    var metrics: Metrics
    var lastActivity: Time

    ghost function Repr(): set<object> {
      {this, io, clientToUpstream, upstreamToClient} + clientToUpstream.repr + upstreamToClient.repr
    }

    /** The parts share nothing. */
    ghost predicate Apart() {
      var apart :=
      && clientToUpstream.repr !! upstreamToClient.repr
      && this !in clientToUpstream.repr && io !in clientToUpstream.repr
      && this !in upstreamToClient.repr && io !in upstreamToClient.repr
      && this as object != io;
      apart
    }

    ghost predicate Valid()
      reads Repr()
    {
      var valid := Apart() && clientToUpstream.Valid() && upstreamToClient.Valid();
      valid
    }

    function DirectionFrom(source: Side): Direction {
      if source.Client? then clientToUpstream else upstreamToClient
    }

    ghost function FlowFrom(source: Side): Flow
      reads this, io, clientToUpstream, upstreamToClient
    {
      Flow(DirectionFrom(source).lane, io.arrived.At(source), io.arrivedAt.At(source),
           io.departed.At(source.Other()), io.departedAt.At(source.Other()))
    }

    ghost function Model(): RelayModel.Relay
      reads this, io, clientToUpstream, upstreamToClient
    {
      RelayModel.Relay(Pair(FlowFrom(Client), FlowFrom(Upstream)), upstreamConnecting, readOpen, writeOpen,
                       resetAfter, halfCloseAfter, halfCloseInjected, state, metrics,
                       acceptedAt, lastActivity, io.wire, io.shuts)
    }

    constructor (config: RelayConfig, plan: FaultPlan, connectionId: bv64, connecting: bool, io: SocketIo, now: Time)
      requires config.Valid() && plan.Valid()
      requires io.arrived == io.departed == Pair([], []) && io.arrivedAt == io.departedAt == Pair([], [])
      requires io.shuts == Pair([], [])
      ensures Valid() && fresh(clientToUpstream.repr) && fresh(upstreamToClient.repr) && this.io == io
      ensures Model() == NewRelay(config, plan, connectionId, connecting, io.wire, now)
    {
      var c2u, u2c := MakeDirections(config, plan, connectionId, now, connecting, io.wire);
      clientToUpstream, upstreamToClient, this.io := c2u, u2c, io;
      resetAfter, halfCloseAfter, acceptedAt := plan.resetAfter, plan.halfCloseAfter, now;
      upstreamConnecting, readOpen, writeOpen := connecting, Pair(true, true), Pair(true, true);
      halfCloseInjected := false;
      state := if connecting then ConnectingUpstream else Active;
      metrics := Metrics(Pair(0, 0), Pair(0, 0), 0, 0, 0, 0);
      lastActivity := now;
    }

    method NoteHalfClosedRead(source: Side)
      requires Valid()
      modifies this`readOpen, this`state
      ensures Valid() && Model() == RelayModel.NoteHalfClosedRead(old(Model()), source)
    {
      readOpen := readOpen.Put(source, false);
      state := DeriveState(upstreamConnecting, readOpen);
    }

    /** `data` is in the writable span of the source's queue, but not queued yet. */
    method ReceiveBytes(source: Side, now: Time) returns (got: IoResult, ghost data: seq<byte>)
      requires Valid()
      modifies io, DirectionFrom(source).queue.storage
      ensures Valid() && DirectionFrom(source).Valid() && DirectionFrom(source).Holds(data)
      ensures (got, data) == Receiving(old(io.wire.receives), ReadSpan(old(DirectionFrom(source).lane)))
      ensures Model() == Arrived(old(Model()), source, data, now)
    {
      if source.Client? {
        assert clientToUpstream.queue.storage !in upstreamToClient.repr;
        got, data := clientToUpstream.ReceiveFrom(io, source, now);
      } else {
        assert upstreamToClient.queue.storage !in clientToUpstream.repr;
        got, data := upstreamToClient.ReceiveFrom(io, source, now);
      }
    }

    /** Takes the bytes in the writable span into the source's queue. */
    method AcceptBytes(source: Side, bytes: nat, now: Time, ghost data: seq<byte>)
      requires Valid() && DirectionFrom(source).Holds(data) && bytes == |data|
      modifies DirectionFrom(source).repr
      ensures Valid()
      ensures |old(DirectionFrom(source).lane.queue)| + |data| <= old(DirectionFrom(source).lane.capacity)
      ensures Model() == old(Model()).(flows := TakenFlows(old(Model().flows), source, data, now))
    {
      if source.Client? {
        clientToUpstream.Accept(bytes, now, data);
        assert upstreamToClient.lane == old(upstreamToClient.lane);
      } else {
        upstreamToClient.Accept(bytes, now, data);
        assert clientToUpstream.lane == old(clientToUpstream.lane);
      }
    }

    method CountRead(source: Side, bytes: nat, now: Time)
      requires Valid()
      modifies this`lastActivity, this`metrics
      ensures Valid()
      ensures var m := old(metrics);
              Model() == old(Model()).(lastActivity := now,
                metrics := m.(readOperations := m.readOperations + 1,
                              bytesRead := m.bytesRead.Put(source, m.bytesRead.At(source) + bytes)))
    {
      lastActivity := now;
      metrics := metrics.(readOperations := metrics.readOperations + 1,
                          bytesRead := metrics.bytesRead.Put(source, metrics.bytesRead.At(source) + bytes));
    }

    /** Takes received bytes in and counts them. */
    method TakeIn(source: Side, bytes: nat, now: Time, ghost data: seq<byte>)
      requires Valid() && DirectionFrom(source).Holds(data) && bytes == |data|
      modifies this, DirectionFrom(source).repr
      ensures Valid()
      ensures |old(DirectionFrom(source).lane.queue)| + |data| <= old(DirectionFrom(source).lane.capacity)
      ensures Model() == Taken(old(Model()), source, data, now)
    {
      AcceptBytes(source, bytes, now, data);
      CountRead(source, bytes, now);
    }

    method NoteEagain()
      requires Valid()
      modifies this`metrics
      ensures Valid() && Model() == RelayModel.NoteEagain(old(Model()))
    {
      metrics := metrics.(eagainEvents := metrics.eagainEvents + 1);
    }

    method NoteNothingRead(source: Side, hangup: bool)
      requires Valid()
      modifies this`metrics, this`readOpen, this`state
      ensures Valid()
      ensures var r := RelayModel.NoteEagain(old(Model()));
              Model() == if hangup then RelayModel.NoteHalfClosedRead(r, source) else r
    {
      NoteEagain();
      if hangup {
        NoteHalfClosedRead(source);
      }
    }

    /** One round of reading. */
    method ReadOnce(source: Side, hangup: bool, now: Time) returns (again: bool, result: PumpResult)
      requires Valid() && readOpen.At(source) && !DirectionFrom(source).backpressure.readPaused
      modifies Repr()
      ensures Valid()
      ensures RelayModel.ReadOnce(old(Model()), source, hangup, now)
              == if again then Again(Model()) else Done(Model(), result)
      ensures again ==> result == Continue
    {
      ReadOnceInSteps(Model(), source, hangup, now);
      result, again := Continue, false;
      var got, data := ReceiveBytes(source, now);
      match got
      case Transferred(bytes) =>
        TakeIn(source, bytes, now, data);
        again := true;
      case PeerClosed =>
        NoteHalfClosedRead(source);
      case WouldBlock =>
        NoteNothingRead(source, hangup);
      case Error(error) =>
        result := CloseForError(error, ReadError);
    }

    /** Drains the readable socket until it would block, ends, fails, or reads are paused. */
    method HandleReadable(source: Side, hangup: bool, now: Time) returns (result: PumpResult)
      requires Valid() && Watermarks(DirectionFrom(source).lane)
      modifies Repr()
      ensures Valid() && Watermarks(DirectionFrom(source).lane)
      ensures (Model(), result) == RelayModel.HandleReadable(old(Model()), source, hangup, now)
    {
      result := Continue;
      while readOpen.At(source) && !DirectionFrom(source).backpressure.readPaused
        invariant Valid() && Watermarks(DirectionFrom(source).lane)
        invariant RelayModel.HandleReadable(Model(), source, hangup, now)
                  == RelayModel.HandleReadable(old(Model()), source, hangup, now)
        invariant result == Continue
        decreases DirectionFrom(source).lane.tracker.high - |DirectionFrom(source).lane.queue|
      {
        ReadOnceProgress(Model(), source, hangup, now);
        var again;
        again, result := ReadOnce(source, hangup, now);
        if !again {
          return;
        }
      }
    }

    // ---- Writing ----

    method SendableTo(destination: Side, limit: nat, now: Time) returns (n: nat)
      requires Valid()
      modifies DirectionFrom(destination.Other()).repr
      ensures Valid()
      ensures Model() == SettleTo(old(Model()), destination, now)
      ensures n == BudgetTo(old(Model()), destination, limit, now)
    {
      if destination.Upstream? {
        n := clientToUpstream.Sendable(limit, now);
      } else {
        n := upstreamToClient.Sendable(limit, now);
      }
    }

    /** Offers the `budget` oldest queued bytes to the destination's socket. */
    method SendBytes(destination: Side, budget: nat, now: Time) returns (got: IoResult, ghost bytes: nat)
      requires Valid() && budget <= DirectionFrom(destination.Other()).lane.Contiguous()
      modifies io
      ensures Valid()
      ensures got == Sending(old(io.wire.sends), budget) && bytes == (if got.Transferred? then got.bytes else 0)
      ensures bytes <= |old(Model()).QueueTo(destination)| && Model() == Departed(old(Model()), destination, bytes, now)
    {
      if destination.Upstream? {
        got, bytes := clientToUpstream.SendThrough(io, destination, budget, now);
      } else {
        got, bytes := upstreamToClient.SendThrough(io, destination, budget, now);
      }
    }

    method ReleaseBytes(destination: Side, bytes: nat, now: Time)
      requires Valid() && bytes <= |Model().QueueTo(destination)| && Takable(Model().FaultTo(destination), bytes)
      modifies DirectionFrom(destination.Other()).repr
      ensures Valid()
      ensures Model() == old(Model()).(flows := ReleasedFlows(old(Model().flows), destination, bytes, now))
    {
      if destination.Upstream? {
        clientToUpstream.Release(bytes, now);
      } else {
        upstreamToClient.Release(bytes, now);
      }
    }

    method CountWritten(destination: Side, budget: nat, bytes: nat, now: Time)
      requires Valid()
      modifies this`lastActivity, this`metrics
      ensures Valid()
      ensures Model() == old(Model()).(lastActivity := now,
                                       metrics := WrittenMetrics(old(metrics), destination, budget, bytes))
    {
      if bytes < budget {
        metrics := metrics.(partialWrites := metrics.partialWrites + 1);
      }
      lastActivity := now;
      var written := metrics.bytesWritten;
      metrics := metrics.(writeOperations := metrics.writeOperations + 1,
                          bytesWritten := written.Put(destination, written.At(destination) + bytes));
    }

    /** Drops bytes that have gone out and counts them. */
    method TakeOut(destination: Side, budget: nat, bytes: nat, now: Time)
      requires Valid() && bytes <= |Model().QueueTo(destination)| && Takable(Model().FaultTo(destination), bytes)
      modifies this, DirectionFrom(destination.Other()).repr
      ensures Valid()
      ensures Model() == Dropped(old(Model()), destination, budget, bytes, now)
    {
      ReleaseBytes(destination, bytes, now);
      CountWritten(destination, budget, bytes, now);
    }

    /** Offers a budget to the socket, and does what its answer asks for. */
    method SendRound(destination: Side, budget: nat, now: Time) returns (again: bool, result: PumpResult)
      requires Valid() && budget <= DirectionFrom(destination.Other()).lane.Contiguous()
      requires budget <= |Model().QueueTo(destination)| && Sendable(Model(), destination, budget)
      modifies Repr()
      ensures Valid()
      ensures Sends(old(Model()), destination, budget, now) == if again then Again(Model()) else Done(Model(), result)
      ensures again ==> result == Continue
    {
      result, again := Continue, false;
      var got, bytes := SendBytes(destination, budget, now);
      match got
      case Transferred(n) =>
        TakeOut(destination, budget, n, now);
        again := true;
      case WouldBlock =>
        NoteEagain();
      case Error(error) =>
        result := CloseForError(error, WriteError);
    }

    /** One round of writing. */
    method FlushOnce(destination: Side, now: Time) returns (again: bool, result: PumpResult)
      requires Valid() && Model().QueueTo(destination) != []
      modifies Repr()
      ensures Valid()
      ensures RelayModel.FlushOnce(old(Model()), destination, now)
              == if again then Again(Model()) else Done(Model(), result)
      ensures again ==> result == Continue
    {
      FlushOnceInSteps(Model(), destination, now);
      var _, span := DirectionFrom(destination.Other()).queue.ReadableSpan();
      var budget := SendableTo(destination, span, now);
      if budget == 0 {
        return false, Continue;
      }
      again, result := SendRound(destination, budget, now);
    }

    method ShutWrite(side: Side)
      requires Valid()
      modifies this`writeOpen, io
      ensures Valid() && Model() == RelayModel.ShutWrite(old(Model()), side)
    {
      var ok := io.ShutdownWrite(side);
      if ok {
        writeOpen := writeOpen.Put(side, false);
      }
    }

    method CheckLifecycleFaults() returns (result: PumpResult)
      requires Valid()
      modifies this`writeOpen, this`halfCloseInjected, io
      ensures Valid() && (Model(), result) == CheckLifecycle(old(Model()))
    {
      var totalWritten := metrics.bytesWritten.client + metrics.bytesWritten.upstream;
      if halfCloseAfter > 0 && !halfCloseInjected && writeOpen.client && metrics.bytesWritten.client >= halfCloseAfter {
        halfCloseInjected := true;
        ShutWrite(Client);
      }
      result := if resetAfter > 0 && totalWritten >= resetAfter then Close(Reset, InjectedReset) else Continue;
    }

    /** Writes queued bytes until the queue empties, the budget runs out, the socket would block,
        or it fails; then applies the lifecycle faults. */
    method Flush(destination: Side, now: Time) returns (result: PumpResult)
      requires Valid()
      modifies Repr()
      ensures Valid() && (Model(), result) == RelayModel.Flush(old(Model()), destination, now)
    {
      if !writeOpen.At(destination) || (destination.Upstream? && upstreamConnecting) {
        return Continue;
      }
      var queue := DirectionFrom(destination.Other()).queue;
      result := Continue;
      while queue.size != 0
        invariant Valid() && result == Continue
        invariant FlushLoop(Model(), destination, now) == FlushLoop(old(Model()), destination, now)
        decreases queue.size
      {
        FlushOnceProgress(Model(), destination, now);
        var again;
        again, result := FlushOnce(destination, now);
        if !again {
          if result.Close? {
            return;
          }
          break;
        }
      }
      result := CheckLifecycleFaults();
    }

    /** Forwards the half-close of `side`'s source, if one was observed and its queue has drained. */
    method ForwardHalfClose(side: Side)
      requires Valid()
      modifies this`writeOpen, io
      ensures Valid()
      ensures var r := old(Model()); Model() == if ForwardDue(r, side) then RelayModel.ShutWrite(r, side) else r
    {
      if !readOpen.At(side.Other()) && DirectionFrom(side.Other()).queue.size == 0
         && writeOpen.At(side) && !(side.Upstream? && upstreamConnecting) {
        ShutWrite(side);
      }
    }

    method PropagateHalfCloses()
      requires Valid()
      modifies this`writeOpen, io
      ensures Valid() && Model() == RelayModel.PropagateHalfCloses(old(Model()))
    {
      ForwardHalfClose(Upstream);
      ForwardHalfClose(Client);
    }

    // ---- Asking ----

    method WakeIn(destination: Side, now: Time) returns (wake: Option<Time>)
      requires Valid() && Model().QueueTo(destination) != [] && Model().FaultTo(destination).Some?
      requires BudgetTo(Model(), destination, |Model().QueueTo(destination)|, now) == 0
      requires SettleTo(Model(), destination, now) == Model()
      modifies DirectionFrom(destination.Other()).repr
      ensures Valid() && Model() == old(Model())
      ensures wake == WakeOf(old(Model()).FaultTo(destination), |old(Model()).QueueTo(destination)|, now)
    {
      if destination.Upstream? {
        wake := clientToUpstream.Wake(now);
      } else {
        wake := upstreamToClient.Wake(now);
      }
    }

    /** When a destination blocked on its faults could make progress. */
    method NextWake(destination: Side, now: Time) returns (wake: Option<Time>)
      requires Valid()
      modifies DirectionFrom(destination.Other()).repr
      ensures Valid() && (Model(), wake) == RelayModel.NextWake(old(Model()), destination, now)
    {
      var direction := DirectionFrom(destination.Other());
      if !writeOpen.At(destination) || (destination.Upstream? && upstreamConnecting)
         || direction.queue.size == 0 || direction.fault == null {
        return None;
      }
      SettledOnce(Model(), destination, direction.queue.size, now);
      var n := SendableTo(destination, direction.queue.size, now);
      if n > 0 {
        return None;
      }
      wake := WakeIn(destination, now);
    }

    method FullyDrained() returns (drained: bool)
      requires Valid()
      ensures drained == RelayModel.FullyDrained(Model())
    {
      var upstreamDone := clientToUpstream.queue.size == 0 || !writeOpen.upstream;
      var clientDone := upstreamToClient.queue.size == 0 || !writeOpen.client;
      drained := !readOpen.client && !readOpen.upstream && upstreamDone && clientDone;
    }

    method DesiredInterest(side: Side, now: Time) returns (interest: Interest)
      requires Valid()
      modifies DirectionFrom(side.Other()).repr
      ensures Valid() && (Model(), interest) == RelayModel.DesiredInterest(old(Model()), side, now)
    {
      if side.Upstream? && upstreamConnecting {
        return Interest(false, true);
      }
      var outbound := DirectionFrom(side.Other());
      var read := readOpen.At(side) && !DirectionFrom(side).backpressure.readPaused;
      if !writeOpen.At(side) || outbound.queue.size == 0 {
        return Interest(read, false);
      }
      var n := SendableTo(side, outbound.queue.size, now);
      interest := Interest(read, n > 0);
    }

    method MarkUpstreamConnected()
      requires Valid()
      modifies this`upstreamConnecting, this`state
      ensures Valid() && Model() == MarkConnected(old(Model()))
    {
      upstreamConnecting := false;
      state := DeriveState(upstreamConnecting, readOpen);
    }
  }

  /** The two halves of receiving: bytes land in the buffer, then they are taken into the queue. */
  ghost function Arrived(r: RelayModel.Relay, source: Side, data: seq<byte>, now: Time): RelayModel.Relay {
    var f := r.flows.At(source);
    r.(wire := r.wire.(receives := Rest(r.wire.receives)),
       flows := r.flows.Put(source, f.(received := f.received + data,
                                       receivedAt := f.receivedAt + Repeat(now, |data|))))
  }

  ghost function TakenFlows(flows: Pair<Flow>, source: Side, data: seq<byte>, now: Time): Pair<Flow>
    requires |flows.At(source).lane.queue| + |data| <= flows.At(source).lane.capacity
  {
    flows.Put(source, flows.At(source).(lane := Accepted(flows.At(source).lane, data, now)))
  }

  ghost function Taken(r: RelayModel.Relay, source: Side, data: seq<byte>, now: Time): RelayModel.Relay
    requires |r.flows.At(source).lane.queue| + |data| <= r.flows.At(source).lane.capacity
  {
    var m := r.metrics;
    r.(flows := TakenFlows(r.flows, source, data, now),
       lastActivity := now,
       metrics := m.(readOperations := m.readOperations + 1,
                     bytesRead := m.bytesRead.Put(source, m.bytesRead.At(source) + |data|)))
  }

  lemma ArrivedNothing(r: RelayModel.Relay, source: Side, now: Time)
    ensures Arrived(r, source, [], now) == r.(wire := r.wire.(receives := Rest(r.wire.receives)))
  {
    var f := r.flows.At(source);
    assert f.received + [] == f.received && f.receivedAt + Repeat(now, 0) == f.receivedAt;
  }

  /** One round of reading as the object performs it. */
  lemma ReadOnceInSteps(r: RelayModel.Relay, source: Side, hangup: bool, now: Time)
    requires r.readOpen.At(source) && !r.flows.At(source).lane.tracker.paused
    ensures var (got, data) := Receiving(r.wire.receives, ReadSpan(r.flows.At(source).lane));
            var r1 := Arrived(r, source, data, now);
            && |r.flows.At(source).lane.queue| + |data| <= r.flows.At(source).lane.capacity
            && RelayModel.ReadOnce(r, source, hangup, now) ==
               match got
               case Transferred(_) => Again(Taken(r1, source, data, now))
               case PeerClosed => Done(RelayModel.NoteHalfClosedRead(r1, source), Continue)
               case WouldBlock =>
                 Done(if hangup then RelayModel.NoteHalfClosedRead(RelayModel.NoteEagain(r1), source)
                      else RelayModel.NoteEagain(r1), Continue)
               case Error(error) => Done(r1, CloseForError(error, ReadError))
  {
    ReadSpanFits(r.flows.At(source).lane);
    ArrivedNothing(r, source, now);
  }

  lemma AcceptedLeavesRoom(l: Lane, data: seq<byte>, now: Time)
    requires Watermarks(l) && !l.tracker.paused && 0 < |data| <= ReadSpan(l)
    ensures |l.queue| + |data| <= l.capacity
    ensures var l' := Accepted(l, data, now);
            Watermarks(l') && l'.tracker.high == l.tracker.high && |l.queue| < |l'.queue|
  {
    ReadSpanIsRoom(l);
  }

  /** While reads go on, each round leaves less room below the high-water mark. */
  lemma ReadOnceProgress(r: RelayModel.Relay, source: Side, hangup: bool, now: Time)
    requires Watermarks(r.flows.At(source).lane)
    ensures var step := RelayModel.ReadOnce(r, source, hangup, now);
            var l, l' := r.flows.At(source).lane, step.relay.flows.At(source).lane;
            && Watermarks(l')
            && (step.Again? ==> l'.tracker.high == l.tracker.high && |l.queue| < |l'.queue|)
  {
    var l := r.flows.At(source).lane;
    var (result, data) := Receiving(r.wire.receives, ReadSpan(l));
    if !l.tracker.paused && result.Transferred? {
      AcceptedLeavesRoom(l, data, now);
    }
  }

  /** Bytes leave through the socket, and then the queue. */
  ghost function Departed(r: RelayModel.Relay, destination: Side, bytes: nat, now: Time): RelayModel.Relay
    requires bytes <= |r.QueueTo(destination)|
  {
    var f := r.FlowTo(destination);
    r.(wire := r.wire.(sends := Rest(r.wire.sends)),
       flows := r.flows.Put(destination.Other(), f.(sent := f.sent + f.lane.queue[..bytes],
                                                    sentAt := f.sentAt + Repeat(now, bytes))))
  }

  ghost function ReleasedFlows(flows: Pair<Flow>, destination: Side, bytes: nat, now: Time): Pair<Flow>
    requires var l := flows.At(destination.Other()).lane; bytes <= |l.queue| && Takable(l.fault, bytes)
  {
    var f := flows.At(destination.Other());
    flows.Put(destination.Other(), f.(lane := Released(f.lane, bytes, now)))
  }

  ghost function WrittenMetrics(m: Metrics, destination: Side, budget: nat, bytes: nat): Metrics {
    m.(partialWrites := m.partialWrites + (if bytes < budget then 1 else 0),
       writeOperations := m.writeOperations + 1,
       bytesWritten := m.bytesWritten.Put(destination, m.bytesWritten.At(destination) + bytes))
  }

  ghost function Dropped(r: RelayModel.Relay, destination: Side, budget: nat, bytes: nat, now: Time): RelayModel.Relay
    requires bytes <= |r.QueueTo(destination)| && Takable(r.FaultTo(destination), bytes)
  {
    r.(flows := ReleasedFlows(r.flows, destination, bytes, now),
       lastActivity := now,
       metrics := WrittenMetrics(r.metrics, destination, budget, bytes))
  }

  lemma PrefixSlice(cells: seq<byte>, start: nat, len: nat, bytes: nat)
    requires bytes <= len && start + len <= |cells|
    ensures cells[start..start + bytes] == cells[start..start + len][..bytes]
  {
  }

  lemma DepartedNothing(r: RelayModel.Relay, destination: Side, now: Time)
    ensures Departed(r, destination, 0, now) == r.(wire := r.wire.(sends := Rest(r.wire.sends)))
  {
    var f := r.FlowTo(destination);
    assert f.sent + f.lane.queue[..0] == f.sent && f.sentAt + Repeat(now, 0) == f.sentAt;
  }

  /** Whatever part of the budget the socket accepts can be accounted for. */
  ghost predicate Sendable(r: RelayModel.Relay, destination: Side, budget: nat) {
    var got := Sending(r.wire.sends, budget);
    got.Transferred? ==> Takable(r.FaultTo(destination), got.bytes)
  }

  /** What offering a budget to the socket makes of a settled relay. */
  ghost function Sends(r: RelayModel.Relay, destination: Side, budget: nat, now: Time): Step
    requires budget <= |r.QueueTo(destination)| && Sendable(r, destination, budget)
  {
    match Sending(r.wire.sends, budget)
    case Transferred(n) => Again(Dropped(Departed(r, destination, n, now), destination, budget, n, now))
    case WouldBlock => Done(RelayModel.NoteEagain(Departed(r, destination, 0, now)), Continue)
    case Error(error) => Done(Departed(r, destination, 0, now), CloseForError(error, WriteError))
    case PeerClosed => assert false; Done(r, Continue)
  }

  /** One round of writing as the object performs it. */
  lemma FlushOnceInSteps(r: RelayModel.Relay, destination: Side, now: Time)
    requires r.QueueTo(destination) != []
    ensures var span := r.FlowTo(destination).lane.Contiguous();
            var budget := BudgetTo(r, destination, span, now);
            var r0 := SettleTo(r, destination, now);
            && budget <= span <= |r.QueueTo(destination)| && Sendable(r0, destination, budget)
            && RelayModel.FlushOnce(r, destination, now) ==
               if budget == 0 then Done(r0, Continue) else Sends(r0, destination, budget, now)
  {
    FrontIsSendable(r, destination, now);
    DepartedNothing(SettleTo(r, destination, now), destination, now);
  }

  lemma FrontIsSendable(r: RelayModel.Relay, destination: Side, now: Time)
    ensures var span := r.FlowTo(destination).lane.Contiguous();
            var budget := BudgetTo(r, destination, span, now);
            budget <= span <= |r.QueueTo(destination)| && Sendable(SettleTo(r, destination, now), destination, budget)
  {
    var lane := r.FlowTo(destination).lane;
    SpansNonEmpty(lane.capacity, lane.head, |lane.queue|);
    var span := lane.Contiguous();
    var got := Sending(r.wire.sends, BudgetTo(r, destination, span, now));
    if got.Transferred? {
      BudgetIsTakable(lane.fault, span, got.bytes, now);
    }
  }

  lemma FlushOnceProgress(r: RelayModel.Relay, destination: Side, now: Time)
    ensures var step := RelayModel.FlushOnce(r, destination, now);
            step.Again? ==> |step.relay.QueueTo(destination)| < |r.QueueTo(destination)|
  {
  }

  /** Having asked for a budget, asking again at the same time changes nothing. */
  lemma SettledOnce(r: RelayModel.Relay, destination: Side, size: nat, now: Time)
    ensures var s := SettleTo(r, destination, now);
            && SettleTo(s, destination, now) == s
            && BudgetTo(s, destination, size, now) == BudgetTo(r, destination, size, now)
            && WakeOf(s.FaultTo(destination), size, now) == WakeOf(r.FaultTo(destination), size, now)
  {
    SettleAgain(r.FaultTo(destination), size, now);
  }
}
