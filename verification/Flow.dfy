/** One direction of a proxied connection on values: the queue, the tracker, the fault channel,
    and the bytes that have gone in and come out. */
module Flows {
  import opened Basics
  import opened Arithmetic
  import opened ByteQueues
  import opened Backpressure
  import opened DelayLines
  import opened TokenBuckets
  import opened Grains

  const PREFERRED_RELEASE_BYTES: nat := 4096

  /** Fault state of one direction. `jitterOf(k)` is the k-th sample its random stream yields. */
  datatype Channel = Channel(
    delay: Option<Delay>, bucket: Option<Bucket>,
    jitterOf: nat -> int, drawn: nat, latency: nat, jitter: nat,
    delayedSegments: nat, delayBudget: nat)

  datatype LaneData = LaneData(
    capacity: pos, head: nat, queue: seq<byte>, peak: nat, tracker: Tracker, fault: Option<Channel>)
  {
    function Contiguous(): nat
      requires head < capacity
    {
      ReadableLen(capacity, head, |queue|)
    }
  }

  type Lane = l: LaneData | l.head < l.capacity && |l.queue| <= l.capacity
    witness LaneData(1, 0, [], 0, NewTracker(0, 1), None)

  /** A direction and its history: each byte received or sent, and when. */
  datatype Flow = Flow(
    lane: Lane, received: seq<byte>, receivedAt: seq<Time>, sent: seq<byte>, sentAt: seq<Time>)

  // ---- Fault channel operations ----

  function Quantum(eligible: nat, burst: nat): nat {
    Min(eligible, Min(burst, PREFERRED_RELEASE_BYTES))
  }

  function Eligible(fault: Option<Channel>, limit: nat, now: Time): nat {
    if fault.Some? && fault.value.delay.Some? then Min(limit, Releasable(fault.value.delay.value.Times(), now))
    else limit
  }

  /** How many of `limit` bytes the faults allow out at `now`. */
  function Budget(fault: Option<Channel>, limit: nat, now: Time): nat {
    var eligible := Eligible(fault, limit, now);
    if fault.None? || fault.value.bucket.None? then eligible
    else
      var bucket := fault.value.bucket.value;
      var available := Available(bucket, now);
      if available < Quantum(eligible, bucket.burst) then 0 else Min(eligible, available)
  }

  /** Asking for a budget refills the bucket. */
  function Settle(fault: Option<Channel>, now: Time): Option<Channel> {
    if fault.None? || fault.value.bucket.None? then fault
    else Some(fault.value.(bucket := Some(Refill(fault.value.bucket.value, now))))
  }

  /** Delay of the next segment: latency plus jitter, never negative. */
  function SegmentDelay(ch: Channel): nat {
    Max(0, ch.latency + if ch.jitter == 0 then 0 else ch.jitterOf(ch.drawn))
  }

  function Stamp(fault: Option<Channel>, bytes: nat, now: Time): Option<Channel> {
    if fault.None? || fault.value.delay.None? then fault
    else
      var ch := fault.value;
      Some(ch.(delay := Some(Commit(ch.delay.value, bytes, now + SegmentDelay(ch))),
               drawn := ch.drawn + if ch.jitter == 0 then 0 else 1,
               delayedSegments := ch.delayedSegments + 1,
               delayBudget := ch.delayBudget + SegmentDelay(ch)))
  }

  predicate Takable(fault: Option<Channel>, bytes: nat) {
    fault.Some? ==>
      && (fault.value.delay.Some? ==> bytes <= |fault.value.delay.value.Times()|)
      && (fault.value.bucket.Some? ==> bytes <= fault.value.bucket.value.Tokens())
  }

  /** Accounts for `bytes` sent bytes in a channel that has been settled. */
  function Take(fault: Option<Channel>, bytes: nat): Option<Channel>
    requires Takable(fault, bytes)
  {
    if fault.None? then fault
    else
      var ch := fault.value;
      var ch1 := if ch.delay.Some? then ch.(delay := Some(Consume(ch.delay.value, bytes))) else ch;
      Some(if ch.bucket.Some? then ch1.(bucket := Some(Spend(ch.bucket.value, bytes))) else ch1)
  }

  lemma BudgetIsTakable(fault: Option<Channel>, limit: nat, bytes: nat, now: Time)
    requires bytes <= Budget(fault, limit, now)
    ensures bytes <= limit && Takable(Settle(fault, now), bytes)
  {
  }

  // ---- Byte movements ----

  function Watch(l: Lane, now: Time): Lane {
    l.(tracker := Observe(l.tracker, |l.queue|, l.capacity, now))
  }

  /** Queue arrived bytes, stamp them, observe the occupancy. */
  function Accepted(l: Lane, data: seq<byte>, now: Time): Lane
    requires |l.queue| + |data| <= l.capacity
  {
    var queue := l.queue + data;
    Watch(l.(queue := queue, peak := Max(l.peak, |queue|), fault := Stamp(l.fault, |data|, now)), now)
  }

  function Settled(l: Lane, now: Time): Lane {
    l.(fault := Settle(l.fault, now))
  }

  /** Drop sent bytes from a settled lane, account for them, observe the occupancy. */
  function Released(l: Lane, bytes: nat, now: Time): Lane
    requires bytes <= |l.queue| && Takable(l.fault, bytes)
  {
    Watch(l.(head := HeadAfter(l.capacity, l.head, |l.queue|, bytes),
             queue := l.queue[bytes..],
             fault := Take(l.fault, bytes)), now)
  }

  /** `data` has arrived. */
  function Ingress(f: Flow, data: seq<byte>, now: Time): Flow
    requires |f.lane.queue| + |data| <= f.lane.capacity
  {
    f.(lane := Accepted(f.lane, data, now),
       received := f.received + data,
       receivedAt := f.receivedAt + Repeat(now, |data|))
  }

  function SettleFlow(f: Flow, now: Time): Flow {
    f.(lane := Settled(f.lane, now))
  }

  /** The `bytes` oldest bytes of a settled flow have left. */
  function Egress(f: Flow, bytes: nat, now: Time): Flow
    requires bytes <= |f.lane.queue| && Takable(f.lane.fault, bytes)
  {
    f.(lane := Released(f.lane, bytes, now),
       sent := f.sent + f.lane.queue[..bytes],
       sentAt := f.sentAt + Repeat(now, bytes))
  }

  // ---- The invariant ----

  /** Nothing is lost, duplicated or reordered. */
  ghost predicate Fifo(f: Flow) {
    && f.received == f.sent + f.lane.queue
    && |f.receivedAt| == |f.received|
    && |f.sentAt| == |f.sent|
  }

  ghost predicate Clocked(f: Flow, t: Time) {
    && NonDecreasing(f.receivedAt) && (forall k :: 0 <= k < |f.receivedAt| ==> f.receivedAt[k] <= t)
    && NonDecreasing(f.sentAt) && (forall k :: 0 <= k < |f.sentAt| ==> f.sentAt[k] <= t)
  }

  /** Reads that are not paused leave room below the high-water mark. */
  ghost predicate Watermarks(l: Lane) {
    var within :=
      && l.tracker.high <= l.capacity < TWO_TO_THE_64
      && |l.queue| <= l.peak <= l.tracker.high
      && (l.tracker.paused ==> |l.queue| > l.tracker.low)
      && (!l.tracker.paused ==> |l.queue| < l.tracker.high);
    within
  }

  /** Every pause and every resume is paid for by `high - low` bytes of traffic. */
  ghost predicate Hysteresis(f: Flow) {
    var t := f.lane.tracker;
    var gap := t.high - t.low;
    var size := |f.lane.queue|;
    && t.pauseCount == t.resumeCount + (if t.paused then 1 else 0)
    && t.pauseCount * gap + (if t.paused then 0 else Max(0, size - t.low)) <= |f.received|
    && t.resumeCount * gap + (if t.paused then t.high - size else 0) <= |f.sent|
    && t.atCapacity == (size == f.lane.capacity)
    && t.saturationCount == (if t.high == f.lane.capacity then t.pauseCount else 0)
  }

  ghost predicate Delayed(f: Flow) {
    f.lane.fault.Some? && f.lane.fault.value.delay.Some?
  }

  ghost function Line(f: Flow): Delay
    requires Delayed(f)
  {
    f.lane.fault.value.delay.value
  }

  ghost function MinDelay(ch: Channel): nat {
    Max(0, ch.latency - ch.jitter)
  }

  ghost function MaxDelay(ch: Channel): nat {
    ch.latency + ch.jitter
  }

  /** The delay line is in step with the queue, every stamp is within the configured delay of the
      byte's arrival, and no byte has left before its stamp. */
  ghost predicate InStep(f: Flow, t: Time) {
    Delayed(f) ==>
      var d, ch := Line(f), f.lane.fault.value;
      && InOrder(d) && d.last <= t + MaxDelay(ch)
      && |d.stamps| == |f.received| == |f.receivedAt|
      && d.done == |f.sent| == |f.sentAt|
      && (forall k :: 0 <= k < |d.stamps| ==>
            f.receivedAt[k] + MinDelay(ch) <= d.stamps[k] <= f.receivedAt[k] + MaxDelay(ch))
      && (forall k :: 0 <= k < |f.sentAt| ==> d.stamps[k] <= f.sentAt[k])
  }

  ghost predicate JitterBounded(f: Flow) {
    f.lane.fault.Some? ==>
      var ch := f.lane.fault.value;
      forall k: nat :: -(ch.jitter as int) <= ch.jitterOf(k) <= ch.jitter
  }

  ghost predicate Limited(f: Flow) {
    f.lane.fault.Some? && f.lane.fault.value.bucket.Some?
  }

  ghost function BucketOf(f: Flow): Bucket
    requires Limited(f)
  {
    f.lane.fault.value.bucket.value
  }

  /** `bytes` bytes fit the rate between two instants, `spare` byte-nanoseconds left over. */
  ghost predicate Affordable(b: Bucket, bytes: int, spare: int, from: Time, to: Time) {
    bytes * NS_PER_SECOND + spare <= b.burst * NS_PER_SECOND + (to - from) * b.rate
  }

  /** No stretch of sent bytes exceeds the burst plus what the rate earns meanwhile. */
  ghost predicate Envelope(b: Bucket, sentAt: seq<Time>) {
    forall i, j :: 0 <= i <= j < |sentAt| ==> Affordable(b, j - i + 1, 0, sentAt[i], sentAt[j])
  }

  ghost predicate RateKept(f: Flow, t: Time) {
    && (Limited(f) ==> BucketOf(f).last <= t && Grained(BucketOf(f)))
    && (Limited(f) && BucketOf(f).Bounded() ==> LevelKept(f))
  }

  ghost predicate LevelKept(f: Flow)
    requires Limited(f)
  {
    var b := BucketOf(f);
    && (forall i :: 0 <= i < |f.sentAt| ==> f.sentAt[i] <= b.last)
    && (forall i :: 0 <= i < |f.sentAt| ==> Affordable(b, |f.sentAt| - i, b.level, f.sentAt[i], b.last))
    && Envelope(b, f.sentAt)
  }

  ghost predicate FlowInv(f: Flow, t: Time) {
    var inOrder :=
      && Fifo(f) && Clocked(f, t)
      && Watermarks(f.lane) && Hysteresis(f)
      && InStep(f, t) && JitterBounded(f)
      && RateKept(f, t);
    inOrder
  }

  lemma LaterInv(f: Flow, t: Time, t': Time)
    requires FlowInv(f, t) && t <= t'
    ensures FlowInv(f, t')
  {
  }

  // ---- Preservation ----

  lemma GapStep(count: nat, gap: int)
    ensures (count + 1) * gap == count * gap + gap
  {
  }

  ghost predicate MayArrive(f: Flow, data: seq<byte>) {
    && !f.lane.tracker.paused
    && 0 < |data| <= f.lane.tracker.high - |f.lane.queue|
    && f.lane.tracker.high <= f.lane.capacity
  }

  lemma IngressKeepsQueue(f: Flow, data: seq<byte>, now: Time)
    requires MayArrive(f, data)
    requires Fifo(f) && Clocked(f, now) && Watermarks(f.lane) && Hysteresis(f)
    ensures var g := Ingress(f, data, now);
            Fifo(g) && Clocked(g, now) && Watermarks(g.lane) && Hysteresis(g)
  {
    GapStep(f.lane.tracker.pauseCount, f.lane.tracker.high - f.lane.tracker.low);
  }

  lemma IngressKeepsStep(f: Flow, data: seq<byte>, now: Time)
    requires MayArrive(f, data) && Fifo(f)
    requires InStep(f, now) && JitterBounded(f)
    ensures InStep(Ingress(f, data, now), now) && JitterBounded(Ingress(f, data, now))
  {
    if Delayed(f) {
      var d, ch := Line(f), f.lane.fault.value;
      CommitInOrder(d, |data|, now + SegmentDelay(ch));
      assert MinDelay(ch) <= SegmentDelay(ch) <= MaxDelay(ch);
    }
  }

  lemma IngressKeeps(f: Flow, data: seq<byte>, now: Time)
    requires MayArrive(f, data) && FlowInv(f, now)
    ensures FlowInv(Ingress(f, data, now), now)
  {
    IngressKeepsQueue(f, data, now);
    IngressKeepsStep(f, data, now);
  }

  lemma AffordsMore(sent: int, full: int, rate: int, from: int, last: int, now: int, before: int, after: int)
    requires sent + before <= full + (last - from) * rate
    requires after <= before + (now - last) * rate
    ensures sent + after <= full + (now - from) * rate
  {
    Distribute(last - from, now - last, rate);
  }

  lemma RefillAffords(b: Bucket, now: Time, bytes: nat, from: Time)
    requires b.Bounded() && b.last <= now
    requires Affordable(b, bytes, b.level, from, b.last)
    ensures Affordable(b, bytes, Refill(b, now).level, from, Refill(b, now).last)
  {
    NeverOverfills(b, now);
    AffordsMore(bytes * NS_PER_SECOND, b.burst * NS_PER_SECOND, b.rate, from, b.last, now,
                b.level, Refill(b, now).level);
  }

  lemma SettleKeeps(f: Flow, now: Time)
    requires FlowInv(f, now)
    ensures FlowInv(SettleFlow(f, now), now)
  {
    if Limited(f) {
      RefillIsGrained(BucketOf(f), now);
    }
    if Limited(f) && BucketOf(f).Bounded() {
      var b := BucketOf(f);
      var b' := Refill(b, now);
      forall i | 0 <= i < |f.sentAt|
        ensures Affordable(b', |f.sentAt| - i, b'.level, f.sentAt[i], b'.last)
      {
        RefillAffords(b, now, |f.sentAt| - i, f.sentAt[i]);
      }
      forall i, j | 0 <= i <= j < |f.sentAt|
        ensures Affordable(b', j - i + 1, 0, f.sentAt[i], f.sentAt[j])
      {
        assert Affordable(b, j - i + 1, 0, f.sentAt[i], f.sentAt[j]);
      }
    }
  }

  /** A settled flow that may send `bytes` bytes at `now`. */
  ghost predicate MayLeave(f: Flow, bytes: nat, now: Time) {
    && 0 < bytes <= |f.lane.queue|
    && Takable(f.lane.fault, bytes)
    && (Delayed(f) ==> bytes <= Releasable(Line(f).Times(), now))
    && (Limited(f) ==> BucketOf(f).last == now)
  }

  lemma EgressKeepsQueue(f: Flow, bytes: nat, now: Time)
    requires MayLeave(f, bytes, now)
    requires Fifo(f) && Clocked(f, now) && Watermarks(f.lane) && Hysteresis(f)
    ensures var g := Egress(f, bytes, now);
            Fifo(g) && Clocked(g, now) && Watermarks(g.lane) && Hysteresis(g)
  {
    GapStep(f.lane.tracker.resumeCount, f.lane.tracker.high - f.lane.tracker.low);
    assert f.lane.queue == f.lane.queue[..bytes] + f.lane.queue[bytes..];
  }

  lemma EgressKeepsStep(f: Flow, bytes: nat, now: Time)
    requires MayLeave(f, bytes, now) && Fifo(f)
    requires InStep(f, now) && JitterBounded(f)
    ensures InStep(Egress(f, bytes, now), now) && JitterBounded(Egress(f, bytes, now))
  {
    if Delayed(f) {
      var d := Line(f);
      forall k | d.done <= k < d.done + bytes
        ensures d.stamps[k] <= now
      {
        assert d.stamps[k] == d.Times()[k - d.done];
      }
    }
  }

  /** Sending `bytes` bytes now pays for them out of the level. */
  lemma SpendKeepsLevel(b: Bucket, sentAt: seq<Time>, bytes: nat)
    requires bytes <= b.Tokens()
    requires forall i :: 0 <= i < |sentAt| ==> Affordable(b, |sentAt| - i, b.level, sentAt[i], b.last)
    ensures var c, later := Spend(b, bytes), sentAt + Repeat(b.last, bytes);
            forall i :: 0 <= i < |later| ==> Affordable(c, |later| - i, c.level, later[i], c.last)
  {
    TokensAtLeast(b, bytes);
    var c, later := Spend(b, bytes), sentAt + Repeat(b.last, bytes);
    forall i | 0 <= i < |later|
      ensures Affordable(c, |later| - i, c.level, later[i], c.last)
    {
      if i < |sentAt| {
        assert Affordable(b, |sentAt| - i, b.level, sentAt[i], b.last);
      }
    }
  }

  lemma SpendKeepsEnvelope(b: Bucket, c: Bucket, sentAt: seq<Time>, bytes: nat)
    requires Envelope(b, sentAt) && c.rate == b.rate && c.burst == b.burst && c.last == b.last
    requires var later := sentAt + Repeat(b.last, bytes);
             forall i :: 0 <= i < |later| ==> Affordable(c, |later| - i, c.level, later[i], c.last)
    ensures Envelope(c, sentAt + Repeat(b.last, bytes))
  {
    var later := sentAt + Repeat(b.last, bytes);
    forall i, j | 0 <= i <= j < |later|
      ensures Affordable(c, j - i + 1, 0, later[i], later[j])
    {
      if j < |sentAt| {
        assert Affordable(b, j - i + 1, 0, sentAt[i], sentAt[j]);
      } else {
        assert Affordable(c, |later| - i, c.level, later[i], c.last);
      }
    }
  }

  lemma EgressKeepsRate(f: Flow, bytes: nat, now: Time)
    requires MayLeave(f, bytes, now) && Fifo(f) && RateKept(f, now)
    ensures RateKept(Egress(f, bytes, now), now)
  {
    if Limited(f) {
      SpendIsGrained(BucketOf(f), bytes);
    }
    if Limited(f) && BucketOf(f).Bounded() {
      var b := BucketOf(f);
      SpendKeepsLevel(b, f.sentAt, bytes);
      SpendKeepsEnvelope(b, Spend(b, bytes), f.sentAt, bytes);
    }
  }

  lemma EgressKeeps(f: Flow, bytes: nat, now: Time)
    requires MayLeave(f, bytes, now) && FlowInv(f, now)
    ensures FlowInv(Egress(f, bytes, now), now)
  {
    EgressKeepsQueue(f, bytes, now);
    EgressKeepsStep(f, bytes, now);
    EgressKeepsRate(f, bytes, now);
  }

  /** The budget asked for at `now` may leave at `now`. */
  lemma BudgetMayLeave(f: Flow, limit: nat, bytes: nat, now: Time)
    requires FlowInv(f, now)
    requires 0 < bytes <= Budget(f.lane.fault, limit, now) && limit <= |f.lane.queue|
    ensures MayLeave(SettleFlow(f, now), bytes, now)
  {
    BudgetIsTakable(f.lane.fault, limit, bytes, now);
  }
}
