/** Runs of accepted plans whose bucket arithmetic overflows: exactly which plans break their rate,
    and plans that stall. */
module Overflows {
  import opened Basics
  import opened Arithmetic
  import opened DelayLines
  import opened TokenBuckets
  import opened Grains
  import opened SocketIos
  import opened Flows
  import opened Pacing
  import opened Waiting
  import opened RelayModel
  import opened RelayRuns

  // ---- Moving bytes one by one from client to upstream ----

  const ROOMY: RelayConfig := RelayConfig(8192, 0, 8192)

  function LimitedPlan(rate: nat, burst: nat): FaultPlan {
    FaultPlan(0, BothDirections, 0, 0, rate, burst, 0, 0)
  }

  /** Answers to `n` reads of one byte each, and to `n` writes of one byte each. */
  function Reads(n: nat, rest: seq<RecvAnswer>): seq<RecvAnswer> {
    if n == 0 then rest else [Data([0]), RecvWouldBlock] + Reads(n - 1, rest)
  }

  function Writes(n: nat, rest: seq<SendAnswer>): seq<SendAnswer> {
    if n == 0 then rest else [Accepts(1)] + Writes(n - 1, rest)
  }

  /** A relay that holds `queue` for the upstream, limited by bucket `b` alone, and the answers the
      client's and upstream's sockets have in store. */
  ghost predicate Holding(r: Relay, b: Bucket, queue: seq<byte>, ins: seq<RecvAnswer>, outs: seq<SendAnswer>) {
    var l := r.flows.client.lane;
    var holding :=
      && r.readOpen.client && r.writeOpen.upstream && !r.connecting
      && r.resetAfter == 0 && r.halfCloseAfter == 0
      && r.wire.receives == ins && r.wire.sends == outs
      && l.capacity == 8192 && l.head == 0 && l.queue == queue
      && !l.tracker.paused && l.tracker.low == 0 && l.tracker.high == 8192
      && l.fault.Some? && l.fault.value.delay.None? && l.fault.value.bucket == Some(b);
    holding
  }

  /** A read that brings `data`, and the one after it that would block. */
  lemma ReadBrings(r: Relay, b: Bucket, data: seq<byte>, ins: seq<RecvAnswer>, outs: seq<SendAnswer>, t: Time)
    requires Holding(r, b, [], [Data(data)] + ins, outs) && 0 < |data| < 8192
    ensures var step := ReadOnce(r, Client, false, t);
            && step.Again? && Holding(step.relay, b, data, ins, outs)
            && step.relay.flows.client.sentAt == r.flows.client.sentAt
  {
    assert ReadSpan(r.flows.client.lane) == 8192;
    assert data[..|data|] == data && [] + data == data;
    assert ([Data(data)] + ins)[1..] == ins;
  }

  lemma ReadBlocks(r: Relay, b: Bucket, queue: seq<byte>, ins: seq<RecvAnswer>, outs: seq<SendAnswer>, t: Time)
    requires Holding(r, b, queue, [RecvWouldBlock] + ins, outs)
    ensures var step := ReadOnce(r, Client, false, t);
            && step.Done? && step.result == Continue && Holding(step.relay, b, queue, ins, outs)
            && step.relay.flows.client.sentAt == r.flows.client.sentAt
  {
    assert ([RecvWouldBlock] + ins)[1..] == ins;
  }

  lemma ReadSome(r: Relay, b: Bucket, data: seq<byte>, ins: seq<RecvAnswer>, outs: seq<SendAnswer>, t: Time)
    requires Holding(r, b, [], [Data(data), RecvWouldBlock] + ins, outs) && 0 < |data| < 8192
    ensures var (s, result) := Perform(r, Readable(Client, false, t));
            && result == Continue && Holding(s, b, data, ins, outs)
            && s.flows.client.sentAt == r.flows.client.sentAt
  {
    assert [Data(data), RecvWouldBlock] + ins == [Data(data)] + ([RecvWouldBlock] + ins);
    ReadBrings(r, b, data, [RecvWouldBlock] + ins, outs, t);
    var r1 := ReadOnce(r, Client, false, t).relay;
    ReadBlocks(r1, b, data, ins, outs, t);
    assert HandleReadable(r, Client, false, t) == HandleReadable(r1, Client, false, t);
  }

  lemma WriteTakes(r: Relay, b: Bucket, ins: seq<RecvAnswer>, outs: seq<SendAnswer>, t: Time)
    requires Holding(r, b, [0], ins, [Accepts(1)] + outs) && Available(b, t) >= 1
    ensures var step := FlushOnce(r, Upstream, t);
            && step.Again? && Holding(step.relay, Spend(Refill(b, t), 1), [], ins, outs)
            && step.relay.flows.client.sentAt == r.flows.client.sentAt + [t]
  {
    var l := r.flows.client.lane;
    assert l.Contiguous() == 1 && Budget(l.fault, 1, t) == 1;
    assert ([Accepts(1)] + outs)[1..] == outs;
    assert Repeat(t, 1) == [t];
  }

  lemma SendOne(r: Relay, b: Bucket, ins: seq<RecvAnswer>, outs: seq<SendAnswer>, t: Time)
    requires Holding(r, b, [0], ins, [Accepts(1)] + outs) && Available(b, t) >= 1
    ensures var (s, result) := Perform(r, Flushing(Upstream, t));
            && result == Continue && Holding(s, Spend(Refill(b, t), 1), [], ins, outs)
            && s.flows.client.sentAt == r.flows.client.sentAt + [t]
  {
    WriteTakes(r, b, ins, outs, t);
    var r1 := FlushOnce(r, Upstream, t).relay;
    assert FlushLoop(r, Upstream, t) == FlushLoop(r1, Upstream, t) == (r1, Continue);
  }

  // ---- Moving many ----

  function Move(t: Time): seq<Call> {
    [Readable(Client, false, t), Flushing(Upstream, t)]
  }

  function Moves(n: nat, t: Time): seq<Call> {
    if n == 0 then [] else Move(t) + Moves(n - 1, t)
  }

  lemma {:induction false} RunAppend(r: Relay, a: seq<Call>, b: seq<Call>)
    requires Run(r, a).1.Continue?
    ensures Run(r, a + b) == Run(Run(r, a).0, b)
    decreases |a|
  {
    if a == [] {
      assert a + b == b;
    } else {
      assert (a + b)[1..] == a[1..] + b;
      RunAppend(Perform(r, a[0]).0, a[1..], b);
    }
  }

  lemma {:induction false} OrderedAppend(a: seq<Call>, b: seq<Call>, from: Time, at: Time, to: Time)
    requires Ordered(a, from, at) && Ordered(b, at, to)
    ensures Ordered(a + b, from, to)
    decreases |a|
  {
    if a == [] {
      assert a + b == b;
      OrderedFrom(b, from, at, to);
    } else {
      assert (a + b)[1..] == a[1..] + b;
      OrderedAppend(a[1..], b, a[0].now, at, to);
    }
  }

  lemma OrderedFrom(b: seq<Call>, from: Time, at: Time, to: Time)
    requires from <= at && Ordered(b, at, to)
    ensures Ordered(b, from, to)
  {
  }

  lemma {:induction false} MovesOrdered(n: nat, from: Time, t: Time)
    requires from <= t
    ensures Ordered(Moves(n, t), from, t)
  {
    if n > 0 {
      MovesOrdered(n - 1, t, t);
      assert Moves(n, t)[1..] == [Flushing(Upstream, t)] + Moves(n - 1, t);
      assert Moves(n, t)[1..][1..] == Moves(n - 1, t);
    }
  }

  /** The bucket after `n` bytes have left at `t`. */
  function Moved(b: Bucket, n: nat, t: Time): Bucket
    requires n <= Available(b, t)
  {
    if n == 0 then b else Spend(Refill(b, t), n)
  }

  lemma MovedOne(b: Bucket, n: nat, t: Time)
    requires 0 < n <= Available(b, t)
    ensures n - 1 <= Available(Spend(Refill(b, t), 1), t)
    ensures Moved(Spend(Refill(b, t), 1), n - 1, t) == Moved(b, n, t)
  {
    var c := Spend(Refill(b, t), 1);
    assert Refill(c, t) == c;
    TokensAtLeast(c, n - 1);
    TokensAtLeast(Refill(b, t), n);
  }

  lemma OneMove(r: Relay, b: Bucket, ins: seq<RecvAnswer>, outs: seq<SendAnswer>, t: Time)
    requires Holding(r, b, [], [Data([0]), RecvWouldBlock] + ins, [Accepts(1)] + outs) && Available(b, t) >= 1
    ensures var (s, result) := Run(r, Move(t));
            && result == Continue && Holding(s, Spend(Refill(b, t), 1), [], ins, outs)
            && s.flows.client.sentAt == r.flows.client.sentAt + [t]
  {
    ReadSome(r, b, [0], ins, [Accepts(1)] + outs, t);
    var r1 := Perform(r, Readable(Client, false, t)).0;
    SendOne(r1, b, ins, outs, t);
    TwoCalls(r, Readable(Client, false, t), Flushing(Upstream, t));
  }

  /** The relay forwards `n` bytes at `t`, one after the other. */
  lemma {:induction false} ManyMoves(r: Relay, b: Bucket, n: nat, ins: seq<RecvAnswer>, outs: seq<SendAnswer>, t: Time)
    requires Holding(r, b, [], Reads(n, ins), Writes(n, outs)) && n <= Available(b, t)
    ensures var (s, result) := Run(r, Moves(n, t));
            && result == Continue && Holding(s, Moved(b, n, t), [], ins, outs)
            && s.flows.client.sentAt == r.flows.client.sentAt + Repeat(t, n)
    decreases n
  {
    if n == 0 {
      assert Repeat(t, 0) == [];
    } else {
      OneMove(r, b, Reads(n - 1, ins), Writes(n - 1, outs), t);
      MovedOne(b, n, t);
      ManyMoves(Run(r, Move(t)).0, Spend(Refill(b, t), 1), n - 1, ins, outs, t);
      RunAppend(r, Move(t), Moves(n - 1, t));
      assert [t] + Repeat(t, n - 1) == Repeat(t, n);
    }
  }

  lemma TwoCalls(r: Relay, first: Call, second: Call)
    requires Perform(r, first).1.Continue?
    ensures Run(r, [first, second]) == Perform(Perform(r, first).0, second)
  {
    var calls := [first, second];
    var r1 := Perform(r, first).0;
    assert calls[1..] == [second] && [second][1..] == [];
    assert Run(r1, [second]) == Perform(r1, second);
  }

  // ---- Exactly which plans keep their rate ----

  function LimitedSetup(rate: nat, burst: nat, ins: seq<RecvAnswer>, outs: seq<SendAnswer>): Setup {
    Setup(ROOMY, LimitedPlan(rate, burst), 0, false, Wire(ins, outs, []), 0)
  }

  lemma StartsHolding(rate: pos, burst: pos, ins: seq<RecvAnswer>, outs: seq<SendAnswer>)
    requires rate <= NS_PER_SECOND && burst < TWO_TO_THE_64
    ensures var setup := LimitedSetup(rate, burst, ins, outs);
            && setup.Valid() && setup.plan.EffectiveBurst() == burst
            && Holding(setup.Initial(), NewBucket(rate, burst, 0), [], ins, outs)
            && setup.Initial().flows.client.sentAt == []
  {
  }

  lemma {:induction false} CountAll(times: seq<Time>, from: Time, to: Time)
    requires forall k :: 0 <= k < |times| ==> from <= times[k] <= to
    ensures CountWithin(times, from, to) == |times|
  {
    if times != [] {
      CountAll(times[..|times| - 1], from, to);
    }
  }

  /** The rate envelope in one window of one run. */
  ghost predicate EnvelopeKept(setup: Setup, calls: seq<Call>, to: Time, source: Side, t1: Time, t2: Time) {
    setup.Valid() && Ordered(calls, setup.start, to) && t1 <= t2 && setup.plan.AppliesTo(source) ==>
      CountWithin(Run(setup.Initial(), calls).0.flows.At(source).sentAt, t1, t2) * NS_PER_SECOND
      <= setup.plan.EffectiveBurst() * NS_PER_SECOND + (t2 - t1) * setup.plan.rate
  }

  lemma MovesTwice(r: Relay, b: Bucket, first: nat, second: nat, now: Time)
    requires Holding(r, b, [], Reads(first, Reads(second, [])), Writes(first, Writes(second, [])))
    requires b.last == 0 && first <= b.Tokens() && second <= Available(Spend(b, first), now)
    ensures Run(r, Moves(first, 0) + Moves(second, now)).0.flows.client.sentAt
            == r.flows.client.sentAt + Repeat(0, first) + Repeat(now, second)
  {
    ManyMoves(r, b, first, Reads(second, []), Writes(second, []), 0);
    assert Moved(b, first, 0) == Spend(b, first);
    RunAppend(r, Moves(first, 0), Moves(second, now));
    ManyMoves(Run(r, Moves(first, 0)).0, Spend(b, first), second, [], [], now);
  }

  /** The relay forwards `first` bytes at the start and `second` bytes at `now`. */
  lemma TwoBatches(rate: pos, burst: pos, first: nat, second: nat, now: Time) returns (setup: Setup, calls: seq<Call>)
    requires rate <= NS_PER_SECOND && burst < TWO_TO_THE_64 && first <= burst
    requires NewBucket(rate, burst, 0).Tokens() == burst
    requires second <= Available(Spend(NewBucket(rate, burst, 0), first), now)
    ensures setup.Valid() && Ordered(calls, setup.start, now) && setup.plan == LimitedPlan(rate, burst)
    ensures setup.start == 0
    ensures CountWithin(Run(setup.Initial(), calls).0.flows.client.sentAt, 0, now) == first + second
  {
    var full := NewBucket(rate, burst, 0);
    var ins, outs := Reads(second, []), Writes(second, []);
    setup := LimitedSetup(rate, burst, Reads(first, ins), Writes(first, outs));
    calls := Moves(first, 0) + Moves(second, now);
    StartsHolding(rate, burst, Reads(first, ins), Writes(first, outs));
    MovesOrdered(first, 0, 0);
    MovesOrdered(second, 0, now);
    OrderedAppend(Moves(first, 0), Moves(second, now), 0, 0, now);
    MovesTwice(setup.Initial(), full, first, second, now);
    CountAll([] + Repeat(0, first) + Repeat(now, second), 0, now);
  }

  /** A plan whose bucket can be filled early breaks its rate: it sends what the wrapped cap wants
      missing, and a whole burst as soon as that cap has passed. */
  lemma RateBreaks(rate: pos, burst: pos) returns (setup: Setup, calls: seq<Call>, to: Time)
    requires rate <= NS_PER_SECOND && burst < TWO_TO_THE_64 && !NoEarlyFill(rate, burst)
    ensures setup.plan == LimitedPlan(rate, burst)
    ensures !EnvelopeKept(setup, calls, to, Client, 0, to)
  {
    var missing := EarlyFill(rate, burst);
    to := Max(1, MachineCap(rate, missing));
    SpentIsFilledEarly(rate, burst, missing);
    setup, calls := TwoBatches(rate, burst, missing, burst, to);
  }

  /** A rate and burst keep to their envelope, in every window of every run of every plan that has
      them, if and only if their bucket cannot be filled early. */
  lemma RateIsKeptIff(rate: pos, burst: pos)
    requires rate <= NS_PER_SECOND && burst < TWO_TO_THE_64
    ensures NoEarlyFill(rate, burst) <==>
            forall setup: Setup, calls, to, source, t1, t2 ::
              setup.plan.rate == rate && setup.plan.EffectiveBurst() == burst
              ==> EnvelopeKept(setup, calls, to, source, t1, t2)
  {
    if NoEarlyFill(rate, burst) {
      forall setup: Setup, calls, to, source, t1, t2 | setup.plan.rate == rate && setup.plan.EffectiveBurst() == burst
        ensures EnvelopeKept(setup, calls, to, source, t1, t2)
      {
        if setup.Valid() && Ordered(calls, setup.start, to) && t1 <= t2 && setup.plan.AppliesTo(source) {
          RateIsKept(setup, calls, to, source, t1, t2);
        }
      }
    } else {
      var setup, calls, to := RateBreaks(rate, burst);
    }
  }

  /** An accepted plan that breaks its rate: at 10^9 bytes per second and a burst of 2 * 10^10, once
      18446744074 bytes have left, 3 ns fill the bucket. */
  lemma RateBreaksAt() returns (setup: Setup, calls: seq<Call>)
    ensures setup.Valid() && setup.plan.rate == 1_000_000_000 && setup.plan.EffectiveBurst() == 20_000_000_000
    ensures Ordered(calls, 0, 3)
    ensures CountWithin(Run(setup.Initial(), calls).0.flows.client.sentAt, 0, 3) == 38_446_744_074
    ensures !NoEarlyFill(1_000_000_000, 20_000_000_000)
  {
    var full := NewBucket(1_000_000_000, 20_000_000_000, 0);
    assert MachineCap(1_000_000_000, 18_446_744_074) == 3;
    SpentIsFilledEarly(1_000_000_000, 20_000_000_000, 18_446_744_074);
    setup, calls := TwoBatches(1_000_000_000, 20_000_000_000, 18_446_744_074, 20_000_000_000, 3);
  }

  // ---- Plans that stall ----

  /** A direction that waits for one token more than it has, under a bucket alone. */
  ghost predicate OneShort(f: Flow, b: Bucket, now: Time) {
    && f.lane.fault.Some? && f.lane.fault.value.delay.None? && f.lane.fault.value.bucket == Some(b)
    && b.last == now && b.rate <= NS_PER_SECOND && b.burst < TWO_TO_THE_64
    && |f.lane.queue| == b.Tokens() + 1 <= LargestQuantum(b.burst)
    && WrapsBeforeCap(b.rate, b.burst, b.Tokens())
  }

  /** The look that tops the carry up as far as it goes without making a token of it. */
  function ToppingUp(b: Bucket): nat {
    (NS_PER_SECOND - 1 - b.Carry()) / b.rate
  }

  /** The wait after which the product has just wrapped. */
  function WrappingWait(b: Bucket): nat {
    CeilDiv(TWO_TO_THE_64 - b.Carry(), b.rate)
  }

  lemma StepAdds(burst: nat, tokens: nat, carry: nat, earned: nat)
    requires tokens < burst < TWO_TO_THE_64 && earned + carry < NS_PER_SECOND
    ensures MachineStep(burst, tokens, carry, false, earned) == (tokens, earned + carry)
  {
    WrapShrinks(earned + carry);
    WrapShrinks(tokens);
  }

  lemma WrappingStep(burst: nat, tokens: nat, carry: nat, earned: nat)
    requires tokens < burst < TWO_TO_THE_64
    requires TWO_TO_THE_64 <= earned + carry < TWO_TO_THE_64 + NS_PER_SECOND
    ensures MachineStep(burst, tokens, carry, false, earned) == (tokens, earned + carry - TWO_TO_THE_64)
  {
    assert Wrap64(earned + carry) == earned + carry - TWO_TO_THE_64;
    WrapShrinks(tokens);
  }

  /** What a step makes of tokens and carry, a bucket's refill makes of the bucket. */
  lemma RefillByStep(b: Bucket, wait: nat, carry: nat)
    requires wait > 0 && wait < MachineCap(b.rate, b.burst - b.Tokens()) && carry < NS_PER_SECOND
    requires MachineStep(b.burst, b.Tokens(), b.Carry(), false, wait * b.rate) == (b.Tokens(), carry)
    ensures var c := Refill(b, b.last + wait);
            && c.Tokens() == b.Tokens() && c.Carry() == carry
            && c.rate == b.rate && c.burst == b.burst && c.last == b.last + wait
  {
    RefillIsStep(b, b.last + wait);
    DivModUnique(b.Tokens() * NS_PER_SECOND + carry, NS_PER_SECOND, b.Tokens(), carry);
  }

  lemma ToppedUp(b: Bucket)
    requires b.rate <= NS_PER_SECOND && b.Tokens() < b.burst < TWO_TO_THE_64
    requires WrapsBeforeCap(b.rate, b.burst, b.Tokens())
    ensures var c := Refill(b, b.last + ToppingUp(b));
            && c.Tokens() == b.Tokens() && c.Carry() >= NS_PER_SECOND - b.rate
            && c.rate == b.rate && c.burst == b.burst && c.last == b.last + ToppingUp(b)
    ensures ToppingUp(b) <= CeilDiv(NS_PER_SECOND, b.rate)
  {
    var wait := ToppingUp(b);
    DivBounds(NS_PER_SECOND - 1 - b.Carry(), b.rate);
    MultiplesBelow(wait, b.rate);
    if wait > 0 {
      MulMonotone(1, b.rate, wait);
      LateCap(b);
      StepAdds(b.burst, b.Tokens(), b.Carry(), wait * b.rate);
      RefillByStep(b, wait, wait * b.rate + b.Carry());
    }
  }

  lemma MultiplesBelow(wait: nat, rate: pos)
    requires wait * rate < NS_PER_SECOND
    ensures wait <= CeilDiv(NS_PER_SECOND, rate)
  {
    CeilDivBounds(NS_PER_SECOND, rate);
    if wait > CeilDiv(NS_PER_SECOND, rate) {
      MulMonotone(CeilDiv(NS_PER_SECOND, rate), wait, rate);
    }
  }

  /** The cap of such a bucket is far off. */
  lemma LateCap(b: Bucket)
    requires b.rate <= NS_PER_SECOND && b.Tokens() <= b.burst && WrapsBeforeCap(b.rate, b.burst, b.Tokens())
    ensures MachineCap(b.rate, b.burst - b.Tokens()) > NS_PER_SECOND
  {
    var cap := MachineCap(b.rate, b.burst - b.Tokens());
    if cap <= NS_PER_SECOND {
      MulMonotone(cap - 1, NS_PER_SECOND, b.rate);
      MulMonotone(b.rate, NS_PER_SECOND, NS_PER_SECOND);
    }
  }

  lemma WrappingRefill(b: Bucket)
    requires b.rate <= NS_PER_SECOND && b.Tokens() < b.burst < TWO_TO_THE_64
    requires WrapsBeforeCap(b.rate, b.burst, b.Tokens()) && b.Carry() >= NS_PER_SECOND - b.rate
    ensures var c := Refill(b, b.last + WrappingWait(b));
            && c.Tokens() == b.Tokens() && c.rate == b.rate && c.burst == b.burst
            && c.last == b.last + WrappingWait(b)
    ensures CeilDiv(NS_PER_SECOND, b.rate) <= WrappingWait(b) <= CeilDiv(TWO_TO_THE_64, b.rate)
  {
    var wait := WrappingWait(b);
    CeilDivThreshold(TWO_TO_THE_64, b.rate, CeilDiv(TWO_TO_THE_64, b.rate));
    CeilDivThreshold(TWO_TO_THE_64 - b.Carry(), b.rate, CeilDiv(TWO_TO_THE_64, b.rate));
    var missing := b.burst - b.Tokens();
    CeilDivBounds(TWO_TO_THE_64 - b.Carry(), b.rate);
    CeilDivThreshold(TWO_TO_THE_64 - b.Carry(), b.rate, MachineCap(b.rate, missing) - 1);
    CeilDivThreshold(NS_PER_SECOND, b.rate, wait);
    WrappingStep(b.burst, b.Tokens(), b.Carry(), wait * b.rate);
    RefillByStep(b, wait, wait * b.rate + b.Carry() - TWO_TO_THE_64);
  }

  /** Such a direction is blocked, until the token it lacks should have been earned. */
  lemma OneShortWaits(f: Flow, b: Bucket, now: Time)
    requires OneShort(f, b, now)
    ensures BudgetNow(f, now) == 0
    ensures WakeNow(f, now) == Some(now + CeilDiv(NS_PER_SECOND, b.rate))
  {
    assert Available(b, now) == b.Tokens();
    assert Quantum(|f.lane.queue|, b.burst) == b.Tokens() + 1;
    EligibleAtLater(b, b.Tokens() + 1, now);
  }

  lemma StaysOneShort(f: Flow, b: Bucket, now: Time, at: Time)
    requires OneShort(f, b, now)
    requires var c := Refill(b, at); c.Tokens() == b.Tokens() && c.rate == b.rate && c.burst == b.burst && c.last == at
    ensures OneShort(SettleFlow(f, at), Refill(b, at), at)
  {
  }

  /** A wait in vain takes at most this long. */
  function VainWait(rate: pos): nat {
    CeilDiv(NS_PER_SECOND, rate) + CeilDiv(TWO_TO_THE_64, rate) + 1
  }

  /** One wait in vain: a look tops the carry up, and the wake comes when the product has wrapped. */
  lemma WaitInVain(f: Flow, b: Bucket, now: Time) returns (wait: Wait, c: Bucket)
    requires OneShort(f, b, now)
    ensures WakeNow(f, now).Some? && wait.at >= WakeNow(f, now).value && Feedable(f, wait.feeds, now, wait.at)
    ensures OneShort(SettleFlow(FedAll(f, wait.feeds, now, wait.at), wait.at), c, wait.at) && c.rate == b.rate
    ensures wait.at <= now + VainWait(b.rate)
  {
    var look := now + ToppingUp(b);
    ToppedUp(b);
    var topped := Refill(b, look);
    var g := SettleFlow(f, look);
    StaysOneShort(f, b, now, look);
    WrappingRefill(topped);
    var at := look + WrappingWait(topped);
    OneShortWaits(f, b, now);
    StaysOneShort(g, topped, look, at);
    wait, c := Wait([Look(look)], at), Refill(topped, at);
    assert [Look(look)][1..] == [];
    assert FedAll(f, wait.feeds, now, at) == g;
  }

  function VainTime(n: nat, rate: pos): nat {
    n * VainWait(rate)
  }

  ghost predicate EndBy(waits: seq<Wait>, t: Time) {
    forall i :: 0 <= i < |waits| ==> waits[i].at <= t
  }

  lemma OneMoreWait(wait: Wait, more: seq<Wait>, now: Time, n: pos, each: nat)
    requires wait.at <= now + each && EndBy(more, wait.at + (n - 1) * each)
    ensures EndBy([wait] + more, now + n * each)
  {
    Distribute(n - 1, 1, each);
    MulMonotone(1, n, each);
  }

  /** It can wait in vain any number of times. */
  lemma {:induction false} WaitsInVain(f: Flow, b: Bucket, now: Time, n: nat) returns (waits: seq<Wait>)
    requires OneShort(f, b, now)
    ensures |waits| == n && FruitlessWaits(f, now, waits) && EndBy(waits, now + n * VainWait(b.rate))
    decreases n
  {
    if n == 0 {
      waits := [];
    } else {
      var wait, c := WaitInVain(f, b, now);
      var g := SettleFlow(FedAll(f, wait.feeds, now, wait.at), wait.at);
      OneShortWaits(g, c, wait.at);
      var more := WaitsInVain(g, c, wait.at, n - 1);
      OneMoreWait(wait, more, now, n, VainWait(b.rate));
      waits := [wait] + more;
      assert waits[1..] == more && waits[0] == wait;
    }
  }

  // ---- The largest burst, where the token count wraps ----

  /** A direction whose bucket of 2^64 - 1 bytes is empty. */
  ghost predicate TopShort(f: Flow, b: Bucket, now: Time) {
    && f.lane.fault.Some? && f.lane.fault.value.delay.None? && f.lane.fault.value.bucket == Some(b)
    && b.last == now && b.level == 0 && b.burst == TWO_TO_THE_64 - 1
    && b.rate <= NS_PER_SECOND && Divides(b.rate, NS_PER_SECOND) && |f.lane.queue| == 1
  }

  lemma TopShortWaits(f: Flow, b: Bucket, now: Time)
    requires TopShort(f, b, now)
    ensures BudgetNow(f, now) == 0
    ensures WakeNow(f, now) == Some(now + CeilDiv(NS_PER_SECOND, b.rate))
  {
    assert Available(b, now) == 0 && Quantum(1, b.burst) == 1;
    EligibleAtLater(b, 1, now);
  }

  /** The cap has passed, so the bucket is full. */
  lemma TopFills(b: Bucket, wait: nat)
    requires b.level == 0 && b.burst == TWO_TO_THE_64 - 1 && b.rate <= NS_PER_SECOND
    requires wait == Max(1, MachineCap(b.rate, b.burst))
    ensures Refill(b, b.last + wait) == NewBucket(b.rate, b.burst, b.last + wait)
    ensures wait <= CeilDiv(TWO_TO_THE_64, b.rate) + 1
  {
    TopCap(b.rate);
    RefillIsStep(b, b.last + wait);
  }

  lemma FloorSum(x: nat, y: nat, d: pos)
    ensures x / d + y / d <= (x + y) / d
  {
    DivBounds(x, d);
    DivBounds(y, d);
    DivBounds(x + y, d);
    Distribute(x / d, y / d, d);
    if x / d + y / d > (x + y) / d {
      MulMonotone((x + y) / d + 1, x / d + y / d, d);
      Distribute((x + y) / d, 1, d);
    }
  }

  lemma TopCap(rate: pos)
    requires rate <= NS_PER_SECOND
    ensures MachineCap(rate, TWO_TO_THE_64 - 1) <= CeilDiv(TWO_TO_THE_64, rate) + 1
  {
    var low := TWO_TO_THE_64 - NS_PER_SECOND + rate - 1;
    assert Wrap64((TWO_TO_THE_64 - 1) * NS_PER_SECOND + rate - 1) == low;
    FloorSum(low, NS_PER_SECOND, rate);
    WrapShrinks(UncutCap(rate, low));
  }

  /** One token more wraps the count to nothing. */
  lemma TopWraps(rate: pos, last: Time)
    requires rate <= NS_PER_SECOND && Divides(rate, NS_PER_SECOND)
    ensures var full := NewBucket(rate, TWO_TO_THE_64 - 1, last);
            Refill(full, last + NS_PER_SECOND / rate) == full.(level := 0, last := last + NS_PER_SECOND / rate)
  {
    var full := NewBucket(rate, TWO_TO_THE_64 - 1, last);
    var wait := NS_PER_SECOND / rate;
    DivisionIdentity(NS_PER_SECOND, rate);
    DivModUnique(full.level, NS_PER_SECOND, TWO_TO_THE_64 - 1, 0);
    DivModUnique(rate - 1, rate, 0, rate - 1);
    WrapShrinks(rate - 1);
    CeilDivBounds(NS_PER_SECOND, rate);
    assert MachineCap(rate, 0) == Wrap64(wait + 1);
    MulMonotone(1, rate, wait);
    WrapShrinks(wait + 1);
    assert MachineEarn(TWO_TO_THE_64 - 1, TWO_TO_THE_64 - 1, NS_PER_SECOND) == (0, 0);
    RefillIsStep(full, last + wait);
  }

  /** Spends down to `tokens`, and takes in one byte more than that. */
  lemma SpendsDown(rate: pos, burst: pos, tokens: nat) returns (setup: Setup, calls: seq<Call>, data: seq<byte>)
    requires rate <= NS_PER_SECOND && burst < TWO_TO_THE_64 && tokens < LargestQuantum(burst)
    ensures setup.Valid() && setup.plan == LimitedPlan(rate, burst) && Ordered(calls, setup.start, 0)
    ensures NewBucket(rate, burst, 0).Tokens() == burst
    ensures |data| == tokens + 1
    ensures Holding(Run(setup.Initial(), calls).0, Spend(NewBucket(rate, burst, 0), burst - tokens), data, [], [])
  {
    var full := NewBucket(rate, burst, 0);
    data := seq(tokens + 1, _ => 0);
    var ins := [Data(data), RecvWouldBlock] + [];
    var reading := [Readable(Client, false, 0)];
    var first := burst - tokens;
    SpentIsMissing(rate, burst, first);
    setup := LimitedSetup(rate, burst, Reads(first, ins), Writes(first, []));
    calls := Moves(first, 0) + reading;
    StartsHolding(rate, burst, Reads(first, ins), Writes(first, []));
    MovesOrdered(first, 0, 0);
    OrderedAppend(Moves(first, 0), reading, 0, 0, 0);
    ManyMoves(setup.Initial(), full, first, ins, [], 0);
    RunAppend(setup.Initial(), Moves(first, 0), reading);
    var r := Run(setup.Initial(), Moves(first, 0)).0;
    ReadSome(r, Spend(full, first), data, [], [], 0);
    assert Run(r, reading) == Perform(r, reading[0]);
  }

  lemma HoldingIsOneShort(r: Relay, b: Bucket, data: seq<byte>)
    requires Holding(r, b, data, [], []) && |data| == b.Tokens() + 1 <= LargestQuantum(b.burst)
    requires b.last == 0 && b.rate <= NS_PER_SECOND && b.burst < TWO_TO_THE_64
    requires WrapsBeforeCap(b.rate, b.burst, b.Tokens())
    ensures OneShort(SettleTo(r, Upstream, 0).FlowTo(Upstream), b, 0)
  {
  }

  lemma HoldingIsTopShort(r: Relay, b: Bucket, data: seq<byte>)
    requires Holding(r, b, data, [], []) && |data| == 1
    requires b.last == 0 && b.level == 0 && b.burst == TWO_TO_THE_64 - 1
    requires b.rate <= NS_PER_SECOND && Divides(b.rate, NS_PER_SECOND)
    ensures TopShort(SettleTo(r, Upstream, 0).FlowTo(Upstream), b, 0)
  {
  }

  lemma TopWaitInVain(f: Flow, b: Bucket, now: Time) returns (wait: Wait, c: Bucket)
    requires TopShort(f, b, now)
    ensures WakeNow(f, now).Some? && wait.at >= WakeNow(f, now).value && Feedable(f, wait.feeds, now, wait.at)
    ensures TopShort(SettleFlow(FedAll(f, wait.feeds, now, wait.at), wait.at), c, wait.at) && c.rate == b.rate
    ensures wait.at <= now + VainWait(b.rate)
  {
    var look := now + Max(1, MachineCap(b.rate, b.burst));
    TopFills(b, look - now);
    var g := SettleFlow(f, look);
    var at := look + NS_PER_SECOND / b.rate;
    TopWraps(b.rate, look);
    TopShortWaits(f, b, now);
    DivisionIdentity(NS_PER_SECOND, b.rate);
    CeilDivThreshold(NS_PER_SECOND, b.rate, NS_PER_SECOND / b.rate);
    MultiplesUpTo(b.rate);
    wait, c := Wait([Look(look)], at), Refill(Refill(b, look), at);
    assert [Look(look)][1..] == [];
    assert FedAll(f, wait.feeds, now, at) == g;
  }

  lemma MultiplesUpTo(rate: pos)
    ensures NS_PER_SECOND / rate <= CeilDiv(NS_PER_SECOND, rate)
  {
    CeilDivBounds(NS_PER_SECOND, rate);
    DivBounds(NS_PER_SECOND, rate);
    if NS_PER_SECOND / rate > CeilDiv(NS_PER_SECOND, rate) {
      MulMonotone(CeilDiv(NS_PER_SECOND, rate) + 1, NS_PER_SECOND / rate, rate);
      Distribute(CeilDiv(NS_PER_SECOND, rate), 1, rate);
    }
  }

  lemma {:induction false} TopWaitsInVain(f: Flow, b: Bucket, now: Time, n: nat) returns (waits: seq<Wait>)
    requires TopShort(f, b, now)
    ensures |waits| == n && FruitlessWaits(f, now, waits) && EndBy(waits, now + n * VainWait(b.rate))
    decreases n
  {
    if n == 0 {
      waits := [];
    } else {
      var wait, c := TopWaitInVain(f, b, now);
      var g := SettleFlow(FedAll(f, wait.feeds, now, wait.at), wait.at);
      TopShortWaits(g, c, wait.at);
      var more := TopWaitsInVain(g, c, wait.at, n - 1);
      OneMoreWait(wait, more, now, n, VainWait(b.rate));
      waits := [wait] + more;
      assert waits[1..] == more && waits[0] == wait;
    }
  }

  // ---- Exactly which plans stall ----

  /** Some refill can starve a bucket of this rate and burst, time and again. */
  predicate CanStarve(rate: pos, burst: nat) {
    || (exists tokens: nat :: tokens < LargestQuantum(burst) && WrapsBeforeCap(rate, burst, tokens))
    || (burst == TWO_TO_THE_64 - 1 && Divides(rate, NS_PER_SECOND))
  }

  ghost predicate StallsFor(setup: Setup, calls: seq<Call>, rate: pos, n: nat)
    requires Blocked(setup, calls, 0, Upstream)
  {
    exists waits ::
      && |waits| == n && FruitlessWaits(AskedFlow(setup, calls, 0, Upstream), 0, waits)
      && EndBy(waits, VainTime(n, rate))
  }

  lemma StallsShort(rate: pos, burst: pos, tokens: nat) returns (setup: Setup, calls: seq<Call>)
    requires rate <= NS_PER_SECOND && burst < TWO_TO_THE_64 && tokens < LargestQuantum(burst)
    requires WrapsBeforeCap(rate, burst, tokens)
    ensures setup.plan == LimitedPlan(rate, burst) && Blocked(setup, calls, 0, Upstream)
    ensures forall n: nat :: StallsFor(setup, calls, rate, n)
  {
    var data;
    setup, calls, data := SpendsDown(rate, burst, tokens);
    var f := AskedFlow(setup, calls, 0, Upstream);
    var b := Spend(NewBucket(rate, burst, 0), burst - tokens);
    SpentIsMissing(rate, burst, burst - tokens);
    HoldingIsOneShort(Run(setup.Initial(), calls).0, b, data);
    OneShortWaits(f, b, 0);
    forall n: nat
      ensures StallsFor(setup, calls, rate, n)
    {
      var waits := WaitsInVain(f, b, 0, n);
    }
  }

  lemma StallsTop(rate: pos) returns (setup: Setup, calls: seq<Call>)
    requires rate <= NS_PER_SECOND && Divides(rate, NS_PER_SECOND)
    ensures setup.plan == LimitedPlan(rate, TWO_TO_THE_64 - 1) && Blocked(setup, calls, 0, Upstream)
    ensures forall n: nat :: StallsFor(setup, calls, rate, n)
  {
    var burst := TWO_TO_THE_64 - 1;
    var data;
    setup, calls, data := SpendsDown(rate, burst, 0);
    var f := AskedFlow(setup, calls, 0, Upstream);
    var b := Spend(NewBucket(rate, burst, 0), burst);
    HoldingIsTopShort(Run(setup.Initial(), calls).0, b, data);
    TopShortWaits(f, b, 0);
    forall n: nat
      ensures StallsFor(setup, calls, rate, n)
    {
      var waits := TopWaitsInVain(f, b, 0, n);
    }
  }

  /** Such a plan stalls: some run leads to a direction that can wait in vain any number of times,
      for little more than 2^64 / rate nanoseconds each. */
  lemma StallsForever(rate: pos, burst: pos) returns (setup: Setup, calls: seq<Call>)
    requires rate <= NS_PER_SECOND && burst < TWO_TO_THE_64 && CanStarve(rate, burst)
    ensures setup.plan == LimitedPlan(rate, burst) && Blocked(setup, calls, 0, Upstream)
    ensures forall n: nat :: StallsFor(setup, calls, rate, n)
  {
    if tokens: nat :| tokens < LargestQuantum(burst) && WrapsBeforeCap(rate, burst, tokens) {
      setup, calls := StallsShort(rate, burst, tokens);
    } else {
      setup, calls := StallsTop(rate);
    }
  }

  const CLOCK_END: nat := 0x8000_0000_0000_0000

  /** From 8200 bytes per second on, more such waits than the bound allows fit the steady clock. */
  lemma StallsOnTheClock(rate: pos, burst: pos) returns (setup: Setup, calls: seq<Call>, waits: seq<Wait>)
    requires rate <= NS_PER_SECOND && burst < TWO_TO_THE_64 && CanStarve(rate, burst)
    ensures setup.plan == LimitedPlan(rate, burst) && Blocked(setup, calls, 0, Upstream)
    ensures FruitlessWaits(AskedFlow(setup, calls, 0, Upstream), 0, waits) && |waits| > LargestQuantum(burst)
    ensures rate >= 8200 ==> EndBy(waits, CLOCK_END - 1)
  {
    setup, calls := StallsForever(rate, burst);
    var n := LargestQuantum(burst) + 1;
    assert StallsFor(setup, calls, rate, n);
    waits :| |waits| == n && FruitlessWaits(AskedFlow(setup, calls, 0, Upstream), 0, waits)
             && EndBy(waits, VainTime(n, rate));
    if rate >= 8200 {
      VainWaitsFit(rate, n);
    }
  }

  lemma VainWaitsFit(rate: pos, n: nat)
    requires rate >= 8200 && n <= 4097
    ensures VainTime(n, rate) < CLOCK_END
  {
    ShorterAtHigherRate(NS_PER_SECOND, 8200, rate);
    ShorterAtHigherRate(TWO_TO_THE_64, 8200, rate);
    MulMonotone(n, 4097, VainWait(rate));
    MulMonotone(VainWait(rate), VainWait(8200), 4097);
  }

  lemma ShorterAtHigherRate(x: nat, slow: pos, fast: pos)
    requires slow <= fast
    ensures CeilDiv(x, fast) <= CeilDiv(x, slow)
  {
    CeilDivBounds(x, slow);
    MulMonotone(slow, fast, CeilDiv(x, slow));
    CeilDivThreshold(x, fast, CeilDiv(x, slow));
  }

  /** The bound on the fruitless waits of one blocked direction. */
  ghost predicate WaitsBounded(setup: Setup, calls: seq<Call>, now: Time, destination: Side, waits: seq<Wait>) {
    Blocked(setup, calls, now, destination) &&
    FruitlessWaits(AskedFlow(setup, calls, now, destination), now, waits) ==>
      |waits| <= LargestQuantum(setup.plan.EffectiveBurst())
  }

  lemma TooManyWaits(setup: Setup, calls: seq<Call>, waits: seq<Wait>, burst: nat)
    requires Blocked(setup, calls, 0, Upstream) && setup.plan.EffectiveBurst() == burst
    requires FruitlessWaits(AskedFlow(setup, calls, 0, Upstream), 0, waits) && |waits| > LargestQuantum(burst)
    ensures !WaitsBounded(setup, calls, 0, Upstream, waits)
  {
  }

  lemma WaitsAreBounded(setup: Setup, calls: seq<Call>, now: Time, destination: Side, waits: seq<Wait>)
    requires setup.plan.rate > 0 && NeverStarves(setup.plan.rate, setup.plan.EffectiveBurst())
    ensures WaitsBounded(setup, calls, now, destination, waits)
  {
    if Blocked(setup, calls, now, destination)
       && FruitlessWaits(AskedFlow(setup, calls, now, destination), now, waits) {
      AnyWaitsAreBounded(setup, calls, now, destination, waits);
    }
  }

  /** A rate and burst keep every direction of every run of every plan that has them from stalling,
      whatever arrives and however late its looks and wakes are, if and only if they never starve.
      This decides every rate and burst that either cannot starve a bucket or can do so at will. */
  lemma StallsAreBoundedIff(rate: pos, burst: pos)
    requires rate <= NS_PER_SECOND && burst < TWO_TO_THE_64
    requires NeverStarves(rate, burst) || CanStarve(rate, burst)
    ensures NeverStarves(rate, burst) <==>
            forall setup: Setup, calls, now, destination, waits ::
              setup.plan.rate == rate && setup.plan.EffectiveBurst() == burst
              ==> WaitsBounded(setup, calls, now, destination, waits)
  {
    if NeverStarves(rate, burst) {
      forall setup: Setup, calls, now, destination, waits |
        setup.plan.rate == rate && setup.plan.EffectiveBurst() == burst
        ensures WaitsBounded(setup, calls, now, destination, waits)
      {
        WaitsAreBounded(setup, calls, now, destination, waits);
      }
    } else {
      var setup, calls, waits := StallsOnTheClock(rate, burst);
      TooManyWaits(setup, calls, waits, burst);
    }
  }

  /** Rates that divide 512 are all decided; so are those that divide 10^9, unless only levels with
      tokens for any quantum wrap. */
  lemma DividingRatesAreDecided(rate: pos, burst: nat)
    requires rate <= NS_PER_SECOND && Divides(rate, NS_PER_SECOND) && burst < TWO_TO_THE_64
    requires Divides(rate, 512)
             || forall tokens: nat :: LargestQuantum(burst) <= tokens <= burst ==> !WrapsBeforeCap(rate, burst, tokens)
    ensures NeverStarves(rate, burst) || CanStarve(rate, burst)
  {
    if !CanStarve(rate, burst) {
      if Divides(rate, 512) {
        BinaryRateNeverStarves(rate, burst);
      } else {
        DividingRateNeverStarves(rate, burst);
      }
    }
  }

  /** An accepted plan that stalls while the clock runs: at 10^9 bytes per second and a burst of
      36893488146, the first that does, 4097 waits in vain take less than a day. */
  lemma StallsAt() returns (setup: Setup, calls: seq<Call>, waits: seq<Wait>)
    ensures setup.plan.rate == 1_000_000_000 && setup.plan.EffectiveBurst() == 36_893_488_146
    ensures Blocked(setup, calls, 0, Upstream) && |waits| == 4097
    ensures FruitlessWaits(AskedFlow(setup, calls, 0, Upstream), 0, waits)
    ensures EndBy(waits, 86_400 * NS_PER_SECOND)
  {
    assert MachineCap(1_000_000_000, 36_893_488_146) == 18_446_744_075;
    assert WrapsBeforeCap(1_000_000_000, 36_893_488_146, 0);
    setup, calls := StallsShort(1_000_000_000, 36_893_488_146, 0);
    assert StallsFor(setup, calls, 1_000_000_000, 4097);
    assert VainWait(1_000_000_000) == 18_446_744_076;
    waits :| |waits| == 4097 && FruitlessWaits(AskedFlow(setup, calls, 0, Upstream), 0, waits)
             && EndBy(waits, VainTime(4097, 1_000_000_000));
  }
}
