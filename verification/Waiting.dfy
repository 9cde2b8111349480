/** Progress of a direction that is blocked on time: whatever arrives while it waits, its wakes
    soon find something to send, unless a refill loses what was earned. */
module Waiting {
  import opened Basics
  import opened Arithmetic
  import opened DelayLines
  import opened TokenBuckets
  import opened Grains
  import opened Flows
  import opened Pacing

  // ---- What happens during a wait ----

  /** Bytes arriving, or a mere look at the direction, at some time. */
  datatype Feed = Arrive(data: seq<byte>, at: Time) | Look(at: Time)

  function Fed(f: Flow, feed: Feed): Flow
    requires feed.Arrive? ==> |f.lane.queue| + |feed.data| <= f.lane.capacity
  {
    match feed
    case Arrive(data, at) => Ingress(f, data, at)
    case Look(at) => SettleFlow(f, at)
  }

  /** The feeds happen in order, between `from` and `to`, each one possible when it happens. */
  ghost predicate Feedable(f: Flow, feeds: seq<Feed>, from: Time, to: Time)
    decreases |feeds|
  {
    if feeds == [] then from <= to
    else
      && from <= feeds[0].at
      && (feeds[0].Arrive? ==> MayArrive(f, feeds[0].data))
      && Feedable(Fed(f, feeds[0]), feeds[1..], feeds[0].at, to)
  }

  ghost function FedAll(f: Flow, feeds: seq<Feed>, from: Time, to: Time): Flow
    requires Feedable(f, feeds, from, to)
    decreases |feeds|
  {
    if feeds == [] then f else FedAll(Fed(f, feeds[0]), feeds[1..], feeds[0].at, to)
  }

  /** What the release test at time `at` sees in `f`. */
  ghost function EligibleNow(f: Flow, at: Time): nat {
    Eligible(f.lane.fault, |f.lane.queue|, at)
  }

  ghost function BudgetNow(f: Flow, at: Time): nat {
    Budget(f.lane.fault, |f.lane.queue|, at)
  }

  ghost function WakeNow(f: Flow, at: Time): Option<Time> {
    WakeOf(f.lane.fault, |f.lane.queue|, at)
  }

  /** The quantum the direction is waiting for, and the largest it can come to wait for. */
  ghost function QuantumNow(f: Flow, at: Time): nat {
    if Limited(f) then Quantum(EligibleNow(f, at), BucketOf(f).burst) else EligibleNow(f, at)
  }

  function LargestQuantum(burst: nat): nat {
    Min(burst, PREFERRED_RELEASE_BYTES)
  }

  /** One wait: feeds while asleep, then a look at `at` that finds nothing to send. */
  datatype Wait = Wait(feeds: seq<Feed>, at: Time)

  ghost predicate FruitlessWaits(f: Flow, now: Time, waits: seq<Wait>)
    decreases |waits|
  {
    waits == [] ||
    (var wake, w := WakeNow(f, now), waits[0];
     && wake.Some? && w.at >= wake.value
     && Feedable(f, w.feeds, now, w.at)
     && var g := SettleFlow(FedAll(f, w.feeds, now, w.at), w.at);
        BudgetNow(g, w.at) == 0 && FruitlessWaits(g, w.at, waits[1..]))
  }

  // ---- Conditions on every refill of a wait ----

  type Condition = (Bucket, Time) -> bool

  ghost predicate Refills(f: Flow, ok: Condition, at: Time) {
    Limited(f) ==> ok(BucketOf(f), at)
  }

  ghost predicate FeedsRefill(f: Flow, ok: Condition, feeds: seq<Feed>, from: Time, to: Time)
    requires Feedable(f, feeds, from, to)
    decreases |feeds|
  {
    feeds == [] ||
    ((feeds[0].Look? ==> Refills(f, ok, feeds[0].at)) && FeedsRefill(Fed(f, feeds[0]), ok, feeds[1..], feeds[0].at, to))
  }

  /** Each look during the waits, and the look that ends each of them, refills as `ok` says. */
  ghost predicate WaitsRefill(f: Flow, ok: Condition, now: Time, waits: seq<Wait>)
    requires FruitlessWaits(f, now, waits)
    decreases |waits|
  {
    waits == [] ||
    (var w := waits[0];
     var g := FedAll(f, w.feeds, now, w.at);
     && FeedsRefill(f, ok, w.feeds, now, w.at) && Refills(g, ok, w.at)
     && WaitsRefill(SettleFlow(g, w.at), ok, w.at, waits[1..]))
  }

  lemma {:induction false} FeedsImply(f: Flow, p: Condition, q: Condition, feeds: seq<Feed>, from: Time, to: Time)
    requires Feedable(f, feeds, from, to) && FeedsRefill(f, p, feeds, from, to)
    requires forall b: Bucket, t: Time :: p(b, t) ==> q(b, t)
    ensures FeedsRefill(f, q, feeds, from, to)
    decreases |feeds|
  {
    if feeds != [] {
      FeedsImply(Fed(f, feeds[0]), p, q, feeds[1..], feeds[0].at, to);
    }
  }

  lemma {:induction false} WaitsImply(f: Flow, p: Condition, q: Condition, now: Time, waits: seq<Wait>)
    requires FruitlessWaits(f, now, waits) && WaitsRefill(f, p, now, waits)
    requires forall b: Bucket, t: Time :: p(b, t) ==> q(b, t)
    ensures WaitsRefill(f, q, now, waits)
    decreases |waits|
  {
    if waits != [] {
      var w := waits[0];
      FeedsImply(f, p, q, w.feeds, now, w.at);
      WaitsImply(SettleFlow(FedAll(f, w.feeds, now, w.at), w.at), p, q, w.at, waits[1..]);
    }
  }

  // ---- Keeping up with what should have been earned ----

  /** The refill loses what was earned, and leaves less than the largest quantum. */
  ghost predicate Starves(b: Bucket, now: Time) {
    FallsShort(b, now) && Available(b, now) < LargestQuantum(b.burst)
  }

  ghost predicate NotStarving(b: Bucket, now: Time) {
    !Starves(b, now)
  }

  /** Validation accepts the rate, and the burst is a 64-bit number. */
  ghost predicate Metered(f: Flow) {
    Limited(f) ==> BucketOf(f).rate <= NS_PER_SECOND && BucketOf(f).burst < TWO_TO_THE_64
  }

  /** From `a`, the bucket has become `b` with at least what it should have earned meanwhile, or
      enough for any quantum. */
  ghost predicate KeptUp(a: Bucket, b: Bucket) {
    && b.rate == a.rate && b.burst == a.burst && a.last <= b.last
    && (b.Tokens() >= LargestQuantum(b.burst) || b.level >= Earned(a, b.last).level)
  }

  lemma EarnedMonotone(a: Bucket, b: Bucket, now: Time)
    requires a.rate == b.rate && a.burst == b.burst && a.last == b.last <= now && a.level <= b.level
    ensures Earned(a, now).level <= Earned(b, now).level && b.level <= Earned(b, now).level
  {
    var earned := (now - b.last) * b.rate;
    assert (now - a.last) * a.rate == earned;
    MulMonotone(0, now - b.last, b.rate);
  }

  lemma KeptUpThrough(a: Bucket, b: Bucket, c: Bucket)
    requires KeptUp(a, b) && KeptUp(b, c)
    ensures KeptUp(a, c)
  {
    TokensAtLeast(b, LargestQuantum(b.burst));
    TokensAtLeast(c, LargestQuantum(c.burst));
    EarnedMonotone(b, b, c.last);
    if b.Tokens() < LargestQuantum(b.burst) {
      EarnedMonotone(Earned(a, b.last), b, c.last);
      EarnedCadence(a, b.last, c.last);
    }
  }

  lemma RefillKeepsUp(b: Bucket, now: Time)
    requires b.rate <= NS_PER_SECOND && b.burst < TWO_TO_THE_64 && b.last <= now && NotStarving(b, now)
    ensures KeptUp(b, Refill(b, now))
  {
    RefillErrs(b, now);
  }

  /** Compared with `f`, `g` holds at least as many eligible bytes from `at` on, and has kept up. */
  ghost predicate Grown(f: Flow, g: Flow, at: Time) {
    && Limited(g) == Limited(f) && Delayed(g) == Delayed(f)
    && (forall t: Time :: t >= at ==> EligibleNow(g, t) >= EligibleNow(f, t))
    && (Limited(f) ==> KeptUp(BucketOf(f), BucketOf(g)))
  }

  lemma {:induction false} ReleasablePrefix(a: seq<Time>, b: seq<Time>, now: Time)
    ensures Releasable(a + b, now) >= Releasable(a, now)
  {
    if a != [] && a[0] <= now {
      assert (a + b)[1..] == a[1..] + b;
      ReleasablePrefix(a[1..], b, now);
    }
  }

  /** Bytes that arrive are stamped after those that wait. */
  lemma ArrivalStamps(f: Flow, data: seq<byte>, at: Time) returns (added: seq<Time>)
    requires InStep(f, at) && Delayed(f) && MayArrive(f, data)
    ensures Delayed(Ingress(f, data, at)) && Line(Ingress(f, data, at)).Times() == Line(f).Times() + added
  {
    var eligible := at + SegmentDelay(f.lane.fault.value);
    CommitInOrder(Line(f), |data|, eligible);
    added := Repeat(Max(eligible, Line(f).last), |data|);
  }

  lemma ArrivalEligible(f: Flow, data: seq<byte>, at: Time, t: Time)
    requires InStep(f, at) && MayArrive(f, data)
    ensures EligibleNow(Ingress(f, data, at), t) >= EligibleNow(f, t)
  {
    if Delayed(f) {
      var added := ArrivalStamps(f, data, at);
      ReleasablePrefix(Line(f).Times(), added, t);
    }
  }

  lemma ArrivalGrows(f: Flow, data: seq<byte>, at: Time)
    requires FlowInv(f, at) && MayArrive(f, data)
    ensures Grown(f, Ingress(f, data, at), at)
  {
    forall t: Time | t >= at
      ensures EligibleNow(Ingress(f, data, at), t) >= EligibleNow(f, t)
    {
      ArrivalEligible(f, data, at, t);
    }
  }

  lemma LookGrows(f: Flow, at: Time)
    requires Metered(f) && FlowInv(f, at) && Refills(f, NotStarving, at)
    ensures Grown(f, SettleFlow(f, at), at)
  {
    if Limited(f) {
      RefillKeepsUp(BucketOf(f), at);
    }
  }

  lemma FedGrows(f: Flow, feed: Feed, from: Time)
    requires FlowInv(f, from) && Metered(f) && from <= feed.at
    requires feed.Arrive? ==> MayArrive(f, feed.data)
    requires feed.Look? ==> Refills(f, NotStarving, feed.at)
    ensures FlowInv(Fed(f, feed), feed.at)
    ensures Grown(f, Fed(f, feed), feed.at)
  {
    LaterInv(f, from, feed.at);
    match feed
    case Arrive(data, at) =>
      IngressKeeps(f, data, at);
      ArrivalGrows(f, data, at);
    case Look(at) =>
      SettleKeeps(f, at);
      LookGrows(f, at);
  }

  lemma GrownThrough(f: Flow, g: Flow, h: Flow, at: Time, later: Time)
    requires Grown(f, g, at) && Grown(g, h, later) && at <= later
    ensures Grown(f, h, later)
  {
    if Limited(f) {
      KeptUpThrough(BucketOf(f), BucketOf(g), BucketOf(h));
    }
  }

  lemma GrownFromItself(f: Flow, at: Time)
    ensures Grown(f, f, at)
  {
  }

  lemma {:induction false} FedAllGrows(f: Flow, feeds: seq<Feed>, from: Time, to: Time)
    requires FlowInv(f, from) && Metered(f) && Feedable(f, feeds, from, to)
    requires FeedsRefill(f, NotStarving, feeds, from, to)
    ensures FlowInv(FedAll(f, feeds, from, to), to)
    ensures from <= to && Grown(f, FedAll(f, feeds, from, to), to)
    decreases |feeds|
  {
    if feeds == [] {
      LaterInv(f, from, to);
      GrownFromItself(f, to);
    } else {
      var g := Fed(f, feeds[0]);
      FedGrows(f, feeds[0], from);
      FedAllGrows(g, feeds[1..], feeds[0].at, to);
      GrownThrough(f, g, FedAll(g, feeds[1..], feeds[0].at, to), feeds[0].at, to);
    }
  }

  // ---- Every wake makes progress ----

  /** The direction has just been asked, so its bucket is up to date. */
  ghost predicate Asked(f: Flow, now: Time) {
    Limited(f) ==> BucketOf(f).last == now
  }

  lemma WakeReleases(f: Flow, from: Time, at: Time)
    requires FlowInv(f, from) && f.lane.queue != [] && BudgetNow(f, from) == 0
    requires WakeNow(f, from).Some? && at >= WakeNow(f, from).value
    ensures EligibleNow(f, at) >= EligibleNow(f, from) && EligibleNow(f, at) > 0
  {
    SocketXorTime(f, from);
    if Delayed(f) {
      ReleasableExact(Line(f), from, at);
      assert |Line(f).Times()| == |f.lane.queue|;
    }
  }

  /** By the wake, the tokens for the awaited quantum should have been earned. */
  lemma WakeEarns(f: Flow, from: Time, at: Time)
    requires FlowInv(f, from) && Asked(f, from) && f.lane.queue != [] && BudgetNow(f, from) == 0
    requires WakeNow(f, from).Some? && at >= WakeNow(f, from).value && EligibleNow(f, from) > 0
    ensures Limited(f) && Earned(BucketOf(f), at).Tokens() >= QuantumNow(f, from) > 0
    ensures QuantumNow(f, from) <= LargestQuantum(BucketOf(f).burst)
  {
    if Delayed(f) {
      assert |Line(f).Times()| == |f.lane.queue|;
    }
    WaitEarns(BucketOf(f), QuantumNow(f, from), at);
  }

  /** A bucket that has kept up by the wake affords the awaited quantum. */
  lemma KeptUpAffords(a: Bucket, b: Bucket, quantum: nat)
    requires KeptUp(a, b) && Earned(a, b.last).Tokens() >= quantum && quantum <= LargestQuantum(a.burst)
    ensures b.Tokens() >= quantum
  {
    TokensAtLeast(b, quantum);
    TokensAtLeast(Earned(a, b.last), quantum);
  }

  lemma WakeGrows(f: Flow, feeds: seq<Feed>, from: Time, at: Time)
    requires FlowInv(f, from) && Metered(f) && Feedable(f, feeds, from, at)
    requires FeedsRefill(f, NotStarving, feeds, from, at) && Refills(FedAll(f, feeds, from, at), NotStarving, at)
    ensures var g := SettleFlow(FedAll(f, feeds, from, at), at);
            FlowInv(g, at) && Asked(g, at) && Grown(f, g, at)
  {
    FedAllGrows(f, feeds, from, at);
    var fed := FedAll(f, feeds, from, at);
    SettleKeeps(fed, at);
    LookGrows(fed, at);
    SettledIsAsked(fed, at);
    GrownThrough(f, fed, SettleFlow(fed, at), at, at);
  }

  lemma SettledIsAsked(f: Flow, at: Time)
    requires FlowInv(f, at)
    ensures Asked(SettleFlow(f, at), at)
  {
  }

  /** What a direction that has just been asked may send. */
  lemma AskedBudget(g: Flow, at: Time)
    requires Asked(g, at) && EligibleNow(g, at) > 0 && BudgetNow(g, at) == 0
    ensures Limited(g) && BucketOf(g).Tokens() < QuantumNow(g, at)
  {
  }

  /** What was awaited is there by the wake, so nothing to send means a larger quantum. */
  lemma FruitlessMeansLarger(f: Flow, g: Flow, from: Time, at: Time)
    requires FlowInv(f, from) && Asked(f, from) && f.lane.queue != [] && BudgetNow(f, from) == 0
    requires WakeNow(f, from).Some? && at >= WakeNow(f, from).value
    requires Asked(g, at) && Grown(f, g, at) && BudgetNow(g, at) == 0
    ensures Limited(f) && QuantumNow(f, from) < QuantumNow(g, at)
  {
    WakeReleases(f, from, at);
    assert EligibleNow(g, at) >= EligibleNow(f, at);
    AskedBudget(g, at);
    if EligibleNow(f, from) > 0 {
      WakeEarns(f, from, at);
      KeptUpAffords(BucketOf(f), BucketOf(g), QuantumNow(f, from));
    }
  }

  /** A wake that finds nothing to send finds a strictly larger quantum than the one before; with
      no rate limit every wake finds something. */
  lemma FruitlessWakeRaisesQuantum(f: Flow, feeds: seq<Feed>, from: Time, at: Time)
    requires FlowInv(f, from) && Metered(f) && Asked(f, from) && f.lane.queue != [] && BudgetNow(f, from) == 0
    requires Feedable(f, feeds, from, at)
    requires WakeNow(f, from).Some? && at >= WakeNow(f, from).value
    requires FeedsRefill(f, NotStarving, feeds, from, at) && Refills(FedAll(f, feeds, from, at), NotStarving, at)
    ensures var g := SettleFlow(FedAll(f, feeds, from, at), at);
            BudgetNow(g, at) == 0 ==> Limited(f) && QuantumNow(f, from) < QuantumNow(g, at)
  {
    WakeGrows(f, feeds, from, at);
    var g := SettleFlow(FedAll(f, feeds, from, at), at);
    if BudgetNow(g, at) == 0 {
      FruitlessMeansLarger(f, g, from, at);
    }
  }

  lemma GrownQueue(f: Flow, g: Flow, at: Time)
    requires Grown(f, g, at) && EligibleNow(f, at) > 0
    ensures g.lane.queue != []
  {
    assert EligibleNow(g, at) > 0;
  }

  /** A time-blocked direction cannot stall: whatever arrives meanwhile, at most min(burst, 4096)
      wakes in a row find nothing to send (none when only latency holds the bytes), as long as no
      refill starves it. */
  lemma {:induction false} FruitlessWakesAreBounded(f: Flow, now: Time, waits: seq<Wait>)
    requires FlowInv(f, now) && Metered(f) && Asked(f, now) && f.lane.queue != [] && BudgetNow(f, now) == 0
    requires FruitlessWaits(f, now, waits) && WaitsRefill(f, NotStarving, now, waits)
    ensures Limited(f) ==> |waits| + QuantumNow(f, now) <= LargestQuantum(BucketOf(f).burst)
    ensures !Limited(f) ==> waits == []
    decreases |waits|
  {
    if waits != [] {
      var w := waits[0];
      WakeGrows(f, w.feeds, now, w.at);
      FruitlessWakeRaisesQuantum(f, w.feeds, now, w.at);
      var g := SettleFlow(FedAll(f, w.feeds, now, w.at), w.at);
      WakeReleases(f, now, w.at);
      GrownQueue(f, g, w.at);
      FruitlessWakesAreBounded(g, w.at, waits[1..]);
    }
  }

  // ---- When no refill starves a bucket ----

  /** The last refill was so recent that the product stays within 64 bits, and the tokens do too. */
  ghost predicate Prompt(b: Bucket, now: Time) {
    && b.rate <= NS_PER_SECOND && BurstLeavesRoom(b.rate, b.burst)
    && (now - b.last) * b.rate + NS_PER_SECOND <= TWO_TO_THE_64
  }

  lemma PromptIsEnough(b: Bucket, now: Time)
    requires Prompt(b, now)
    ensures !FallsShort(b, now) && NotStarving(b, now)
  {
    if now > b.last && now - b.last < MachineCap(b.rate, b.burst - b.Tokens()) {
      TokensFit(b, now - b.last);
    }
  }

  /** However late a refill is, it cannot starve a bucket of this rate and burst: the cap holds with
      every carry that can occur, either of buckets short of a quantum, or of all of them, in which
      case nothing ever wraps and fewer carries occur. */
  predicate NeverStarves(rate: pos, burst: nat) {
    && rate <= NS_PER_SECOND && BurstLeavesRoom(rate, burst)
    && (HoldsWhenShort(rate, burst) || Steady(rate, burst))
  }

  predicate HoldsWhenShort(rate: pos, burst: nat) {
    forall tokens: nat :: tokens < LargestQuantum(burst) ==> CapHolds(rate, burst, tokens, FineGrain(rate))
  }

  lemma NeverStarvesIsEnough(b: Bucket, now: Time)
    requires NeverStarves(b.rate, b.burst) && Grained(b)
    ensures NotStarving(b, now)
  {
    TokensAtLeast(b, 0);
    if Steady(b.rate, b.burst) {
      SteadyRefill(b, now);
    } else if b.Tokens() < LargestQuantum(b.burst) {
      FineGrainDivides(b.rate);
      HoldsNotShort(b, now, FineGrain(b.rate));
    } else if FallsShort(b, now) {
      ShortKeepsTokens(b, now);
    }
  }

  ghost predicate Hardy(f: Flow) {
    Limited(f) ==> NeverStarves(BucketOf(f).rate, BucketOf(f).burst) && Grained(BucketOf(f))
  }

  lemma {:induction false} NeverStarvingFeeds(f: Flow, feeds: seq<Feed>, from: Time, to: Time)
    requires Hardy(f) && Feedable(f, feeds, from, to)
    ensures FeedsRefill(f, NotStarving, feeds, from, to) && Hardy(FedAll(f, feeds, from, to))
    decreases |feeds|
  {
    if feeds != [] {
      HardyNow(f, feeds[0].at);
      HardyFed(f, feeds[0]);
      NeverStarvingFeeds(Fed(f, feeds[0]), feeds[1..], feeds[0].at, to);
    }
  }

  lemma HardyFed(f: Flow, feed: Feed)
    requires Hardy(f) && (feed.Arrive? ==> |f.lane.queue| + |feed.data| <= f.lane.capacity)
    ensures Hardy(Fed(f, feed))
  {
    if Limited(f) && feed.Look? {
      RefillIsGrained(BucketOf(f), feed.at);
    }
  }

  lemma HardyNow(f: Flow, at: Time)
    requires Hardy(f)
    ensures Refills(f, NotStarving, at)
  {
    if Limited(f) {
      NeverStarvesIsEnough(BucketOf(f), at);
    }
  }

  lemma {:induction false} NeverStarvingWaits(f: Flow, now: Time, waits: seq<Wait>)
    requires Hardy(f) && FruitlessWaits(f, now, waits)
    ensures WaitsRefill(f, NotStarving, now, waits)
    decreases |waits|
  {
    if waits != [] {
      var w := waits[0];
      NeverStarvingFeeds(f, w.feeds, now, w.at);
      var g := FedAll(f, w.feeds, now, w.at);
      HardyNow(g, w.at);
      HardyFed(g, Look(w.at));
      NeverStarvingWaits(SettleFlow(g, w.at), w.at, waits[1..]);
    }
  }

  /** A refill that loses the top of its product still takes no tokens away. */
  lemma ShortKeepsTokens(b: Bucket, now: Time)
    requires FallsShort(b, now) && b.rate <= NS_PER_SECOND && BurstLeavesRoom(b.rate, b.burst)
    ensures Available(b, now) >= b.Tokens()
  {
    var sum := (now - b.last) * b.rate + b.Carry();
    TokensFit(b, now - b.last);
    WrapShrinks(sum);
    assert Wrap64(sum) / NS_PER_SECOND <= sum / NS_PER_SECOND;
    LevelFields(b.burst, b.level);
    RefillIsStep(b, now);
    WrapShrinks(b.Tokens() + Wrap64(sum) / NS_PER_SECOND);
    TokensAtLeast(Refill(b, now), b.Tokens());
  }

  lemma TopProductUncut(rate: pos, burst: nat, tokens: nat)
    requires rate <= NS_PER_SECOND && tokens <= burst && NoEarlyFill(rate, burst)
    ensures TopProduct(rate, burst, tokens) < burst * NS_PER_SECOND + rate + NS_PER_SECOND
  {
    CapUncut(rate, burst, burst - tokens);
    CapMonotone(rate, burst, burst - tokens);
    MulMonotone(Cap(rate, burst - tokens) - 1, Cap(rate, burst) - 1, rate);
    LateProduct(rate, burst);
  }

  /** Bursts up to this many bytes never starve, at any rate that validation accepts. */
  lemma SmallBurstNeverStarves(rate: pos, burst: nat)
    requires rate <= NS_PER_SECOND && burst <= 18_446_744_070
    ensures NeverStarves(rate, burst)
  {
    SmallBurstFits(rate, burst);
    FitsNeverEarly(rate, burst);
    forall tokens: nat | tokens < LargestQuantum(burst)
      ensures CapHolds(rate, burst, tokens, FineGrain(rate))
    {
      TopProductUncut(rate, burst, tokens);
    }
  }

  // ---- Which rates and bursts that leaves ----

  /** At a rate that divides 10^9, a burst of which no level wraps never starves. */
  lemma DividingRateNeverStarves(rate: pos, burst: nat)
    requires rate <= NS_PER_SECOND && Divides(rate, NS_PER_SECOND) && BurstLeavesRoom(rate, burst)
    requires forall tokens: nat :: tokens <= burst ==> !WrapsBeforeCap(rate, burst, tokens)
    ensures NeverStarves(rate, burst)
  {
    GcdOfDivisor(rate, NS_PER_SECOND);
    forall tokens: nat | tokens <= burst
      ensures CapHolds(rate, burst, tokens, Grain(rate))
    {
      assert !WrapsBeforeCap(rate, burst, tokens);
    }
  }

  /** At a rate that divides 512, only the levels short of a quantum matter. */
  lemma BinaryRateNeverStarves(rate: pos, burst: nat)
    requires Divides(rate, 512) && BurstLeavesRoom(rate, burst)
    requires forall tokens: nat :: tokens < LargestQuantum(burst) ==> !WrapsBeforeCap(rate, burst, tokens)
    ensures NeverStarves(rate, burst)
  {
    DivisorIsSmaller(rate, 512);
    GcdOfDivisor(rate, 512);
    forall tokens: nat | tokens < LargestQuantum(burst)
      ensures CapHolds(rate, burst, tokens, FineGrain(rate))
    {
      assert !WrapsBeforeCap(rate, burst, tokens);
    }
  }

  /** At 10^9 bytes per second, bursts up to this many bytes never starve. */
  lemma FullSpeedNeverStarves(burst: nat)
    requires burst <= 36_893_488_145
    ensures NeverStarves(1_000_000_000, burst)
  {
    forall tokens: nat | tokens <= burst
      ensures !WrapsBeforeCap(1_000_000_000, burst, tokens)
    {
      FullSpeedCap(burst - tokens);
    }
    DividingRateNeverStarves(1_000_000_000, burst);
  }

  lemma FullSpeedCap(missing: nat)
    requires missing <= 36_893_488_145
    ensures MachineCap(1_000_000_000, missing) <= 18_446_744_074
  {
    var sum := missing * NS_PER_SECOND + 999_999_999;
    var low := if sum < TWO_TO_THE_64 then sum else sum - TWO_TO_THE_64;
    assert Wrap64(sum) == low;
    assert low / NS_PER_SECOND <= 18_446_744_072;
    WrapShrinks(UncutCap(1_000_000_000, low));
  }
}
