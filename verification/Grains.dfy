/** What every level a bucket reaches is a multiple of, overflows included, and how large the products
    of its refills can therefore get. */
module Grains {
  import opened Basics
  import opened Arithmetic
  import opened TokenBuckets

  // ---- Tokens ----

  /** Tokens plus what one refill can add stay within 64 bits. */
  predicate BurstLeavesRoom(rate: pos, burst: nat) {
    burst + 2 < TWO_TO_THE_64 || (burst + 1 < TWO_TO_THE_64 && Divides(rate, NS_PER_SECOND))
  }

  lemma MultiplesApart(rate: pos, elapsed: nat, limit: nat)
    requires Divides(rate, limit) && elapsed * rate < limit + rate
    ensures elapsed * rate <= limit
  {
    DivisionIdentity(limit, rate);
    if elapsed > limit / rate {
      MulMonotone(limit / rate + 1, elapsed, rate);
      Distribute(limit / rate, 1, rate);
    }
  }

  /** Below the cap, the product makes at most one or two more tokens than were missing. */
  lemma AddsLittle(b: Bucket, elapsed: nat)
    requires b.rate <= NS_PER_SECOND && elapsed < MachineCap(b.rate, b.burst - b.Tokens())
    ensures (elapsed * b.rate + b.Carry()) / NS_PER_SECOND <= b.burst - b.Tokens() + 2
    ensures Divides(b.rate, NS_PER_SECOND) ==>
              (elapsed * b.rate + b.Carry()) / NS_PER_SECOND <= b.burst - b.Tokens() + 1
  {
    var missing := b.burst - b.Tokens();
    UncappedBound(b.rate, missing, elapsed);
    if Divides(b.rate, NS_PER_SECOND) {
      MultipleProduct(b.rate, NS_PER_SECOND, missing + 1);
      MultiplesApart(b.rate, elapsed, (missing + 1) * NS_PER_SECOND);
    }
  }

  lemma TokensFit(b: Bucket, elapsed: nat)
    requires b.rate <= NS_PER_SECOND && BurstLeavesRoom(b.rate, b.burst)
    requires elapsed < MachineCap(b.rate, b.burst - b.Tokens())
    ensures b.Tokens() + (elapsed * b.rate + b.Carry()) / NS_PER_SECOND < TWO_TO_THE_64
  {
    TokensAtLeast(b, 0);
    AddsLittle(b, elapsed);
  }

  // ---- Products ----

  /** The largest product formed below the cap of a bucket with this many tokens, carry aside. */
  function TopProduct(rate: pos, burst: nat, tokens: nat): nat
    requires tokens <= burst
  {
    var cap := MachineCap(rate, burst - tokens);
    if cap == 0 then 0
    else
      MulMonotone(0, cap - 1, rate);
      (cap - 1) * rate
  }

  /** With carries that are multiples of `grain`, it stays within 64 bits. */
  predicate CapHolds(rate: pos, burst: nat, tokens: nat, grain: pos)
    requires tokens <= burst
  {
    TopProduct(rate, burst, tokens) + NS_PER_SECOND < TWO_TO_THE_64 + grain
  }

  /** With this many tokens left and a carry that a look has topped up, it does not. */
  predicate WrapsBeforeCap(rate: pos, burst: nat, tokens: nat)
    requires tokens <= burst
  {
    TopProduct(rate, burst, tokens) + NS_PER_SECOND - rate >= TWO_TO_THE_64
  }

  lemma ProductBelowTop(b: Bucket, elapsed: nat)
    requires elapsed < MachineCap(b.rate, b.burst - b.Tokens())
    ensures b.Tokens() <= b.burst && elapsed * b.rate <= TopProduct(b.rate, b.burst, b.Tokens())
  {
    TokensAtLeast(b, 0);
    MulMonotone(elapsed, MachineCap(b.rate, b.burst - b.Tokens()) - 1, b.rate);
  }

  lemma CarryLeavesGrain(level: nat, grain: pos)
    requires Divides(grain, level) && Divides(grain, NS_PER_SECOND)
    ensures level % NS_PER_SECOND + grain <= NS_PER_SECOND && Divides(grain, level % NS_PER_SECOND)
  {
    DivisionIdentity(level, NS_PER_SECOND);
    var tokens, carry := level / NS_PER_SECOND, level % NS_PER_SECOND;
    MultipleProduct(grain, NS_PER_SECOND, tokens);
    MultipleSum(grain, level, tokens * NS_PER_SECOND);
    MultipleSum(grain, NS_PER_SECOND, carry);
    DivisorIsSmaller(grain, NS_PER_SECOND - carry);
  }

  /** Where the cap holds, a bucket on that grain never falls short. */
  lemma HoldsNotShort(b: Bucket, now: Time, grain: pos)
    requires b.rate <= NS_PER_SECOND && BurstLeavesRoom(b.rate, b.burst)
    requires Divides(grain, b.level) && Divides(grain, NS_PER_SECOND)
    requires b.Tokens() <= b.burst && CapHolds(b.rate, b.burst, b.Tokens(), grain)
    ensures !FallsShort(b, now)
  {
    CarryLeavesGrain(b.level, grain);
    if now > b.last && now - b.last < MachineCap(b.rate, b.burst - b.Tokens()) {
      ProductBelowTop(b, now - b.last);
      TokensFit(b, now - b.last);
    }
  }

  // ---- The grain that survives overflows ----

  /** A divisor of the rate, of 10^9 and of 2^64. */
  function FineGrain(rate: pos): pos {
    Gcd(rate, 512)
  }

  lemma FineGrainDivides(rate: pos)
    ensures Divides(FineGrain(rate), rate) && Divides(FineGrain(rate), NS_PER_SECOND)
    ensures Divides(FineGrain(rate), TWO_TO_THE_64)
  {
    GcdDivides(rate, 512);
    MultipleProduct(FineGrain(rate), 512, 1_953_125);
    MultipleProduct(FineGrain(rate), 512, 0x80_0000_0000_0000);
  }

  lemma RemainderOnGrain(grain: pos, x: int, d: pos)
    requires Divides(grain, x) && Divides(grain, d)
    ensures Divides(grain, x % d)
  {
    DivisionIdentity(x, d);
    var q := x / d;
    MultipleProduct(grain, d, q);
    MultipleSum(grain, x, q * d);
  }

  lemma StepOnGrain(grain: pos, burst: nat, tokens: nat, carry: nat, capped: bool, earned: nat)
    requires Divides(grain, NS_PER_SECOND) && Divides(grain, TWO_TO_THE_64)
    requires Divides(grain, carry) && Divides(grain, earned)
    ensures var (tokens', carry') := MachineStep(burst, tokens, carry, capped, earned);
            Divides(grain, tokens' * NS_PER_SECOND + carry')
  {
    var (tokens', carry') := MachineStep(burst, tokens, carry, capped, earned);
    MultipleSum(grain, earned, carry);
    RemainderOnGrain(grain, earned + carry, TWO_TO_THE_64);
    RemainderOnGrain(grain, Wrap64(earned + carry), NS_PER_SECOND);
    MultipleIs(grain, 0, 0);
    MultipleProduct(grain, NS_PER_SECOND, tokens');
    MultipleSum(grain, tokens' * NS_PER_SECOND, carry');
  }

  lemma RefillOnGrain(b: Bucket, now: Time, grain: pos)
    requires now > b.last && Divides(grain, b.level) && Divides(grain, b.rate)
    requires Divides(grain, NS_PER_SECOND) && Divides(grain, TWO_TO_THE_64)
    ensures Divides(grain, Refill(b, now).level)
  {
    var elapsed := now - b.last;
    var earned, capped := elapsed * b.rate, elapsed >= MachineCap(b.rate, b.burst - b.Tokens());
    CarryLeavesGrain(b.level, grain);
    MultipleProduct(grain, b.rate, elapsed);
    StepOnGrain(grain, b.burst, b.Tokens(), b.Carry(), capped, earned);
    RefillIsStep(b, now);
  }

  lemma RefillOnFineGrain(b: Bucket, now: Time)
    requires Divides(FineGrain(b.rate), b.level)
    ensures Divides(FineGrain(b.rate), Refill(b, now).level)
  {
    if now > b.last {
      FineGrainDivides(b.rate);
      RefillOnGrain(b, now, FineGrain(b.rate));
    }
  }

  // ---- The grain of buckets in which no product ever wraps ----

  /** Nothing wraps below the cap, however many tokens there are, as long as nothing has. */
  predicate Steady(rate: pos, burst: nat) {
    && rate <= NS_PER_SECOND && BurstLeavesRoom(rate, burst)
    && forall tokens: nat :: tokens <= burst ==> CapHolds(rate, burst, tokens, Grain(rate))
  }

  lemma SteadyRefill(b: Bucket, now: Time)
    requires Steady(b.rate, b.burst) && Divides(Grain(b.rate), b.level)
    ensures !FallsShort(b, now) && Divides(Grain(b.rate), Refill(b, now).level)
  {
    var grain := Grain(b.rate);
    GrainIsSmall(b.rate);
    TokensAtLeast(b, 0);
    HoldsNotShort(b, now, grain);
    RefillErrs(b, now);
    EarnedOnGrain(b, now);
    if Overfills(b, now) {
      RefillIsStep(b, now);
      MultipleProduct(grain, NS_PER_SECOND, b.burst);
    }
  }

  // ---- What holds of every bucket that started full ----

  ghost predicate Grained(b: Bucket) {
    var grained := Divides(FineGrain(b.rate), b.level) && (Steady(b.rate, b.burst) ==> Divides(Grain(b.rate), b.level));
    grained
  }

  lemma NewIsGrained(rate: pos, burst: pos, start: Time)
    ensures Grained(NewBucket(rate, burst, start))
  {
    FineGrainDivides(rate);
    GrainIsSmall(rate);
    MultipleProduct(FineGrain(rate), NS_PER_SECOND, burst);
    MultipleProduct(Grain(rate), NS_PER_SECOND, burst);
  }

  lemma RefillIsGrained(b: Bucket, now: Time)
    requires Grained(b)
    ensures Grained(Refill(b, now))
  {
    RefillOnFineGrain(b, now);
    if Steady(b.rate, b.burst) {
      SteadyRefill(b, now);
    }
  }

  lemma SpendIsGrained(b: Bucket, bytes: nat)
    requires Grained(b) && bytes <= b.Tokens()
    ensures Grained(Spend(b, bytes))
  {
    FineGrainDivides(b.rate);
    GrainIsSmall(b.rate);
    MultipleProduct(FineGrain(b.rate), NS_PER_SECOND, bytes);
    MultipleSum(FineGrain(b.rate), b.level, bytes * NS_PER_SECOND);
    MultipleProduct(Grain(b.rate), NS_PER_SECOND, bytes);
    if Steady(b.rate, b.burst) {
      MultipleSum(Grain(b.rate), b.level, bytes * NS_PER_SECOND);
    }
  }
}
