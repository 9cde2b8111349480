/** The byte-rate token bucket: 64-bit arithmetic with a sub-byte carry, the integer level it is
    meant to implement, and exactly when the two differ. */
module TokenBuckets {
  import opened Basics
  import opened Arithmetic

  // ---- The bucket ----

  /** A bucket whose fill is one integer, in byte-nanoseconds: `level == tokens * 1e9 + carry`. */
  datatype BucketData = BucketData(rate: pos, burst: pos, level: nat, last: Time) {
    function Tokens(): nat { level / NS_PER_SECOND }

    function Carry(): nat { level % NS_PER_SECOND }

    /** Validation accepts the rate, and no refill of this bucket earns too much. */
    predicate Bounded() {
      var bounded := rate <= NS_PER_SECOND && NoEarlyFill(rate, burst);
      bounded
    }

    /** Every refill of this bucket is exact: validation accepts the rate, nothing overflows, and
        the level is one that a bucket starting full can reach. */
    predicate Exact() {
      var exact := rate <= NS_PER_SECOND && Fits(rate, burst) && Divides(Grain(rate), level);
      exact
    }
  }

  type Bucket = b: BucketData | b.level <= b.burst * NS_PER_SECOND witness BucketData(1, 1, 0, 0)

  function NewBucket(rate: pos, burst: pos, start: Time): Bucket {
    BucketData(rate, burst, burst * NS_PER_SECOND, start)
  }

  /** The intended refill: `rate` bytes per second up to `burst`, nothing when time does not
      advance. */
  function Earned(b: Bucket, now: Time): Bucket {
    if now <= b.last then b
    else b.(level := Min(b.level + (now - b.last) * b.rate, b.burst * NS_PER_SECOND), last := now)
  }

  /** The refill as computed, in 64-bit arithmetic. */
  function Refill(b: Bucket, now: Time): Bucket {
    if now <= b.last then b
    else
      LevelFields(b.burst, b.level);
      var (tokens, carry) := MachineRefill(b.rate, b.burst, b.Tokens(), b.Carry(), now - b.last);
      FieldsLevel(b.burst, tokens, carry);
      b.(level := tokens * NS_PER_SECOND + carry, last := now)
  }

  function Available(b: Bucket, now: Time): nat {
    Refill(b, now).Tokens()
  }

  function Spend(b: Bucket, bytes: nat): Bucket
    requires bytes <= b.Tokens()
  {
    b.(level := b.level - bytes * NS_PER_SECOND)
  }

  function EligibleAt(b: Bucket, bytes: nat, now: Time): Time {
    var tokens := Available(b, now);
    var target := Min(bytes, b.burst);
    if tokens >= target then now
    else now + CeilDiv((target - tokens) * NS_PER_SECOND, b.rate)
  }

  // ---- The 64-bit arithmetic ----

  /** The elapsed time from which `refill` fills the bucket outright, when `missing` tokens are
      missing: the time to earn them, rounded up, and some slack. */
  function Cap(rate: pos, missing: nat): nat {
    UncutCap(rate, missing * NS_PER_SECOND + rate - 1)
  }

  /** The same with every intermediate result truncated to 64 bits. */
  function MachineCap(rate: pos, missing: nat): nat {
    Wrap64(UncutCap(rate, Wrap64(missing * NS_PER_SECOND + rate - 1)))
  }

  function UncutCap(rate: pos, low: nat): nat {
    low / rate + NS_PER_SECOND / rate + 1
  }

  /** Adds a product in byte-nanoseconds to the tokens; returns the new tokens and carry. */
  function MachineEarn(burst: nat, tokens: nat, product: nat): (r: (nat, nat))
    ensures FieldsOk(burst, r.0, r.1)
  {
    var tokens' := Min(Wrap64(tokens + product / NS_PER_SECOND), burst);
    (tokens', if tokens' == burst then 0 else product % NS_PER_SECOND)
  }

  /** What `refill` computes from its fields when `elapsed > 0` nanoseconds have passed, in 64-bit
      arithmetic. Returns the new tokens and carry. */
  function MachineRefill(rate: pos, burst: nat, tokens: nat, carry: nat, elapsed: nat): (r: (nat, nat))
    requires tokens <= burst
    ensures FieldsOk(burst, r.0, r.1)
  {
    MachineStep(burst, tokens, carry, elapsed >= MachineCap(rate, burst - tokens), elapsed * rate)
  }

  function MachineStep(burst: nat, tokens: nat, carry: nat, capped: bool, earned: nat): (r: (nat, nat))
    ensures FieldsOk(burst, r.0, r.1)
  {
    if capped then (burst, 0) else MachineEarn(burst, tokens, Wrap64(earned + carry))
  }

  ghost predicate FieldsOk(burst: nat, tokens: nat, carry: nat) {
    && tokens <= burst
    && carry < NS_PER_SECOND
    && (tokens == burst ==> carry == 0)
  }

  lemma LevelFields(burst: nat, level: nat)
    requires level <= burst * NS_PER_SECOND
    ensures FieldsOk(burst, level / NS_PER_SECOND, level % NS_PER_SECOND)
  {
  }

  lemma FieldsLevel(burst: nat, tokens: nat, carry: nat)
    requires FieldsOk(burst, tokens, carry)
    ensures tokens * NS_PER_SECOND + carry <= burst * NS_PER_SECOND
  {
  }

  lemma TokensAtLeast(b: Bucket, bytes: nat)
    ensures b.Tokens() >= bytes <==> b.level >= bytes * NS_PER_SECOND
    ensures b.Tokens() <= b.burst
  {
  }

  // ---- Exactly when a refill errs ----

  /** The bucket is filled outright although it has not earned that much: only a truncated cap can
      do that. */
  predicate Overfills(b: Bucket, now: Time) {
    && now > b.last
    && now - b.last >= MachineCap(b.rate, b.burst - b.Tokens())
    && (now - b.last) * b.rate + b.Carry() < (b.burst - b.Tokens()) * NS_PER_SECOND
  }

  /** The refill loses the top of the product, or of the tokens it adds that to. */
  predicate FallsShort(b: Bucket, now: Time) {
    && now > b.last
    && now - b.last < MachineCap(b.rate, b.burst - b.Tokens())
    && var product := (now - b.last) * b.rate + b.Carry();
       product >= TWO_TO_THE_64 || b.Tokens() + product / NS_PER_SECOND >= TWO_TO_THE_64
  }

  /** Below the cap, the elapsed time has earned little more than was missing. */
  lemma UncappedBound(rate: pos, missing: nat, elapsed: nat)
    requires elapsed < MachineCap(rate, missing)
    ensures elapsed * rate <= missing * NS_PER_SECOND + rate - 1 + NS_PER_SECOND
    ensures elapsed * rate < TWO_TO_THE_64 + NS_PER_SECOND
  {
    var low := Wrap64(missing * NS_PER_SECOND + rate - 1);
    WrapShrinks(missing * NS_PER_SECOND + rate - 1);
    WrapShrinks(UncutCap(rate, low));
    MulMonotone(elapsed, low / rate + NS_PER_SECOND / rate, rate);
    Distribute(low / rate, NS_PER_SECOND / rate, rate);
    DivBounds(low, rate);
    DivBounds(NS_PER_SECOND, rate);
  }

  /** The level a step leaves, against the level it should leave. */
  lemma StepErrs(burst: nat, tokens: nat, carry: nat, capped: bool, earned: nat)
    requires FieldsOk(burst, tokens, carry) && burst < TWO_TO_THE_64
    requires !capped ==> earned <= (burst - tokens) * NS_PER_SECOND + 2 * NS_PER_SECOND
                         && earned < TWO_TO_THE_64 + NS_PER_SECOND
    ensures var (tokens', carry') := MachineStep(burst, tokens, carry, capped, earned);
            var level := tokens' * NS_PER_SECOND + carry';
            var exact := Min(tokens * NS_PER_SECOND + carry + earned, burst * NS_PER_SECOND);
            && (level > exact <==> capped && earned + carry < (burst - tokens) * NS_PER_SECOND)
            && (level < exact <==> !capped && (earned + carry >= TWO_TO_THE_64
                                               || tokens + (earned + carry) / NS_PER_SECOND >= TWO_TO_THE_64))
  {
    if !capped {
      var sum := earned + carry;
      if sum < TWO_TO_THE_64 {
        WrapShrinks(sum);
        AddingTokens(tokens, sum / NS_PER_SECOND, burst);
      } else {
        assert Wrap64(sum) == sum - TWO_TO_THE_64;
        WrapShrinks(tokens + Wrap64(sum) / NS_PER_SECOND);
      }
    }
  }

  lemma AddingTokens(tokens: nat, more: nat, burst: nat)
    requires tokens <= burst < TWO_TO_THE_64 && more < TWO_TO_THE_64
    ensures var sum := tokens + more;
            Wrap64(sum) == if sum < TWO_TO_THE_64 then sum else sum - TWO_TO_THE_64
  {
  }

  lemma RefillIsStep(b: Bucket, now: Time)
    requires now > b.last
    ensures var elapsed := now - b.last;
            var (tokens, carry) := MachineStep(b.burst, b.Tokens(), b.Carry(),
                                               elapsed >= MachineCap(b.rate, b.burst - b.Tokens()), elapsed * b.rate);
            && Refill(b, now).level == tokens * NS_PER_SECOND + carry
            && Earned(b, now).level == Min(b.Tokens() * NS_PER_SECOND + b.Carry() + elapsed * b.rate,
                                           b.burst * NS_PER_SECOND)
  {
    LevelFields(b.burst, b.level);
  }

  /** For a rate that validation accepts and a 64-bit burst, the refill errs upwards and downwards
      exactly in these cases; otherwise it is the intended one. */
  lemma RefillErrs(b: Bucket, now: Time)
    requires b.rate <= NS_PER_SECOND && b.burst < TWO_TO_THE_64
    ensures Refill(b, now).level > Earned(b, now).level <==> Overfills(b, now)
    ensures Refill(b, now).level < Earned(b, now).level <==> FallsShort(b, now)
    ensures !Overfills(b, now) && !FallsShort(b, now) ==> Refill(b, now) == Earned(b, now)
  {
    if now > b.last {
      var missing, elapsed := b.burst - b.Tokens(), now - b.last;
      var earned := elapsed * b.rate;
      var capped := elapsed >= MachineCap(b.rate, missing);
      if !capped {
        UncappedBound(b.rate, missing, elapsed);
      }
      LevelFields(b.burst, b.level);
      StepErrs(b.burst, b.Tokens(), b.Carry(), capped, earned);
      RefillIsStep(b, now);
    }
    SameLevel(b, now);
  }

  lemma SameLevel(b: Bucket, now: Time)
    ensures Refill(b, now).level == Earned(b, now).level ==> Refill(b, now) == Earned(b, now)
  {
  }

  /** At the largest burst, adding one token to a full bucket wraps: 1 ns empties it. */
  lemma FullBucketEmpties()
    ensures var full := NewBucket(1_000_000_000, TWO_TO_THE_64 - 1, 0);
            FallsShort(full, 1) && Refill(full, 1).Tokens() == 0
  {
    var full := NewBucket(1_000_000_000, TWO_TO_THE_64 - 1, 0);
    assert full.Tokens() == TWO_TO_THE_64 - 1 && full.Carry() == 0;
    assert MachineCap(1_000_000_000, 0) == 2;
    assert MachineEarn(TWO_TO_THE_64 - 1, TWO_TO_THE_64 - 1, 1_000_000_000) == (0, 0);
  }

  /** Asked again at the same time, the bucket is as it was. */
  lemma RefillOnce(b: Bucket, now: Time)
    ensures Refill(Refill(b, now), now) == Refill(b, now)
  {
  }

  // ---- Exactly which buckets can be filled too early ----

  /** The cap of an empty bucket is formed without truncation. */
  predicate NoEarlyFill(rate: pos, burst: nat) {
    burst * NS_PER_SECOND + rate - 1 < TWO_TO_THE_64 && Cap(rate, burst) < TWO_TO_THE_64
  }

  lemma CapMonotone(rate: pos, burst: nat, missing: nat)
    requires missing <= burst
    ensures Cap(rate, missing) <= Cap(rate, burst)
    ensures Cap(rate, missing) * rate >= missing * NS_PER_SECOND
  {
    CeilDivBounds(missing * NS_PER_SECOND, rate);
    CeilDivBounds(burst * NS_PER_SECOND, rate);
    CeilDivThreshold(missing * NS_PER_SECOND, rate, CeilDiv(burst * NS_PER_SECOND, rate));
    MulMonotone(CeilDiv(missing * NS_PER_SECOND, rate), Cap(rate, missing), rate);
  }

  lemma CapUncut(rate: pos, burst: nat, missing: nat)
    requires missing <= burst && NoEarlyFill(rate, burst)
    ensures MachineCap(rate, missing) == Cap(rate, missing)
  {
    CapMonotone(rate, burst, missing);
    WrapShrinks(missing * NS_PER_SECOND + rate - 1);
    WrapShrinks(Cap(rate, missing));
  }

  /** Such a bucket never earns more than it should. */
  lemma NeverOverfills(b: Bucket, now: Time)
    requires b.Bounded()
    ensures !Overfills(b, now) && Refill(b, now).level <= Earned(b, now).level
  {
    var missing := b.burst - b.Tokens();
    CapUncut(b.rate, b.burst, missing);
    CapMonotone(b.rate, b.burst, missing);
    if now > b.last && now - b.last >= MachineCap(b.rate, missing) {
      MulMonotone(Cap(b.rate, missing), now - b.last, b.rate);
    }
    RefillErrs(b, now);
  }

  /** Any other bucket, once full, can be spent down so that it is filled again far too early. */
  lemma EarlyFill(rate: pos, burst: nat) returns (missing: nat)
    requires rate <= NS_PER_SECOND && !NoEarlyFill(rate, burst)
    ensures 0 < missing <= burst
    ensures Max(1, MachineCap(rate, missing)) * rate < missing * NS_PER_SECOND
  {
    var low: nat;
    if burst * NS_PER_SECOND + rate - 1 >= TWO_TO_THE_64 {
      missing := CeilDiv(TWO_TO_THE_64 - (rate - 1), NS_PER_SECOND);
      CeilDivBounds(TWO_TO_THE_64 - (rate - 1), NS_PER_SECOND);
      CeilDivThreshold(TWO_TO_THE_64 - (rate - 1), NS_PER_SECOND, burst);
      low := missing * NS_PER_SECOND + rate - 1 - TWO_TO_THE_64;
      assert Wrap64(missing * NS_PER_SECOND + rate - 1) == low;
      EarlyCap(rate, low, UncutCap(rate, low));
    } else {
      missing := burst;
      low := burst * NS_PER_SECOND + rate - 1;
      WrapShrinks(low);
      CapJustWraps(rate, low);
    }
  }

  lemma EarlyCap(rate: pos, low: nat, cap: nat)
    requires cap == UncutCap(rate, low)
    ensures Wrap64(cap) * rate <= low + NS_PER_SECOND + rate
  {
    WrapShrinks(cap);
    MulMonotone(Wrap64(cap), cap, rate);
    Distribute(low / rate, NS_PER_SECOND / rate, rate);
    Distribute(low / rate + NS_PER_SECOND / rate, 1, rate);
    DivBounds(low, rate);
    DivBounds(NS_PER_SECOND, rate);
  }

  lemma CapJustWraps(rate: pos, low: nat)
    requires low < TWO_TO_THE_64 <= UncutCap(rate, low)
    ensures Wrap64(UncutCap(rate, low)) * rate <= NS_PER_SECOND
    ensures low >= TWO_TO_THE_64 - 1 - NS_PER_SECOND
  {
    DivBounds(low, rate);
    MulMonotone(1, rate, low / rate);
    DivBounds(NS_PER_SECOND, rate);
    MulMonotone(1, rate, NS_PER_SECOND / rate);
    assert low / rate <= low && NS_PER_SECOND / rate <= NS_PER_SECOND;
    var cap := UncutCap(rate, low);
    assert Wrap64(cap) == cap - TWO_TO_THE_64;
    MulMonotone(cap - TWO_TO_THE_64, NS_PER_SECOND / rate, rate);
  }

  // ---- Exactly which buckets are always refilled exactly ----

  /** Levels a bucket reaches from full are multiples of this many byte-nanoseconds. */
  function Grain(rate: pos): pos {
    Gcd(rate, NS_PER_SECOND)
  }

  /** No product that `refill` forms for a bucket that started full exceeds 64 bits. */
  predicate Fits(rate: pos, burst: nat) {
    (Cap(rate, burst) - 1) * rate + NS_PER_SECOND - Grain(rate) < TWO_TO_THE_64
  }

  lemma GrainIsSmall(rate: pos)
    ensures Divides(Grain(rate), rate) && Divides(Grain(rate), NS_PER_SECOND)
    ensures Grain(rate) <= rate && Grain(rate) <= NS_PER_SECOND
  {
    GcdDivides(rate, NS_PER_SECOND);
    DivisorIsSmaller(Grain(rate), rate);
    DivisorIsSmaller(Grain(rate), NS_PER_SECOND);
  }

  /** `Cap - 1` times the rate, between what an empty bucket is missing and little more. */
  lemma LateProduct(rate: pos, burst: nat)
    requires rate <= NS_PER_SECOND
    ensures var late := (Cap(rate, burst) - 1) * rate;
            burst * NS_PER_SECOND + rate <= late < burst * NS_PER_SECOND + rate + NS_PER_SECOND
  {
    CeilDivBounds(burst * NS_PER_SECOND, rate);
    DivBounds(NS_PER_SECOND, rate);
    MulMonotone(1, NS_PER_SECOND / rate, rate);
    Distribute(CeilDiv(burst * NS_PER_SECOND, rate), NS_PER_SECOND / rate, rate);
  }

  /** Every burst up to this many bytes fits at every rate that validation accepts. */
  lemma SmallBurstFits(rate: pos, burst: nat)
    requires rate <= NS_PER_SECOND
    requires burst <= 18_446_744_070
    ensures Fits(rate, burst)
  {
    LateProduct(rate, burst);
  }

  lemma FitsNeverEarly(rate: pos, burst: nat)
    requires rate <= NS_PER_SECOND && Fits(rate, burst)
    ensures NoEarlyFill(rate, burst)
  {
    LateProduct(rate, burst);
    GrainIsSmall(rate);
    MulMonotone(1, rate, Cap(rate, burst) - 1);
  }

  lemma CarryOnGrain(b: Bucket)
    requires Divides(Grain(b.rate), b.level)
    ensures b.Carry() <= NS_PER_SECOND - Grain(b.rate)
  {
    var g := Grain(b.rate);
    GrainIsSmall(b.rate);
    DivisionIdentity(b.level, NS_PER_SECOND);
    MultipleProduct(g, NS_PER_SECOND, b.Tokens());
    MultipleSum(g, b.level, b.Tokens() * NS_PER_SECOND);
    MultipleSum(g, NS_PER_SECOND, b.Carry());
    DivisorIsSmaller(g, NS_PER_SECOND - b.Carry());
  }

  lemma ExactNeverShort(b: Bucket, now: Time)
    requires b.Exact()
    ensures !FallsShort(b, now) && !Overfills(b, now) && b.burst < TWO_TO_THE_64
  {
    FitsNeverEarly(b.rate, b.burst);
    NeverOverfills(b, now);
    CarryOnGrain(b);
    if b.last < now {
      ProductFits(b.rate, b.burst, b.burst - b.Tokens(), now - b.last);
    }
  }

  /** Below the cap, the product leaves room for any carry. */
  lemma ProductFits(rate: pos, burst: nat, missing: nat, elapsed: nat)
    requires NoEarlyFill(rate, burst) && missing <= burst
    ensures elapsed < MachineCap(rate, missing) ==> elapsed * rate <= (Cap(rate, burst) - 1) * rate
  {
    CapUncut(rate, burst, missing);
    CapMonotone(rate, burst, missing);
    if elapsed < MachineCap(rate, missing) {
      MulMonotone(elapsed, Cap(rate, burst) - 1, rate);
    }
  }

  lemma EarnedOnGrain(b: Bucket, now: Time)
    requires Divides(Grain(b.rate), b.level)
    ensures Divides(Grain(b.rate), Earned(b, now).level)
  {
    var g := Grain(b.rate);
    GrainIsSmall(b.rate);
    if now > b.last {
      MultipleProduct(g, b.rate, now - b.last);
      MultipleSum(g, b.level, (now - b.last) * b.rate);
      MultipleProduct(g, NS_PER_SECOND, b.burst);
    }
  }

  /** An exact bucket earns exactly what it should, and stays exact. */
  lemma RefillIsExact(b: Bucket, now: Time)
    requires b.Exact()
    ensures Refill(b, now) == Earned(b, now) && Refill(b, now).Exact()
  {
    ExactNeverShort(b, now);
    RefillErrs(b, now);
    EarnedOnGrain(b, now);
  }

  lemma SpendIsExact(b: Bucket, bytes: nat)
    requires b.Exact() && bytes <= b.Tokens()
    ensures Spend(b, bytes).Exact()
  {
    GrainIsSmall(b.rate);
    MultipleProduct(Grain(b.rate), NS_PER_SECOND, bytes);
    MultipleSum(Grain(b.rate), b.level, bytes * NS_PER_SECOND);
  }

  lemma NewIsExact(rate: pos, burst: pos, start: Time)
    requires rate <= NS_PER_SECOND && Fits(rate, burst)
    ensures NewBucket(rate, burst, start).Exact()
  {
    GrainIsSmall(rate);
    MultipleProduct(Grain(rate), NS_PER_SECOND, burst);
  }

  // ---- What a bucket goes through ----

  datatype Dealing = Asking(now: Time) | Spending(bytes: nat)

  ghost predicate Possible(b: Bucket, dealings: seq<Dealing>)
    decreases |dealings|
  {
    dealings == [] ||
    match dealings[0]
    case Asking(now) => Possible(Refill(b, now), dealings[1..])
    case Spending(bytes) => bytes <= b.Tokens() && Possible(Spend(b, bytes), dealings[1..])
  }

  ghost function After(b: Bucket, dealings: seq<Dealing>): Bucket
    requires Possible(b, dealings)
    decreases |dealings|
  {
    if dealings == [] then b
    else
      match dealings[0]
      case Asking(now) => After(Refill(b, now), dealings[1..])
      case Spending(bytes) => After(Spend(b, bytes), dealings[1..])
  }

  lemma {:induction false} StaysExact(b: Bucket, dealings: seq<Dealing>)
    requires b.Exact() && Possible(b, dealings)
    ensures After(b, dealings).Exact()
    decreases |dealings|
  {
    if dealings != [] {
      match dealings[0]
      case Asking(now) =>
        RefillIsExact(b, now);
        StaysExact(Refill(b, now), dealings[1..]);
      case Spending(bytes) =>
        SpendIsExact(b, bytes);
        StaysExact(Spend(b, bytes), dealings[1..]);
    }
  }

  /** A bucket that starts full, goes through `dealings`, and is asked at `now`, earns just what it
      should. */
  ghost predicate RefillsRight(rate: pos, burst: pos, dealings: seq<Dealing>, now: Time) {
    Possible(NewBucket(rate, burst, 0), dealings) ==>
      var b := After(NewBucket(rate, burst, 0), dealings);
      Refill(b, now) == Earned(b, now)
  }

  lemma AfterSpending(b: Bucket, bytes: nat, rest: seq<Dealing>)
    requires bytes <= b.Tokens() && Possible(Spend(b, bytes), rest)
    ensures Possible(b, [Spending(bytes)] + rest)
    ensures After(b, [Spending(bytes)] + rest) == After(Spend(b, bytes), rest)
  {
    assert ([Spending(bytes)] + rest)[1..] == rest;
  }

  lemma AfterAsking(b: Bucket, now: Time, rest: seq<Dealing>)
    requires Possible(Refill(b, now), rest)
    ensures Possible(b, [Asking(now)] + rest)
    ensures After(b, [Asking(now)] + rest) == After(Refill(b, now), rest)
  {
    assert ([Asking(now)] + rest)[1..] == rest;
  }

  lemma SpentIsMissing(rate: pos, burst: pos, bytes: nat)
    requires bytes <= burst
    ensures NewBucket(rate, burst, 0).Tokens() == burst
    ensures var b := Spend(NewBucket(rate, burst, 0), bytes);
            b.burst - b.Tokens() == bytes && b.Carry() == 0 && b.last == 0
  {
    DivModUnique(burst * NS_PER_SECOND, NS_PER_SECOND, burst, 0);
    DivModUnique((burst - bytes) * NS_PER_SECOND, NS_PER_SECOND, burst - bytes, 0);
  }

  lemma SpentIsFilledEarly(rate: pos, burst: pos, missing: nat)
    requires rate <= NS_PER_SECOND && burst < TWO_TO_THE_64 && 0 < missing <= burst
    requires Max(1, MachineCap(rate, missing)) * rate < missing * NS_PER_SECOND
    ensures NewBucket(rate, burst, 0).Tokens() == burst
    ensures var b := Spend(NewBucket(rate, burst, 0), missing);
            var now := Max(1, MachineCap(rate, missing));
            && Overfills(b, now) && Refill(b, now).level > Earned(b, now).level
            && Available(b, now) == burst
  {
    SpentIsMissing(rate, burst, missing);
    var b := Spend(NewBucket(rate, burst, 0), missing);
    RefillErrs(b, Max(1, MachineCap(rate, missing)));
    TokensAtLeast(Refill(b, Max(1, MachineCap(rate, missing))), burst);
  }

  lemma EarlyFillHappens(rate: pos, burst: pos) returns (dealings: seq<Dealing>, now: Time)
    requires rate <= NS_PER_SECOND && burst < TWO_TO_THE_64 && !NoEarlyFill(rate, burst)
    ensures !RefillsRight(rate, burst, dealings, now)
  {
    var missing := EarlyFill(rate, burst);
    dealings, now := [Spending(missing)], Max(1, MachineCap(rate, missing));
    SpentIsMissing(rate, burst, missing);
    AfterSpending(NewBucket(rate, burst, 0), missing, []);
    assert [Spending(missing)] + [] == dealings;
    SpentIsFilledEarly(rate, burst, missing);
  }

  /** Empties a full bucket down to the largest carry it can have. */
  lemma LargestCarry(rate: pos, burst: pos) returns (dealings: seq<Dealing>, now: Time)
    requires rate <= NS_PER_SECOND && NS_PER_SECOND < burst < TWO_TO_THE_64 && NoEarlyFill(rate, burst)
    ensures Possible(NewBucket(rate, burst, 0), dealings)
    ensures After(NewBucket(rate, burst, 0), dealings) == BucketData(rate, burst, TopCarry(rate), now)
  {
    now := LargestRemainder(rate, NS_PER_SECOND);
    var full := NewBucket(rate, burst, 0);
    SpentIsMissing(rate, burst, burst);
    var empty := Spend(full, burst);
    EarnsFromEmpty(empty, now);
    var some := Refill(empty, now);
    DivisionIdentity(some.level, NS_PER_SECOND);
    AfterSpending(some, some.Tokens(), []);
    AfterAsking(empty, now, [Spending(some.Tokens())] + []);
    AfterSpending(full, burst, [Asking(now)] + ([Spending(some.Tokens())] + []));
    dealings := [Spending(burst)] + ([Asking(now)] + ([Spending(some.Tokens())] + []));
  }

  function TopCarry(rate: pos): nat {
    GrainIsSmall(rate);
    NS_PER_SECOND - Grain(rate)
  }

  /** Soon after it is emptied, a bucket holds just what it has earned. */
  lemma EarnsFromEmpty(b: Bucket, now: Time)
    requires b.level == 0 && b.last == 0 && now < NS_PER_SECOND < b.burst < TWO_TO_THE_64
    requires b.rate <= NS_PER_SECOND && NoEarlyFill(b.rate, b.burst)
    ensures Refill(b, now) == b.(level := now * b.rate, last := now)
  {
    CapUncut(b.rate, b.burst, b.burst);
    CapMonotone(b.rate, b.burst, b.burst);
    MulMonotone(b.rate, NS_PER_SECOND, now);
    RefillErrs(b, now);
    NeverOverfills(b, now);
  }

  lemma ShortfallHappens(rate: pos, burst: pos) returns (dealings: seq<Dealing>, now: Time)
    requires rate <= NS_PER_SECOND && burst < TWO_TO_THE_64 && NoEarlyFill(rate, burst) && !Fits(rate, burst)
    ensures !RefillsRight(rate, burst, dealings, now)
  {
    if burst <= 18_446_744_070 {
      SmallBurstFits(rate, burst);
    }
    var at: Time;
    dealings, at := LargestCarry(rate, burst);
    now := at + Cap(rate, burst) - 1;
    TopCarryFallsShort(rate, burst, at);
  }

  lemma TopCarryFallsShort(rate: pos, burst: pos, at: Time)
    requires rate <= NS_PER_SECOND < burst < TWO_TO_THE_64 && NoEarlyFill(rate, burst) && !Fits(rate, burst)
    ensures var b := BucketData(rate, burst, TopCarry(rate), at);
            var now := at + Cap(rate, burst) - 1;
            TopCarry(rate) < NS_PER_SECOND && Refill(b, now).level < Earned(b, now).level
  {
    GrainIsSmall(rate);
    var b: Bucket := BucketData(rate, burst, TopCarry(rate), at);
    CapUncut(rate, burst, burst);
    CapMonotone(rate, burst, 1);
    RefillErrs(b, at + Cap(rate, burst) - 1);
  }

  /** Every refill of a bucket that starts full is exact, whatever it goes through, if and only if
      its rate and burst fit. */
  lemma RefillExactIffFits(rate: pos, burst: pos)
    requires rate <= NS_PER_SECOND && burst < TWO_TO_THE_64
    ensures Fits(rate, burst) <==> forall dealings, now :: RefillsRight(rate, burst, dealings, now)
  {
    if Fits(rate, burst) {
      forall dealings, now: Time
        ensures RefillsRight(rate, burst, dealings, now)
      {
        var full := NewBucket(rate, burst, 0);
        if Possible(full, dealings) {
          NewIsExact(rate, burst, 0);
          StaysExact(full, dealings);
          RefillIsExact(After(full, dealings), now);
        }
      }
    } else if NoEarlyFill(rate, burst) {
      var dealings, now := ShortfallHappens(rate, burst);
    } else {
      var dealings, now := EarlyFillHappens(rate, burst);
    }
  }

  // ---- Cadence ----

  lemma EarnedCadence(b: Bucket, t1: Time, t2: Time)
    requires t1 <= t2
    ensures Earned(Earned(b, t1), t2) == Earned(b, t2)
    ensures Earned(b, t1).level <= Earned(b, t2).level
  {
    if b.last < t1 < t2 {
      assert (t1 - b.last) * b.rate + (t2 - t1) * b.rate == (t2 - b.last) * b.rate;
    }
  }

  /** Refilling is independent of cadence: an intermediate refill changes nothing. */
  lemma RefillCadence(b: Bucket, t1: Time, t2: Time)
    requires t1 <= t2 && b.Exact()
    ensures Refill(Refill(b, t1), t2) == Refill(b, t2)
  {
    RefillIsExact(b, t1);
    RefillIsExact(Refill(b, t1), t2);
    RefillIsExact(b, t2);
    EarnedCadence(b, t1, t2);
  }

  lemma RefillMonotone(b: Bucket, t1: Time, t2: Time)
    requires t1 <= t2 && b.Exact()
    ensures Refill(b, t1).level <= Refill(b, t2).level
    ensures Available(b, t1) <= Available(b, t2)
  {
    RefillIsExact(b, t1);
    RefillIsExact(b, t2);
    EarnedCadence(b, t1, t2);
  }

  // ---- When tokens will exist ----

  /** The first instant, from `now` on, at which `bytes` (at most `burst`) are available. */
  function FirstInstant(b: Bucket, bytes: nat, now: Time): Time {
    var r := Refill(b, now);
    var target := Min(bytes, b.burst) * NS_PER_SECOND;
    if r.level >= target then now else now + CeilDiv(target - r.level, b.rate)
  }

  lemma EarnedReaches(b: Bucket, now: Time, t: Time, target: nat)
    requires b.last <= now <= t
    requires Earned(b, now).level < target <= b.burst * NS_PER_SECOND
    ensures Earned(b, t).level >= target <==> (t - now) * b.rate >= target - Earned(b, now).level
  {
    EarnedCadence(b, now, t);
  }

  lemma LevelReaches(b: Bucket, now: Time, t: Time, target: nat)
    requires b.Exact() && b.last <= now <= t
    requires Refill(b, now).level < target <= b.burst * NS_PER_SECOND
    ensures Refill(b, t).level >= target <==> (t - now) * b.rate >= target - Refill(b, now).level
  {
    RefillIsExact(b, now);
    RefillIsExact(b, t);
    EarnedReaches(b, now, t, target);
  }

  lemma FirstInstantIsExact(b: Bucket, bytes: nat, now: Time, t: Time)
    requires b.Exact() && b.last <= now <= t
    ensures Available(b, t) >= Min(bytes, b.burst) <==> t >= FirstInstant(b, bytes, now)
  {
    var goal := Min(bytes, b.burst);
    var target := goal * NS_PER_SECOND;
    var level := Refill(b, now).level;
    TokensAtLeast(Refill(b, t), goal);
    if level < target {
      MulMonotone(goal, b.burst, NS_PER_SECOND);
      LevelReaches(b, now, t, target);
      CeilDivThreshold(target - level, b.rate, t - now);
    } else {
      RefillMonotone(b, now, t);
    }
  }

  /** The level still missing, exactly, and as the source counts it (ignoring the carry). */
  lemma MissingLevels(b: Bucket, goal: nat)
    requires b.Tokens() < goal
    ensures var exact := goal * NS_PER_SECOND - b.level;
            var coarse := (goal - b.Tokens()) * NS_PER_SECOND;
            0 < exact <= coarse < exact + NS_PER_SECOND
  {
  }

  lemma CoarseWait(b: Bucket, goal: nat)
    requires b.Tokens() < goal
    ensures goal * NS_PER_SECOND > b.level
    ensures var exact := CeilDiv(goal * NS_PER_SECOND - b.level, b.rate);
            var coarse := CeilDiv((goal - b.Tokens()) * NS_PER_SECOND, b.rate);
            0 < exact <= coarse && (coarse - exact) * b.rate < NS_PER_SECOND + b.rate
  {
    MissingLevels(b, goal);
    var exact := goal * NS_PER_SECOND - b.level;
    var coarse := (goal - b.Tokens()) * NS_PER_SECOND;
    CeilDivGap(exact, coarse, NS_PER_SECOND, b.rate);
    CeilDivThreshold(exact, b.rate, 0);
  }

  /** Waiting for as long as the source does earns what is missing, if the refill is the intended
      one. */
  lemma WaitEarns(b: Bucket, goal: nat, t: Time)
    requires b.Tokens() < goal <= b.burst
    requires t >= b.last + CeilDiv((goal - b.Tokens()) * NS_PER_SECOND, b.rate)
    ensures Earned(b, t).Tokens() >= goal
  {
    CoarseWait(b, goal);
    MulMonotone(goal, b.burst, NS_PER_SECOND);
    CeilDivThreshold(goal * NS_PER_SECOND - b.level, b.rate, t - b.last);
    TokensAtLeast(Earned(b, t), goal);
  }

  /** The reported time is never early, and late by less than the time the ignored carry took
      to earn plus one rounding step. */
  lemma EligibleAtAdequate(b: Bucket, bytes: nat, now: Time, t: Time)
    requires b.Exact() && b.last <= now <= t
    ensures FirstInstant(b, bytes, now) <= EligibleAt(b, bytes, now)
    ensures t >= EligibleAt(b, bytes, now) ==> Available(b, t) >= Min(bytes, b.burst)
    ensures (EligibleAt(b, bytes, now) - FirstInstant(b, bytes, now)) * b.rate < NS_PER_SECOND + b.rate
    ensures EligibleAt(b, bytes, now) == now <==> Available(b, now) >= Min(bytes, b.burst)
  {
    EligibleAtIsLate(b, bytes, now);
    FirstInstantIsExact(b, bytes, now, t);
  }

  lemma EligibleAtIsLate(b: Bucket, bytes: nat, now: Time)
    ensures 0 <= EligibleAt(b, bytes, now) - FirstInstant(b, bytes, now)
    ensures (EligibleAt(b, bytes, now) - FirstInstant(b, bytes, now)) * b.rate < NS_PER_SECOND + b.rate
    ensures EligibleAt(b, bytes, now) == now <==> Available(b, now) >= Min(bytes, b.burst)
  {
    var r := Refill(b, now);
    var goal := Min(bytes, b.burst);
    TokensAtLeast(r, goal);
    if r.Tokens() < goal {
      CoarseWait(r, goal);
    }
  }

  /** Short of tokens, the reported time is strictly later. */
  lemma EligibleAtLater(b: Bucket, bytes: nat, now: Time)
    ensures Available(b, now) < Min(bytes, b.burst) ==> EligibleAt(b, bytes, now) > now
  {
    if Available(b, now) < Min(bytes, b.burst) {
      CeilDivThreshold((Min(bytes, b.burst) - Available(b, now)) * NS_PER_SECOND, b.rate, 0);
    }
  }

  /** The wait `eligible_at` computes, in 64-bit arithmetic. */
  function MachineWait(rate: pos, needed: nat): nat {
    Wrap64(needed * NS_PER_SECOND + rate - 1) / rate
  }

  /** A wait for no more tokens than this is computed exactly at any rate validation accepts. */
  const SAFE_WAIT_BYTES: nat := 18_446_744_070

  lemma WaitUnwrapped(rate: pos, needed: nat)
    requires rate <= NS_PER_SECOND && needed <= SAFE_WAIT_BYTES
    ensures MachineWait(rate, needed) == CeilDiv(needed * NS_PER_SECOND, rate)
  {
    WrapShrinks(needed * NS_PER_SECOND + rate - 1);
  }

  lemma TokensOfLevel(tokens: nat, carry: nat)
    requires carry < NS_PER_SECOND
    ensures (tokens * NS_PER_SECOND + carry) / NS_PER_SECOND == tokens
    ensures (tokens * NS_PER_SECOND + carry) % NS_PER_SECOND == carry
  {
  }

  // ---- The bucket the relay holds ----

  class TokenBucket {
    const rate: pos
    const burst: pos
    var tokens: nat
    var carry: nat
    var lastRefill: Time

    ghost predicate Valid()
      reads this
    {
      FieldsOk(burst, tokens, carry)
    }

    ghost function Model(): (b: Bucket)
      requires Valid()
      reads this
      ensures b.Tokens() == tokens && b.Carry() == carry
    {
      TokensOfLevel(tokens, carry);
      BucketData(rate, burst, tokens * NS_PER_SECOND + carry, lastRefill)
    }

    constructor (rate: pos, burst: pos, start: Time)
      ensures Valid() && Model() == NewBucket(rate, burst, start)
    {
      this.rate, this.burst := rate, burst;
      tokens, carry, lastRefill := burst, 0, start;
    }

    /** A zero rate or burst is refused. */
    static method Create(rate: nat, burst: nat, start: Time) returns (r: Option<TokenBucket>)
      ensures r.None? <==> rate == 0 || burst == 0
      ensures r.Some? ==> r.value.Valid() && fresh(r.value) && r.value.Model() == NewBucket(rate, burst, start)
    {
      if rate == 0 || burst == 0 {
        return None;
      }
      var bucket := new TokenBucket(rate, burst, start);
      r := Some(bucket);
    }

    method RefillTo(now: Time)
      requires Valid()
      modifies this
      ensures Valid()
      ensures Model() == Refill(old(Model()), now)
      ensures now <= old(lastRefill) ==> unchanged(this)
    {
      if now <= lastRefill {
        return;
      }
      var elapsed := now - lastRefill;
      lastRefill := now;
      var missing := burst - tokens;
      var fullNs := Wrap64(missing * NS_PER_SECOND + rate - 1) / rate;
      ghost var t0, c0 := tokens, carry;
      if elapsed >= Wrap64(fullNs + NS_PER_SECOND / rate + 1) {
        tokens := burst;
        carry := 0;
      } else {
        var product := Wrap64(elapsed * rate + carry);
        var earned := product / NS_PER_SECOND;
        carry := product % NS_PER_SECOND;
        tokens := Min(Wrap64(tokens + earned), burst);
        if tokens == burst {
          carry := 0;
        }
      }
      assert (tokens, carry) == MachineRefill(rate, burst, t0, c0, elapsed);
    }

    method AvailableAt(now: Time) returns (available: nat)
      requires Valid()
      modifies this
      ensures Valid() && Model() == Refill(old(Model()), now) && available == Available(old(Model()), now)
    {
      RefillTo(now);
      available := tokens;
    }

    /** Refuses to overdraw. */
    method Consume(bytes: nat) returns (ok: bool)
      requires Valid()
      modifies this
      ensures Valid()
      ensures ok == (bytes <= old(Model()).Tokens())
      ensures ok ==> Model() == Spend(old(Model()), bytes)
      ensures !ok ==> unchanged(this)
    {
      if bytes > tokens {
        return false;
      }
      tokens := tokens - bytes;
      ok := true;
    }

    method NextEligible(bytes: nat, now: Time) returns (t: Time)
      requires Valid()
      modifies this
      ensures Valid() && Model() == Refill(old(Model()), now)
      ensures t == now + if tokens >= Min(bytes, burst) then 0 else MachineWait(rate, Min(bytes, burst) - tokens)
      ensures rate <= NS_PER_SECOND && Min(bytes, burst) <= SAFE_WAIT_BYTES ==>
                t == EligibleAt(old(Model()), bytes, now)
    {
      RefillTo(now);
      var target := Min(bytes, burst);
      if tokens >= target {
        return now;
      }
      var needed := target - tokens;
      var waitNs := MachineWait(rate, needed);
      t := now + waitNs;
      if rate <= NS_PER_SECOND && target <= SAFE_WAIT_BYTES {
        WaitUnwrapped(rate, needed);
      }
    }
  }
}
