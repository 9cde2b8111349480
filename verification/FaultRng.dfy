/** Seed derivation and jitter sampling: the 64-bit SplitMix64 mixing function. */
module FaultRng {
  import opened Basics

  // The mixing steps. Multiplication and addition on `bv64` wrap modulo 2^64.

  function Advance(x: bv64): bv64 { x + 0x9E3779B97F4A7C15 }
  function Fold30(x: bv64): bv64 { x ^ (x >> 30) }
  function Fold27(x: bv64): bv64 { x ^ (x >> 27) }
  function Fold31(x: bv64): bv64 { x ^ (x >> 31) }
  function ScaleA(x: bv64): bv64 { x * 0xBF58476D1CE4E5B9 }
  function ScaleB(x: bv64): bv64 { x * 0x94D049BB133111EB }

  function Mix(value: bv64): bv64 {
    Fold31(ScaleB(Fold27(ScaleA(Fold30(Advance(value))))))
  }

  // Their inverses: the multipliers are odd, so each has an inverse modulo 2^64.

  function Retreat(x: bv64): bv64 { x - 0x9E3779B97F4A7C15 }
  function Unfold30(x: bv64): bv64 { x ^ (x >> 30) ^ (x >> 60) }
  function Unfold27(x: bv64): bv64 { x ^ (x >> 27) ^ (x >> 54) }
  function Unfold31(x: bv64): bv64 { x ^ (x >> 31) ^ (x >> 62) }
  function UnscaleA(x: bv64): bv64 { x * 0x96DE1B173F119089 }
  function UnscaleB(x: bv64): bv64 { x * 0x319642B2D24D8EC3 }

  /** Undoes `Mix`, last step first. */
  function Unmix(mixed: bv64): bv64 {
    Retreat(Unfold30(UnscaleA(Unfold27(UnscaleB(Unfold31(mixed))))))
  }

  lemma FoldInverses(x: bv64)
    ensures Unfold30(Fold30(x)) == x && Fold30(Unfold30(x)) == x
    ensures Unfold27(Fold27(x)) == x && Fold27(Unfold27(x)) == x
    ensures Unfold31(Fold31(x)) == x && Fold31(Unfold31(x)) == x
  {
    assert Unfold30(x ^ (x >> 30)) == x && Fold30(x ^ (x >> 30) ^ (x >> 60)) == x;
    assert Unfold27(x ^ (x >> 27)) == x && Fold27(x ^ (x >> 27) ^ (x >> 54)) == x;
    assert Unfold31(x ^ (x >> 31)) == x && Fold31(x ^ (x >> 31) ^ (x >> 62)) == x;
  }

  lemma ScaleInverses(x: bv64)
    ensures UnscaleA(ScaleA(x)) == x && ScaleA(UnscaleA(x)) == x
    ensures UnscaleB(ScaleB(x)) == x && ScaleB(UnscaleB(x)) == x
    ensures Retreat(Advance(x)) == x && Advance(Retreat(x)) == x
  {
    assert UnscaleA(x * 0xBF58476D1CE4E5B9) == x && ScaleA(x * 0x96DE1B173F119089) == x;
    assert UnscaleB(x * 0x94D049BB133111EB) == x && ScaleB(x * 0x319642B2D24D8EC3) == x;
    assert Retreat(x + 0x9E3779B97F4A7C15) == x && Advance(x - 0x9E3779B97F4A7C15) == x;
  }

  /** `Mix` is a bijection of the 64-bit words: `Unmix` is its two-sided inverse. */
  lemma MixBijective(x: bv64)
    ensures Unmix(Mix(x)) == x
    ensures Mix(Unmix(x)) == x
  {
    ScaleInverses(x);
    var a := Advance(x);
    FoldInverses(a);
    ScaleInverses(Fold30(a));
    var b := ScaleA(Fold30(a));
    FoldInverses(b);
    ScaleInverses(Fold27(b));
    FoldInverses(ScaleB(Fold27(b)));

    FoldInverses(x);
    var c := Unfold31(x);
    ScaleInverses(c);
    FoldInverses(UnscaleB(c));
    var d := Unfold27(UnscaleB(c));
    ScaleInverses(d);
    FoldInverses(UnscaleA(d));
    ScaleInverses(Unfold30(UnscaleA(d)));
  }

  lemma MixInjective(x: bv64, y: bv64)
    ensures Mix(x) == Mix(y) <==> x == y
  {
    MixBijective(x);
    MixBijective(y);
  }

  // ---- Seed derivation: master, then connection, then direction ----

  function Xor(x: bv64, y: bv64): bv64 { x ^ y }
  function Increment(x: bv64): bv64 { x + 1 }
  function Decrement(x: bv64): bv64 { x - 1 }

  function ConnectionSeed(master: bv64, connectionId: bv64): bv64 {
    Mix(Xor(Mix(master), connectionId))
  }

  function DirectionSeed(connectionSeed: bv64, directionIndex: bv64): bv64 {
    Mix(Xor(connectionSeed, Increment(directionIndex)))
  }

  lemma XorCancels(m: bv64, x: bv64)
    ensures Xor(m, Xor(m, x)) == x
  {
    assert Xor(m, m ^ x) == x;
  }

  lemma XorInjective(m: bv64, x: bv64, y: bv64)
    ensures Xor(m, x) == Xor(m, y) <==> x == y
  {
    XorCancels(m, x);
    XorCancels(m, y);
  }

  lemma IncrementInjective(x: bv64, y: bv64)
    ensures Increment(x) == Increment(y) <==> x == y
  {
    assert Decrement(x + 1) == x && Decrement(y + 1) == y;
  }

  /** Under one master seed, two connections share a seed only if they share an id. */
  lemma ConnectionSeedsDistinct(master: bv64, id1: bv64, id2: bv64)
    ensures ConnectionSeed(master, id1) == ConnectionSeed(master, id2) <==> id1 == id2
  {
    var m := Mix(master);
    XorInjective(m, id1, id2);
    MixInjective(Xor(m, id1), Xor(m, id2));
  }

  /** Under one connection seed, the directions have distinct stream seeds. */
  lemma DirectionSeedsDistinct(connection: bv64, dir1: bv64, dir2: bv64)
    ensures DirectionSeed(connection, dir1) == DirectionSeed(connection, dir2) <==> dir1 == dir2
  {
    IncrementInjective(dir1, dir2);
    XorInjective(connection, Increment(dir1), Increment(dir2));
    MixInjective(Xor(connection, Increment(dir1)), Xor(connection, Increment(dir2)));
  }

  // ---- The stream ----

  /** State of a stream after `draws` draws, and the draw count that leads to a state. */
  function StateAfter(seed: bv64, draws: bv64): bv64 {
    seed + draws * 0x9E3779B97F4A7C15
  }

  function DrawsTo(seed: bv64, state: bv64): bv64 {
    (state - seed) * 0xF1DE83E19937733D
  }

  /** The word the draw after `draws` draws returns. */
  function Output(seed: bv64, draws: bv64): bv64 {
    Mix(StateAfter(seed, draws))
  }

  lemma StateInverse(seed: bv64, draws: bv64, state: bv64)
    ensures StateAfter(seed, draws) == state <==> draws == DrawsTo(seed, state)
  {
    DrawsRoundTrip(seed, draws);
    StateRoundTrip(seed, state);
  }

  lemma DrawsRoundTrip(seed: bv64, draws: bv64)
    ensures DrawsTo(seed, StateAfter(seed, draws)) == draws
  {
    assert DrawsTo(seed, seed + draws * 0x9E3779B97F4A7C15) == draws;
  }

  lemma StateRoundTrip(seed: bv64, state: bv64)
    ensures StateAfter(seed, DrawsTo(seed, state)) == state
  {
    assert StateAfter(seed, (state - seed) * 0xF1DE83E19937733D) == state;
  }

  /** Each draw moves the state to that of the next draw count. */
  lemma StateStep(seed: bv64, draws: bv64)
    ensures StateAfter(seed, Increment(draws)) == Advance(StateAfter(seed, draws))
  {
    assert StateAfter(seed, draws + 1) == Advance(seed + draws * 0x9E3779B97F4A7C15);
  }

  /** The 2^64 draws of a stream are a permutation of the 64-bit words: every word comes out,
      at one draw only, so no output repeats before the state itself does. */
  lemma StreamIsPermutation(seed: bv64, draws: bv64, word: bv64)
    ensures Output(seed, draws) == word <==> draws == DrawsTo(seed, Unmix(word))
  {
    MixBijective(word);
    MixBijective(StateAfter(seed, draws));
    StateInverse(seed, draws, Unmix(word));
  }

  class SplitMix64 {
    var state: bv64

    constructor (seed: bv64)
      ensures state == seed
    {
      state := seed;
    }

    method Next() returns (value: bv64)
      modifies this
      ensures value == Mix(old(state)) && state == Advance(old(state))
    {
      value := Mix(state);
      state := Advance(state);
    }
  }

  // ---- Jitter ----

  /** The jitter, in nanoseconds, that one drawn word stands for. */
  function JitterOf(word: bv64, jitter: pos): int {
    (word as int) % (jitter * 2 + 1) - jitter
  }

  /** State of the stream after one sample: a zero jitter draws nothing. */
  function AfterSample(state: bv64, jitter: nat): bv64 {
    if jitter == 0 then state else Advance(state)
  }

  function SampleOf(state: bv64, jitter: nat): (r: int)
    ensures -(jitter as int) <= r <= jitter
  {
    if jitter == 0 then 0 else JitterOf(Mix(state), jitter)
  }

  /** State of a stream seeded with `seed` once `n` samples have been drawn from it. */
  function StateAt(seed: bv64, n: nat): bv64 {
    if n == 0 then seed else Advance(StateAt(seed, n - 1))
  }

  /** The samples a direction's stream yields, in order. */
  function JitterStream(seed: bv64, jitter: nat): nat -> int {
    (n: nat) => SampleOf(StateAt(seed, n), jitter)
  }

  /** A draw count as the 64-bit word it wraps to. */
  function Word(n: nat): bv64 {
    if n == 0 then 0 else Increment(Word(n - 1))
  }

  lemma StateFirst(seed: bv64)
    ensures StateAfter(seed, 0) == seed
  {
  }

  /** Drawing one by one leads to the state the draw count determines. */
  lemma {:induction false} StateAtDraws(seed: bv64, n: nat)
    ensures StateAt(seed, n) == StateAfter(seed, Word(n))
  {
    if n == 0 {
      StateFirst(seed);
    } else {
      StateAtDraws(seed, n - 1);
      StateStep(seed, Word(n - 1));
    }
  }

  // ---- Draw counts below 2^64 are distinct words ----

  function Plus(x: bv64, y: bv64): bv64 { x + y }
  function Both(x: bv64, y: bv64): bv64 { x & y }
  function Twice(x: bv64): bv64 { x + x }

  lemma PlusStep(x: bv64, y: bv64)
    ensures Plus(x, Increment(y)) == Increment(Plus(x, y)) && Plus(x, 0) == x && Plus(x, x) == Twice(x)
    ensures Plus(x, y) == x <==> y == 0
  {
  }

  lemma {:induction false} WordSum(m: nat, n: nat)
    ensures Word(m + n) == Plus(Word(m), Word(n))
  {
    if n == 0 {
      PlusStep(Word(m), 0);
    } else {
      WordSum(m, n - 1);
      PlusStep(Word(m), Word(n - 1));
    }
  }

  /** `x` doubled `k` times, and the bit that this makes of the lowest one. */
  function Doubled(x: bv64, k: nat): bv64 {
    if k == 0 then x else Twice(Doubled(x, k - 1))
  }

  function Bit(k: nat): bv64 {
    if k == 0 then 1 else Twice(Bit(k - 1))
  }

  function PowerOfTwo(j: nat): nat {
    if j == 0 then 1 else 2 * PowerOfTwo(j - 1)
  }

  lemma BitDoubles(x: bv64, bit: bv64)
    ensures Both(x, bit) == bit ==> Both(Twice(x), Twice(bit)) == Twice(bit)
    ensures Both(Increment(Twice(x)), 1) == 1 && Both(0, bit) == 0 && Twice(0) == 0
  {
    assert x & bit == bit ==> (x + x) & (bit + bit) == bit + bit;
    assert (x + x + 1) & 1 == 1 && 0 & bit == 0;
  }

  lemma {:induction false} BitMoves(x: bv64, k: nat)
    requires Both(x, 1) == 1
    ensures Both(Doubled(x, k), Bit(k)) == Bit(k)
  {
    if k > 0 {
      BitMoves(x, k - 1);
      BitDoubles(Doubled(x, k - 1), Bit(k - 1));
    }
  }

  lemma {:induction false} DoubledFirst(x: bv64, k: nat)
    ensures Doubled(Twice(x), k) == Doubled(x, k + 1)
  {
    if k > 0 {
      DoubledFirst(x, k - 1);
    }
  }

  lemma {:induction false} ZeroStays(k: nat, m: nat)
    requires k <= m && Bit(k) == 0
    ensures Bit(m) == 0
    decreases m
  {
    if k < m {
      ZeroStays(k, m - 1);
      BitDoubles(0, 0);
    }
  }

  lemma SixtyFourBits()
    ensures Bit(63) != 0 && PowerOfTwo(64) == TWO_TO_THE_64
  {
    assert Bit(8) == 0x100 && PowerOfTwo(8) == 0x100;
    assert Bit(16) == 0x1_0000 && PowerOfTwo(16) == 0x1_0000;
    assert Bit(24) == 0x100_0000 && PowerOfTwo(24) == 0x100_0000;
    assert Bit(32) == 0x1_0000_0000 && PowerOfTwo(32) == 0x1_0000_0000;
    assert Bit(40) == 0x100_0000_0000 && PowerOfTwo(40) == 0x100_0000_0000;
    assert Bit(48) == 0x1_0000_0000_0000 && PowerOfTwo(48) == 0x1_0000_0000_0000;
    assert Bit(56) == 0x100_0000_0000_0000 && PowerOfTwo(56) == 0x100_0000_0000_0000;
  }

  /** Doubled to the top of a word, a count is not zero: halve it until it is odd. */
  lemma {:induction false} CountIsNotZero(n: nat, j: nat)
    requires 0 < n < PowerOfTwo(j) && j <= 64
    ensures Doubled(Word(n), 64 - j) != 0
    decreases j
  {
    var half := n / 2;
    var w := Word(half);
    WordSum(half, half);
    PlusStep(w, w);
    if n == 2 * half {
      CountIsNotZero(half, j - 1);
      DoubledFirst(w, 64 - j);
    } else {
      BitDoubles(w, 0);
      BitMoves(Word(n), 64 - j);
      OddIsNotZero(Word(n), 64 - j);
    }
  }

  lemma OddIsNotZero(x: bv64, k: nat)
    requires Both(x, 1) == 1 && k <= 63
    ensures Doubled(x, k) != 0
  {
    BitMoves(x, k);
    BitDoubles(0, Bit(k));
    SixtyFourBits();
    if Bit(k) == 0 {
      ZeroStays(k, 63);
    }
  }

  lemma WordIsNotZero(n: nat)
    requires 0 < n < TWO_TO_THE_64
    ensures Word(n) != 0
  {
    SixtyFourBits();
    CountIsNotZero(n, 64);
    assert Doubled(Word(n), 0) == Word(n);
  }

  /** Drawing one by one, a stream returns no word twice in its first 2^64 draws. */
  lemma DrawsDoNotRepeat(seed: bv64, m: nat, n: nat)
    requires m < n < TWO_TO_THE_64
    ensures Mix(StateAt(seed, m)) != Mix(StateAt(seed, n))
  {
    WordSum(m, n - m);
    WordIsNotZero(n - m);
    PlusStep(Word(m), Word(n - m));
    StateAtDraws(seed, m);
    StateAtDraws(seed, n);
    StreamIsPermutation(seed, Word(m), Output(seed, Word(n)));
    StreamIsPermutation(seed, Word(n), Output(seed, Word(n)));
  }

  method SampleJitter(rng: SplitMix64, jitter: nat) returns (r: int)
    modifies rng
    ensures r == SampleOf(old(rng.state), jitter)
    ensures rng.state == AfterSample(old(rng.state), jitter)
  {
    if jitter == 0 {
      return 0;
    }
    var range := jitter * 2 + 1;
    var word := rng.Next();
    var offset := (word as int) % range;
    r := offset - jitter;
  }
}
