/** Integer facts that several parts rely on: rounding division, 64-bit truncation, divisors. */
module Arithmetic {
  import opened Basics

  // ---- Products and quotients ----

  lemma MulMonotone(a: int, b: int, c: nat)
    requires a <= b
    ensures a * c <= b * c
  {
  }

  lemma Distribute(a: int, b: int, c: int)
    ensures (a + b) * c == a * c + b * c
  {
  }

  lemma DivBounds(a: nat, d: pos)
    ensures a / d * d <= a < a / d * d + d
  {
  }

  lemma DivModUnique(x: int, d: pos, q: int, rest: nat)
    requires x == q * d + rest && rest < d
    ensures x / d == q && x % d == rest
  {
    var p := x / d;
    assert x == p * d + x % d;
    if p < q {
      MulMonotone(1, q - p, d);
      Distribute(q, -p, d);
    } else if p > q {
      MulMonotone(1, p - q, d);
      Distribute(p, -q, d);
    }
  }

  function CeilDiv(a: nat, d: pos): nat {
    (a + d - 1) / d
  }

  lemma CeilDivBounds(a: nat, d: pos)
    ensures a <= CeilDiv(a, d) * d < a + d
  {
    DivBounds(a + d - 1, d);
  }

  /** `CeilDiv(a, d)` is the least `w` with `w * d >= a`. */
  lemma CeilDivThreshold(a: nat, d: pos, w: nat)
    ensures w >= CeilDiv(a, d) <==> w * d >= a
  {
    CeilDivBounds(a, d);
    var c := CeilDiv(a, d);
    if w >= c {
      MulMonotone(c, w, d);
    } else {
      MulMonotone(w, c - 1, d);
      assert (c - 1) * d == c * d - d;
    }
  }

  lemma CeilDivGap(a: nat, b: nat, gap: nat, d: pos)
    requires a <= b < a + gap
    ensures CeilDiv(a, d) <= CeilDiv(b, d)
    ensures (CeilDiv(b, d) - CeilDiv(a, d)) * d < gap + d
  {
    CeilDivBounds(a, d);
    CeilDivBounds(b, d);
    CeilDivThreshold(a, d, CeilDiv(b, d));
    assert (CeilDiv(b, d) - CeilDiv(a, d)) * d == CeilDiv(b, d) * d - CeilDiv(a, d) * d;
  }

  lemma WrapShrinks(x: nat)
    ensures Wrap64(x) <= x
    ensures x >= TWO_TO_THE_64 ==> Wrap64(x) + TWO_TO_THE_64 <= x
    ensures x < TWO_TO_THE_64 ==> Wrap64(x) == x
  {
  }

  // ---- Divisors ----

  /** Euclid's algorithm. */
  function Gcd(a: pos, b: nat): pos
    decreases b
  {
    if b == 0 then a else Gcd(b, a % b)
  }

  predicate Divides(d: pos, x: int) {
    x % d == 0
  }

  lemma MultipleIs(d: pos, x: int, k: int)
    requires x == k * d
    ensures Divides(d, x)
  {
    DivModUnique(x, d, k, 0);
  }

  lemma DivisionIdentity(a: int, b: pos)
    ensures a == a / b * b + a % b
  {
  }

  lemma MultipleSum(d: pos, x: int, y: int)
    requires Divides(d, x) && Divides(d, y)
    ensures Divides(d, x + y) && Divides(d, x - y)
  {
    var p, q := x / d, y / d;
    DivisionIdentity(x, d);
    DivisionIdentity(y, d);
    Distribute(p, q, d);
    Distribute(p, -q, d);
    MultipleIs(d, x + y, p + q);
    MultipleIs(d, x - y, p - q);
  }

  lemma MultipleProduct(d: pos, x: int, k: int)
    requires Divides(d, x)
    ensures Divides(d, k * x)
  {
    var p := x / d;
    DivisionIdentity(x, d);
    assert k * (p * d) == (k * p) * d;
    MultipleIs(d, k * x, k * p);
  }

  lemma DividesDividend(d: pos, a: int, b: pos)
    requires Divides(d, b) && Divides(d, a % b)
    ensures Divides(d, a)
  {
    DivisionIdentity(a, b);
    var q, rest := a / b, a % b;
    MultipleProduct(d, b, q);
    MultipleSum(d, q * b, rest);
  }

  lemma {:induction false} GcdDivides(a: pos, b: nat)
    ensures Divides(Gcd(a, b), a) && Divides(Gcd(a, b), b)
    decreases b
  {
    if b == 0 {
      MultipleIs(a, a, 1);
      MultipleIs(a, 0, 0);
    } else {
      GcdDivides(b, a % b);
      DividesDividend(Gcd(b, a % b), a, b);
    }
  }

  lemma BezoutStep(a: int, b: int, q: int, p: int, k: int)
    ensures b * p + (a - q * b) * k == a * k + b * (p - q * k)
  {
    assert (a - q * b) * k == a * k - q * b * k;
  }

  lemma {:induction false} Bezout(a: pos, b: nat) returns (x: int, y: int)
    ensures a * x + b * y == Gcd(a, b)
    decreases b
  {
    if b == 0 {
      x, y := 1, 0;
    } else {
      var p, k := Bezout(b, a % b);
      x, y := k, p - a / b * k;
      DivisionIdentity(a, b);
      BezoutStep(a, b, a / b, p, k);
    }
  }

  lemma Negated(r: int, n: int, x: int, y: int, z: int, g: int)
    requires r * x + n * y == g
    ensures (-x - z * n) * r == (y - z * r - 1) * n + (n - g)
  {
    Distribute(-x, -z * n, r);
    Distribute(y - z * r, -1, n);
    Distribute(y, -z * r, n);
  }

  lemma DivisorIsSmaller(d: pos, n: pos)
    requires Divides(d, n)
    ensures d <= n
  {
  }

  lemma GcdOfDivisor(a: pos, b: pos)
    requires Divides(a, b)
    ensures Gcd(a, b) == a
  {
    DivisorIsSmaller(a, b);
    if a == b {
      DivModUnique(a, b, 1, 0);
      assert Gcd(b, 0) == b;
    } else {
      DivModUnique(a, b, 0, a);
      assert Gcd(b, a) == Gcd(a, 0);
    }
  }

  /** The multiples of `r` leave every multiple of the greatest common divisor as a remainder, the
      largest one included. */
  lemma LargestRemainder(r: pos, n: pos) returns (e: nat)
    ensures e < n && Gcd(r, n) <= n && (e * r) % n == n - Gcd(r, n)
  {
    var g := Gcd(r, n);
    GcdDivides(r, n);
    DivisorIsSmaller(g, n);
    var x, y := Bezout(r, n);
    var z := (-x) / n;
    e := (-x) % n;
    DivisionIdentity(-x, n);
    Negated(r, n, x, y, z, g);
    DivModUnique(e * r, n, y - z * r - 1, n - g);
  }
}
