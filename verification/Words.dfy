/** Unsigned machine words of n bits and the operations that lose no information on them. */
module Words {
  import opened Modular
  import opened Bits

  const W32 := 0x1_0000_0000
  const W64 := 0x1_0000_0000_0000_0000

  type Word32 = x: nat | x < W32
  type Word = x: nat | x < W64

  lemma Width8()
    ensures Pow2(8) == 256
  {
    assert Pow2(4) == 16;
    hide Pow2;
    Pow2Add(4, 4);
  }

  lemma Width32()
    ensures Pow2(32) == W32
  {
    hide Pow2;
    Width8();
    Pow2Add(8, 8);
    Pow2Add(16, 16);
  }

  lemma Widths()
    ensures Pow2(32) == W32 && Pow2(64) == W64
  {
    hide Pow2;
    Width32();
    Pow2Add(32, 32);
  }

  // ----- exclusive or with a shifted copy -----

  /** x ^ (x >> k) */
  function XorShift(x: nat, k: nat): nat {
    Xor(x, Shr(x, k))
  }

  lemma ShrLess(x: nat, k: nat)
    ensures Shr(x, k) <= x
  {
    ShrIsDiv(x, k);
    DivLess(x, Pow2(k));
  }

  lemma DivLess(x: nat, p: nat)
    requires p > 0
    ensures x / p <= x
  {
    var q := x / p;
    assert x == p * q + x % p;
    Product(q, 1, p);
    assert q * p == p * q;
  }

  lemma XorShiftBound(x: nat, k: nat, n: nat)
    requires x < Pow2(n)
    ensures XorShift(x, k) < Pow2(n)
  {
    ShrLess(x, k);
    XorBound(x, Shr(x, k), n);
  }

  lemma {:induction false} XorAssoc(a: nat, b: nat, c: nat)
    ensures Xor(Xor(a, b), c) == Xor(a, Xor(b, c))
    decreases a + b + c
  {
    hide Xor;
    XorZero(a);
    XorZero(b);
    XorZero(c);
    XorHalves(a, b);
    XorHalves(b, c);
    if a != 0 && b != 0 && c != 0 {
      XorAssoc(a / 2, b / 2, c / 2);
      XorHalves(Xor(a, b), c);
      XorHalves(a, Xor(b, c));
      Parity(a, b, c, Xor(a, b), Xor(b, c));
      SameHalves(Xor(Xor(a, b), c), Xor(a, Xor(b, c)));
    } else if a == 0 {
      XorZero(Xor(b, c));
    } else if c == 0 {
      XorZero(Xor(a, b));
    }
  }

  lemma Parity(a: nat, b: nat, c: nat, ab: nat, bc: nat)
    requires ab % 2 == (a + b) % 2 && bc % 2 == (b + c) % 2
    ensures (ab + c) % 2 == (a + bc) % 2
  {
  }

  lemma SameHalves(x: nat, y: nat)
    requires x % 2 == y % 2 && x / 2 == y / 2
    ensures x == y
  {
  }

  lemma XorZero(a: nat)
    ensures Xor(a, 0) == a && Xor(0, a) == a
  {
  }

  /** When the shift is at least half the width, doing it twice restores the word. */
  lemma XorShiftTwice(x: nat, k: nat, n: nat)
    requires x < Pow2(n) && n <= 2 * k
    ensures XorShift(XorShift(x, k), k) == x
  {
    hide Xor, Shr;
    ShrXor(x, Shr(x, k), k);
    ShrShr(x, k, k);
    WiderPow(n, 2 * k);
    ShrSmall(x, k + k);
    XorZero(Shr(x, k));
    XorCancel(x, Shr(x, k));
  }

  lemma {:induction false} WiderPow(n: nat, m: nat)
    requires n <= m
    ensures Pow2(n) <= Pow2(m)
    decreases m
  {
    if n < m {
      WiderPow(n, m - 1);
    }
  }

  /** The inverse for shifts of at least a third of the width. */
  function UnXorShift(y: nat, k: nat): nat {
    Xor(Xor(y, Shr(y, k)), Shr(y, 2 * k))
  }

  lemma UnXorShiftInverts(x: nat, k: nat, n: nat)
    requires x < Pow2(n) && n <= 3 * k
    ensures UnXorShift(XorShift(x, k), k) == x
  {
    hide Xor, Shr;
    var x1, x2, x3 := Shr(x, k), Shr(x, 2 * k), Shr(x, 3 * k);
    var y := XorShift(x, k);
    ShrXor(x, x1, k);
    ShrXor(x, x1, 2 * k);
    ShrShr(x, k, k);
    ShrShr(x, k, 2 * k);
    assert Shr(y, k) == Xor(x1, x2) && Shr(y, 2 * k) == Xor(x2, x3);
    WiderPow(n, 3 * k);
    ShrSmall(x, 3 * k);
    XorZero(x2);
    XorAssoc(x, x1, Xor(x1, x2));
    XorAssoc(x1, x1, x2);
    XorSelf(x1);
    assert Xor(y, Shr(y, k)) == Xor(x, x2);
    XorCancel(x, x2);
  }

  lemma XorShiftInverts(y: nat, k: nat, n: nat)
    requires y < Pow2(n) && n <= 3 * k
    ensures XorShift(UnXorShift(y, k), k) == y
  {
    hide Xor, Shr;
    var y1, y2, y3 := Shr(y, k), Shr(y, 2 * k), Shr(y, 3 * k);
    var x := UnXorShift(y, k);
    ShrXor(Xor(y, y1), y2, k);
    ShrXor(y, y1, k);
    ShrShr(y, k, k);
    ShrShr(y, 2 * k, k);
    WiderPow(n, 3 * k);
    ShrSmall(y, 3 * k);
    XorZero(Xor(y1, y2));
    assert Shr(x, k) == Xor(y1, y2);
    XorAssoc(y, y1, y2);
    assert x == Xor(y, Xor(y1, y2));
    XorCancel(y, Xor(y1, y2));
  }

  // ----- multiplication by odd numbers -----

  /** 2^n divides d * m with m odd only when it divides d. */
  lemma {:induction false} OddDivides(d: nat, m: nat, n: nat, q: nat)
    requires m % 2 == 1 && d * m == Pow2(n) * q
    ensures d % Pow2(n) == 0
    decreases n
  {
    hide Pow2;
    if n > 0 {
      PowStep(n);
      var p := Pow2(n - 1);
      assert d * m == 2 * (p * q);
      EvenFactor(d, m, p * q);
      OddDivides(d / 2, m, n - 1, q);
      Remainder(d, 2 * p, (d / 2) / p, 0) by { Halved(d, p); }
    } else {
      PowStep(n);
    }
  }

  lemma PowStep(n: nat)
    ensures if n == 0 then Pow2(n) == 1 else Pow2(n) == 2 * Pow2(n - 1)
  {
  }

  lemma Halved(d: nat, p: nat)
    requires p > 0 && d % 2 == 0 && (d / 2) % p == 0
    ensures d == 2 * p * ((d / 2) / p) + 0
  {
    assert d / 2 == p * ((d / 2) / p);
  }

  lemma EvenFactor(d: nat, m: nat, h: nat)
    requires m % 2 == 1 && d * m == 2 * h
    ensures d % 2 == 0 && (d / 2) * m == h
  {
    var e, k := d / 2, m / 2;
    OddProduct(e, k);
    assert d % 2 == 1 ==> d == 2 * e + 1;
    assert m == 2 * k + 1;
    assert d % 2 == 0 ==> d * m == 2 * (e * m) by { EvenProduct(e, m); }
  }

  lemma OddProduct(e: nat, k: nat)
    ensures (2 * e + 1) * (2 * k + 1) == 2 * (2 * e * k + e + k) + 1
  {
  }

  lemma EvenProduct(e: nat, m: nat)
    ensures (2 * e) * m == 2 * (e * m)
  {
  }

  /** Multiplying by an odd number is injective on words of n bits. */
  lemma OddCancel(a: nat, b: nat, m: nat, n: nat)
    requires m % 2 == 1 && a < Pow2(n) && b < Pow2(n) && (a * m) % Pow2(n) == (b * m) % Pow2(n)
    ensures a == b
  {
    hide Pow2;
    if a < b {
      OddCancelOrdered(b, a, m, n);
    } else {
      OddCancelOrdered(a, b, m, n);
    }
  }

  lemma OddCancelOrdered(a: nat, b: nat, m: nat, n: nat)
    requires m % 2 == 1 && b <= a < Pow2(n) && (a * m) % Pow2(n) == (b * m) % Pow2(n)
    ensures a == b
  {
    hide Pow2;
    var p := Pow2(n);
    Monotone(b, a, m, p);
    var q := a * m / p - b * m / p;
    SameRemainder(a * m, b * m, p);
    Distribute(a, b, m);
    OddDivides(a - b, m, n, q);
    SmallMultiple(a - b, p);
  }

  lemma Distribute(a: nat, b: nat, m: nat)
    requires b <= a
    ensures (a - b) * m == a * m - b * m
  {
  }

  lemma SameRemainder(x: nat, y: nat, p: nat)
    requires p > 0 && x % p == y % p
    ensures x - y == p * (x / p - y / p)
  {
  }

  lemma Monotone(b: nat, a: nat, m: nat, p: nat)
    requires b <= a && p > 0
    ensures b * m <= a * m && b * m / p <= a * m / p
  {
    assert a * m == b * m + (a - b) * m;
    DivMonotone(b * m, a * m, p);
  }

  lemma DivMonotone(x: nat, y: nat, p: nat)
    requires x <= y && p > 0
    ensures x / p <= y / p
  {
    var q, r := x / p, y / p;
    assert x == p * q + x % p && y == p * r + y % p;
    Product(p, r + 1, q);
  }

  lemma SmallMultiple(d: nat, p: nat)
    requires p > 0 && d < p && d % p == 0
    ensures d == 0
  {
  }

  // ----- rotation -----

  /** (x >> k) | (x << (n - k)), cut to n bits */
  function RotateBits(x: nat, k: nat, n: nat): nat
    requires k <= n
  {
    Or((x * Pow2(n - k)) % Pow2(n), Shr(x, k))
  }

  /** A rotation swaps the k low bits and the n - k high bits. */
  lemma RotateSwaps(high: nat, low: nat, k: nat, n: nat)
    requires k <= n && low < Pow2(k) && high < Pow2(n - k)
    ensures high * Pow2(k) + low < Pow2(n)
    ensures RotateBits(high * Pow2(k) + low, k, n) == low * Pow2(n - k) + high < Pow2(n)
  {
    hide Pow2, Or, Shr;
    var x := high * Pow2(k) + low;
    var p, q := Pow2(k), Pow2(n - k);
    Pow2Add(k, n - k);
    Halves(high, low, p, q);
    Halves(low, high, q, p);
    ShrIsDiv(x, k);
    Remainder(x, p, high, low) by { assert x == p * high + low; }
    ShiftedOut(high, low, p, q);
    OrDisjoint(low, high, n - k);
  }

  lemma Halves(high: nat, low: nat, p: nat, q: nat)
    requires low < p && high < q
    ensures high * p + low < p * q
  {
    Product(p, high + 1, q);
    assert p * (high + 1) == high * p + p;
  }

  lemma ShiftedOut(high: nat, low: nat, p: nat, q: nat)
    requires low < p && high < q
    ensures ((high * p + low) * q) % (p * q) == low * q
  {
    assert (high * p + low) * q == (p * q) * high + low * q;
    Halves(low, 0, q, p);
    Remainder((high * p + low) * q, p * q, high, low * q);
  }

  lemma SplitBits(x: nat, k: nat, n: nat)
    requires k <= n && x < Pow2(n)
    ensures x == (x / Pow2(k)) * Pow2(k) + x % Pow2(k) && x % Pow2(k) < Pow2(k) && x / Pow2(k) < Pow2(n - k)
  {
    Pow2Add(k, n - k);
    Split(x, Pow2(k), Pow2(n - k));
  }

  lemma Split(x: nat, p: nat, q: nat)
    requires p > 0 && x < p * q
    ensures x == (x / p) * p + x % p && x / p < q
  {
    var h := x / p;
    assert x == p * h + x % p;
    assert p * h == h * p;
    Product(p, q, h);
  }

  /** Rotating by k and then by n - k restores the word. */
  lemma RotateBack(x: nat, k: nat, n: nat)
    requires k <= n && x < Pow2(n)
    ensures RotateBits(x, k, n) < Pow2(n) && RotateBits(RotateBits(x, k, n), n - k, n) == x
  {
    hide Pow2, RotateBits;
    SplitBits(x, k, n);
    var high, low := x / Pow2(k), x % Pow2(k);
    RotateSwaps(high, low, k, n);
    RotateSwaps(low, high, n - k, n);
  }
}
