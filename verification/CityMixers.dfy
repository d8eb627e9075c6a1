/** CityHash's mixing functions on 32- and 64-bit words, and why they lose nothing. */
module CityMixers {
  import Modular
  import opened Bits
  import opened Words

  const K0: Word := 0xc3a5c85c97cb3127
  const K1: Word := 0xb492b66fbe98f273
  const K2: Word := 0x9ae16a3b2f90404f
  const K_MUL: Word := 0x9ddfea08eb382d69

  const C1: Word32 := 0xcc9e2d51
  const C2: Word32 := 0x1b873593

  // ----- arithmetic of machine words -----

  function Add(a: nat, b: nat): Word {
    (a + b) % W64
  }

  function Sub(a: Word, b: Word): Word {
    (a - b) % W64
  }

  function Mul(a: Word, b: Word): Word {
    (a * b) % W64
  }

  function Add32(a: nat, b: nat): Word32 {
    (a + b) % W32
  }

  function Mul32(a: nat, b: nat): Word32 {
    (a * b) % W32
  }

  function Xor64(a: Word, b: Word): Word {
    Widths();
    XorBound(a, b, 64);
    Xor(a, b)
  }

  function Xor32(a: Word32, b: Word32): Word32 {
    Widths();
    XorBound(a, b, 32);
    Xor(a, b)
  }

  function Rotate(val: Word, shift: nat): Word
    requires shift < 64
  {
    if shift == 0 then
      val
    else
      Widths();
      RotateBack(val, shift, 64);
      RotateBits(val, shift, 64)
  }

  function Rotate32(val: Word32, shift: nat): Word32
    requires shift < 32
  {
    if shift == 0 then
      val
    else
      Widths();
      RotateBack(val, shift, 32);
      RotateBits(val, shift, 32)
  }

  /** Reverses the four (eight) bytes of a word. */
  function Bswap32(x: Word32): Word32 {
    x / 0x100_0000 + x / 0x1_0000 % 0x100 * 0x100 + x / 0x100 % 0x100 * 0x1_0000 + x % 0x100 * 0x100_0000
  }

  function Bswap64(x: Word): Word {
    Bswap32(x / W32) + Bswap32(x % W32) * W32
  }

  function ShiftMix(val: Word): Word {
    Widths();
    XorShiftBound(val, 47, 64);
    XorShift(val, 47)
  }

  function XorShift32(h: Word32, k: nat): Word32 {
    Widths();
    XorShiftBound(h, k, 32);
    XorShift(h, k)
  }

  function Fmix(h: Word32): Word32 {
    var h1 := Mul32(XorShift32(h, 16), 0x85ebca6b);
    var h2 := Mul32(XorShift32(h1, 13), 0xc2b2ae35);
    XorShift32(h2, 16)
  }

  function Mur(a: Word32, h: Word32): Word32 {
    var a1 := Mul32(Rotate32(Mul32(a, C1), 17), C2);
    Add32(Mul32(Rotate32(Xor32(h, a1), 19), 5), 0xe6546b64)
  }

  function HashLen16Mul(u: Word, v: Word, mul: Word): Word {
    var a := ShiftMix(Mul(Xor64(u, v), mul));
    var b := ShiftMix(Mul(Xor64(v, a), mul));
    Mul(b, mul)
  }

  function Hash128to64(low: Word, high: Word): Word {
    HashLen16Mul(low, high, K_MUL)
  }

  function HashLen16(u: Word, v: Word): Word {
    Hash128to64(u, v)
  }

  // ----- bijections -----

  /** ShiftMix is its own inverse. */
  lemma ShiftMixTwice(val: Word)
    ensures ShiftMix(ShiftMix(val)) == val
  {
    Widths();
    XorShiftTwice(val, 47, 64);
  }

  lemma RotateInverse(val: Word, shift: nat)
    requires 0 < shift < 64
    ensures Rotate(Rotate(val, shift), 64 - shift) == val
  {
    hide Pow2, RotateBits;
    Widths();
    RotateBack(val, shift, 64);
  }

  lemma Rotate32Inverse(val: Word32, shift: nat)
    requires 0 < shift < 32
    ensures Rotate32(Rotate32(val, shift), 32 - shift) == val
  {
    hide Pow2, RotateBits;
    Widths();
    RotateBack(val, shift, 32);
  }

  function UnXorShift32(h: Word32, k: nat): Word32 {
    Widths();
    ShrLess(h, k);
    ShrLess(h, 2 * k);
    XorBound(h, Shr(h, k), 32);
    XorBound(Xor(h, Shr(h, k)), Shr(h, 2 * k), 32);
    UnXorShift(h, k)
  }

  /** The inverse of fmix: each step undone with the inverse multipliers modulo 2^32. */
  function UnFmix(h: Word32): Word32 {
    var h2 := Mul32(UnXorShift32(h, 16), 0x7ed1b41d);
    var h1 := Mul32(UnXorShift32(h2, 13), 0xa5cb9243);
    UnXorShift32(h1, 16)
  }

  lemma InverseMultipliers()
    ensures (0x85ebca6b * 0xa5cb9243) % W32 == 1
    ensures (0xc2b2ae35 * 0x7ed1b41d) % W32 == 1
  {
  }

  lemma MulModulo(x: nat, m: nat, p: nat)
    requires p > 0
    ensures ((x % p) * m) % p == (x * m) % p
  {
    var q := x / p;
    assert x == p * q + x % p;
    assert x * m == (x % p) * m + p * (q * m);
    Multiples((x % p) * m, q * m, p);
  }

  lemma Multiples(x: nat, k: nat, p: nat)
    requires p > 0
    ensures (x + p * k) % p == x % p
  {
    Modular.Remainder(x + p * k, p, x / p + k, x % p) by {
      assert p * (x / p + k) == p * (x / p) + p * k;
    }
  }

  lemma MulInverse(x: Word32, m: Word32, w: Word32)
    requires (m * w) % W32 == 1
    ensures Mul32(Mul32(x, m), w) == x
  {
    MulModulo(x * m, w, W32);
    assert x * m * w == (m * w) * x;
    MulModulo(m * w, x, W32);
    assert 1 * x == x;
  }

  /** fmix is a bijection of the 32-bit words. */
  lemma FmixIsBijection(h: Word32)
    ensures UnFmix(Fmix(h)) == h && Fmix(UnFmix(h)) == h
  {
    hide XorShift, UnXorShift, Mul32, Pow2;
    Widths();
    InverseMultipliers();
    var h1 := Mul32(XorShift32(h, 16), 0x85ebca6b);
    var h2 := Mul32(XorShift32(h1, 13), 0xc2b2ae35);
    UnXorShiftInverts(h2, 16, 32);
    MulInverse(XorShift32(h1, 13), 0xc2b2ae35, 0x7ed1b41d);
    UnXorShiftInverts(h1, 13, 32);
    MulInverse(XorShift32(h, 16), 0x85ebca6b, 0xa5cb9243);
    UnXorShiftInverts(h, 16, 32);
    var g2 := Mul32(UnXorShift32(h, 16), 0x7ed1b41d);
    var g1 := Mul32(UnXorShift32(g2, 13), 0xa5cb9243);
    XorShiftInverts(g1, 16, 32);
    MulInverse(UnXorShift32(g2, 13), 0xa5cb9243, 0x85ebca6b);
    XorShiftInverts(g2, 13, 32);
    MulInverse(UnXorShift32(h, 16), 0x7ed1b41d, 0xc2b2ae35);
    XorShiftInverts(h, 16, 32);
  }

  // ----- 64-bit mixing loses nothing of its first argument -----

  lemma OddMulInjective(a: Word, b: Word, m: Word)
    requires m % 2 == 1 && Mul(a, m) == Mul(b, m)
    ensures a == b
  {
    Widths();
    OddCancel(a, b, m, 64);
  }

  lemma XorInjective(a: Word, b: Word, v: Word)
    requires Xor64(a, v) == Xor64(b, v)
    ensures a == b
  {
    XorCancel(a, v);
    XorCancel(b, v);
  }

  lemma XorSecondInjective(v: Word, a: Word, b: Word)
    requires Xor64(v, a) == Xor64(v, b)
    ensures a == b
  {
    XorComm(v, a);
    XorComm(v, b);
    XorCancel(a, v);
    XorCancel(b, v);
  }

  lemma ShiftMixInjective(a: Word, b: Word)
    requires ShiftMix(a) == ShiftMix(b)
    ensures a == b
  {
    ShiftMixTwice(a);
    ShiftMixTwice(b);
  }

  /** With an odd multiplier and a fixed second argument, HashLen16 is injective in the first. */
  lemma HashLen16Injective(u1: Word, u2: Word, v: Word, mul: Word)
    requires mul % 2 == 1
    ensures HashLen16Mul(u1, v, mul) == HashLen16Mul(u2, v, mul) <==> u1 == u2
  {
    hide ShiftMix, Mul, Xor64;
    if HashLen16Mul(u1, v, mul) == HashLen16Mul(u2, v, mul) {
      var m1, m2 := Mul(Xor64(u1, v), mul), Mul(Xor64(u2, v), mul);
      var a1, a2 := ShiftMix(m1), ShiftMix(m2);
      var n1, n2 := Mul(Xor64(v, a1), mul), Mul(Xor64(v, a2), mul);
      OddMulInjective(ShiftMix(n1), ShiftMix(n2), mul);
      ShiftMixInjective(n1, n2);
      OddMulInjective(Xor64(v, a1), Xor64(v, a2), mul);
      XorSecondInjective(v, a1, a2);
      ShiftMixInjective(m1, m2);
      OddMulInjective(Xor64(u1, v), Xor64(u2, v), mul);
      XorInjective(u1, u2, v);
    }
  }

  /** Every multiplier the hash functions use is odd. */
  lemma MultipliersAreOdd(len: nat)
    ensures K_MUL % 2 == 1 && Add(K2, len * 2) % 2 == 1
  {
    var x := K2 + len * 2;
    assert x % 2 == 1;
    assert x == W64 * (x / W64) + x % W64;
  }

  lemma SubInjective(a: Word, b: Word, seed: Word)
    requires Sub(a, seed) == Sub(b, seed)
    ensures a == b
  {
  }

  lemma OddMul32Injective(a: Word32, b: Word32, m: Word32)
    requires m % 2 == 1 && Mul32(a, m) == Mul32(b, m)
    ensures a == b
  {
    Widths();
    OddCancel(a, b, m, 32);
  }

  lemma Rotate32Injective(a: Word32, b: Word32, shift: nat)
    requires 0 < shift < 32 && Rotate32(a, shift) == Rotate32(b, shift)
    ensures a == b
  {
    Rotate32Inverse(a, shift);
    Rotate32Inverse(b, shift);
  }

  lemma Xor32SecondInjective(v: Word32, a: Word32, b: Word32)
    requires Xor32(v, a) == Xor32(v, b)
    ensures a == b
  {
    XorComm(v, a);
    XorComm(v, b);
    XorCancel(a, v);
    XorCancel(b, v);
  }

  /** Mur loses nothing of either argument while the other is fixed. */
  lemma MurInjective(a1: Word32, h1: Word32, a2: Word32, h2: Word32)
    requires a1 == a2 || h1 == h2
    ensures Mur(a1, h1) == Mur(a2, h2) <==> a1 == a2 && h1 == h2
  {
    hide Rotate32, Mul32, Xor32;
    if Mur(a1, h1) == Mur(a2, h2) {
      var m1, m2 := Mul32(Rotate32(Mul32(a1, C1), 17), C2), Mul32(Rotate32(Mul32(a2, C1), 17), C2);
      OddMul32Injective(Rotate32(Xor32(h1, m1), 19), Rotate32(Xor32(h2, m2), 19), 5);
      Rotate32Injective(Xor32(h1, m1), Xor32(h2, m2), 19);
      if a1 == a2 {
        Xor32FirstInjective(h1, h2, m1);
      } else {
        Xor32SecondInjective(h1, m1, m2);
        OddMul32Injective(Rotate32(Mul32(a1, C1), 17), Rotate32(Mul32(a2, C1), 17), C2);
        Rotate32Injective(Mul32(a1, C1), Mul32(a2, C1), 17);
        OddMul32Injective(a1, a2, C1);
      }
    }
  }

  lemma Xor32FirstInjective(a: Word32, b: Word32, v: Word32)
    requires Xor32(a, v) == Xor32(b, v)
    ensures a == b
  {
    XorCancel(a, v);
    XorCancel(b, v);
  }
}
