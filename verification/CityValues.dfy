/** The operations of CityHash on given machine words: how to compute them with bit vectors. */
module CityValues {
  import opened Modular
  import opened RingTypes
  import opened Bits
  import opened Words
  import opened CityMixers
  import opened CityHash

  // ----- exclusive or of bytes -----

  function Val(x: bv8): nat {
    x as nat
  }

  lemma ValHalves(x: bv8)
    ensures Val(x) == 2 * Val(x >> 1) + Val(x & 1) && Val(x & 1) < 2 && (Val(x) == 0 <==> x == 0) && Val(x) < 256
  {
    assert x & 1 == 0 || x & 1 == 1;
  }

  lemma XorBits(x: bv8, y: bv8)
    ensures (x ^ y) >> 1 == (x >> 1) ^ (y >> 1)
    ensures Val((x ^ y) & 1) == (Val(x & 1) + Val(y & 1)) % 2
  {
    assert (x ^ y) & 1 == (x & 1) ^ (y & 1);
    assert x & 1 == 0 || x & 1 == 1;
    assert y & 1 == 0 || y & 1 == 1;
  }

  lemma XorBit(a: nat, b: nat, x: nat, y: nat)
    requires x < 2 && y < 2
    ensures Xor(2 * a + x, 2 * b + y) == 2 * Xor(a, b) + (x + y) % 2
  {
    hide Xor;
    XorStep(2 * a + x, 2 * b + y);
    LowBit(x, a);
    LowBit(y, b);
    assert (2 * a + x + 2 * b + y) % 2 == (x + y) % 2;
  }

  lemma {:induction false} XorVals(x: bv8, y: bv8)
    ensures Xor(Val(x), Val(y)) == Val(x ^ y)
    decreases Val(x)
  {
    hide Xor, Val;
    ValHalves(x);
    ValHalves(y);
    if x == 0 {
      XorZero(Val(y));
    } else {
      ValHalves(x ^ y);
      XorBits(x, y);
      XorVals(x >> 1, y >> 1);
      XorBit(Val(x >> 1), Val(y >> 1), Val(x & 1), Val(y & 1));
    }
  }

  /** Low digits and high digits do not mix. */
  lemma {:induction false} XorLow(a: nat, b: nat, x: nat, y: nat, k: nat)
    requires x < Pow2(k) && y < Pow2(k)
    ensures Xor(a * Pow2(k) + x, b * Pow2(k) + y) == Xor(a, b) * Pow2(k) + Xor(x, y)
  {
    hide Xor;
    if k == 0 {
      XorZero(0);
    } else {
      var p := Pow2(k - 1);
      XorLow(a, b, x / 2, y / 2, k - 1);
      Doubled(a, p);
      Doubled(b, p);
      Doubled(Xor(a, b), p);
      XorBit(a * p + x / 2, b * p + y / 2, x % 2, y % 2);
      XorBit(x / 2, y / 2, x % 2, y % 2);
    }
  }

  function Octet(w: bv64, k: bv6): bv8 {
    ((w >> k) & 0xff) as bv8
  }

  function Byte(w: bv64, k: bv6): nat {
    Val(Octet(w, k))
  }

  /** The number that a machine word stands for. */
  function Num(w: bv64): nat {
    ((w >> 56) & 0xff) as bv8 as nat * 0x100_0000_0000_0000 + ((w >> 48) & 0xff) as bv8 as nat * 0x1_0000_0000_0000
    + ((w >> 40) & 0xff) as bv8 as nat * 0x100_0000_0000 + ((w >> 32) & 0xff) as bv8 as nat * 0x1_0000_0000
    + ((w >> 24) & 0xff) as bv8 as nat * 0x100_0000 + ((w >> 16) & 0xff) as bv8 as nat * 0x1_0000
    + ((w >> 8) & 0xff) as bv8 as nat * 0x100 + (w & 0xff) as bv8 as nat
  }

  lemma NumOfBytes(w: bv64)
    ensures Num(w) == FourBytes(Byte(w, 56), Byte(w, 48), Byte(w, 40), Byte(w, 32)) * W32
                      + FourBytes(Byte(w, 24), Byte(w, 16), Byte(w, 8), Byte(w, 0))
  {
  }

  predicate IsXor(x: bv8, y: bv8, z: bv8) {
    z == x ^ y
  }

  lemma HighOctets(a: bv64, b: bv64, c: bv64)
    requires c == a ^ b
    ensures IsXor(Octet(a, 56), Octet(b, 56), Octet(c, 56)) && IsXor(Octet(a, 48), Octet(b, 48), Octet(c, 48))
    ensures IsXor(Octet(a, 40), Octet(b, 40), Octet(c, 40)) && IsXor(Octet(a, 32), Octet(b, 32), Octet(c, 32))
  {
  }

  lemma LowOctets(a: bv64, b: bv64, c: bv64)
    requires c == a ^ b
    ensures IsXor(Octet(a, 24), Octet(b, 24), Octet(c, 24)) && IsXor(Octet(a, 16), Octet(b, 16), Octet(c, 16))
    ensures IsXor(Octet(a, 8), Octet(b, 8), Octet(c, 8)) && IsXor(Octet(a, 0), Octet(b, 0), Octet(c, 0))
  {
  }

  predicate XorBytes(x: nat, y: nat, z: nat) {
    x < 256 && y < 256 && Xor(x, y) == z
  }

  lemma XorOctet(a: bv64, b: bv64, c: bv64, k: bv6)
    requires IsXor(Octet(a, k), Octet(b, k), Octet(c, k))
    ensures XorBytes(Byte(a, k), Byte(b, k), Byte(c, k))
  {
    ValHalves(Octet(a, k));
    ValHalves(Octet(b, k));
    hide Xor, Octet, Val;
    XorVals(Octet(a, k), Octet(b, k));
  }

  lemma XorByte(a: nat, b: nat, x: nat, y: nat, z: nat)
    requires XorBytes(x, y, z)
    ensures Xor(a * 0x100 + x, b * 0x100 + y) == Xor(a, b) * 0x100 + z
  {
    Width8();
    hide Xor;
    XorLow(a, b, x, y, 8);
  }

  function FourBytes(x3: nat, x2: nat, x1: nat, x0: nat): nat {
    x3 * 0x100_0000 + x2 * 0x1_0000 + x1 * 0x100 + x0
  }

  lemma XorFour(a: nat, b: nat, x3: nat, x2: nat, x1: nat, x0: nat, y3: nat, y2: nat, y1: nat, y0: nat,
                z3: nat, z2: nat, z1: nat, z0: nat)
    requires XorBytes(x3, y3, z3) && XorBytes(x2, y2, z2) && XorBytes(x1, y1, z1) && XorBytes(x0, y0, z0)
    ensures Xor(a * W32 + FourBytes(x3, x2, x1, x0), b * W32 + FourBytes(y3, y2, y1, y0))
      == Xor(a, b) * W32 + FourBytes(z3, z2, z1, z0)
  {
    hide Xor, XorBytes;
    XorByte(a, b, x3, y3, z3);
    XorByte(a * 0x100 + x3, b * 0x100 + y3, x2, y2, z2);
    XorByte(a * 0x1_0000 + x3 * 0x100 + x2, b * 0x1_0000 + y3 * 0x100 + y2, x1, y1, z1);
    XorByte(a * 0x100_0000 + x3 * 0x1_0000 + x2 * 0x100 + x1,
      b * 0x100_0000 + y3 * 0x1_0000 + y2 * 0x100 + y1, x0, y0, z0);
  }

  lemma XorNums(a: bv64, b: bv64, c: bv64)
    requires XorBytes(Byte(a, 56), Byte(b, 56), Byte(c, 56)) && XorBytes(Byte(a, 48), Byte(b, 48), Byte(c, 48))
    requires XorBytes(Byte(a, 40), Byte(b, 40), Byte(c, 40)) && XorBytes(Byte(a, 32), Byte(b, 32), Byte(c, 32))
    requires XorBytes(Byte(a, 24), Byte(b, 24), Byte(c, 24)) && XorBytes(Byte(a, 16), Byte(b, 16), Byte(c, 16))
    requires XorBytes(Byte(a, 8), Byte(b, 8), Byte(c, 8)) && XorBytes(Byte(a, 0), Byte(b, 0), Byte(c, 0))
    ensures Xor(Num(a), Num(b)) == Num(c)
  {
    hide Xor, Byte, XorBytes, Num, FourBytes;
    NumOfBytes(a);
    NumOfBytes(b);
    NumOfBytes(c);
    XorZero(0);
    XorFour(0, 0, Byte(a, 56), Byte(a, 48), Byte(a, 40), Byte(a, 32), Byte(b, 56), Byte(b, 48), Byte(b, 40), Byte(b, 32),
      Byte(c, 56), Byte(c, 48), Byte(c, 40), Byte(c, 32));
    XorFour(FourBytes(Byte(a, 56), Byte(a, 48), Byte(a, 40), Byte(a, 32)),
      FourBytes(Byte(b, 56), Byte(b, 48), Byte(b, 40), Byte(b, 32)),
      Byte(a, 24), Byte(a, 16), Byte(a, 8), Byte(a, 0), Byte(b, 24), Byte(b, 16), Byte(b, 8), Byte(b, 0),
      Byte(c, 24), Byte(c, 16), Byte(c, 8), Byte(c, 0));
  }

  lemma XorOctets(a: bv64, b: bv64, c: bv64)
    requires c == a ^ b
    ensures XorBytes(Byte(a, 56), Byte(b, 56), Byte(c, 56)) && XorBytes(Byte(a, 48), Byte(b, 48), Byte(c, 48))
    ensures XorBytes(Byte(a, 40), Byte(b, 40), Byte(c, 40)) && XorBytes(Byte(a, 32), Byte(b, 32), Byte(c, 32))
    ensures XorBytes(Byte(a, 24), Byte(b, 24), Byte(c, 24)) && XorBytes(Byte(a, 16), Byte(b, 16), Byte(c, 16))
    ensures XorBytes(Byte(a, 8), Byte(b, 8), Byte(c, 8)) && XorBytes(Byte(a, 0), Byte(b, 0), Byte(c, 0))
  {
    hide Octet, Byte, XorBytes, IsXor;
    HighOctets(a, b, c);
    LowOctets(a, b, c);
    XorOctet(a, b, c, 56);
    XorOctet(a, b, c, 48);
    XorOctet(a, b, c, 40);
    XorOctet(a, b, c, 32);
    XorOctet(a, b, c, 24);
    XorOctet(a, b, c, 16);
    XorOctet(a, b, c, 8);
    XorOctet(a, b, c, 0);
  }

  /** Exclusive or of machine words is exclusive or of the numbers they stand for. */
  lemma XorIs(a: bv64, b: bv64)
    ensures Xor(Num(a), Num(b)) == Num(a ^ b)
  {
    hide Xor, Byte, XorBytes, Num;
    XorOctets(a, b, a ^ b);
    XorNums(a, b, a ^ b);
  }

  /** Exclusive or of machine words, of 64 and of 32 bits. */
  lemma Xor64Is(a: bv64, b: bv64)
    ensures Num(a) < W64 && Num(b) < W64 && Xor64(Num(a), Num(b)) == Num(a ^ b)
  {
    NumBound(a);
    NumBound(b);
    XorIs(a, b);
  }

  lemma Xor32Is(a: bv64, b: bv64)
    requires Num(a) < W32 && Num(b) < W32
    ensures Xor32(Num(a), Num(b)) == Num(a ^ b)
  {
    XorIs(a, b);
  }

  lemma NumBound(w: bv64)
    ensures Num(w) < W64
  {
    ValHalves(Octet(w, 56));
    ValHalves(Octet(w, 48));
    ValHalves(Octet(w, 40));
    ValHalves(Octet(w, 32));
    ValHalves(Octet(w, 24));
    ValHalves(Octet(w, 16));
    ValHalves(Octet(w, 8));
    ValHalves(Octet(w, 0));
    NumOfBytes(w);
    hide Octet, Val, Num;
  }

  // ----- shifts and rotations -----

  /** The powers of two that the shifts and rotations need. */
  lemma Powers()
    ensures Pow2(11) == 0x800 && Pow2(13) == 0x2000 && Pow2(14) == 0x4000 && Pow2(15) == 0x8000 && Pow2(16) == 0x1_0000
    ensures Pow2(17) == 0x2_0000 && Pow2(18) == 0x4_0000 && Pow2(19) == 0x8_0000 && Pow2(20) == 0x10_0000
    ensures Pow2(21) == 0x20_0000 && Pow2(22) == 0x40_0000 && Pow2(25) == 0x200_0000 && Pow2(27) == 0x800_0000
    ensures Pow2(28) == 0x1000_0000 && Pow2(29) == 0x2000_0000 && Pow2(30) == 0x4000_0000 && Pow2(31) == 0x8000_0000
    ensures Pow2(33) == 0x2_0000_0000 && Pow2(34) == 0x4_0000_0000 && Pow2(35) == 0x8_0000_0000
    ensures Pow2(36) == 0x10_0000_0000 && Pow2(37) == 0x20_0000_0000 && Pow2(39) == 0x80_0000_0000
    ensures Pow2(42) == 0x400_0000_0000 && Pow2(43) == 0x800_0000_0000 && Pow2(44) == 0x1000_0000_0000
    ensures Pow2(46) == 0x4000_0000_0000 && Pow2(47) == 0x8000_0000_0000 && Pow2(49) == 0x2_0000_0000_0000
    ensures Pow2(53) == 0x20_0000_0000_0000
  {
  }

  /** The k low bits and the bits above them change places. */
  lemma RotateIs(k: nat, high: nat, low: nat)
    requires 0 < k < 64 && low < Pow2(k) && high < Pow2(64 - k)
    ensures high * Pow2(k) + low < W64
    ensures Rotate(high * Pow2(k) + low, k) == low * Pow2(64 - k) + high
  {
    Widths();
    hide Pow2, RotateBits;
    RotateSwaps(high, low, k, 64);
  }

  lemma Rotate32Is(k: nat, high: nat, low: nat)
    requires 0 < k < 32 && low < Pow2(k) && high < Pow2(32 - k)
    ensures high * Pow2(k) + low < W32
    ensures Rotate32(high * Pow2(k) + low, k) == low * Pow2(32 - k) + high
  {
    Widths();
    hide Pow2, RotateBits;
    RotateSwaps(high, low, k, 32);
  }

  /** y is x without its k low bits. */
  lemma XorShiftIs(k: nat, x: bv64, y: bv64)
    requires Num(y) * Pow2(k) <= Num(x) < (Num(y) + 1) * Pow2(k)
    ensures XorShift(Num(x), k) == Num(x ^ y)
  {
    hide Pow2, Num, Xor;
    var p := Pow2(k);
    ShrIsDiv(Num(x), k);
    assert Num(x) == p * Num(y) + (Num(x) - Num(y) * p);
    assert (Num(y) + 1) * p == Num(y) * p + p;
    Remainder(Num(x), p, Num(y), Num(x) - Num(y) * p);
    XorIs(x, y);
  }

  lemma ShiftMixIs(x: bv64, y: bv64)
    requires Num(y) * 0x8000_0000_0000 <= Num(x) < (Num(y) + 1) * 0x8000_0000_0000
    ensures Num(x) < W64 && ShiftMix(Num(x)) == Num(x ^ y)
  {
    Powers();
    NumBound(x);
    hide Pow2, Num, XorShift;
    XorShiftIs(47, x, y);
  }

  // ----- byte swaps -----

  lemma Bswap64Is(high: Word32, low: Word32)
    ensures high * W32 + low < W64 && Bswap64(high * W32 + low) == Bswap32(high) + Bswap32(low) * W32
  {
    hide Bswap32;
    Remainder(high * W32 + low, W32, high, low);
  }

  lemma SwappedBytes(x: Word32, b3: nat, b2: nat, b1: nat, b0: nat)
    ensures x / 0x100_0000 == b3 && x / 0x1_0000 % 0x100 == b2 && x / 0x100 % 0x100 == b1 && x % 0x100 == b0 ==>
      Bswap32(x) == FourBytes(b0, b1, b2, b3)
  {
  }

  lemma Bswap32Is(b3: nat, b2: nat, b1: nat, b0: nat)
    requires b3 < 256 && b2 < 256 && b1 < 256 && b0 < 256
    ensures FourBytes(b3, b2, b1, b0) < W32 && Bswap32(FourBytes(b3, b2, b1, b0)) == FourBytes(b0, b1, b2, b3)
  {
    hide Bswap32;
    var x := FourBytes(b3, b2, b1, b0);
    SwappedBytes(x, b3, b2, b1, b0);
    Remainder(x, 0x100, b3 * 0x1_0000 + b2 * 0x100 + b1, b0);
    Remainder(x, 0x1_0000, b3 * 0x100 + b2, b1 * 0x100 + b0);
    Remainder(x, 0x100_0000, b3, b2 * 0x1_0000 + b1 * 0x100 + b0);
    Remainder(b3 * 0x1_0000 + b2 * 0x100 + b1, 0x100, b3 * 0x100 + b2, b1);
    Remainder(b3 * 0x100 + b2, 0x100, b3, b2);
  }

  // ----- inputs given as little-endian words -----

  function ByteOf(w: nat, k: nat): Byte {
    if k == 0 then w % 0x100 else ByteOf(w / 0x100, k - 1)
  }

  function Flat(words: seq<Word>): (s: Bytes)
    ensures |s| == 8 * |words|
  {
    seq(8 * |words|, i requires 0 <= i < 8 * |words| => ByteOf(words[i / 8], i % 8))
  }

  lemma FourBytesOf(w: nat)
    ensures Little32(ByteOf(w, 0), ByteOf(w, 1), ByteOf(w, 2), ByteOf(w, 3)) == w % W32
    ensures forall k :: 0 <= k < 4 ==> ByteOf(w, k + 4) == ByteOf(w / W32, k)
  {
    var w1, w2, w3 := w / 0x100, w / 0x100 / 0x100, w / 0x100 / 0x100 / 0x100;
    assert w3 / 0x100 == w / W32;
    assert ByteOf(w, 1) == ByteOf(w1, 0) && ByteOf(w, 2) == ByteOf(w2, 0) && ByteOf(w, 3) == ByteOf(w3, 0);
    forall k | 0 <= k < 4
      ensures ByteOf(w, k + 4) == ByteOf(w / W32, k)
    {
      assert ByteOf(w, k + 4) == ByteOf(w1, k + 3) == ByteOf(w2, k + 2) == ByteOf(w3, k + 1);
    }
  }

  lemma FetchOf(s: Bytes, at: nat, w: Word)
    requires at + 8 <= |s| && forall k :: 0 <= k < 8 ==> s[at + k] == ByteOf(w, k)
    ensures Fetch64(s, at) == w
  {
    FourBytesOf(w);
    FourBytesOf(w / W32);
    hide ByteOf;
    assert s[at + 4] == ByteOf(w, 0 + 4) && s[at + 5] == ByteOf(w, 1 + 4);
    assert s[at + 6] == ByteOf(w, 2 + 4) && s[at + 7] == ByteOf(w, 3 + 4);
    assert s[at] == ByteOf(w, 0);
    assert Fetch32(s, at) == w % W32 && Fetch32(s, at + 4) == w / W32;
  }

  lemma FlatFetch(words: seq<Word>, i: nat)
    requires i < |words|
    ensures Fetch64(Flat(words), 8 * i) == words[i]
  {
    hide ByteOf, Fetch64;
    forall k | 0 <= k < 8
      ensures Flat(words)[8 * i + k] == ByteOf(words[i], k)
    {
      assert (8 * i + k) / 8 == i && (8 * i + k) % 8 == k;
    }
    FetchOf(Flat(words), 8 * i, words[i]);
  }

  lemma FetchHalves(s: Bytes, at: nat, low: Word32, high: Word32)
    requires at + 8 <= |s| && Fetch64(s, at) == high * W32 + low
    ensures Fetch32(s, at) == low && Fetch32(s, at + 4) == high
  {
    hide Fetch32;
  }

  lemma FlatRest(words: seq<Word>)
    requires |words| >= 2
    ensures Flat(words)[16..] == Flat(words[2..])
  {
    var s, rest := Flat(words)[16..], Flat(words[2..]);
    forall i | 0 <= i < |s|
      ensures s[i] == rest[i]
    {
      assert (i + 16) / 8 == i / 8 + 2 && (i + 16) % 8 == i % 8;
    }
  }
}
