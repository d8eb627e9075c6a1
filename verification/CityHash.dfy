/** CityHash on byte strings: every read is inside the input, and the loops compute what they are meant to. */
module CityHash {
  import opened RingTypes
  import opened Bits
  import opened Words
  import opened CityMixers

  // ----- reads -----

  function Fetch32(s: Bytes, at: int): Word32
    requires 0 <= at && at + 4 <= |s|
  {
    Little32(s[at], s[at + 1], s[at + 2], s[at + 3])
  }

  function Fetch64(s: Bytes, at: int): Word
    requires 0 <= at && at + 8 <= |s|
  {
    Fetch32(s, at) + Fetch32(s, at + 4) * W32
  }

  function Little32(b0: nat, b1: nat, b2: nat, b3: nat): nat {
    b0 + b1 * 0x100 + b2 * 0x1_0000 + b3 * 0x100_0000
  }

  // ----- 32-bit hash -----

  /** A char is signed: bytes from 128 on are added as negative numbers. */
  function CharOf(b: Byte): Word32 {
    if b < 128 then b else W32 - 256 + b
  }

  /** The state of the loop over the first i bytes of a short input. */
  function Fold0to4(s: Bytes, i: nat): (Word32, Word32)
    requires i <= |s|
  {
    if i == 0 then
      (0, 9)
    else
      var (b, c) := Fold0to4(s, i - 1);
      var b' := Add32(Mul32(b, C1), CharOf(s[i - 1]));
      (b', Xor32(c, b'))
  }

  function Hash32Len0to4(s: Bytes): Word32 {
    var (b, c) := Fold0to4(s, |s|);
    Fmix(Mur(b, Mur(|s| % W32, c)))
  }

  method ShortHash32(s: Bytes) returns (h: Word32)
    requires |s| <= 4
    ensures h == Hash32Len0to4(s)
  {
    var b: Word32, c: Word32 := 0, 9;
    for i := 0 to |s|
      invariant (b, c) == Fold0to4(s, i)
    {
      b := Add32(Mul32(b, C1), CharOf(s[i]));
      c := Xor32(c, b);
    }
    h := Fmix(Mur(b, Mur(|s| % W32, c)));
  }

  function Hash32Len5to12(s: Bytes): Word32
    requires 5 <= |s| <= 12
  {
    var n := |s|;
    var a := Add32(n, Fetch32(s, 0));
    var b := Add32(n * 5, Fetch32(s, n - 4));
    var c := Add32(9, Fetch32(s, HalfMasked(n)));
    Fmix(Mur(c, Mur(b, Mur(a, n * 5))))
  }

  /** Either 0 or 4. */
  function HalfMasked(n: nat): (r: nat)
    requires 5 <= n <= 12
    ensures r + 4 <= n
  {
    AndFour(n / 2);
    And(n / 2, 4)
  }

  lemma AndFour(x: nat)
    ensures And(x, 4) == if x / 4 % 2 == 1 then 4 else 0
  {
    assert And(x / 4, 1) == x / 4 % 2;
    assert And(x / 2, 2) == 2 * And(x / 2 / 2, 1);
    assert And(x, 4) == 2 * And(x / 2, 2);
  }

  function Hash32Len13to24(s: Bytes): Word32
    requires 13 <= |s| <= 24
  {
    var n := |s|;
    var a, b, c := Fetch32(s, n / 2 - 4), Fetch32(s, 4), Fetch32(s, n - 8);
    var d, e, f := Fetch32(s, n / 2), Fetch32(s, 0), Fetch32(s, n - 4);
    Fmix(Mur(f, Mur(e, Mur(d, Mur(c, Mur(b, Mur(a, n)))))))
  }

  datatype State32 = State32(f: Word32, g: Word32, h: Word32)

  function Scramble(w: Word32): Word32 {
    Mul32(Rotate32(Mul32(w, C1), 17), C2)
  }

  function Stir(x: Word32, shift: nat): Word32
    requires shift < 32
  {
    Add32(Mul32(Rotate32(x, shift), 5), 0xe6546b64)
  }

  /** The end of the input is mixed in first. */
  function Start32(s: Bytes): State32
    requires |s| > 24
  {
    var n := |s|;
    var g0 := Mul32(C1, n);
    var h := Stir(Xor32(Stir(Xor32(n % W32, Scramble(Fetch32(s, n - 4))), 19), Scramble(Fetch32(s, n - 16))), 19);
    var g := Stir(Xor32(Stir(Xor32(g0, Scramble(Fetch32(s, n - 8))), 19), Scramble(Fetch32(s, n - 12))), 19);
    var f := Stir(Add32(g0, Scramble(Fetch32(s, n - 20))), 19);
    State32(f, g, h)
  }

  /** One chunk of 20 bytes; the last line is the three-way swap. */
  function Step32(st: State32, s: Bytes, at: nat): State32
    requires at + 20 <= |s|
  {
    var a0, a1, a2 := Scramble(Fetch32(s, at)), Fetch32(s, at + 4), Scramble(Fetch32(s, at + 8));
    var a3, a4 := Scramble(Fetch32(s, at + 12)), Fetch32(s, at + 16);
    var h1 := Stir(Xor32(st.h, a0), 18);
    var f1 := Mul32(Rotate32(Add32(st.f, a1), 19), C1);
    var g1 := Stir(Add32(st.g, a2), 18);
    var h2 := Stir(Xor32(h1, Add32(a3, a1)), 19);
    var g2 := Mul32(Bswap32(Xor32(g1, a4)), 5);
    var h3 := Bswap32(Add32(h2, Mul32(a4, 5)));
    var f2 := Add32(f1, a0);
    State32(g2, h3, f2)
  }

  function Rounds32(st: State32, s: Bytes, at: nat, n: nat): State32
    requires at + 20 * n <= |s|
    decreases n
  {
    if n == 0 then st else Rounds32(Step32(st, s, at), s, at + 20, n - 1)
  }

  function Finish32(st: State32): Word32 {
    var g := Mul32(Rotate32(Mul32(Rotate32(st.g, 11), C1), 17), C1);
    var f := Mul32(Rotate32(Mul32(Rotate32(st.f, 11), C1), 17), C1);
    var h1 := Mul32(Rotate32(Stir(Add32(st.h, g), 19), 17), C1);
    Mul32(Rotate32(Stir(Add32(h1, f), 19), 17), C1)
  }

  function City32(s: Bytes): Word32 {
    if |s| <= 4 then Hash32Len0to4(s)
    else if |s| <= 12 then Hash32Len5to12(s)
    else if |s| <= 24 then Hash32Len13to24(s)
    else Finish32(Rounds32(Start32(s), s, 0, (|s| - 1) / 20))
  }

  /** The loop reads 20 bytes a round from the front and never reaches beyond the last byte. */
  method CityHash32(s: Bytes) returns (result: Word32)
    ensures result == City32(s)
  {
    hide Mul32, Rotate32, Xor32, Add32, Fmix, Mur, Bswap32, Fetch32, Fold0to4, Start32, Finish32;
    if |s| <= 24 {
      if |s| <= 12 {
        if |s| <= 4 {
          result := ShortHash32(s);
        } else {
          result := Hash32Len5to12(s);
        }
      } else {
        result := Hash32Len13to24(s);
      }
      return;
    }
    var st := Start32(s);
    var f, g, h := st.f, st.g, st.h;
    var iters := (|s| - 1) / 20;
    var at := 0;
    while true
      invariant iters > 0 && at + 20 * iters <= |s| - 1
      invariant Rounds32(State32(f, g, h), s, at, iters) == Rounds32(st, s, 0, (|s| - 1) / 20)
      decreases iters
    {
      ghost var before := State32(f, g, h);
      var a0, a1, a2 := Scramble(Fetch32(s, at)), Fetch32(s, at + 4), Scramble(Fetch32(s, at + 8));
      var a3, a4 := Scramble(Fetch32(s, at + 12)), Fetch32(s, at + 16);
      h := Stir(Xor32(h, a0), 18);
      f := Mul32(Rotate32(Add32(f, a1), 19), C1);
      g := Stir(Add32(g, a2), 18);
      h := Stir(Xor32(h, Add32(a3, a1)), 19);
      g := Mul32(Bswap32(Xor32(g, a4)), 5);
      h := Bswap32(Add32(h, Mul32(a4, 5)));
      f := Add32(f, a0);
      f, h := h, f;
      f, g := g, f;
      assert State32(f, g, h) == Step32(before, s, at);
      at := at + 20;
      iters := iters - 1;
      if iters == 0 {
        break;
      }
    }
    result := Finish32(State32(f, g, h));
  }

  // ----- 64-bit hash -----

  function Multiplier(n: nat): Word {
    Add(K2, n * 2)
  }

  function HashLen0to16(s: Bytes): Word
    requires |s| <= 16
  {
    var n := |s|;
    if n >= 8 then
      var mul := Multiplier(n);
      var a := Add(Fetch64(s, 0), K2);
      var b := Fetch64(s, n - 8);
      var c := Add(Mul(Rotate(b, 37), mul), a);
      var d := Mul(Add(Rotate(a, 25), b), mul);
      HashLen16Mul(c, d, mul)
    else if n >= 4 then
      HashLen16Mul(Add(n, Fetch32(s, 0) * 8), Fetch32(s, n - 4), Multiplier(n))
    else if n > 0 then
      var y := s[0] as int + s[n / 2] as int * 0x100;
      var z := n + s[n - 1] as int * 4;
      Mul(ShiftMix(Xor64(Mul(y, K2), Mul(z, K0))), K2)
    else
      K2
  }

  function HashLen17to32(s: Bytes): Word
    requires 17 <= |s| <= 32
  {
    var n := |s|;
    var mul := Multiplier(n);
    var a, b := Mul(Fetch64(s, 0), K1), Fetch64(s, 8);
    var c, d := Mul(Fetch64(s, n - 8), mul), Mul(Fetch64(s, n - 16), K2);
    HashLen16Mul(Add(Add(Rotate(Add(a, b), 43), Rotate(c, 30)), d), Add(Add(a, Rotate(Add(b, K2), 18)), c), mul)
  }

  function HashLen33to64(s: Bytes): Word
    requires 33 <= |s| <= 64
  {
    var n := |s|;
    var mul := Multiplier(n);
    var a, b := Mul(Fetch64(s, 0), K2), Fetch64(s, 8);
    var c, d := Fetch64(s, n - 24), Fetch64(s, n - 32);
    var e, f := Mul(Fetch64(s, 16), K2), Mul(Fetch64(s, 24), 9);
    var g, h := Fetch64(s, n - 8), Mul(Fetch64(s, n - 16), mul);
    var u := Add(Rotate(Add(a, g), 43), Mul(Add(Rotate(b, 30), c), 9));
    var v := Add(Add(Xor64(Add(a, g), d), f), 1);
    var w := Add(Bswap64(Mul(Add(u, v), mul)), h);
    var x := Add(Rotate(Add(e, f), 42), c);
    var y := Mul(Add(Bswap64(Mul(Add(v, w), mul)), g), mul);
    var z := Add(Add(e, f), c);
    var a' := Add(Bswap64(Add(Mul(Add(x, z), mul), y)), b);
    var b' := Mul(ShiftMix(Add(Add(Mul(Add(z, a'), mul), d), h)), mul);
    Add(b', x)
  }

  /** Mixes 32 bytes and two seeds into two words. */
  function WeakHashLen32(s: Bytes, at: int, a: Word, b: Word): (Word, Word)
    requires 0 <= at && at + 32 <= |s|
  {
    var w, x, y, z := Fetch64(s, at), Fetch64(s, at + 8), Fetch64(s, at + 16), Fetch64(s, at + 24);
    var c := Add(a, w);
    var b1 := Rotate(Add(Add(b, c), z), 21);
    var a1 := Add(Add(c, x), y);
    (Add(a1, z), Add(Add(b1, Rotate(a1, 44)), c))
  }

  /** The 56 bytes of state kept over the chunks of a long input. */
  datatype State64 = State64(x: Word, y: Word, z: Word, v: (Word, Word), w: (Word, Word))

  /** One chunk of 64 bytes; x and z change places at the end. */
  function Step64(st: State64, s: Bytes, at: nat): State64
    requires at + 64 <= |s|
  {
    var x1 := Mul(Rotate(Add(Add(Add(st.x, st.y), st.v.0), Fetch64(s, at + 8)), 37), K1);
    var y1 := Mul(Rotate(Add(Add(st.y, st.v.1), Fetch64(s, at + 48)), 42), K1);
    var x2 := Xor64(x1, st.w.1);
    var y2 := Add(Add(y1, st.v.0), Fetch64(s, at + 40));
    var z1 := Mul(Rotate(Add(st.z, st.w.0), 33), K1);
    var v := WeakHashLen32(s, at, Mul(st.v.1, K1), Add(x2, st.w.0));
    var w := WeakHashLen32(s, at + 32, Add(z1, st.w.1), Add(y2, Fetch64(s, at + 16)));
    State64(z1, y2, x2, v, w)
  }

  function Rounds64(st: State64, s: Bytes, at: nat, n: nat): State64
    requires at + 64 * n <= |s|
    decreases n
  {
    if n == 0 then st else Rounds64(Step64(st, s, at), s, at + 64, n - 1)
  }

  function Start64(s: Bytes): State64
    requires |s| > 64
  {
    var n := |s|;
    var x := Fetch64(s, n - 40);
    var y := Add(Fetch64(s, n - 16), Fetch64(s, n - 56));
    var z := HashLen16(Add(Fetch64(s, n - 48), n), Fetch64(s, n - 24));
    var v := WeakHashLen32(s, n - 64, n % W64, z);
    var w := WeakHashLen32(s, n - 32, Add(y, K1), x);
    State64(Add(Mul(x, K1), Fetch64(s, 0)), y, z, v, w)
  }

  function Finish64(st: State64): Word {
    HashLen16(Add(Add(HashLen16(st.v.0, st.w.0), Mul(ShiftMix(st.y), K1)), st.z),
              Add(HashLen16(st.v.1, st.w.1), st.x))
  }

  function City64(s: Bytes): Word {
    if |s| <= 16 then HashLen0to16(s)
    else if |s| <= 32 then HashLen17to32(s)
    else if |s| <= 64 then HashLen33to64(s)
    else Finish64(Rounds64(Start64(s), s, 0, (|s| - 1) / 64))
  }

  /** One chunk of 64 bytes as the loops run it, on the six variables in place. */
  method MixChunk(st: State64, s: Bytes, at: nat) returns (next: State64)
    requires at + 64 <= |s|
    ensures next == Step64(st, s, at)
  {
    hide Mul, Rotate, Add, Xor64, Fetch64, WeakHashLen32;
    var x, y, z, v, w := st.x, st.y, st.z, st.v, st.w;
    x := Mul(Rotate(Add(Add(Add(x, y), v.0), Fetch64(s, at + 8)), 37), K1);
    y := Mul(Rotate(Add(Add(y, v.1), Fetch64(s, at + 48)), 42), K1);
    x := Xor64(x, w.1);
    y := Add(Add(y, v.0), Fetch64(s, at + 40));
    z := Mul(Rotate(Add(z, w.0), 33), K1);
    v := WeakHashLen32(s, at, Mul(v.1, K1), Add(x, w.0));
    w := WeakHashLen32(s, at + 32, Add(z, w.1), Add(y, Fetch64(s, at + 16)));
    z, x := x, z;
    next := State64(x, y, z, v, w);
  }

  /** (len - 1) & ~63 is the length of the whole chunks before the last byte. */
  lemma ChunkedLength(n: nat)
    requires n > 0
    ensures n - 1 - And(n - 1, 63) == 64 * ((n - 1) / 64)
  {
    assert Pow2(6) == 64 by {
      assert Pow2(3) == 8;
      Pow2Add(3, 3);
    }
    MaskIsMod(n - 1, 6);
  }

  method CityHash64(s: Bytes) returns (result: Word)
    ensures result == City64(s)
  {
    hide Mul, Rotate, Add, Xor64, Fetch64, WeakHashLen32, Start64, Finish64, Step64, HashLen0to16,
      HashLen17to32, HashLen33to64;
    if |s| <= 32 {
      if |s| <= 16 {
        result := HashLen0to16(s);
      } else {
        result := HashLen17to32(s);
      }
      return;
    } else if |s| <= 64 {
      result := HashLen33to64(s);
      return;
    }
    var st := Start64(s);
    ChunkedLength(|s|);
    var len := |s| - 1 - And(|s| - 1, 63);
    var at := 0;
    while true
      invariant len > 0 && at + len <= |s| - 1 && len == 64 * (len / 64)
      invariant Rounds64(st, s, at, len / 64) == Rounds64(Start64(s), s, 0, (|s| - 1) / 64)
      decreases len
    {
      st := MixChunk(st, s, at);
      at := at + 64;
      len := len - 64;
      if len == 0 {
        break;
      }
    }
    result := Finish64(st);
  }

  /** Seeding the hash adds no collisions and removes none. */
  lemma SeedsKeepCollisions(s1: Bytes, s2: Bytes, seed0: Word, seed1: Word)
    ensures HashLen16(Sub(City64(s1), seed0), seed1) == HashLen16(Sub(City64(s2), seed0), seed1) <==> City64(s1) == City64(s2)
  {
    hide City64, HashLen16Mul, Sub;
    MultipliersAreOdd(0);
    HashLen16Injective(Sub(City64(s1), seed0), Sub(City64(s2), seed0), seed1, K_MUL);
    if Sub(City64(s1), seed0) == Sub(City64(s2), seed0) {
      SubInjective(City64(s1), City64(s2), seed0);
    }
  }

  method CityHash64WithSeeds(s: Bytes, seed0: Word, seed1: Word) returns (result: Word)
    ensures result == HashLen16(Sub(City64(s), seed0), seed1)
    ensures forall other :: HashLen16(Sub(City64(other), seed0), seed1) == result <==> City64(other) == City64(s)
  {
    hide City64, HashLen16;
    var h := CityHash64(s);
    result := HashLen16(Sub(h, seed0), seed1);
    forall other
      ensures HashLen16(Sub(City64(other), seed0), seed1) == result <==> City64(other) == City64(s)
    {
      SeedsKeepCollisions(other, s, seed0, seed1);
    }
  }

  method CityHash64WithSeed(s: Bytes, seed: Word) returns (result: Word)
    ensures result == HashLen16(Sub(City64(s), K2), seed)
    ensures forall other :: HashLen16(Sub(City64(other), K2), seed) == result <==> City64(other) == City64(s)
  {
    hide City64, HashLen16;
    result := CityHash64WithSeeds(s, K2, seed);
  }

  // ----- 128-bit hash -----

  datatype Murmur = Murmur(a: Word, b: Word, c: Word, d: Word)

  function StepMurmur(m: Murmur, s: Bytes, at: nat): Murmur
    requires at + 16 <= |s|
  {
    var a := Mul(Xor64(m.a, Mul(ShiftMix(Mul(Fetch64(s, at), K1)), K1)), K1);
    var c := Mul(Xor64(m.c, Mul(ShiftMix(Mul(Fetch64(s, at + 8), K1)), K1)), K1);
    Murmur(a, Xor64(m.b, a), c, Xor64(m.d, c))
  }

  function RoundsMurmur(m: Murmur, s: Bytes, at: nat, n: nat): Murmur
    requires at + 16 * n <= |s|
    decreases n
  {
    if n == 0 then m else RoundsMurmur(StepMurmur(m, s, at), s, at + 16, n - 1)
  }

  function StartMurmur(s: Bytes, low: Word, high: Word): Murmur {
    var n := |s|;
    if n <= 16 then
      var a := Mul(ShiftMix(Mul(low, K1)), K1);
      var c := Add(Mul(high, K1), HashLen0to16(s));
      Murmur(a, high, c, ShiftMix(Add(a, if n >= 8 then Fetch64(s, 0) else c)))
    else
      var c := HashLen16(Add(Fetch64(s, n - 8), K1), low);
      var d := HashLen16(Add(high, n), Add(c, Fetch64(s, n - 16)));
      Murmur(Add(low, d), high, c, d)
  }

  function FinishMurmur(m: Murmur): (Word, Word) {
    var a, b := HashLen16(m.a, m.c), HashLen16(m.d, m.b);
    (Xor64(a, b), HashLen16(b, a))
  }

  /** All but the last byte is covered by 16-byte rounds. */
  function MurmurHash(s: Bytes, low: Word, high: Word): (Word, Word) {
    FinishMurmur(RoundsMurmur(StartMurmur(s, low, high), s, 0, if |s| <= 16 then 0 else (|s| - 1) / 16))
  }

  method CityMurmur(s: Bytes, low: Word, high: Word) returns (result: (Word, Word))
    ensures result == MurmurHash(s, low, high)
  {
    hide Mul, Xor64, ShiftMix, Fetch64, StartMurmur, FinishMurmur;
    var m := StartMurmur(s, low, high);
    var a, b, c, d := m.a, m.b, m.c, m.d;
    var l := |s| - 16;
    if l > 0 {
      var at := 0;
      ghost var n := (|s| - 1) / 16;
      while true
        invariant l > 0 && at + l + 16 == |s| && n == (l + 15) / 16
        invariant RoundsMurmur(Murmur(a, b, c, d), s, at, n) == RoundsMurmur(m, s, 0, (|s| - 1) / 16)
        decreases l
      {
        a := Xor64(a, Mul(ShiftMix(Mul(Fetch64(s, at), K1)), K1));
        a := Mul(a, K1);
        b := Xor64(b, a);
        c := Xor64(c, Mul(ShiftMix(Mul(Fetch64(s, at + 8), K1)), K1));
        c := Mul(c, K1);
        d := Xor64(d, c);
        at := at + 16;
        l := l - 16;
        n := n - 1;
        if l <= 0 {
          break;
        }
      }
    }
    result := FinishMurmur(Murmur(a, b, c, d));
  }

  function Start128(s: Bytes, low: Word, high: Word): State64
    requires |s| >= 128
  {
    var z := (|s| * K1) % W64;
    var v0 := Add(Mul(Rotate(Xor64(high, K1), 49), K1), Fetch64(s, 0));
    var v1 := Add(Mul(Rotate(v0, 42), K1), Fetch64(s, 8));
    var w0 := Add(Mul(Rotate(Add(high, z), 35), K1), low);
    var w1 := Mul(Rotate(Add(low, Fetch64(s, 88)), 53), K1);
    State64(low, high, z, (v0, v1), (w0, w1))
  }

  /** After the chunks, before the tail. */
  function Turn(st: State64): State64 {
    State64(Add(st.x, Mul(Rotate(Add(st.v.0, st.z), 49), K0)),
            Add(Mul(st.y, K0), Rotate(st.w.1, 37)),
            Add(Mul(st.z, K0), Rotate(st.w.0, 27)),
            (Mul(st.v.0, K0), st.v.1), (Mul(st.w.0, 9), st.w.1))
  }

  /** Mixes in the 32 bytes that start `done` bytes before the end. */
  function StepTail(st: State64, s: Bytes, done: nat): State64
    requires 32 <= done <= |s|
  {
    var y := Add(Mul(Rotate(Add(st.x, st.y), 42), K0), st.v.1);
    var w0 := Add(st.w.0, Fetch64(s, |s| - done + 16));
    var x := Add(Mul(st.x, K0), w0);
    var z := Add(Add(st.z, st.w.1), Fetch64(s, |s| - done));
    var w1 := Add(st.w.1, st.v.0);
    var v := WeakHashLen32(s, |s| - done, Add(st.v.0, z), st.v.1);
    State64(x, y, z, (Mul(v.0, K0), v.1), (w0, w1))
  }

  /** The last `len` bytes in pieces of 32 from the end; the last piece may reach back into the chunks. */
  function Tails(st: State64, s: Bytes, pieces: nat, len: nat): State64
    requires len < 128 <= |s| && pieces <= 4
    decreases 4 - pieces
  {
    if 32 * pieces >= len then st else Tails(StepTail(st, s, 32 * (pieces + 1)), s, pieces + 1, len)
  }

  function Finish128(st: State64): (Word, Word) {
    var x := HashLen16(st.x, st.v.0);
    var y := HashLen16(Add(st.y, st.z), st.w.0);
    (Add(HashLen16(Add(x, st.v.1), st.w.1), y), HashLen16(Add(x, st.w.1), Add(y, st.v.1)))
  }

  function City128(s: Bytes, low: Word, high: Word): (Word, Word) {
    if |s| < 128 then
      MurmurHash(s, low, high)
    else
      Finish128(Tails(Turn(Rounds64(Start128(s, low, high), s, 0, 2 * (|s| / 128))), s, 0, |s| % 128))
  }

  lemma OneChunk(st: State64, s: Bytes, at: nat, n: nat)
    requires at + 64 * n <= |s| && n > 0
    ensures Rounds64(st, s, at, n) == Rounds64(Step64(st, s, at), s, at + 64, n - 1)
  {
  }

  /** Two chunks of the 64-bit loop are one round of the unrolled loop. */
  lemma TwoChunks(st: State64, s: Bytes, at: nat, n: nat)
    requires at + 128 * n <= |s| && n > 0
    ensures Rounds64(st, s, at, 2 * n) == Rounds64(Step64(Step64(st, s, at), s, at + 64), s, at + 128, 2 * (n - 1))
  {
    hide Step64;
    var m := 2 * n;
    OneChunk(st, s, at, m);
    OneChunk(Step64(st, s, at), s, at + 64, m - 1);
    assert m - 1 - 1 == 2 * (n - 1);
  }

  method CityHash128WithSeed(s: Bytes, low: Word, high: Word) returns (result: (Word, Word))
    ensures result == City128(s, low, high)
  {
    hide Mul, Rotate, Add, Xor64, Fetch64, WeakHashLen32, Start128, Finish128, Step64, Rounds64, Turn, StepTail,
      MurmurHash;
    if |s| < 128 {
      result := CityMurmur(s, low, high);
      return;
    }
    var st := Start128(s, low, high);
    var at, len := 0, |s|;
    ghost var n := |s| / 128;
    while true
      invariant n > 0 && len >= 128 && at + len == |s| && n == len / 128 && len % 128 == |s| % 128
      invariant Rounds64(st, s, at, 2 * n) == Rounds64(Start128(s, low, high), s, 0, 2 * (|s| / 128))
      decreases len
    {
      TwoChunks(st, s, at, n);
      st := MixChunk(st, s, at);
      st := MixChunk(st, s, at + 64);
      at := at + 128;
      len := len - 128;
      n := n - 1;
      if len < 128 {
        break;
      }
    }
    NoChunksLeft(st, s, at);
    st := MixTail(Turn(st), s, len);
    result := Finish128(st);
  }

  lemma NoChunksLeft(st: State64, s: Bytes, at: nat)
    requires at <= |s|
    ensures Rounds64(st, s, at, 0) == st
  {
  }

  method MixTail(start: State64, s: Bytes, len: nat) returns (st: State64)
    requires len < 128 <= |s|
    ensures st == Tails(start, s, 0, len)
  {
    hide StepTail;
    st := start;
    var done := 0;
    ghost var pieces := 0;
    while done < len
      invariant done == 32 * pieces <= 128
      invariant Tails(st, s, pieces, len) == Tails(start, s, 0, len)
      decreases len - done
    {
      done := done + 32;
      st := MixPiece(st, s, done);
      pieces := pieces + 1;
    }
  }

  /** One piece of the tail, on the variables in place. */
  method MixPiece(st: State64, s: Bytes, done: nat) returns (next: State64)
    requires 32 <= done <= |s|
    ensures next == StepTail(st, s, done)
  {
    hide Mul, Rotate, Add, Fetch64, WeakHashLen32;
    var x, y, z, v, w := st.x, st.y, st.z, st.v, st.w;
    y := Add(Mul(Rotate(Add(x, y), 42), K0), v.1);
    w := (Add(w.0, Fetch64(s, |s| - done + 16)), w.1);
    x := Add(Mul(x, K0), w.0);
    z := Add(Add(z, w.1), Fetch64(s, |s| - done));
    w := (w.0, Add(w.1, v.0));
    v := WeakHashLen32(s, |s| - done, Add(v.0, z), v.1);
    v := (Mul(v.0, K0), v.1);
    next := State64(x, y, z, v, w);
  }

  /** The seed made of the first 16 bytes, and the hash of an input without a seed. */
  function Seed128(s: Bytes): (Word, Word)
    requires |s| >= 16
  {
    (Fetch64(s, 0), Add(Fetch64(s, 8), K0))
  }

  function City128Unseeded(s: Bytes): (Word, Word) {
    if |s| >= 16 then City128(s[16..], Seed128(s).0, Seed128(s).1) else City128(s, K0, K1)
  }

  method CityHash128(s: Bytes) returns (result: (Word, Word))
    ensures result == City128Unseeded(s)
  {
    hide City128, Fetch64, Add;
    if |s| >= 16 {
      result := CityHash128WithSeed(s[16..], Fetch64(s, 0), Add(Fetch64(s, 8), K0));
    } else {
      result := CityHash128WithSeed(s, K0, K1);
    }
  }

  /** The lowest byte of a number in base 256. */
  lemma LowestByte(a: Byte, x: int, b: Byte, y: int)
    requires a as int + 0x100 * x == b as int + 0x100 * y
    ensures a == b && x == y
  {
  }

  lemma Fetch32Injective(s1: Bytes, s2: Bytes, at: nat)
    requires at + 4 <= |s1| && at + 4 <= |s2|
    ensures Fetch32(s1, at) == Fetch32(s2, at) <==>
      s1[at] == s2[at] && s1[at + 1] == s2[at + 1] && s1[at + 2] == s2[at + 2] && s1[at + 3] == s2[at + 3]
  {
    if Fetch32(s1, at) == Fetch32(s2, at) {
      SameBytes(s1[at], s1[at + 1], s1[at + 2], s1[at + 3], s2[at], s2[at + 1], s2[at + 2], s2[at + 3]);
    }
  }

  lemma SameBytes(a0: Byte, a1: Byte, a2: Byte, a3: Byte, b0: Byte, b1: Byte, b2: Byte, b3: Byte)
    requires Little32(a0, a1, a2, a3) == Little32(b0, b1, b2, b3)
    ensures a0 == b0 && a1 == b1 && a2 == b2 && a3 == b3
  {
    var x3, y3 := a3 as int, b3 as int;
    var x2, y2 := a2 as int + 0x100 * x3, b2 as int + 0x100 * y3;
    var x1, y1 := a1 as int + 0x100 * x2, b1 as int + 0x100 * y2;
    LowestByte(a0, x1, b0, y1);
    LowestByte(a1, x2, b1, y2);
    LowestByte(a2, x3, b2, y3);
  }

  lemma Fetch64Injective(s1: Bytes, s2: Bytes, at: nat)
    requires at + 8 <= |s1| && at + 8 <= |s2|
    ensures Fetch64(s1, at) == Fetch64(s2, at) <==> s1[at..at + 8] == s2[at..at + 8]
  {
    Fetch32Injective(s1, s2, at);
    Fetch32Injective(s1, s2, at + 4);
    hide Fetch32;
    var t1, t2 := s1[at..at + 8], s2[at..at + 8];
    assert forall k :: 0 <= k < 8 ==> t1[k] == s1[at + k] && t2[k] == s2[at + k];
    assert t1 == t2 <==> (&& t1[0] == t2[0] && t1[1] == t2[1] && t1[2] == t2[2] && t1[3] == t2[3]
                          && t1[4] == t2[4] && t1[5] == t2[5] && t1[6] == t2[6] && t1[7] == t2[7]);
  }

  lemma AddInjective(a: Word, b: Word, k: Word)
    ensures Add(a, k) == Add(b, k) <==> a == b
  {
  }

  /** The seed loses nothing of the first 16 bytes; inputs that agree on them collide exactly when what follows
      collides under that one seed. */
  lemma FirstBytesAreTheSeed(s1: Bytes, s2: Bytes)
    requires |s1| >= 16 && |s2| >= 16
    ensures Seed128(s1) == Seed128(s2) <==> s1[..16] == s2[..16]
    ensures s1[..16] == s2[..16] ==>
      (City128Unseeded(s1) == City128Unseeded(s2) <==>
       City128(s1[16..], Seed128(s1).0, Seed128(s1).1) == City128(s2[16..], Seed128(s1).0, Seed128(s1).1))
  {
    hide Fetch64, Add, City128;
    Fetch64Injective(s1, s2, 0);
    Fetch64Injective(s1, s2, 8);
    AddInjective(Fetch64(s1, 8), Fetch64(s2, 8), K0);
    assert s1[..16] == s1[0..8] + s1[8..16] && s2[..16] == s2[0..8] + s2[8..16];
    assert s1[0..8] == s1[..16][0..8] && s1[8..16] == s1[..16][8..16];
    assert s2[0..8] == s2[..16][0..8] && s2[8..16] == s2[..16][8..16];
  }
}
