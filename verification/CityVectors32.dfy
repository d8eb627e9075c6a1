/** The 32-bit hash on inputs of the published table: row i is the hash of the i bytes of test data at offset i * i. */
module CityVectors32 {
  import opened Words
  import opened Bits
  import opened CityMixers
  import opened CityHash
  import opened CityValues
  import opened CityInputs

  lemma City32Of4Mur1()
    ensures Mur(4, 0x6b086fa5) == 0xda97425f
  {
    hide Xor32, Rotate32, Pow2;
    Powers();
    assert Mul32(4, C1) == 0x3278b544;
    Rotate32Is(17, 0x193c, 0xb544);
    assert Mul32(0x5aa2193c, C2) == 0x3cf1e974;
    Xor32Is(0x6b086fa5, 0x3cf1e974);
    Rotate32Is(19, 0xaff, 0x186d1);
    assert Mul32(0x30da2aff, 5) == 0xf442d6fb;
  }

  lemma City32Of4Mur2()
    ensures Mur(0x4d799abe, 0xda97425f) == 0x1a46d49c
  {
    hide Xor32, Rotate32, Pow2;
    Powers();
    assert Mul32(0x4d799abe, C1) == 0xccf15c1e;
    Rotate32Is(17, 0x6678, 0x15c1e);
    assert Mul32(0xae0f6678, C2) == 0xd456aee8;
    Xor32Is(0xda97425f, 0xd456aee8);
    Rotate32Is(19, 0x1d8, 0x1ecb7);
    assert Mul32(0x3d96e1d8, 5) == 0x33f26938;
  }

  lemma City32Of4Fmix()
    ensures Fmix(0x1a46d49c) == 0x26f2b463
  {
    hide XorShift, Pow2;
    Powers();
    XorShiftIs(16, 0x1a46d49c, 0x1a46);
    assert Mul32(0x1a46ceda, 0x85ebca6b) == 0xfeee791e;
    XorShiftIs(13, 0xfeee791e, 0x7f773);
    assert Mul32(0xfee98e6d, 0xc2b2ae35) == 0x26f29291;
    XorShiftIs(16, 0x26f29291, 0x26f2);
  }

  lemma CityHash32Of4Bytes()
    ensures City32(Bytes4()) == 0x26f2b463
  {
    hide Xor32, Mur, Fmix;
    assert Mul32(0, C1) == 0;
    Xor32Is(9, 0x3b);
    assert Fold0to4(Bytes4(), 1) == (0x3b, 0x32);
    assert Mul32(0x3b, C1) == 0x287471ab;
    Xor32Is(0x32, 0x287471db);
    assert Fold0to4(Bytes4(), 2) == (0x287471db, 0x287471e9);
    assert Mul32(0x287471db, C1) == 0xe05854b;
    Xor32Is(0x287471e9, 0xe0584f2);
    assert Fold0to4(Bytes4(), 3) == (0xe0584f2, 0x2671f51b);
    assert Mul32(0xe0584f2, C1) == 0x4d799a92;
    Xor32Is(0x2671f51b, 0x4d799abe);
    assert Fold0to4(Bytes4(), 4) == (0x4d799abe, 0x6b086fa5);
    City32Of4Mur1();
    City32Of4Mur2();
    City32Of4Fmix();
  }

  lemma City32Of7Mur1()
    ensures Mur(0x67f159ff, 0x23) == 0x82518106
  {
    hide Xor32, Rotate32, Pow2;
    Powers();
    assert Mul32(0x67f159ff, C1) == 0xf914caf;
    Rotate32Is(17, 0x7c8, 0x14caf);
    assert Mul32(0xa65787c8, C2) == 0x55d75fd8;
    Xor32Is(0x23, 0x55d75fd8);
    Rotate32Is(19, 0xaba, 0x75ffb);
    assert Mul32(0xebff6aba, 5) == 0x9bfd15a2;
  }

  lemma City32Of7Mur2()
    ensures Mur(0xc24d278a, 0x82518106) == 0xa34abaa0
  {
    hide Xor32, Rotate32, Pow2;
    Powers();
    assert Mul32(0xc24d278a, C1) == 0x6988c4aa;
    Rotate32Is(17, 0x34c4, 0xc4aa);
    assert Mul32(0x625534c4, C2) == 0x9a35e08c;
    Xor32Is(0x82518106, 0x9a35e08c);
    Rotate32Is(19, 0x30c, 0x4618a);
    assert Mul32(0x8c31430c, 5) == 0xbcf64f3c;
  }

  lemma City32Of7Mur3()
    ensures Mur(0x67f15a01, 0xa34abaa0) == 0xb334393f
  {
    hide Xor32, Rotate32, Pow2;
    Powers();
    assert Mul32(0x67f15a01, C1) == 0xa8cda751;
    Rotate32Is(17, 0x5466, 0x1a751);
    assert Mul32(0xd3a8d466, C2) == 0x41b51492;
    Xor32Is(0xa34abaa0, 0x41b51492);
    Rotate32Is(19, 0x1c5f, 0x7ae32);
    assert Mul32(0xf5c65c5f, 5) == 0xccdfcddb;
  }

  lemma City32Of7Fmix()
    ensures Fmix(0xb334393f) == 0x91dfdd75
  {
    hide XorShift, Pow2;
    Powers();
    XorShiftIs(16, 0xb334393f, 0xb334);
    assert Mul32(0xb3348a0b, 0x85ebca6b) == 0xcafb6099;
    XorShiftIs(13, 0xcafb6099, 0x657db);
    assert Mul32(0xcafd3742, 0xc2b2ae35) == 0x91df4caa;
    XorShiftIs(16, 0x91df4caa, 0x91df);
  }

  lemma CityHash32Of7Bytes()
    ensures City32(Bytes7()) == 0x91dfdd75
  {
    hide Mur, Fmix, And;
    AndFour(3);
    assert Fetch32(Bytes7(), 0) == 0x67f159f8 && Fetch32(Bytes7(), 3) == 0xc24d2767;
    City32Of7Mur1();
    City32Of7Mur2();
    City32Of7Mur3();
    City32Of7Fmix();
  }

  lemma City32Of8Mur1()
    ensures Mur(0x60244127, 0x28) == 0x89702a88
  {
    hide Xor32, Rotate32, Pow2;
    Powers();
    assert Mul32(0x60244127, C1) == 0x14fe7857;
    Rotate32Is(17, 0xa7f, 0x7857);
    assert Mul32(0x3c2b8a7f, C2) == 0xfea5d1ed;
    Xor32Is(0x28, 0xfea5d1ed);
    Rotate32Is(19, 0x1fd4, 0x5d1c5);
    assert Mul32(0xba38bfd4, 5) == 0xa31bbf24;
  }

  lemma City32Of8Mur2()
    ensures Mur(0xa0f8cde9, 0x89702a88) == 0x178e450a
  {
    hide Xor32, Rotate32, Pow2;
    Powers();
    assert Mul32(0xa0f8cde9, C1) == 0x6cb91bb9;
    Rotate32Is(17, 0x365c, 0x11bb9);
    assert Mul32(0x8ddcb65c, C2) == 0x601c2d4;
    Xor32Is(0x89702a88, 0x601c2d4);
    Rotate32Is(19, 0x11ee, 0x1e85c);
    assert Mul32(0x3d0b91ee, 5) == 0x3139d9a6;
  }

  lemma City32Of8Mur3()
    ensures Mur(0xa0f8cdca, 0x178e450a) == 0xb7f7d26a
  {
    hide Xor32, Rotate32, Pow2;
    Powers();
    assert Mul32(0xa0f8cdca, C1) == 0xa5919eea;
    Rotate32Is(17, 0x52c8, 0x19eea);
    assert Mul32(0xcf7552c8, C2) == 0x29f9f0d8;
    Xor32Is(0x178e450a, 0x29f9f0d8);
    Rotate32Is(19, 0x7ce, 0x7b5d2);
    assert Mul32(0xf6ba47ce, 5) == 0xd1a36706;
  }

  lemma City32Of8Fmix()
    ensures Fmix(0xb7f7d26a) == 0xc87f95de
  {
    hide XorShift, Pow2;
    Powers();
    XorShiftIs(16, 0xb7f7d26a, 0xb7f7);
    assert Mul32(0xb7f7659d, 0x85ebca6b) == 0xf2b45a9f;
    XorShiftIs(13, 0xf2b45a9f, 0x795a2);
    assert Mul32(0xf2b3cf3d, 0xc2b2ae35) == 0xc87f5da1;
    XorShiftIs(16, 0xc87f5da1, 0xc87f);
  }

  lemma CityHash32Of8Bytes()
    ensures City32(Bytes8()) == 0xc87f95de
  {
    hide Mur, Fmix, Fetch32, And, Bytes8;
    AndFour(4);
    Bytes8Halves();
    City32Of8Mur1();
    City32Of8Mur2();
    City32Of8Mur3();
    City32Of8Fmix();
  }

  lemma City32Of16Mur1()
    ensures Mur(0x1f48b199, 0x10) == 0xa4382f54
  {
    hide Xor32, Rotate32, Pow2;
    Powers();
    assert Mul32(0x1f48b199, C1) == 0x35a61669;
    Rotate32Is(17, 0x1ad3, 0x1669);
    assert Mul32(0xb349ad3, C2) == 0x39879629;
    Xor32Is(0x10, 0x39879629);
    Rotate32Is(19, 0x730, 0x79639);
    assert Mul32(0xf2c72730, 5) == 0xbde3c3f0;
  }

  lemma City32Of16Mur2()
    ensures Mur(0x1f48b199, 0xa4382f54) == 0xba42edf7
  {
    hide Xor32, Rotate32, Pow2;
    Powers();
    assert Mul32(0x1f48b199, C1) == 0x35a61669;
    Rotate32Is(17, 0x1ad3, 0x1669);
    assert Mul32(0xb349ad3, C2) == 0x39879629;
    Xor32Is(0xa4382f54, 0x39879629);
    Rotate32Is(19, 0x13b7, 0x7b97d);
    assert Mul32(0xf72fb3b7, 5) == 0xd3ee8293;
  }

  lemma City32Of16Mur3()
    ensures Mur(0x8711d2cd, 0xba42edf7) == 0x14ce859b
  {
    hide Xor32, Rotate32, Pow2;
    Powers();
    assert Mul32(0x8711d2cd, C1) == 0x5537bbdd;
    Rotate32Is(17, 0x2a9b, 0x1bbdd);
    assert Mul32(0xddeeaa9b, C2) == 0x2a1b0e01;
    Xor32Is(0xba42edf7, 0x2a1b0e01);
    Rotate32Is(19, 0x120b, 0x1e3f6);
    assert Mul32(0x3c7ed20b, 5) == 0x2e7a1a37;
  }

  lemma City32Of16Mur4()
    ensures Mur(0x8711d2cd, 0x14ce859b) == 0x5d94d2a6
  {
    hide Xor32, Rotate32, Pow2;
    Powers();
    assert Mul32(0x8711d2cd, C1) == 0x5537bbdd;
    Rotate32Is(17, 0x2a9b, 0x1bbdd);
    assert Mul32(0xddeeaa9b, C2) == 0x2a1b0e01;
    Xor32Is(0x14ce859b, 0x2a1b0e01);
    Rotate32Is(19, 0x7da, 0x58b9a);
    assert Mul32(0xb17347da, 5) == 0x77406742;
  }

  lemma City32Of16Mur5()
    ensures Mur(0x68bfe08, 0x5d94d2a6) == 0x40ff9339
  {
    hide Xor32, Rotate32, Pow2;
    Powers();
    assert Mul32(0x68bfe08, C1) == 0xd6e2c888;
    Rotate32Is(17, 0x6b71, 0xc888);
    assert Mul32(0x64446b71, C2) == 0x511f16e3;
    Xor32Is(0x5d94d2a6, 0x511f16e3);
    Rotate32Is(19, 0x191, 0x3c445);
    assert Mul32(0x7888a191, 5) == 0x5aab27d5;
  }

  lemma City32Of16Mur6()
    ensures Mur(0x7aae377e, 0x40ff9339) == 0x4931fdaa
  {
    hide Xor32, Rotate32, Pow2;
    Powers();
    assert Mul32(0x7aae377e, C1) == 0x18a4b4de;
    Rotate32Is(17, 0xc52, 0xb4de);
    assert Mul32(0x5a6f0c52, C2) == 0x108f0d16;
    Xor32Is(0x40ff9339, 0x108f0d16);
    Rotate32Is(19, 0xa0e, 0x9e2f);
    assert Mul32(0x13c5ea0e, 5) == 0x62dd9246;
  }

  lemma City32Of16Fmix()
    ensures Fmix(0x4931fdaa) == 0x51b4ba8
  {
    hide XorShift, Pow2;
    Powers();
    XorShiftIs(16, 0x4931fdaa, 0x4931);
    assert Mul32(0x4931b49b, 0x85ebca6b) == 0x2191cac9;
    XorShiftIs(13, 0x2191cac9, 0x10c8e);
    assert Mul32(0x2190c647, 0xc2b2ae35) == 0x51b4eb3;
    XorShiftIs(16, 0x51b4eb3, 0x51b);
  }

  lemma CityHash32Of16Bytes()
    ensures City32(Bytes16()) == 0x51b4ba8
  {
    hide Mur, Fmix, Fetch32, Bytes16;
    Bytes16Halves();
    City32Of16Mur1();
    City32Of16Mur2();
    City32Of16Mur3();
    City32Of16Mur4();
    City32Of16Mur5();
    City32Of16Mur6();
    City32Of16Fmix();
  }

  lemma City32Of24Mur1()
    ensures Mur(0xb5c302f8, 0x18) == 0x59d4fd39
  {
    hide Xor32, Rotate32, Pow2;
    Powers();
    assert Mul32(0xb5c302f8, C1) == 0x3f498878;
    Rotate32Is(17, 0x1fa4, 0x18878);
    assert Mul32(0xc43c1fa4, C2) == 0x1c8f1f2c;
    Xor32Is(0x18, 0x1c8f1f2c);
    Rotate32Is(19, 0x391, 0x71f34);
    assert Mul32(0xe3e68391, 5) == 0x738091d5;
  }

  lemma City32Of24Mur2()
    ensures Mur(0x7f9980b9, 0x59d4fd39) == 0x82ee583a
  {
    hide Xor32, Rotate32, Pow2;
    Powers();
    assert Mul32(0x7f9980b9, C1) == 0x39603f89;
    Rotate32Is(17, 0x1cb0, 0x3f89);
    assert Mul32(0x1fc49cb0, C2) == 0x23266910;
    Xor32Is(0x59d4fd39, 0x23266910);
    Rotate32Is(19, 0xf5e, 0x29429);
    assert Mul32(0x52852f5e, 5) == 0x9c99ecd6;
  }

  lemma City32Of24Mur3()
    ensures Mur(0x8f04b761, 0x82ee583a) == 0x8f376697
  {
    hide Xor32, Rotate32, Pow2;
    Powers();
    assert Mul32(0x8f04b761, C1) == 0x8e9812b1;
    Rotate32Is(17, 0x474c, 0x12b1);
    assert Mul32(0x958c74c, C2) == 0xdc512ca4;
    Xor32Is(0x82ee583a, 0xdc512ca4);
    Rotate32Is(19, 0xbd7, 0x7749e);
    assert Mul32(0xee93cbd7, 5) == 0xa8e2fb33;
  }

  lemma City32Of24Mur4()
    ensures Mur(0x574792cb, 0x8f376697) == 0x506891c7
  {
    hide Xor32, Rotate32, Pow2;
    Powers();
    assert Mul32(0x574792cb, C1) == 0x8fbd213b;
    Rotate32Is(17, 0x47de, 0x1213b);
    assert Mul32(0x909dc7de, C2) == 0x850cba7a;
    Xor32Is(0x8f376697, 0x850cba7a);
    Rotate32Is(19, 0x147, 0x3dced);
    assert Mul32(0x7b9da147, 5) == 0x6a142663;
  }

  lemma City32Of24Mur5()
    ensures Mur(0x745f5bfa, 0x506891c7) == 0x194f37f4
  {
    hide Xor32, Rotate32, Pow2;
    Powers();
    assert Mul32(0x745f5bfa, C1) == 0x91a30c1a;
    Rotate32Is(17, 0x48d1, 0x10c1a);
    assert Mul32(0x860d48d1, C2) == 0x2aeb1503;
    Xor32Is(0x506891c7, 0x2aeb1503);
    Rotate32Is(19, 0xf50, 0x384c4);
    assert Mul32(0x70988f50, 5) == 0x32facc90;
  }

  lemma City32Of24Mur6()
    ensures Mur(0x85bdee26, 0x194f37f4) == 0x939dd43c
  {
    hide Xor32, Rotate32, Pow2;
    Powers();
    assert Mul32(0x85bdee26, C1) == 0xf7690806;
    Rotate32Is(17, 0x7bb4, 0x10806);
    assert Mul32(0x84037bb4, C2) == 0xbe884c5c;
    Xor32Is(0x194f37f4, 0xbe884c5c);
    Rotate32Is(19, 0x14f8, 0x77ba8);
    assert Mul32(0xef7514f8, 5) == 0xad4968d8;
  }

  lemma City32Of24Fmix()
    ensures Fmix(0x939dd43c) == 0x45177e0b
  {
    hide XorShift, Pow2;
    Powers();
    XorShiftIs(16, 0x939dd43c, 0x939d);
    assert Mul32(0x939d47a1, 0x85ebca6b) == 0x330cfa4b;
    XorShiftIs(13, 0x330cfa4b, 0x19867);
    assert Mul32(0x330d622c, 0xc2b2ae35) == 0x45173b1c;
    XorShiftIs(16, 0x45173b1c, 0x4517);
  }

  lemma CityHash32Of24Bytes()
    ensures City32(Bytes24()) == 0x45177e0b
  {
    hide Mur, Fmix, Fetch32, Bytes24;
    Bytes24Halves();
    City32Of24Mur1();
    City32Of24Mur2();
    City32Of24Mur3();
    City32Of24Mur4();
    City32Of24Mur5();
    City32Of24Mur6();
    City32Of24Fmix();
  }

  lemma City32Of80Start()
    ensures Start32(Bytes80()) == State32(0xc225051b, 0x844a4566, 0xf25ddcd3)
  {
    hide Xor32, Rotate32, Pow2, Fetch32, Bytes80;
    Powers();
    assert Mul32(C1, 0x50) == 0xf16e2950;
    Bytes80Halves();
    assert Mul32(0x9c534f0a, C1) == 0xdb6cc42a;
    Rotate32Is(17, 0x6db6, 0xc42a);
    assert Mul32(0x62156db6, C2) == 0xcefead82;
    Xor32Is(0x50, 0xcefead82);
    Rotate32Is(19, 0x19df, 0x6add2);
    assert Mul32(0xd5ba59df, 5) == 0x2ca3c15b;
    assert Mul32(0x9339049e, C1) == 0x5c5e3bfe;
    Rotate32Is(17, 0x2e2f, 0x3bfe);
    assert Mul32(0x1dff2e2f, C2) == 0x5de03ffd;
    Xor32Is(0x12f82cbf, 0x5de03ffd);
    Rotate32Is(19, 0x9e3, 0x1342);
    assert Mul32(0x26849e3, 5) == 0xc09716f;
    assert Mul32(0xe6a42efd, C1) == 0x725b570d;
    Rotate32Is(17, 0x392d, 0x1570d);
    assert Mul32(0xab86b92d, C2) == 0xc86da5d7;
    Xor32Is(0xf16e2950, 0xc86da5d7);
    Rotate32Is(19, 0x720, 0x38c87);
    assert Mul32(0x7190e720, 5) == 0x37d483a0;
    assert Mul32(0xf9e07823, C1) == 0x8ebe2a13;
    Rotate32Is(17, 0x475f, 0x2a13);
    assert Mul32(0x1509c75f, C2) == 0x42fd268d;
    Xor32Is(0x1e28ef04, 0x42fd268d);
    Rotate32Is(19, 0xb9a, 0x5c989);
    assert Mul32(0xb9312b9a, 5) == 0x9df5da02;
    assert Mul32(0x7adabb42, C1) == 0x7cdbd9e2;
    Rotate32Is(17, 0x3e6d, 0x1d9e2);
    assert Mul32(0xecf13e6d, C2) == 0x6aee6997;
    Rotate32Is(19, 0xb8b, 0x492e7);
    assert Mul32(0x925ceb8b, 5) == 0xdbd099b7;
  }

  lemma City32Of80Scrambled1()
    ensures Scramble(0xfb3e64ac) == 0x27ba23a4
    ensures Scramble(0x79ef80e4) == 0x875f269
    ensures Scramble(0xb54dd09c) == 0xe6cb876b
  {
    hide Rotate32, Pow2;
    Powers();
    assert Mul32(0xfb3e64ac, C1) == 0xa898166c;
    Rotate32Is(17, 0x544c, 0x166c);
    assert Mul32(0xb36544c, C2) == 0x27ba23a4;
    assert Mul32(0x79ef80e4, C1) == 0xeb27dc24;
    Rotate32Is(17, 0x7593, 0x1dc24);
    assert Mul32(0xee127593, C2) == 0x875f269;
    assert Mul32(0xb54dd09c, C1) == 0x1b926d5c;
    Rotate32Is(17, 0xdc9, 0x6d5c);
    assert Mul32(0x36ae0dc9, C2) == 0xe6cb876b;
  }

  lemma City32Of80Stirred1()
    ensures Stir(0xd5e7ff77, 18) == 0xe5aa36c1
    ensures Stir(0x8cc037cf, 18) == 0x2c17db54
    ensures Stir(0x37c56af9, 19) == 0x49302e3c
  {
    hide Rotate32, Pow2;
    Powers();
    Rotate32Is(18, 0x3579, 0x3ff77);
    assert Mul32(0xffddf579, 5) == 0xff55cb5d;
    Rotate32Is(18, 0x2330, 0x37cf);
    assert Mul32(0xdf3e330, 5) == 0x45c36ff0;
    Rotate32Is(19, 0x6f8, 0x56af9);
    assert Mul32(0xad5f26f8, 5) == 0x62dbc2d8;
  }

  lemma City32Of80Chunk1()
    ensures Step32(State32(0xc225051b, 0x844a4566, 0xf25ddcd3), Bytes80(), 0) == State32(0xb35c20e2, 0x4b1b9b79,
      0x570d882d)
  {
    hide Xor32, Scramble, Stir, Rotate32, Pow2, Bswap32, Fetch32, Bytes80;
    Powers();
    Bytes80Halves();
    City32Of80Scrambled1();
    Xor32Is(0xf25ddcd3, 0x27ba23a4);
    assert Add32(0x844a4566, 0x875f269) == 0x8cc037cf;
    assert Add32(0xe6cb876b, 0xeba3d4cd) == 0xd26f5c38;
    assert Add32(0xc225051b, 0xeba3d4cd) == 0xadc8d9e8;
    Rotate32Is(19, 0x15b9, 0xd9e8);
    assert Mul32(0x1b3d15b9, C1) == 0x2f536489;
    Xor32Is(0xe5aa36c1, 0xd26f5c38);
    City32Of80Stirred1();
    Xor32Is(0x2c17db54, 0xd67bc903);
    Bswap32Is(0xfa, 0x6c, 0x12, 0x57);
    assert Mul32(0x57126cfa, 5) == 0xb35c20e2;
    assert Mul32(0xd67bc903, 5) == 0x306aed0f;
    assert Add32(0x49302e3c, 0x306aed0f) == 0x799b1b4b;
    Bswap32Is(0x79, 0x9b, 0x1b, 0x4b);
    assert Add32(0x2f536489, 0x27ba23a4) == 0x570d882d;
  }

  lemma City32Of80Scrambled2()
    ensures Scramble(0xa5caa276) == 0x5b09f4c0
    ensures Scramble(0x68002eb9) == 0x46abc8bb
    ensures Scramble(0xd11c1f94) == 0x3ef12eff
  {
    hide Rotate32, Pow2;
    Powers();
    assert Mul32(0xa5caa276, C1) == 0x60802556;
    Rotate32Is(17, 0x3040, 0x2556);
    assert Mul32(0x12ab3040, C2) == 0x5b09f4c0;
    assert Mul32(0x68002eb9, C1) == 0x32734d89;
    Rotate32Is(17, 0x1939, 0x14d89);
    assert Mul32(0xa6c49939, C2) == 0x46abc8bb;
    assert Mul32(0xd11c1f94, C1) == 0x88cb01d4;
    Rotate32Is(17, 0x4465, 0x101d4);
    assert Mul32(0x80ea4465, C2) == 0x3ef12eff;
  }

  lemma City32Of80Stirred2()
    ensures Stir(0xc047ced, 18) == 0x827cba69
    ensures Stir(0x91c76434, 18) == 0x23962199
    ensures Stir(0x797d1165, 19) == 0x1133d74f
  {
    hide Rotate32, Pow2;
    Powers();
    Rotate32Is(18, 0x301, 0x7ced);
    assert Mul32(0x1f3b4301, 5) == 0x9c284f05;
    Rotate32Is(18, 0x2471, 0x36434);
    assert Mul32(0xd90d2471, 5) == 0x3d41b635;
    Rotate32Is(19, 0xf2f, 0x51165);
    assert Mul32(0xa22caf2f, 5) == 0x2adf6beb;
  }

  lemma City32Of80Chunk2()
    ensures Step32(State32(0xb35c20e2, 0x4b1b9b79, 0x570d882d), Bytes80(), 20) == State32(0xac9cc1fc, 0xa4d8a7bf,
      0x871ae5bd)
  {
    hide Xor32, Scramble, Stir, Rotate32, Pow2, Bswap32, Fetch32, Bytes80;
    Powers();
    Bytes80Halves();
    City32Of80Scrambled2();
    Xor32Is(0x570d882d, 0x5b09f4c0);
    assert Add32(0x4b1b9b79, 0x46abc8bb) == 0x91c76434;
    assert Add32(0x3ef12eff, 0xbc107c0d) == 0xfb01ab0c;
    assert Add32(0xb35c20e2, 0xbc107c0d) == 0x6f6c9cef;
    Rotate32Is(19, 0xded, 0x49cef);
    assert Mul32(0x939deded, C1) == 0x2c10f0fd;
    Xor32Is(0x827cba69, 0xfb01ab0c);
    City32Of80Stirred2();
    Xor32Is(0x23962199, 0xefb0cd11);
    Bswap32Is(0xcc, 0x26, 0xec, 0x88);
    assert Mul32(0x88ec26cc, 5) == 0xac9cc1fc;
    assert Mul32(0xefb0cd11, 5) == 0xae740155;
    assert Add32(0x1133d74f, 0xae740155) == 0xbfa7d8a4;
    Bswap32Is(0xbf, 0xa7, 0xd8, 0xa4);
    assert Add32(0x2c10f0fd, 0x5b09f4c0) == 0x871ae5bd;
  }

  lemma City32Of80Scrambled3()
    ensures Scramble(0xa1af30f6) == 0xe0e029aa
    ensures Scramble(0x33f59e80) == 0xfb066eeb
    ensures Scramble(0x13be37c4) == 0x7e38fd8e
  {
    hide Rotate32, Pow2;
    Powers();
    assert Mul32(0xa1af30f6, C1) == 0x33ddbbd6;
    Rotate32Is(17, 0x19ee, 0x1bbd6);
    assert Mul32(0xddeb19ee, C2) == 0xe0e029aa;
    assert Mul32(0x33f59e80, C1) == 0x7093a680;
    Rotate32Is(17, 0x3849, 0x1a680);
    assert Mul32(0xd3403849, C2) == 0xfb066eeb;
    assert Mul32(0x13be37c4, C1) == 0x49f51904;
    Rotate32Is(17, 0x24fa, 0x11904);
    assert Mul32(0x8c8224fa, C2) == 0x7e38fd8e;
  }

  lemma City32Of80Stirred3()
    ensures Stir(0x67facc17, 18) == 0x6571ad5a
    ensures Stir(0x9fdf16aa, 18) == 0xc2a9b337
    ensures Stir(0x63d30a84, 19) == 0xcce729c6
  {
    hide Rotate32, Pow2;
    Powers();
    Rotate32Is(18, 0x19fe, 0x2cc17);
    assert Mul32(0xb305d9fe, 5) == 0x7f1d41f6;
    Rotate32Is(18, 0x27f7, 0x316aa);
    assert Mul32(0xc5aaa7f7, 5) == 0xdc5547d3;
    Rotate32Is(19, 0xc7a, 0x30a84);
    assert Mul32(0x61508c7a, 5) == 0xe692be62;
  }

  lemma City32Of80Chunk3()
    ensures Step32(State32(0xac9cc1fc, 0xa4d8a7bf, 0x871ae5bd), Bytes80(), 40) == State32(0x91fb8dbf, 0x4a0474c2,
      0xaccde24a)
  {
    hide Xor32, Scramble, Stir, Rotate32, Pow2, Bswap32, Fetch32, Bytes80;
    Powers();
    Bytes80Halves();
    City32Of80Scrambled3();
    Xor32Is(0x871ae5bd, 0xe0e029aa);
    assert Add32(0xa4d8a7bf, 0xfb066eeb) == 0x9fdf16aa;
    assert Add32(0x7e38fd8e, 0x8869aa50) == 0x6a2a7de;
    assert Add32(0xac9cc1fc, 0x8869aa50) == 0x35066c4c;
    Rotate32Is(19, 0x6a0, 0x66c4c);
    assert Mul32(0xcd8986a0, C1) == 0xcbedb8a0;
    Xor32Is(0x6571ad5a, 0x6a2a7de);
    City32Of80Stirred3();
    Xor32Is(0xc2a9b337, 0x311c2bb4);
    Bswap32Is(0xf3, 0xb5, 0x98, 0x83);
    assert Mul32(0x8398b5f3, 5) == 0x91fb8dbf;
    assert Mul32(0x311c2bb4, 5) == 0xf58cda84;
    assert Add32(0xcce729c6, 0xf58cda84) == 0xc274044a;
    Bswap32Is(0xc2, 0x74, 4, 0x4a);
    assert Add32(0xcbedb8a0, 0xe0e029aa) == 0xaccde24a;
  }

  lemma City32Of80Finish()
    ensures Finish32(State32(0x91fb8dbf, 0x4a0474c2, 0xaccde24a)) == 0xabecfb9b
  {
    hide Xor32, Rotate32, Pow2;
    Powers();
    Rotate32Is(11, 0x9408e, 0x4c2);
    assert Mul32(0x9849408e, C1) == 0xf2a62ee;
    Rotate32Is(17, 0x795, 0x62ee);
    assert Mul32(0x31770795, C1) == 0xfcf49725;
    Rotate32Is(11, 0x123f71, 0x5bf);
    assert Mul32(0xb7f23f71, C1) == 0xfc8aefc1;
    Rotate32Is(17, 0x7e45, 0xefc1);
    assert Mul32(0x77e0fe45, C1) == 0x657894d5;
    Rotate32Is(19, 0x1538, 0x2796f);
    assert Mul32(0x4f2df538, 5) == 0x8be5ca18;
    Rotate32Is(17, 0x391d, 0x357c);
    assert Mul32(0x1abe391d, C1) == 0x42202b2d;
    Rotate32Is(19, 0x14f3, 0xc002);
    assert Mul32(0x180054f3, 5) == 0x7801a8bf;
    Rotate32Is(17, 0x2f2b, 0x1423);
    assert Mul32(0xa11af2b, C1) == 0xabecfb9b;
  }

  lemma CityHash32Of80Bytes()
    ensures City32(Bytes80()) == 0xabecfb9b
  {
    hide Start32, Step32, Finish32, Bytes80;
    City32Of80Start();
    City32Of80Chunk1();
    assert Rounds32(State32(0xc225051b, 0x844a4566, 0xf25ddcd3), Bytes80(), 0, 3) == Rounds32(State32(0xb35c20e2,
      0x4b1b9b79, 0x570d882d), Bytes80(), 20, 2);
    City32Of80Chunk2();
    assert Rounds32(State32(0xb35c20e2, 0x4b1b9b79, 0x570d882d), Bytes80(), 20, 2) == Rounds32(State32(0xac9cc1fc,
      0xa4d8a7bf, 0x871ae5bd), Bytes80(), 40, 1);
    City32Of80Chunk3();
    assert Rounds32(State32(0xac9cc1fc, 0xa4d8a7bf, 0x871ae5bd), Bytes80(), 40, 1) == Rounds32(State32(0x91fb8dbf,
      0x4a0474c2, 0xaccde24a), Bytes80(), 60, 0);
    City32Of80Finish();
  }

  /** At least one input for every length band; row 80 takes three rounds of 20 bytes. */
  lemma PublishedValues()
    ensures City32(Bytes4()) == 0x26f2b463
    ensures City32(Bytes7()) == 0x91dfdd75
    ensures City32(Bytes8()) == 0xc87f95de
    ensures City32(Bytes16()) == 0x51b4ba8
    ensures City32(Bytes24()) == 0x45177e0b
    ensures City32(Bytes80()) == 0xabecfb9b
  {
    CityHash32Of4Bytes();
    CityHash32Of7Bytes();
    CityHash32Of8Bytes();
    CityHash32Of16Bytes();
    CityHash32Of24Bytes();
    CityHash32Of80Bytes();
  }
}
