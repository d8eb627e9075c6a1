/** The 128-bit hash on inputs of the published table: row i is the hash of the i bytes of test data at offset i * i. */
module CityVectors128 {
  import opened Words
  import opened Bits
  import opened CityMixers
  import opened CityHash
  import opened CityValues
  import opened CityInputs

  lemma City128Of5Mix1()
    ensures HashLen16Mul(0x47f97e325, 0x58ff2fc, 0x9ae16a3b2f904059) == 0x831f448bdc5600b3
  {
    hide Xor64, ShiftMix;
    Xor64Is(0x47f97e325, 0x58ff2fc);
    assert Mul(0x47a1811d9, 0x9ae16a3b2f904059) == 0x29992fe857e47471;
    ShiftMixIs(0x29992fe857e47471, 0x5332);
    Xor64Is(0x58ff2fc, 0x29992fe857e42743);
    assert Mul(0x29992fe8526bd5bf, 0x9ae16a3b2f904059) == 0xc4463e4ae95d0f67;
    ShiftMixIs(0xc4463e4ae95d0f67, 0x1888c);
    assert Mul(0xc4463e4ae95c87eb, 0x9ae16a3b2f904059) == 0x831f448bdc5600b3;
  }

  lemma City128Of5Short()
    ensures HashLen0to16(Bytes5()) == 0x831f448bdc5600b3
  {
    hide HashLen16Mul;
    assert Fetch32(Bytes5(), 0) == 0x8ff2fc64 && Fetch32(Bytes5(), 1) == 0x58ff2fc;
    City128Of5Mix1();
  }

  lemma City128Of5Start()
    ensures StartMurmur(Bytes5(), K0, K1) == Murmur(0xfbf3895d8b822a7a, K1, 0x15906b895e83a05c, 0x1183f4e6ea05e9d1)
  {
    hide Xor64, ShiftMix, HashLen0to16, Fetch64, Bytes5;
    assert Mul(K0, K1) == 0x4cd821f65e5f285;
    ShiftMixIs(0x4cd821f65e5f285, 0x99b);
    assert Mul(0x4cd821f65e5fb1e, K1) == 0xfbf3895d8b822a7a;
    assert Mul(K1, K1) == 0x927126fd822d9fa9;
    City128Of5Short();
    ShiftMixIs(0x1183f4e6ea05cad6, 0x2307);
  }

  lemma City128Of5Mix2()
    ensures HashLen16(0xfbf3895d8b822a7a, 0x15906b895e83a05c) == 0x9f4e242db48299a8
  {
    hide Xor64, ShiftMix;
    Xor64Is(0xfbf3895d8b822a7a, 0x15906b895e83a05c);
    assert Mul(0xee63e2d4d5018a26, K_MUL) == 0x95b8213bd3a5796;
    ShiftMixIs(0x95b8213bd3a5796, 0x12b7);
    Xor64Is(0x15906b895e83a05c, 0x95b8213bd3a4521);
    assert Mul(0x1ccbe99ae3b9e57d, K_MUL) == 0x8b16eecb06ee1945;
    ShiftMixIs(0x8b16eecb06ee1945, 0x1162d);
    assert Mul(0x8b16eecb06ef0f68, K_MUL) == 0x9f4e242db48299a8;
  }

  lemma City128Of5Mix3()
    ensures HashLen16(0x1183f4e6ea05e9d1, K1) == 0x928e59d88f1605c3
  {
    hide Xor64, ShiftMix;
    Xor64Is(0x1183f4e6ea05e9d1, 0xb492b66fbe98f273);
    assert Mul(0xa5114289549d1ba2, K_MUL) == 0x7c619ff13bbcf72;
    ShiftMixIs(0x7c619ff13bbcf72, 0xf8c);
    Xor64Is(0xb492b66fbe98f273, 0x7c619ff13bbc0fe);
    assert Mul(0xb354af90ad23328d, K_MUL) == 0xbe4f1648b12a84d5;
    ShiftMixIs(0xbe4f1648b12a84d5, 0x17c9e);
    assert Mul(0xbe4f1648b12bf84b, K_MUL) == 0x928e59d88f1605c3;
  }

  lemma City128Of5Mix4()
    ensures HashLen16(0x928e59d88f1605c3, 0x9f4e242db48299a8) == 0xd2b11b2081aeb002
  {
    hide Xor64, ShiftMix;
    Xor64Is(0x928e59d88f1605c3, 0x9f4e242db48299a8);
    assert Mul(0xdc07df53b949c6b, K_MUL) == 0xb941ea7effdaf6e3;
    ShiftMixIs(0xb941ea7effdaf6e3, 0x17283);
    Xor64Is(0x9f4e242db48299a8, 0xb941ea7effdb8460);
    assert Mul(0x260fce534b591dc8, K_MUL) == 0x655d4c7dad895f08;
    ShiftMixIs(0x655d4c7dad895f08, 0xcaba);
    assert Mul(0x655d4c7dad8995b2, K_MUL) == 0xd2b11b2081aeb002;
  }

  lemma City128Of5Finish()
    ensures FinishMurmur(Murmur(0xfbf3895d8b822a7a, K1, 0x15906b895e83a05c, 0x1183f4e6ea05e9d1)) ==
      (0xdc07df53b949c6b, 0xd2b11b2081aeb002)
  {
    hide HashLen16, Xor64;
    City128Of5Mix2();
    City128Of5Mix3();
    Xor64Is(0x9f4e242db48299a8, 0x928e59d88f1605c3);
    City128Of5Mix4();
  }

  lemma CityHash128Of5Bytes()
    ensures City128Unseeded(Bytes5()) == (0xdc07df53b949c6b, 0xd2b11b2081aeb002)
  {
    hide StartMurmur, FinishMurmur, Bytes5;
    City128Of5Start();
    City128Of5Finish();
  }

  lemma City128Of16Short()
    ensures HashLen0to16(Rest16()) == 0x9ae16a3b2f90404f
  {
    hide HashLen16Mul;
  }

  lemma City128Of16Start()
    ensures StartMurmur(Rest16(), 0x1f48b199068bfe08, 0x3e53ffdb1edd03f4) == Murmur(0x4101485c5912c392,
      0x3e53ffdb1edd03f4, 0xe14907cc6b75aeeb, 0x224a5028c48836e9)
  {
    hide Xor64, ShiftMix, HashLen0to16, Fetch64, Rest16;
    assert Mul(0x1f48b199068bfe08, K1) == 0xa91f0f0f0bc6ad98;
    ShiftMixIs(0xa91f0f0f0bc6ad98, 0x1523e);
    assert Mul(0xa91f0f0f0bc7ffa6, K1) == 0x4101485c5912c392;
    assert Mul(0x3e53ffdb1edd03f4, K1) == 0x46679d913be56e9c;
    City128Of16Short();
    ShiftMixIs(0x224a5028c488727d, 0x4494);
  }

  lemma City128Of16Mix1()
    ensures HashLen16(0x4101485c5912c392, 0xe14907cc6b75aeeb) == 0xb75fc672b85db53d
  {
    hide Xor64, ShiftMix;
    Xor64Is(0x4101485c5912c392, 0xe14907cc6b75aeeb);
    assert Mul(0xa0484f9032676d79, K_MUL) == 0xe827f8e6e0222ba1;
    ShiftMixIs(0xe827f8e6e0222ba1, 0x1d04f);
    Xor64Is(0xe14907cc6b75aeeb, 0xe827f8e6e023fbee);
    assert Mul(0x96eff2a8b565505, K_MUL) == 0xa55c18078372c00d;
    ShiftMixIs(0xa55c18078372c00d, 0x14ab8);
    assert Mul(0xa55c180783738ab5, K_MUL) == 0xb75fc672b85db53d;
  }

  lemma City128Of16Mix2()
    ensures HashLen16(0x224a5028c48836e9, 0x3e53ffdb1edd03f4) == 0x1b5a50654dcdd34e
  {
    hide Xor64, ShiftMix;
    Xor64Is(0x224a5028c48836e9, 0x3e53ffdb1edd03f4);
    assert Mul(0x1c19aff3da55351d, K_MUL) == 0x23b42db2c4a0e1e5;
    ShiftMixIs(0x23b42db2c4a0e1e5, 0x4768);
    Xor64Is(0x3e53ffdb1edd03f4, 0x23b42db2c4a0a68d);
    assert Mul(0x1de7d269da7da579, K_MUL) == 0x3d5fd0fcf91723a1;
    ShiftMixIs(0x3d5fd0fcf91723a1, 0x7abf);
    assert Mul(0x3d5fd0fcf917591e, K_MUL) == 0x1b5a50654dcdd34e;
  }

  lemma City128Of16Mix3()
    ensures HashLen16(0x1b5a50654dcdd34e, 0xb75fc672b85db53d) == 0x94d50d3dcd3069a7
  {
    hide Xor64, ShiftMix;
    Xor64Is(0x1b5a50654dcdd34e, 0xb75fc672b85db53d);
    assert Mul(0xac059617f5906673, K_MUL) == 0xccab5d3814643c2b;
    ShiftMixIs(0xccab5d3814643c2b, 0x19956);
    Xor64Is(0xb75fc672b85db53d, 0xccab5d381465a57d);
    assert Mul(0x7bf49b4aac381040, K_MUL) == 0x6367f714cbd9ea40;
    ShiftMixIs(0x6367f714cbd9ea40, 0xc6cf);
    assert Mul(0x6367f714cbd92c8f, K_MUL) == 0x94d50d3dcd3069a7;
  }

  lemma City128Of16Finish()
    ensures FinishMurmur(Murmur(0x4101485c5912c392, 0x3e53ffdb1edd03f4, 0xe14907cc6b75aeeb, 0x224a5028c48836e9)) ==
      (0xac059617f5906673, 0x94d50d3dcd3069a7)
  {
    hide HashLen16, Xor64;
    City128Of16Mix1();
    City128Of16Mix2();
    Xor64Is(0xb75fc672b85db53d, 0x1b5a50654dcdd34e);
    City128Of16Mix3();
  }

  lemma CityHash128Of16Bytes()
    ensures City128Unseeded(Bytes16()) == (0xac059617f5906673, 0x94d50d3dcd3069a7)
  {
    hide StartMurmur, FinishMurmur, Fetch64, Rest16, Bytes16;
    Bytes16Words();
    assert Bytes16()[16..] == Rest16();
    City128Of16Start();
    City128Of16Finish();
  }

  lemma City128Of24Mix1()
    ensures HashLen16Mul(0x73235dae2e0d129f, 0x7bee0aef41b62fc0, 0x9ae16a3b2f90405f) == 0x2c520a2d97f31dde
  {
    hide Xor64, ShiftMix;
    Xor64Is(0x73235dae2e0d129f, 0x7bee0aef41b62fc0);
    assert Mul(0x8cd57416fbb3d5f, 0x9ae16a3b2f90405f) == 0x106571b33c438641;
    ShiftMixIs(0x106571b33c438641, 0x20ca);
    Xor64Is(0x7bee0aef41b62fc0, 0x106571b33c43a68b);
    assert Mul(0x6b8b7b5c7df5894b, 0x9ae16a3b2f90405f) == 0xa21b876b1fa0b2d5;
    ShiftMixIs(0xa21b876b1fa0b2d5, 0x14437);
    assert Mul(0xa21b876b1fa1f6e2, 0x9ae16a3b2f90405f) == 0x2c520a2d97f31dde;
  }

  lemma City128Of24Short()
    ensures HashLen0to16(Rest24()) == 0x2c520a2d97f31dde
  {
    hide HashLen16Mul, Rotate, Fetch64, Pow2, Rest24;
    Powers();
    assert Add(K2, 0x10) == 0x9ae16a3b2f90405f;
    Rest24Words();
    assert Add(0x85bdee268f04b761, K2) == 0x209f5861be94f7b0;
    RotateIs(37, 0x42def71, 0x68f04b761);
    assert Mul(0x347825bb0c2def71, 0x9ae16a3b2f90405f) == 0x5284054c6f781aef;
    assert Add(0x5284054c6f781aef, 0x209f5861be94f7b0) == 0x73235dae2e0d129f;
    RotateIs(25, 0x104fac30df, 0x94f7b0);
    assert Add(0x4a7bd8104fac30df, 0x85bdee268f04b761) == 0xd039c636deb0e840;
    assert Mul(0xd039c636deb0e840, 0x9ae16a3b2f90405f) == 0x7bee0aef41b62fc0;
    City128Of24Mix1();
  }

  lemma City128Of24Start()
    ensures StartMurmur(Rest24(), 0x7f9980b9745f5bfa, 0x1aed5b284d8e341f) == Murmur(0xbc5e5e118421699d,
      0x1aed5b284d8e341f, 0xee005127d081d5cb, 0x421c4c381326a4c6)
  {
    hide Xor64, ShiftMix, HashLen0to16, Fetch64, Rest24;
    assert Mul(0x7f9980b9745f5bfa, K1) == 0xfd709f999438a54e;
    ShiftMixIs(0xfd709f999438a54e, 0x1fae1);
    assert Mul(0xfd709f9994395faf, K1) == 0xbc5e5e118421699d;
    assert Mul(0x1aed5b284d8e341f, K1) == 0xc1ae46fa388eb7ed;
    City128Of24Short();
    Rest24Words();
    ShiftMixIs(0x421c4c38132620fe, 0x8438);
  }

  lemma City128Of24Mix2()
    ensures HashLen16(0xbc5e5e118421699d, 0xee005127d081d5cb) == 0x2a2afcc05c83911
  {
    hide Xor64, ShiftMix;
    Xor64Is(0xbc5e5e118421699d, 0xee005127d081d5cb);
    assert Mul(0x525e0f3654a0bc56, K_MUL) == 0xe2e958e51bd85d46;
    ShiftMixIs(0xe2e958e51bd85d46, 0x1c5d2);
    Xor64Is(0xee005127d081d5cb, 0xe2e958e51bd99894);
    assert Mul(0xce909c2cb584d5f, K_MUL) == 0xefcf09f30e996ef7;
    ShiftMixIs(0xefcf09f30e996ef7, 0x1df9e);
    assert Mul(0xefcf09f30e98b169, K_MUL) == 0x2a2afcc05c83911;
  }

  lemma City128Of24Mix3()
    ensures HashLen16(0x421c4c381326a4c6, 0x1aed5b284d8e341f) == 0x6c4357dbcbc343ff
  {
    hide Xor64, ShiftMix;
    Xor64Is(0x421c4c381326a4c6, 0x1aed5b284d8e341f);
    assert Mul(0x58f117105ea890d9, K_MUL) == 0x3a1ba8f957118e01;
    ShiftMixIs(0x3a1ba8f957118e01, 0x7437);
    Xor64Is(0x1aed5b284d8e341f, 0x3a1ba8f95711fa36);
    assert Mul(0x20f6f3d11a9fce29, K_MUL) == 0xd97b32eebec0c3d1;
    ShiftMixIs(0xd97b32eebec0c3d1, 0x1b2f6);
    assert Mul(0xd97b32eebec17127, K_MUL) == 0x6c4357dbcbc343ff;
  }

  lemma City128Of24Mix4()
    ensures HashLen16(0x6c4357dbcbc343ff, 0x2a2afcc05c83911) == 0xe9dcb3507f0596ca
  {
    hide Xor64, ShiftMix;
    Xor64Is(0x6c4357dbcbc343ff, 0x2a2afcc05c83911);
    assert Mul(0x6ee1f817ce0b7aee, K_MUL) == 0x4caff0c6e561419e;
    ShiftMixIs(0x4caff0c6e561419e, 0x995f);
    Xor64Is(0x2a2afcc05c83911, 0x4caff0c6e561d8c1);
    assert Mul(0x4e0d5f0ae0a9e1d0, K_MUL) == 0xb5b52ae757df2e50;
    ShiftMixIs(0xb5b52ae757df2e50, 0x16b6a);
    assert Mul(0xb5b52ae757de453a, K_MUL) == 0xe9dcb3507f0596ca;
  }

  lemma City128Of24Finish()
    ensures FinishMurmur(Murmur(0xbc5e5e118421699d, 0x1aed5b284d8e341f, 0xee005127d081d5cb, 0x421c4c381326a4c6)) ==
      (0x6ee1f817ce0b7aee, 0xe9dcb3507f0596ca)
  {
    hide HashLen16, Xor64;
    City128Of24Mix2();
    City128Of24Mix3();
    Xor64Is(0x2a2afcc05c83911, 0x6c4357dbcbc343ff);
    City128Of24Mix4();
  }

  lemma CityHash128Of24Bytes()
    ensures City128Unseeded(Bytes24()) == (0x6ee1f817ce0b7aee, 0xe9dcb3507f0596ca)
  {
    hide StartMurmur, FinishMurmur, Fetch64, Rest24, Bytes24;
    Bytes24Words();
    Rest24IsRest();
    City128Of24Start();
    City128Of24Finish();
  }

  lemma Seeded128Of16Mix1()
    ensures HashLen16Mul(0x4362060ca2474e6c, 0x16873ac17b7ce898, 0x9ae16a3b2f90406f) == 0x3ead5f21d344056
  {
    hide Xor64, ShiftMix;
    Xor64Is(0x4362060ca2474e6c, 0x16873ac17b7ce898);
    assert Mul(0x55e53ccdd93ba6f4, 0x9ae16a3b2f90406f) == 0xd4997b00cfda63cc;
    ShiftMixIs(0xd4997b00cfda63cc, 0x1a932);
    Xor64Is(0x16873ac17b7ce898, 0xd4997b00cfdbcafe);
    assert Mul(0xc21e41c1b4a72266, 0x9ae16a3b2f90406f) == 0xb71866fd30716a3a;
    ShiftMixIs(0xb71866fd30716a3a, 0x16e30);
    assert Mul(0xb71866fd3070040a, 0x9ae16a3b2f90406f) == 0x3ead5f21d344056;
  }

  lemma Seeded128Of16Short()
    ensures HashLen0to16(Bytes16()) == 0x3ead5f21d344056
  {
    hide HashLen16Mul, Rotate, Fetch64, Pow2, Bytes16;
    Powers();
    assert Add(K2, 0x20) == 0x9ae16a3b2f90406f;
    Bytes16Words();
    assert Add(0x1f48b199068bfe08, K2) == 0xba2a1bd4361c3e57;
    RotateIs(37, 0x3d571bb, 0x1e8711d2cd);
    assert Mul(0xf4388e966bd571bb, 0x9ae16a3b2f90406f) == 0x8937ea386c2b1015;
    assert Add(0x8937ea386c2b1015, 0xba2a1bd4361c3e57) == 0x4362060ca2474e6c;
    RotateIs(25, 0x5d150dea1b, 0x1c3e57);
    assert Add(0xe1f2bdd150dea1b, 0x7aae377e8711d2cd) == 0x88cd635b9c1fbce8;
    assert Mul(0x88cd635b9c1fbce8, 0x9ae16a3b2f90406f) == 0x16873ac17b7ce898;
    Seeded128Of16Mix1();
  }

  lemma Seeded128Of16Start()
    ensures StartMurmur(Bytes16(), 0x12d687, K0) == Murmur(0xfdbd12f4c05d41c9, K0, 0x8b85811831a32db,
      0x1d05c48dc6e905da)
  {
    hide Xor64, ShiftMix, HashLen0to16, Fetch64, Bytes16;
    assert Mul(0x12d687, K1) == 0xb1bb05026969fca5;
    ShiftMixIs(0xb1bb05026969fca5, 0x16376);
    assert Mul(0xb1bb050269689fd3, K1) == 0xfdbd12f4c05d41c9;
    assert Mul(K0, K1) == 0x4cd821f65e5f285;
    Seeded128Of16Short();
    Bytes16Words();
    ShiftMixIs(0x1d05c48dc6e93fd1, 0x3a0b);
  }

  lemma Seeded128Of16Mix2()
    ensures HashLen16(0xfdbd12f4c05d41c9, 0x8b85811831a32db) == 0x405b877dce8acb03
  {
    hide Xor64, ShiftMix;
    Xor64Is(0xfdbd12f4c05d41c9, 0x8b85811831a32db);
    assert Mul(0xf5054ae543477312, K_MUL) == 0xf4575faed9785c62;
    ShiftMixIs(0xf4575faed9785c62, 0x1e8ae);
    Xor64Is(0x8b85811831a32db, 0xf4575faed979b4cc);
    assert Mul(0xfcef07bf5a638617, K_MUL) == 0xd0f228f4036c0a6f;
    ShiftMixIs(0xd0f228f4036c0a6f, 0x1a1e4);
    assert Mul(0xd0f228f4036dab8b, K_MUL) == 0x405b877dce8acb03;
  }

  lemma Seeded128Of16Mix3()
    ensures HashLen16(0x1d05c48dc6e905da, K0) == 0x42e9eb465c546bf3
  {
    hide Xor64, ShiftMix;
    Xor64Is(0x1d05c48dc6e905da, 0xc3a5c85c97cb3127);
    assert Mul(0xdea00cd1512234fd, K_MUL) == 0x840e1d2520b034c5;
    ShiftMixIs(0x840e1d2520b034c5, 0x1081c);
    Xor64Is(0xc3a5c85c97cb3127, 0x840e1d2520b13cd9);
    assert Mul(0x47abd579b77a0dfe, K_MUL) == 0x4aeabda7ef15632e;
    ShiftMixIs(0x4aeabda7ef15632e, 0x95d5);
    assert Mul(0x4aeabda7ef15f6fb, K_MUL) == 0x42e9eb465c546bf3;
  }

  lemma Seeded128Of16Mix4()
    ensures HashLen16(0x42e9eb465c546bf3, 0x405b877dce8acb03) == 0x99b7374cc78fc3fb
  {
    hide Xor64, ShiftMix;
    Xor64Is(0x42e9eb465c546bf3, 0x405b877dce8acb03);
    assert Mul(0x2b26c3b92dea0f0, K_MUL) == 0x4c2fc32fe41a3270;
    ShiftMixIs(0x4c2fc32fe41a3270, 0x985f);
    Xor64Is(0x405b877dce8acb03, 0x4c2fc32fe41aaa2f);
    assert Mul(0xc7444522a90612c, K_MUL) == 0xd96791577bec970c;
    ShiftMixIs(0xd96791577bec970c, 0x1b2cf);
    assert Mul(0xd96791577bed25c3, K_MUL) == 0x99b7374cc78fc3fb;
  }

  lemma Seeded128Of16Finish()
    ensures FinishMurmur(Murmur(0xfdbd12f4c05d41c9, K0, 0x8b85811831a32db, 0x1d05c48dc6e905da)) ==
      (0x2b26c3b92dea0f0, 0x99b7374cc78fc3fb)
  {
    hide HashLen16, Xor64;
    Seeded128Of16Mix2();
    Seeded128Of16Mix3();
    Xor64Is(0x405b877dce8acb03, 0x42e9eb465c546bf3);
    Seeded128Of16Mix4();
  }

  lemma CityHash128WithSeedOf16Bytes()
    ensures City128(Bytes16(), 0x12d687, K0) == (0x2b26c3b92dea0f0, 0x99b7374cc78fc3fb)
  {
    hide StartMurmur, FinishMurmur, Bytes16;
    Seeded128Of16Start();
    Seeded128Of16Finish();
  }

  lemma Seeded128Of48Mix1()
    ensures HashLen16(0x3cb348de24708c15, 0x12d687) == 0x5342fce8f1a83e5a
  {
    hide Xor64, ShiftMix;
    Xor64Is(0x3cb348de24708c15, 0x12d687);
    assert Mul(0x3cb348de24625a92, K_MUL) == 0xbe6076ba0c32cfe2;
    ShiftMixIs(0xbe6076ba0c32cfe2, 0x17cc0);
    Xor64Is(0x12d687, 0xbe6076ba0c33b322);
    assert Mul(0xbe6076ba0c2165a5, K_MUL) == 0x6ff3b5358ba8b1ad;
    ShiftMixIs(0x6ff3b5358ba8b1ad, 0xdfe7);
    assert Mul(0x6ff3b5358ba86e4a, K_MUL) == 0x5342fce8f1a83e5a;
  }

  lemma Seeded128Of48Mix2()
    ensures HashLen16(0xc3a5c85c97cb3157, 0x6ccb6743a3bf201) == 0xa291fc46ac010959
  {
    hide Xor64, ShiftMix;
    Xor64Is(0xc3a5c85c97cb3157, 0x6ccb6743a3bf201);
    assert Mul(0xc5697e28adf0c356, K_MUL) == 0xdc00abed56e63c46;
    ShiftMixIs(0xdc00abed56e63c46, 0x1b801);
    Xor64Is(0x6ccb6743a3bf201, 0xdc00abed56e78447);
    assert Mul(0xdacc1d996cdc7646, K_MUL) == 0xcf63fb0c8886d0b6;
    ShiftMixIs(0xcf63fb0c8886d0b6, 0x19ec7);
    assert Mul(0xcf63fb0c88874e71, K_MUL) == 0xa291fc46ac010959;
  }

  lemma Seeded128Of48Start()
    ensures StartMurmur(Bytes48(), 0x12d687, K0) == Murmur(0xa291fc46ac13dfe0, K0, 0x5342fce8f1a83e5a,
      0xa291fc46ac010959)
  {
    hide Xor64, ShiftMix, HashLen16, Fetch64, Bytes48;
    Bytes48Words();
    Seeded128Of48Mix1();
    Seeded128Of48Mix2();
  }

  lemma Seeded128Of48Round1()
    ensures StepMurmur(Murmur(0xa291fc46ac13dfe0, K0, 0x5342fce8f1a83e5a, 0xa291fc46ac010959), Bytes48(), 0) ==
      Murmur(0xebc24334eadaee5e, 0x28678b687d11df79, 0xa93356d55cdb13f6, 0xba2aa93f0da1aaf)
  {
    hide Xor64, ShiftMix, Fetch64, Bytes48;
    Bytes48Words();
    assert Mul(0x8e8549b7b12e60dd, K1) == 0x8e248042f89e6d47;
    ShiftMixIs(0x8e248042f89e6d47, 0x11c49);
    assert Mul(0x8e248042f89f710e, K1) == 0xb16cdac1eccf054a;
    Xor64Is(0xa291fc46ac13dfe0, 0xb16cdac1eccf054a);
    assert Mul(0x13fd268740dcdaaa, K1) == 0xebc24334eadaee5e;
    Xor64Is(0xc3a5c85c97cb3127, 0xebc24334eadaee5e);
    assert Mul(0x8ed621e7c9357798, K1) == 0x151868bdc0526948;
    ShiftMixIs(0x151868bdc0526948, 0x2a30);
    assert Mul(0x151868bdc0524378, K1) == 0x4c743cfe47fbbee8;
    Xor64Is(0x5342fce8f1a83e5a, 0x4c743cfe47fbbee8);
    assert Mul(0x1f36c016b65380b2, K1) == 0xa93356d55cdb13f6;
    Xor64Is(0xa291fc46ac010959, 0xa93356d55cdb13f6);
  }

  lemma Seeded128Of48Round2()
    ensures StepMurmur(Murmur(0xebc24334eadaee5e, 0x28678b687d11df79, 0xa93356d55cdb13f6, 0xba2aa93f0da1aaf),
      Bytes48(), 16) == Murmur(0x70b2d3e9b2f88829, 0x58d55881cfe95750, 0x92b062c5b54f1ced, 0x9912c85645950642)
  {
    hide Xor64, ShiftMix, Fetch64, Bytes48;
    Bytes48Words();
    assert Mul(0x61ed317ba835f8e, K1) == 0x71cae37719a828ca;
    ShiftMixIs(0x71cae37719a828ca, 0xe395);
    assert Mul(0x71cae37719a8cb5f, K1) == 0x45e1001c597b29ad;
    Xor64Is(0xebc24334eadaee5e, 0x45e1001c597b29ad);
    assert Mul(0xae234328b3a1c7f3, K1) == 0x70b2d3e9b2f88829;
    Xor64Is(0x28678b687d11df79, 0x70b2d3e9b2f88829);
    assert Mul(0x99bc710bb727560, K1) == 0x4709a169585f7a20;
    ShiftMixIs(0x4709a169585f7a20, 0x8e13);
    assert Mul(0x4709a169585ff433, K1) == 0xb459ec31403ae8e9;
    Xor64Is(0xa93356d55cdb13f6, 0xb459ec31403ae8e9);
    assert Mul(0x1d6abae41ce1fb1f, K1) == 0x92b062c5b54f1ced;
    Xor64Is(0xba2aa93f0da1aaf, 0x92b062c5b54f1ced);
  }

  lemma Seeded128Of48Mix3()
    ensures HashLen16(0x70b2d3e9b2f88829, 0x92b062c5b54f1ced) == 0xf1de355aab9e9366
  {
    hide Xor64, ShiftMix;
    Xor64Is(0x70b2d3e9b2f88829, 0x92b062c5b54f1ced);
    assert Mul(0xe202b12c07b794c4, K_MUL) == 0x2f6a6c42e6527864;
    ShiftMixIs(0x2f6a6c42e6527864, 0x5ed4);
    Xor64Is(0x92b062c5b54f1ced, 0x2f6a6c42e65226b0);
    assert Mul(0xbdda0e87531d3a5d, K_MUL) == 0xca2996fd5d974925;
    ShiftMixIs(0xca2996fd5d974925, 0x19453);
    assert Mul(0xca2996fd5d96dd76, K_MUL) == 0xf1de355aab9e9366;
  }

  lemma Seeded128Of48Mix4()
    ensures HashLen16(0x9912c85645950642, 0x58d55881cfe95750) == 0xfbb978df2ab2ef90
  {
    hide Xor64, ShiftMix;
    Xor64Is(0x9912c85645950642, 0x58d55881cfe95750);
    assert Mul(0xc1c790d78a7c5112, K_MUL) == 0xb941b1ece92d6a62;
    ShiftMixIs(0xb941b1ece92d6a62, 0x17283);
    Xor64Is(0x58d55881cfe95750, 0xb941b1ece92c18e1);
    assert Mul(0xe194e96d26c54fb1, K_MUL) == 0x7ec4d06e7fa7cc99;
    ShiftMixIs(0x7ec4d06e7fa7cc99, 0xfd89);
    assert Mul(0x7ec4d06e7fa73110, K_MUL) == 0xfbb978df2ab2ef90;
  }

  lemma Seeded128Of48Mix5()
    ensures HashLen16(0xfbb978df2ab2ef90, 0xf1de355aab9e9366) == 0x63538c0351049940
  {
    hide Xor64, ShiftMix;
    Xor64Is(0xfbb978df2ab2ef90, 0xf1de355aab9e9366);
    assert Mul(0xa674d85812c7cf6, K_MUL) == 0x5bae1f97f5067ee6;
    ShiftMixIs(0x5bae1f97f5067ee6, 0xb75c);
    Xor64Is(0xf1de355aab9e9366, 0x5bae1f97f506c9ba);
    assert Mul(0xaa702acd5e985adc, K_MUL) == 0xcbbe23786895f03c;
    ShiftMixIs(0xcbbe23786895f03c, 0x1977c);
    assert Mul(0xcbbe237868946740, K_MUL) == 0x63538c0351049940;
  }

  lemma Seeded128Of48Finish()
    ensures FinishMurmur(Murmur(0x70b2d3e9b2f88829, 0x58d55881cfe95750, 0x92b062c5b54f1ced, 0x9912c85645950642)) ==
      (0xa674d85812c7cf6, 0x63538c0351049940)
  {
    hide HashLen16, Xor64;
    Seeded128Of48Mix3();
    Seeded128Of48Mix4();
    Xor64Is(0xf1de355aab9e9366, 0xfbb978df2ab2ef90);
    Seeded128Of48Mix5();
  }

  lemma CityHash128WithSeedOf48Bytes()
    ensures City128(Bytes48(), 0x12d687, K0) == (0xa674d85812c7cf6, 0x63538c0351049940)
  {
    hide StartMurmur, FinishMurmur, Bytes48, StepMurmur;
    Seeded128Of48Start();
    Seeded128Of48Round1();
    assert RoundsMurmur(Murmur(0xa291fc46ac13dfe0, K0, 0x5342fce8f1a83e5a, 0xa291fc46ac010959), Bytes48(), 0, 2) ==
      RoundsMurmur(Murmur(0xebc24334eadaee5e, 0x28678b687d11df79, 0xa93356d55cdb13f6, 0xba2aa93f0da1aaf), Bytes48(),
      16, 1);
    Seeded128Of48Round2();
    assert RoundsMurmur(Murmur(0xebc24334eadaee5e, 0x28678b687d11df79, 0xa93356d55cdb13f6, 0xba2aa93f0da1aaf),
      Bytes48(), 16, 1) == RoundsMurmur(Murmur(0x70b2d3e9b2f88829, 0x58d55881cfe95750, 0x92b062c5b54f1ced,
      0x9912c85645950642), Bytes48(), 32, 0);
    Seeded128Of48Finish();
  }

  lemma Seeded128Of128Start()
    ensures Start128(Bytes128(), 0x12d687, K0) == State64(0x12d687, K0, 0x495b37df4c793980, (0xdfb851aa1eef3784,
      0xe5262b11a9c3ddfe), (0xcbfd664bef6fd7ac, 0x7e962dfdd0d0754d))
  {
    hide Xor64, Rotate, Fetch64, Pow2, Bytes128;
    Powers();
    assert (128 * K1) % W64 == 0x495b37df4c793980;
    Xor64Is(0xc3a5c85c97cb3127, 0xb492b66fbe98f273);
    RotateIs(49, 0x3b9b, 0x17e332953c354);
    assert Mul(0xbf1994a9e1aa3b9b, K1) == 0x3af6bf28b9d94ca1;
    Bytes128Words();
    RotateIs(42, 0x37ee14, 0x1aa1eef3784);
    assert Mul(0x6a87bbcde137ee14, K1) == 0xbbd1aaf73f0edafc;
    RotateIs(35, 0x1a02007, 0x3e4446aa7);
    assert Mul(0x7c888d54e1a02007, K1) == 0xcbfd664bef5d0125;
    RotateIs(53, 0x13f, 0x70b73fef3e9c9);
    assert Mul(0x385b9ff79f4e493f, K1) == 0x7e962dfdd0d0754d;
  }

  lemma Seeded128Of128Weak1()
    ensures WeakHashLen32(Bytes128(), 0, 0xc1f40b9abda6d51a, 0xcc109dad8026f65a) == (0x5057e24d63fa70ef,
      0x7807ff70b9d04a46)
  {
    hide Rotate, Fetch64, Pow2, Bytes128;
    Powers();
    Bytes128Words();
    assert Add(0xc1f40b9abda6d51a, 0xa4c192816515eae3) == 0x66b59e1c22bcbffd;
    assert Add(0xcc109dad8026f65a, 0x66b59e1c22bcbffd) == 0x32c63bc9a2e3b657;
    assert Add(0x32c63bc9a2e3b657, 0x49010498f8a30b1e) == 0x7bc740629b86c175;
    RotateIs(21, 0x3de3a0314dc, 0x6c175);
    assert Add(0x66b59e1c22bcbffd, 0x2954801a6ab50302) == 0x900a1e368d71c2ff;
    assert Add(0x900a1e368d71c2ff, 0x774cbf7ddde5a2d2) == 0x756ddb46b5765d1;
    assert Add(0x756ddb46b5765d1, 0x49010498f8a30b1e) == 0x5057e24d63fa70ef;
    RotateIs(44, 0x756d, 0xdb46b5765d1);
    assert Add(0x360babde3a0314dc, 0xdb46b5765d10756d) == 0x1152615497138a49;
    assert Add(0x1152615497138a49, 0x66b59e1c22bcbffd) == 0x7807ff70b9d04a46;
  }

  lemma Seeded128Of128Weak2()
    ensures WeakHashLen32(Bytes128(), 32, 0x1078d0970971d5bc, 0xd841eb62e3b95c42) == (0x87f9845e5f3378be,
      0x1aa03028778f2f37)
  {
    hide Rotate, Fetch64, Pow2, Bytes128;
    Powers();
    Bytes128Words();
    assert Add(0x1078d0970971d5bc, 0x6f799914620bdf0c) == 0x7ff269ab6b7db4c8;
    assert Add(0xd841eb62e3b95c42, 0x7ff269ab6b7db4c8) == 0x5834550e4f37110a;
    assert Add(0x5834550e4f37110a, 0xf78c200023f38838) == 0x4fc0750e732a9942;
    RotateIs(21, 0x27e03a87399, 0xa9942);
    assert Add(0x7ff269ab6b7db4c8, 0x996d1a620d3723d0) == 0x195f840d78b4d898;
    assert Add(0x195f840d78b4d898, 0x770de050c28b17ee) == 0x906d645e3b3ff086;
    assert Add(0x906d645e3b3ff086, 0xf78c200023f38838) == 0x87f9845e5f3378be;
    RotateIs(44, 0x906d6, 0x45e3b3ff086);
    assert Add(0x54ca127e03a87399, 0x45e3b3ff086906d6) == 0x9aadc67d0c117a6f;
    assert Add(0x9aadc67d0c117a6f, 0x7ff269ab6b7db4c8) == 0x1aa03028778f2f37;
  }

  lemma Seeded128Of128Chunk1()
    ensures Step64(State64(0x12d687, K0, 0x495b37df4c793980, (0xdfb851aa1eef3784, 0xe5262b11a9c3ddfe),
      (0xcbfd664bef6fd7ac, 0x7e962dfdd0d0754d)), Bytes128(), 0) == State64(0x91e2a29938a1606f, 0x60f52be505d3b970,
      0x13376190b71eae, (0x5057e24d63fa70ef, 0x7807ff70b9d04a46), (0x87f9845e5f3378be, 0x1aa03028778f2f37))
  {
    hide Xor64, Rotate, Fetch64, Pow2, WeakHashLen32, Bytes128;
    Powers();
    assert Add(0x12d687, K0) == 0xc3a5c85c97de07ae;
    assert Add(0xc3a5c85c97de07ae, 0xdfb851aa1eef3784) == 0xa35e1a06b6cd3f32;
    Bytes128Words();
    assert Add(0xa35e1a06b6cd3f32, 0x2954801a6ab50302) == 0xccb29a2121824234;
    RotateIs(37, 0x66594d1, 0x121824234);
    assert Mul(0x90c1211a66594d1, K1) == 0x7e851a9c40676be3;
    assert Add(K0, 0xe5262b11a9c3ddfe) == 0xa8cbf36e418f0f25;
    assert Add(0xa8cbf36e418f0f25, 0x770de050c28b17ee) == 0x1fd9d3bf041a2713;
    RotateIs(42, 0x7f674, 0x3bf041a2713);
    assert Mul(0xefc10689c4c7f674, K1) == 0xe7cfbfd8d9ad5e1c;
    Xor64Is(0x7e851a9c40676be3, 0x7e962dfdd0d0754d);
    assert Add(0xe7cfbfd8d9ad5e1c, 0xdfb851aa1eef3784) == 0xc7881182f89c95a0;
    assert Add(0xc7881182f89c95a0, 0x996d1a620d3723d0) == 0x60f52be505d3b970;
    assert Add(0x495b37df4c793980, 0xcbfd664bef6fd7ac) == 0x15589e2b3be9112c;
    RotateIs(33, 0xaac4f15, 0x13be9112c);
    assert Mul(0x9df488960aac4f15, K1) == 0x91e2a29938a1606f;
    assert Mul(0xe5262b11a9c3ddfe, K1) == 0xc1f40b9abda6d51a;
    assert Add(0x13376190b71eae, 0xcbfd664bef6fd7ac) == 0xcc109dad8026f65a;
    Seeded128Of128Weak1();
    assert Add(0x91e2a29938a1606f, 0x7e962dfdd0d0754d) == 0x1078d0970971d5bc;
    assert Add(0x60f52be505d3b970, 0x774cbf7ddde5a2d2) == 0xd841eb62e3b95c42;
    Seeded128Of128Weak2();
  }

  lemma Seeded128Of128Weak3()
    ensures WeakHashLen32(Bytes128(), 64, 0x9f132706c578972, 0x5fa634a7aaff7e84) == (0x4aafd1e4633d21c4,
      0x4004c9bcb847598b)
  {
    hide Rotate, Fetch64, Pow2, Bytes128;
    Powers();
    Bytes128Words();
    assert Add(0x9f132706c578972, 0xd6a83e4a2e46f16a) == 0xe09970ba9a9e7adc;
    assert Add(0x5fa634a7aaff7e84, 0xe09970ba9a9e7adc) == 0x403fa562459df960;
    assert Add(0x403fa562459df960, 0x27e70b73fee11342) == 0x6826b0d6447f0ca2;
    RotateIs(21, 0x3413586b223, 0x1f0ca2);
    assert Add(0xe09970ba9a9e7adc, 0x305850b1edb236bf) == 0x10f1c16c8850b19b;
    assert Add(0x10f1c16c8850b19b, 0x11d70503dc0b5ce7) == 0x22c8c670645c0e82;
    assert Add(0x22c8c670645c0e82, 0x27e70b73fee11342) == 0x4aafd1e4633d21c4;
    RotateIs(44, 0x22c8c, 0x670645c0e82);
    assert Add(0xf86513413586b223, 0x670645c0e8222c8c) == 0x5f6b59021da8deaf;
    assert Add(0x5f6b59021da8deaf, 0xe09970ba9a9e7adc) == 0x4004c9bcb847598b;
  }

  lemma Seeded128Of128Weak4()
    ensures WeakHashLen32(Bytes128(), 96, 0xf4c5da7b49902864, 0xd7122011ef89031e) == (0x74deac4f4d1a68ab,
      0x2c83c886880d4fff)
  {
    hide Rotate, Fetch64, Pow2, Bytes128;
    Powers();
    Bytes128Words();
    assert Add(0xf4c5da7b49902864, 0x30d1509cddac4199) == 0x25972b18273c69fd;
    assert Add(0xd7122011ef89031e, 0x25972b18273c69fd) == 0xfca94b2a16c56d1b;
    assert Add(0xfca94b2a16c56d1b, 0x2b748a5fd5579189) == 0x281dd589ec1cfea4;
    RotateIs(21, 0x140eeac4f60, 0x1cfea4);
    assert Add(0x25972b18273c69fd, 0x349e1115d792cdfc) == 0x5a353c2dfecf37f9;
    assert Add(0x5a353c2dfecf37f9, 0xef34e5c178f39f29) == 0x496a21ef77c2d722;
    assert Add(0x496a21ef77c2d722, 0x2b748a5fd5579189) == 0x74deac4f4d1a68ab;
    RotateIs(44, 0x496a2, 0x1ef77c2d722);
    assert Add(0xe7f52140eeac4f60, 0x1ef77c2d722496a2) == 0x6ec9d6e60d0e602;
    assert Add(0x6ec9d6e60d0e602, 0x25972b18273c69fd) == 0x2c83c886880d4fff;
  }

  lemma Seeded128Of128Chunk2()
    ensures Step64(State64(0x91e2a29938a1606f, 0x60f52be505d3b970, 0x13376190b71eae, (0x5057e24d63fa70ef,
      0x7807ff70b9d04a46), (0x87f9845e5f3378be, 0x1aa03028778f2f37)), Bytes128(), 64) == State64(0xda25aa52d200f92d,
      0xc53b1b0e137da637, 0xd7acb0494bcc05c6, (0x4aafd1e4633d21c4, 0x4004c9bcb847598b), (0x74deac4f4d1a68ab,
      0x2c83c886880d4fff))
  {
    hide Xor64, Rotate, Fetch64, Pow2, WeakHashLen32, Bytes128;
    Powers();
    assert Add(0x91e2a29938a1606f, 0x60f52be505d3b970) == 0xf2d7ce7e3e7519df;
    assert Add(0xf2d7ce7e3e7519df, 0x5057e24d63fa70ef) == 0x432fb0cba26f8ace;
    Bytes128Words();
    assert Add(0x432fb0cba26f8ace, 0x305850b1edb236bf) == 0x7388017d9021c18d;
    RotateIs(37, 0x39c400b, 0x1d9021c18d);
    assert Mul(0xec810e0c6b9c400b, K1) == 0xcd0c80613c432af1;
    assert Add(0x60f52be505d3b970, 0x7807ff70b9d04a46) == 0xd8fd2b55bfa403b6;
    assert Add(0xd8fd2b55bfa403b6, 0xef34e5c178f39f29) == 0xc83211173897a2df;
    RotateIs(42, 0x320c84, 0x1173897a2df);
    assert Mul(0x45ce25e8b7f20c84, K1) == 0x404527aad7f0674c;
    Xor64Is(0xcd0c80613c432af1, 0x1aa03028778f2f37);
    assert Add(0x404527aad7f0674c, 0x5057e24d63fa70ef) == 0x909d09f83bead83b;
    assert Add(0x909d09f83bead83b, 0x349e1115d792cdfc) == 0xc53b1b0e137da637;
    assert Add(0x13376190b71eae, 0x87f9845e5f3378be) == 0x880cbbbfefea976c;
    RotateIs(33, 0x44065ddf, 0x1efea976c);
    assert Mul(0xf7f54bb644065ddf, K1) == 0xda25aa52d200f92d;
    assert Mul(0x7807ff70b9d04a46, K1) == 0x9f132706c578972;
    assert Add(0xd7acb0494bcc05c6, 0x87f9845e5f3378be) == 0x5fa634a7aaff7e84;
    Seeded128Of128Weak3();
    assert Add(0xda25aa52d200f92d, 0x1aa03028778f2f37) == 0xf4c5da7b49902864;
    assert Add(0xc53b1b0e137da637, 0x11d70503dc0b5ce7) == 0xd7122011ef89031e;
    Seeded128Of128Weak4();
  }

  lemma Seeded128Of128Turn()
    ensures Turn(State64(0xda25aa52d200f92d, 0xc53b1b0e137da637, 0xd7acb0494bcc05c6, (0x4aafd1e4633d21c4,
      0x4004c9bcb847598b), (0x74deac4f4d1a68ab, 0x2c83c886880d4fff))) == State64(0x6a0f66bcceca652f,
      0x838d80d13cf5f7a5, 0xbea12d7393075113, (0xaa46b39e3432a8dc, 0x4004c9bcb847598b), (0x1bd40ec9b5edae03,
      0x2c83c886880d4fff))
  {
    hide Rotate, Pow2;
    Powers();
    RotateIs(49, 0x112e, 0x822daf09278a);
    assert Mul(0x4116d78493c5112e, K0) == 0x8fe9bc69fcc96c02;
    assert Mul(0xc53b1b0e137da637, K0) == 0x4f4d16514391d961;
    RotateIs(37, 0x1641e44, 0x6880d4fff);
    assert Mul(0xd7acb0494bcc05c6, K0) == 0x1b541804f731c72a;
    RotateIs(27, 0xe9bd589e9, 0x51a68ab);
    assert Mul(0x4aafd1e4633d21c4, K0) == 0xaa46b39e3432a8dc;
    assert Mul(0x74deac4f4d1a68ab, 9) == 0x1bd40ec9b5edae03;
  }

  lemma Seeded128Of128Mix1()
    ensures HashLen16(0x6a0f66bcceca652f, 0xaa46b39e3432a8dc) == 0xf552a924aad06ea2
  {
    hide Xor64, ShiftMix;
    Xor64Is(0x6a0f66bcceca652f, 0xaa46b39e3432a8dc);
    assert Mul(0xc049d522faf8cdf3, K_MUL) == 0x467c6a89ca682fab;
    ShiftMixIs(0x467c6a89ca682fab, 0x8cf8);
    Xor64Is(0xaa46b39e3432a8dc, 0x467c6a89ca68a353);
    assert Mul(0xec3ad917fe5a0b8f, K_MUL) == 0xc5faa153f33ee0a7;
    ShiftMixIs(0xc5faa153f33ee0a7, 0x18bf5);
    assert Mul(0xc5faa153f33f6b52, K_MUL) == 0xf552a924aad06ea2;
  }

  lemma Seeded128Of128Mix2()
    ensures HashLen16(0x422eae44cffd48b8, 0x1bd40ec9b5edae03) == 0xc894ae99a33a07cd
  {
    hide Xor64, ShiftMix;
    Xor64Is(0x422eae44cffd48b8, 0x1bd40ec9b5edae03);
    assert Mul(0x59faa08d7a10e6bb, K_MUL) == 0xe35813d42b6581b3;
    ShiftMixIs(0xe35813d42b6581b3, 0x1c6b0);
    Xor64Is(0x1bd40ec9b5edae03, 0xe35813d42b644703);
    assert Mul(0xf88c1d1d9e89e900, K_MUL) == 0x1be2b5123c859100;
    ShiftMixIs(0x1be2b5123c859100, 0x37c5);
    assert Mul(0x1be2b5123c85a6c5, K_MUL) == 0xc894ae99a33a07cd;
  }

  lemma Seeded128Of128Mix3()
    ensures HashLen16(0x355772e16317c82d, 0x2c83c886880d4fff) == 0x57b6cb1e53dc8697
  {
    hide Xor64, ShiftMix;
    Xor64Is(0x355772e16317c82d, 0x2c83c886880d4fff);
    assert Mul(0x19d4ba67eb1a87d2, K_MUL) == 0xdb79b3fe93b19f22;
    ShiftMixIs(0xdb79b3fe93b19f22, 0x1b6f3);
    Xor64Is(0x2c83c886880d4fff, 0xdb79b3fe93b029d1);
    assert Mul(0xf7fa7b781bbd662e, K_MUL) == 0x3690ecce3fb4fede;
    ShiftMixIs(0x3690ecce3fb4fede, 0x6d21);
    assert Mul(0x3690ecce3fb493ff, K_MUL) == 0x57b6cb1e53dc8697;
  }

  lemma Seeded128Of128Mix4()
    ensures HashLen16(0x21d671ab32ddbea1, 0x89978565b816158) == 0xdf29ed6671c36952
  {
    hide Xor64, ShiftMix;
    Xor64Is(0x21d671ab32ddbea1, 0x89978565b816158);
    assert Mul(0x294f09fd695cdff9, K_MUL) == 0xa3db8c281beea221;
    ShiftMixIs(0xa3db8c281beea221, 0x147b7);
    Xor64Is(0x89978565b816158, 0xa3db8c281befe596);
    assert Mul(0xab42f47e406e84ce, K_MUL) == 0x727e77a201bcae7e;
    ShiftMixIs(0x727e77a201bcae7e, 0xe4fc);
    assert Mul(0x727e77a201bc4a82, K_MUL) == 0xdf29ed6671c36952;
  }

  lemma Seeded128Of128Finish()
    ensures Finish128(State64(0x6a0f66bcceca652f, 0x838d80d13cf5f7a5, 0xbea12d7393075113, (0xaa46b39e3432a8dc,
      0x4004c9bcb847598b), (0x1bd40ec9b5edae03, 0x2c83c886880d4fff))) == (0x204b79b7f7168e64, 0xdf29ed6671c36952)
  {
    hide HashLen16;
    Seeded128Of128Mix1();
    Seeded128Of128Mix2();
    Seeded128Of128Mix3();
    Seeded128Of128Mix4();
  }

  lemma CityHash128WithSeedOf128Bytes()
    ensures City128(Bytes128(), 0x12d687, K0) == (0x204b79b7f7168e64, 0xdf29ed6671c36952)
  {
    hide Start128, Step64, Rounds64, Turn, StepTail, Finish128, Bytes128;
    Seeded128Of128Start();
    Seeded128Of128Chunk1();
    Seeded128Of128Chunk2();
    OneChunk(State64(0x12d687, K0, 0x495b37df4c793980, (0xdfb851aa1eef3784, 0xe5262b11a9c3ddfe), (0xcbfd664bef6fd7ac,
      0x7e962dfdd0d0754d)), Bytes128(), 0, 2);
    OneChunk(State64(0x91e2a29938a1606f, 0x60f52be505d3b970, 0x13376190b71eae, (0x5057e24d63fa70ef,
      0x7807ff70b9d04a46), (0x87f9845e5f3378be, 0x1aa03028778f2f37)), Bytes128(), 64, 1);
    NoChunksLeft(State64(0xda25aa52d200f92d, 0xc53b1b0e137da637, 0xd7acb0494bcc05c6, (0x4aafd1e4633d21c4,
      0x4004c9bcb847598b), (0x74deac4f4d1a68ab, 0x2c83c886880d4fff)), Bytes128(), 128);
    Seeded128Of128Turn();
    Seeded128Of128Finish();
  }

  lemma Seeded128Of192Start()
    ensures Start128(Bytes192(), 0x12d687, K0) == State64(0x12d687, K0, 0x6e08d3cef2b5d640, (0x43ad382bea11670,
      0x94ace387d4344f2c), (0x4134a3a7992c9546, 0xf9a8115bf5f9f304))
  {
    hide Xor64, Rotate, Fetch64, Pow2, Bytes192;
    Powers();
    assert (192 * K1) % W64 == 0x6e08d3cef2b5d640;
    Xor64Is(0xc3a5c85c97cb3127, 0xb492b66fbe98f273);
    RotateIs(49, 0x3b9b, 0x17e332953c354);
    assert Mul(0xbf1994a9e1aa3b9b, K1) == 0x3af6bf28b9d94ca1;
    Bytes192Words();
    RotateIs(42, 0x10eb4, 0x382bea11670);
    assert Mul(0xe0afa8459c010eb4, K1) == 0xe6a92654673fc2dc;
    RotateIs(35, 0x635d385, 0x38a810767);
    assert Mul(0x715020ece635d385, K1) == 0x4134a3a79919bebf;
    RotateIs(53, 0x3ec, 0x111c2cfdd43a51);
    assert Mul(0x88e167eea1d28bec, K1) == 0xf9a8115bf5f9f304;
  }

  lemma Seeded128Of192Weak1()
    ensures WeakHashLen32(Bytes192(), 0, 0x6af50a83707728c4, 0x3f2034ae01e0f222) == (0xe7484a9e70629603,
      0xb4df80a3374c7a62)
  {
    hide Rotate, Fetch64, Pow2, Bytes192;
    Powers();
    Bytes192Words();
    assert Add(0x6af50a83707728c4, 0xc944145a04c7c9cf) == 0x34391edd753ef293;
    assert Add(0x3f2034ae01e0f222, 0x34391edd753ef293) == 0x7359538b771fe4b5;
    assert Add(0x7359538b771fe4b5, 0xf72e90454f7b7dd5) == 0x6a87e3d0c69b628a;
    RotateIs(21, 0x3543f1e8634, 0x1b628a);
    assert Add(0x34391edd753ef293, 0xae03bd336cf48c50) == 0xe23cdc10e2337ee3;
    assert Add(0xe23cdc10e2337ee3, 0xddcde483eb3994b) == 0xf019ba5920e7182e;
    assert Add(0xf019ba5920e7182e, 0xf72e90454f7b7dd5) == 0xe7484a9e70629603;
    RotateIs(44, 0xf019b, 0xa5920e7182e);
    assert Add(0xdb1453543f1e8634, 0xa5920e7182ef019b) == 0x80a661c5c20d87cf;
    assert Add(0x80a661c5c20d87cf, 0x34391edd753ef293) == 0xb4df80a3374c7a62;
  }

  lemma Seeded128Of192Weak2()
    ensures WeakHashLen32(Bytes192(), 32, 0xb4ca0e99a0c70e05, 0x431d8e64136da854) == (0x8399b1341d3b1ad1,
      0x93544c9114611796)
  {
    hide Rotate, Fetch64, Pow2, Bytes192;
    Powers();
    Bytes192Words();
    assert Add(0xb4ca0e99a0c70e05, 0xcc599c4bd10a76f6) == 0x8123aae571d184fb;
    assert Add(0x431d8e64136da854, 0x8123aae571d184fb) == 0xc4413949853f2d4f;
    assert Add(0xc4413949853f2d4f, 0x450d622bb5a507f6) == 0x94e9b753ae43545;
    RotateIs(21, 0x4a74dba9d7, 0x43545);
    assert Add(0x8123aae571d184fb, 0xa71ec083dca5cde0) == 0x28426b694e7752db;
    assert Add(0x28426b694e7752db, 0x1649e39f191ec000) == 0x3e8c4f08679612db;
    assert Add(0x3e8c4f08679612db, 0x450d622bb5a507f6) == 0x8399b1341d3b1ad1;
    RotateIs(44, 0x3e8c4, 0xf08679612db);
    assert Add(0x21aa284a74dba9d7, 0xf08679612db3e8c4) == 0x1230a1aba28f929b;
    assert Add(0x1230a1aba28f929b, 0x8123aae571d184fb) == 0x93544c9114611796;
  }

  lemma Seeded128Of192Chunk1()
    ensures Step64(State64(0x12d687, K0, 0x6e08d3cef2b5d640, (0x43ad382bea11670, 0x94ace387d4344f2c),
      (0x4134a3a7992c9546, 0xf9a8115bf5f9f304)), Bytes192(), 0) == State64(0xbb21fd3daacd1b01, 0x3540b01bd4ba0f09,
      0xfdeb910668b45cdc, (0xe7484a9e70629603, 0xb4df80a3374c7a62), (0x8399b1341d3b1ad1, 0x93544c9114611796))
  {
    hide Xor64, Rotate, Fetch64, Pow2, WeakHashLen32, Bytes192;
    Powers();
    assert Add(0x12d687, K0) == 0xc3a5c85c97de07ae;
    assert Add(0xc3a5c85c97de07ae, 0x43ad382bea11670) == 0xc7e09bdf567f1e1e;
    Bytes192Words();
    assert Add(0xc7e09bdf567f1e1e, 0xae03bd336cf48c50) == 0x75e45912c373aa6e;
    RotateIs(37, 0x3af22c8, 0x12c373aa6e);
    assert Mul(0x961b9d5373af22c8, K1) == 0x443805d9d4dafd8;
    assert Add(K0, 0x94ace387d4344f2c) == 0x5852abe46bff8053;
    assert Add(0x5852abe46bff8053, 0x1649e39f191ec000) == 0x6e9c8f83851e4053;
    RotateIs(42, 0x1ba723, 0x383851e4053);
    assert Mul(0xe0e1479014dba723, K1) == 0x89e71c1539732ab9;
    Xor64Is(0x443805d9d4dafd8, 0xf9a8115bf5f9f304);
    assert Add(0x89e71c1539732ab9, 0x43ad382bea11670) == 0x8e21ef97f8144129;
    assert Add(0x8e21ef97f8144129, 0xa71ec083dca5cde0) == 0x3540b01bd4ba0f09;
    assert Add(0x6e08d3cef2b5d640, 0x4134a3a7992c9546) == 0xaf3d77768be26b86;
    RotateIs(33, 0x579ebbbb, 0x8be26b86);
    assert Mul(0x45f135c3579ebbbb, K1) == 0xbb21fd3daacd1b01;
    assert Mul(0x94ace387d4344f2c, K1) == 0x6af50a83707728c4;
    assert Add(0xfdeb910668b45cdc, 0x4134a3a7992c9546) == 0x3f2034ae01e0f222;
    Seeded128Of192Weak1();
    assert Add(0xbb21fd3daacd1b01, 0xf9a8115bf5f9f304) == 0xb4ca0e99a0c70e05;
    assert Add(0x3540b01bd4ba0f09, 0xddcde483eb3994b) == 0x431d8e64136da854;
    Seeded128Of192Weak2();
  }

  lemma Seeded128Of192Weak3()
    ensures WeakHashLen32(Bytes192(), 64, 0x19036853893b9e06, 0x37ed528a64a66f51) == (0x89e1bde312c83986,
      0xce1bc8c152a0a3e0)
  {
    hide Rotate, Fetch64, Pow2, Bytes192;
    Powers();
    Bytes192Words();
    assert Add(0x19036853893b9e06, 0xd5fe0adc6e9505ff) == 0xef01732ff7d0a405;
    assert Add(0x37ed528a64a66f51, 0xef01732ff7d0a405) == 0x26eec5ba5c771356;
    assert Add(0x26eec5ba5c771356, 0x7d911c2cfdc163ca) == 0xa47fe1e75a387720;
    RotateIs(21, 0x523ff0f3ad1, 0x187720);
    assert Add(0xef01732ff7d0a405, 0xe57aaa5abac08e9f) == 0xd47c1d8ab29132a4;
    assert Add(0xd47c1d8ab29132a4, 0x37d4842b6275a318) == 0xc50a1b61506d5bc;
    assert Add(0xc50a1b61506d5bc, 0x7d911c2cfdc163ca) == 0x89e1bde312c83986;
    RotateIs(44, 0xc50a, 0x1b61506d5bc);
    assert Add(0xc3b90523ff0f3ad1, 0x1b61506d5bc0c50a) == 0xdf1a55915acfffdb;
    assert Add(0xdf1a55915acfffdb, 0xef01732ff7d0a405) == 0xce1bc8c152a0a3e0;
  }

  lemma Seeded128Of192Weak4()
    ensures WeakHashLen32(Bytes192(), 96, 0xfc3a10f7d754e19d, 0x7b64f8f7e67cf254) == (0x302959157f621979,
      0xbdacd6342515a152)
  {
    hide Rotate, Fetch64, Pow2, Bytes192;
    Powers();
    Bytes192Words();
    assert Add(0xfc3a10f7d754e19d, 0xa8f4996f8a043968) == 0xa52eaa6761591b05;
    assert Add(0x7b64f8f7e67cf254, 0xa52eaa6761591b05) == 0x2093a35f47d60d59;
    assert Add(0x2093a35f47d60d59, 0x3ba28c4874536856) == 0x5c362fa7bc2975af;
    RotateIs(21, 0x2e1b17d3de1, 0x975af);
    assert Add(0xa52eaa6761591b05, 0xd5b347a418aff493) == 0x7ae1f20b7a090f98;
    assert Add(0x7ae1f20b7a090f98, 0x79a4dac19105a18b) == 0xf486cccd0b0eb123;
    assert Add(0xf486cccd0b0eb123, 0x3ba28c4874536856) == 0x302959157f621979;
    RotateIs(44, 0xf486c, 0xccd0b0eb123);
    assert Add(0x4bad7ae1b17d3de1, 0xccd0b0eb123f486c) == 0x187e2bccc3bc864d;
    assert Add(0x187e2bccc3bc864d, 0xa52eaa6761591b05) == 0xbdacd6342515a152;
  }

  lemma Seeded128Of192Chunk2()
    ensures Step64(State64(0xbb21fd3daacd1b01, 0x3540b01bd4ba0f09, 0xfdeb910668b45cdc, (0xe7484a9e70629603,
      0xb4df80a3374c7a62), (0x8399b1341d3b1ad1, 0x93544c9114611796)), Bytes192(), 64) == State64(0x68e5c466c2f3ca07,
      0x439074cc84074f3c, 0xb453a156476b5480, (0x89e1bde312c83986, 0xce1bc8c152a0a3e0), (0x302959157f621979,
      0xbdacd6342515a152))
  {
    hide Xor64, Rotate, Fetch64, Pow2, WeakHashLen32, Bytes192;
    Powers();
    assert Add(0xbb21fd3daacd1b01, 0x3540b01bd4ba0f09) == 0xf062ad597f872a0a;
    assert Add(0xf062ad597f872a0a, 0xe7484a9e70629603) == 0xd7aaf7f7efe9c00d;
    Bytes192Words();
    assert Add(0xd7aaf7f7efe9c00d, 0xe57aaa5abac08e9f) == 0xbd25a252aaaa4eac;
    RotateIs(37, 0x5e92d12, 0x12aaaa4eac);
    assert Mul(0x9555527565e92d12, K1) == 0x2707edc7530a4316;
    assert Add(0x3540b01bd4ba0f09, 0xb4df80a3374c7a62) == 0xea2030bf0c06896b;
    assert Add(0xea2030bf0c06896b, 0x79a4dac19105a18b) == 0x63c50b809d0c2af6;
    RotateIs(42, 0x18f142, 0x3809d0c2af6);
    assert Mul(0xe027430abd98f142, K1) == 0x8694e289faf4c4a6;
    Xor64Is(0x2707edc7530a4316, 0x93544c9114611796);
    assert Add(0x8694e289faf4c4a6, 0xe7484a9e70629603) == 0x6ddd2d286b575aa9;
    assert Add(0x6ddd2d286b575aa9, 0xd5b347a418aff493) == 0x439074cc84074f3c;
    assert Add(0xfdeb910668b45cdc, 0x8399b1341d3b1ad1) == 0x8185423a85ef77ad;
    RotateIs(33, 0x40c2a11d, 0x85ef77ad);
    assert Mul(0x42f7bbd6c0c2a11d, K1) == 0x68e5c466c2f3ca07;
    assert Mul(0xb4df80a3374c7a62, K1) == 0x19036853893b9e06;
    assert Add(0xb453a156476b5480, 0x8399b1341d3b1ad1) == 0x37ed528a64a66f51;
    Seeded128Of192Weak3();
    assert Add(0x68e5c466c2f3ca07, 0x93544c9114611796) == 0xfc3a10f7d754e19d;
    assert Add(0x439074cc84074f3c, 0x37d4842b6275a318) == 0x7b64f8f7e67cf254;
    Seeded128Of192Weak4();
  }

  lemma Seeded128Of192Turn()
    ensures Turn(State64(0x68e5c466c2f3ca07, 0x439074cc84074f3c, 0xb453a156476b5480, (0x89e1bde312c83986,
      0xce1bc8c152a0a3e0), (0x302959157f621979, 0xbdacd6342515a152))) == State64(0x6de73695acff80fd,
      0xc0c5f89051c8f4d5, 0xb58395e9f331822f, (0xc23bf0bd6c5696a, 0xce1bc8c152a0a3e0), (0xb17421c17a72e541,
      0xbdacd6342515a152))
  {
    hide Rotate, Pow2;
    Powers();
    RotateIs(49, 0x1f1a, 0x15f395a338e06);
    assert Mul(0xaf9cad19c7031f1a, K0) == 0x501722eea0bb6f6;
    assert Mul(0x439074cc84074f3c, K0) == 0x1f9d4b85bbdb8e24;
    RotateIs(37, 0x5ed66b1, 0x142515a152);
    assert Mul(0xb453a156476b5480, K0) == 0xc94066c3ee065f80;
    RotateIs(27, 0x6052b22af, 0x7621979);
    assert Mul(0x89e1bde312c83986, K0) == 0xc23bf0bd6c5696a;
    assert Mul(0x302959157f621979, 9) == 0xb17421c17a72e541;
  }

  lemma Seeded128Of192Weak5()
    ensures WeakHashLen32(Bytes192(), 160, 0xae65f08c060d52e7, 0xce1bc8c152a0a3e0) == (0x4e9661699e441708,
      0x36a0ac74b5721395)
  {
    hide Rotate, Fetch64, Pow2, Bytes192;
    Powers();
    Bytes192Words();
    assert Add(0xae65f08c060d52e7, 0x2f11c5621700c5fc) == 0xdd77b5ee1d0e18e3;
    assert Add(0xce1bc8c152a0a3e0, 0xdd77b5ee1d0e18e3) == 0xab937eaf6faebcc3;
    assert Add(0xab937eaf6faebcc3, 0x2638657f2ac49374) == 0xd1cbe42e9a735037;
    RotateIs(21, 0x68e5f2174d3, 0x135037);
    assert Add(0xdd77b5ee1d0e18e3, 0x1f397c3e96838ea2) == 0xfcb1322cb391a785;
    assert Add(0xfcb1322cb391a785, 0x2bacc9bdbfeddc0f) == 0x285dfbea737f8394;
    assert Add(0x285dfbea737f8394, 0x2638657f2ac49374) == 0x4e9661699e441708;
    RotateIs(44, 0x285df, 0xbea737f8394);
    assert Add(0x9a81be8e5f2174d3, 0xbea737f8394285df) == 0x5928f6869863fab2;
    assert Add(0x5928f6869863fab2, 0xdd77b5ee1d0e18e3) == 0x36a0ac74b5721395;
  }

  lemma Seeded128Of192Tail1()
    ensures StepTail(State64(0x6de73695acff80fd, 0xc0c5f89051c8f4d5, 0xb58395e9f331822f, (0xc23bf0bd6c5696a,
      0xce1bc8c152a0a3e0), (0xb17421c17a72e541, 0xbdacd6342515a152)), Bytes192(), 32) == State64(0x1130c906009cd4db,
      0x171c824ae12a174d, 0xa24231802f47e97d, (0x4f473ed620200a38, 0x36a0ac74b5721395), (0xdd20eb7f3a60c150,
      0xc9d0953ffbdb0abc))
  {
    hide Rotate, Pow2, Fetch64, WeakHashLen32, Bytes192;
    Powers();
    RotateIs(42, 0xbab4b, 0x325fec875d2);
    assert Mul(0xc97fb21d748bab4b, K0) == 0x4900b9898e89736d;
    Bytes192Words();
    assert Mul(0x6de73695acff80fd, K0) == 0x340fdd86c63c138b;
    Seeded128Of192Weak5();
    assert Mul(0x4e9661699e441708, K0) == 0x4f473ed620200a38;
  }

  lemma Seeded128Of192Weak6()
    ensures WeakHashLen32(Bytes192(), 128, 0xaf648276d8a81649, 0x36a0ac74b5721395) == (0x3d4a879740dcc834,
      0xd84593cd9a4e5d73)
  {
    hide Rotate, Fetch64, Pow2, Bytes192;
    Powers();
    Bytes192Words();
    assert Add(0xaf648276d8a81649, 0xf40a7ce08d6517d8) == 0xa36eff57660d2e21;
    assert Add(0x36a0ac74b5721395, 0xa36eff57660d2e21) == 0xda0fabcc1b7f41b6;
    assert Add(0xda0fabcc1b7f41b6, 0xb8be8350b6decc08) == 0x92ce2f1cd25e0dbe;
    RotateIs(21, 0x4967178e692, 0x1e0dbe);
    assert Add(0xa36eff57660d2e21, 0x9dc3f342dc772a55) == 0x4132f29a42845876;
    assert Add(0x4132f29a42845876, 0x435911ac4779a3b6) == 0x848c044689fdfc2c;
    assert Add(0x848c044689fdfc2c, 0xb8be8350b6decc08) == 0x3d4a879740dcc834;
    RotateIs(44, 0x848c0, 0x44689fdfc2c);
    assert Add(0xf06df4967178e692, 0x44689fdfc2c848c0) == 0x34d6947634412f52;
    assert Add(0x34d6947634412f52, 0xa36eff57660d2e21) == 0xd84593cd9a4e5d73;
  }

  lemma Seeded128Of192Tail2()
    ensures StepTail(State64(0x1130c906009cd4db, 0x171c824ae12a174d, 0xa24231802f47e97d, (0x4f473ed620200a38,
      0x36a0ac74b5721395), (0xdd20eb7f3a60c150, 0xc9d0953ffbdb0abc)), Bytes192(), 64) == State64(0xc85057d19525bd63,
      0x3fccb5b9dab3b713, 0x601d43a0b8880c11, (0xc7c5d74e913073ec, 0xd84593cd9a4e5d73), (0x2079fd2b81da6506,
      0x1917d4161bfb14f4))
  {
    hide Rotate, Pow2, Fetch64, WeakHashLen32, Bytes192;
    Powers();
    RotateIs(42, 0xa1352, 0x350e1c6ec28);
    assert Mul(0xd43871bb0a0a1352, K0) == 0x92c09452541a37e;
    Bytes192Words();
    assert Mul(0x1130c906009cd4db, K0) == 0xa7d65aa6134b585d;
    Seeded128Of192Weak6();
    assert Mul(0x3d4a879740dcc834, K0) == 0xc7c5d74e913073ec;
  }

  lemma Seeded128Of192Mix1()
    ensures HashLen16(0xc85057d19525bd63, 0xc7c5d74e913073ec) == 0xff69d72b12780b2a
  {
    hide Xor64, ShiftMix;
    Xor64Is(0xc85057d19525bd63, 0xc7c5d74e913073ec);
    assert Mul(0xf95809f0415ce8f, K_MUL) == 0x7884c8caf688dba7;
    ShiftMixIs(0x7884c8caf688dba7, 0xf109);
    Xor64Is(0xc7c5d74e913073ec, 0x7884c8caf6882aae);
    assert Mul(0xbf411f8467b85942, K_MUL) == 0x4e443bdd0ebd3612;
    ShiftMixIs(0x4e443bdd0ebd3612, 0x9c88);
    assert Mul(0x4e443bdd0ebdaa9a, K_MUL) == 0xff69d72b12780b2a;
  }

  lemma Seeded128Of192Mix2()
    ensures HashLen16(0x9fe9f95a933bc324, 0x2079fd2b81da6506) == 0xe49f27cce18e67e
  {
    hide Xor64, ShiftMix;
    Xor64Is(0x9fe9f95a933bc324, 0x2079fd2b81da6506);
    assert Mul(0xbf90047112e1a622, K_MUL) == 0x12713c9ff6311df2;
    ShiftMixIs(0x12713c9ff6311df2, 0x24e2);
    Xor64Is(0x2079fd2b81da6506, 0x12713c9ff6313910);
    assert Mul(0x3208c1b477eb5c16, K_MUL) == 0xafe471cde588a306;
    ShiftMixIs(0xafe471cde588a306, 0x15fc8);
    assert Mul(0xafe471cde589fcce, K_MUL) == 0xe49f27cce18e67e;
  }

  lemma Seeded128Of192Mix3()
    ensures HashLen16(0xd7af6af8acc6689d, 0x1917d4161bfb14f4) == 0x4f32d309cd961873
  {
    hide Xor64, ShiftMix;
    Xor64Is(0xd7af6af8acc6689d, 0x1917d4161bfb14f4);
    assert Mul(0xceb8beeeb73d7c69, K_MUL) == 0xdbdeaa0e910e7c11;
    ShiftMixIs(0xdbdeaa0e910e7c11, 0x1b7bd);
    Xor64Is(0x1917d4161bfb14f4, 0xdbdeaa0e910fcbac);
    assert Mul(0xc2c97e188af4df58, K_MUL) == 0x1e31a1d4acf21318;
    ShiftMixIs(0x1e31a1d4acf21318, 0x3c63);
    assert Mul(0x1e31a1d4acf22f7b, K_MUL) == 0x4f32d309cd961873;
  }

  lemma Seeded128Of192Mix4()
    ensures HashLen16(0x1881ab412e73201e, 0xe68f864a686743f1) == 0x9644c5853af9cfeb
  {
    hide Xor64, ShiftMix;
    Xor64Is(0x1881ab412e73201e, 0xe68f864a686743f1);
    assert Mul(0xfe0e2d0b461463ef, K_MUL) == 0x59b4169b95360007;
    ShiftMixIs(0x59b4169b95360007, 0xb368);
    Xor64Is(0xe68f864a686743f1, 0x59b4169b9536b36f);
    assert Mul(0xbf3b90d1fd51f09e, K_MUL) == 0xa97ee265fa7776ce;
    ShiftMixIs(0xa97ee265fa7776ce, 0x152fd);
    assert Mul(0xa97ee265fa762433, K_MUL) == 0x9644c5853af9cfeb;
  }

  lemma Seeded128Of192Finish()
    ensures Finish128(State64(0xc85057d19525bd63, 0x3fccb5b9dab3b713, 0x601d43a0b8880c11, (0xc7c5d74e913073ec,
      0xd84593cd9a4e5d73), (0x2079fd2b81da6506, 0x1917d4161bfb14f4))) == (0x5d7cc5869baefef1, 0x9644c5853af9cfeb)
  {
    hide HashLen16;
    Seeded128Of192Mix1();
    Seeded128Of192Mix2();
    Seeded128Of192Mix3();
    Seeded128Of192Mix4();
  }

  lemma CityHash128WithSeedOf192Bytes()
    ensures City128(Bytes192(), 0x12d687, K0) == (0x5d7cc5869baefef1, 0x9644c5853af9cfeb)
  {
    hide Start128, Step64, Rounds64, Turn, StepTail, Finish128, Bytes192;
    Seeded128Of192Start();
    Seeded128Of192Chunk1();
    Seeded128Of192Chunk2();
    OneChunk(State64(0x12d687, K0, 0x6e08d3cef2b5d640, (0x43ad382bea11670, 0x94ace387d4344f2c), (0x4134a3a7992c9546,
      0xf9a8115bf5f9f304)), Bytes192(), 0, 2);
    OneChunk(State64(0xbb21fd3daacd1b01, 0x3540b01bd4ba0f09, 0xfdeb910668b45cdc, (0xe7484a9e70629603,
      0xb4df80a3374c7a62), (0x8399b1341d3b1ad1, 0x93544c9114611796)), Bytes192(), 64, 1);
    NoChunksLeft(State64(0x68e5c466c2f3ca07, 0x439074cc84074f3c, 0xb453a156476b5480, (0x89e1bde312c83986,
      0xce1bc8c152a0a3e0), (0x302959157f621979, 0xbdacd6342515a152)), Bytes192(), 128);
    Seeded128Of192Turn();
    Seeded128Of192Tail1();
    assert Tails(State64(0x6de73695acff80fd, 0xc0c5f89051c8f4d5, 0xb58395e9f331822f, (0xc23bf0bd6c5696a,
      0xce1bc8c152a0a3e0), (0xb17421c17a72e541, 0xbdacd6342515a152)), Bytes192(), 0, 64) ==
      Tails(State64(0x1130c906009cd4db, 0x171c824ae12a174d, 0xa24231802f47e97d, (0x4f473ed620200a38,
      0x36a0ac74b5721395), (0xdd20eb7f3a60c150, 0xc9d0953ffbdb0abc)), Bytes192(), 1, 64);
    Seeded128Of192Tail2();
    assert Tails(State64(0x1130c906009cd4db, 0x171c824ae12a174d, 0xa24231802f47e97d, (0x4f473ed620200a38,
      0x36a0ac74b5721395), (0xdd20eb7f3a60c150, 0xc9d0953ffbdb0abc)), Bytes192(), 1, 64) ==
      Tails(State64(0xc85057d19525bd63, 0x3fccb5b9dab3b713, 0x601d43a0b8880c11, (0xc7c5d74e913073ec,
      0xd84593cd9a4e5d73), (0x2079fd2b81da6506, 0x1917d4161bfb14f4)), Bytes192(), 2, 64);
    Seeded128Of192Finish();
  }

  /** Both uses of the seed, each branch of the short hash, the long hash without and with a tail. */
  lemma PublishedValues()
    ensures City128Unseeded(Bytes5()) == (0xdc07df53b949c6b, 0xd2b11b2081aeb002)
    ensures City128Unseeded(Bytes16()) == (0xac059617f5906673, 0x94d50d3dcd3069a7)
    ensures City128Unseeded(Bytes24()) == (0x6ee1f817ce0b7aee, 0xe9dcb3507f0596ca)
    ensures City128(Bytes16(), 0x12d687, K0) == (0x2b26c3b92dea0f0, 0x99b7374cc78fc3fb)
    ensures City128(Bytes48(), 0x12d687, K0) == (0xa674d85812c7cf6, 0x63538c0351049940)
    ensures City128(Bytes128(), 0x12d687, K0) == (0x204b79b7f7168e64, 0xdf29ed6671c36952)
    ensures City128(Bytes192(), 0x12d687, K0) == (0x5d7cc5869baefef1, 0x9644c5853af9cfeb)
  {
    CityHash128Of5Bytes();
    CityHash128Of16Bytes();
    CityHash128Of24Bytes();
    CityHash128WithSeedOf16Bytes();
    CityHash128WithSeedOf48Bytes();
    CityHash128WithSeedOf128Bytes();
    CityHash128WithSeedOf192Bytes();
  }
}
