/** The 64-bit hash on inputs of the published table: row i is the hash of the i bytes of test data at offset i * i. */
module CityVectors64 {
  import opened Words
  import opened Bits
  import opened CityMixers
  import opened CityHash
  import opened CityValues
  import opened CityInputs

  lemma CityHash64Of1Bytes()
    ensures City64(Bytes1()) == 0x541150e87f415e96
  {
    hide Xor64, ShiftMix;
    assert Mul(0xe4e4, K2) == 0xb35f5312d5bfa25c;
    assert Mul(0x391, K0) == 0xc23f92395baa4c17;
    Xor64Is(0xb35f5312d5bfa25c, 0xc23f92395baa4c17);
    ShiftMixIs(0x7160c12b8e15ee4b, 0xe2c1);
    assert Mul(0x7160c12b8e150c8a, K2) == 0x541150e87f415e96;
  }

  lemma CityHash64Of2Bytes()
    ensures City64(Bytes2()) == 0xf3786a4b25827c1
  {
    hide Xor64, ShiftMix;
    assert Mul(0xe73b, K2) == 0x18cee38f20461b35;
    assert Mul(0x39e, K0) == 0xb1aabeed10fbcb12;
    Xor64Is(0x18cee38f20461b35, 0xb1aabeed10fbcb12);
    ShiftMixIs(0xa9645d6230bdd027, 0x152c8);
    assert Mul(0xa9645d6230bc82ef, K2) == 0xf3786a4b25827c1;
  }

  lemma CityHash64Of3Bytes()
    ensures City64(Bytes3()) == 0xef923a7a1af78eab
  {
    hide Xor64, ShiftMix;
    assert Mul(0xb0aa, K2) == 0xd2b93c00c2010476;
    assert Mul(0x33b, K0) == 0x88e431e5d67c8fd;
    Xor64Is(0xd2b93c00c2010476, 0x88e431e5d67c8fd);
    ShiftMixIs(0xda377f1e9f66cc8b, 0x1b46e);
    assert Mul(0xda377f1e9f6778e5, K2) == 0xef923a7a1af78eab;
  }

  lemma City64Of4Mix()
    ensures HashLen16Mul(0x1653981dc, 0x2ca7303b, 0x9ae16a3b2f904057) == 0x11df592596f41d88
  {
    hide Xor64, ShiftMix;
    Xor64Is(0x1653981dc, 0x2ca7303b);
    assert Mul(0x1499eb1e7, 0x9ae16a3b2f904057) == 0x3c8185022c583581;
    ShiftMixIs(0x3c8185022c583581, 0x7903);
    Xor64Is(0x2ca7303b, 0x3c8185022c584c82);
    assert Mul(0x3c81850200ff7cb9, 0x9ae16a3b2f904057) == 0xdb3842d5511a2df;
    ShiftMixIs(0xdb3842d5511a2df, 0x1b67);
    assert Mul(0xdb3842d5511b9b8, 0x9ae16a3b2f904057) == 0x11df592596f41d88;
  }

  lemma CityHash64Of4Bytes()
    ensures City64(Bytes4()) == 0x11df592596f41d88
  {
    hide HashLen16Mul;
    assert Fetch32(Bytes4(), 0) == 0x2ca7303b && Fetch32(Bytes4(), 0) == 0x2ca7303b;
    City64Of4Mix();
  }

  lemma City64Of7Mix()
    ensures HashLen16Mul(0x33f8acfc7, 0xc24d2767, 0x9ae16a3b2f90405d) == 0x1b5a063fb4c7f9f1
  {
    hide Xor64, ShiftMix;
    Xor64Is(0x33f8acfc7, 0xc24d2767);
    assert Mul(0x3fdc7e8a0, 0x9ae16a3b2f90405d) == 0xb5dc51ed65c78220;
    ShiftMixIs(0xb5dc51ed65c78220, 0x16bb8);
    Xor64Is(0xc24d2767, 0xb5dc51ed65c6e998);
    assert Mul(0xb5dc51eda78bceff, 0x9ae16a3b2f90405d) == 0xb20361a311f9f2a3;
    ShiftMixIs(0xb20361a311f9f2a3, 0x16406);
    assert Mul(0xb20361a311f896a5, 0x9ae16a3b2f90405d) == 0x1b5a063fb4c7f9f1;
  }

  lemma CityHash64Of7Bytes()
    ensures City64(Bytes7()) == 0x1b5a063fb4c7f9f1
  {
    hide HashLen16Mul;
    assert Fetch32(Bytes7(), 0) == 0x67f159f8 && Fetch32(Bytes7(), 3) == 0xc24d2767;
    City64Of7Mix();
  }

  lemma City64Of8Mix()
    ensures HashLen16Mul(0x80ed21bc3712a440, 0x550f3a771e1106da, 0x9ae16a3b2f90405f) == 0xa0f10149a0e538d6
  {
    hide Xor64, ShiftMix;
    Xor64Is(0x80ed21bc3712a440, 0x550f3a771e1106da);
    assert Mul(0xd5e21bcb2903a29a, 0x9ae16a3b2f90405f) == 0x572e1508dd9fd726;
    ShiftMixIs(0x572e1508dd9fd726, 0xae5c);
    Xor64Is(0x550f3a771e1106da, 0x572e1508dd9f797a);
    assert Mul(0x2212f7fc38e7fa0, 0x9ae16a3b2f90405f) == 0xc14564c35bc95c60;
    ShiftMixIs(0xc14564c35bc95c60, 0x1828a);
    assert Mul(0xc14564c35bc8deea, 0x9ae16a3b2f90405f) == 0xa0f10149a0e538d6;
  }

  lemma CityHash64Of8Bytes()
    ensures City64(Bytes8()) == 0xa0f10149a0e538d6
  {
    hide HashLen16Mul, Rotate, Fetch64, Pow2, Bytes8;
    Powers();
    assert Add(K2, 0x10) == 0x9ae16a3b2f90405f;
    Bytes8Words();
    assert Add(0xa0f8cdc16024411f, K2) == 0x3bda37fc8fb4816e;
    RotateIs(37, 0x507c66e, 0x16024411f);
    assert Mul(0xb012208fd07c66e, 0x9ae16a3b2f90405f) == 0x4512e9bfa75e22d2;
    assert Add(0x4512e9bfa75e22d2, 0x3bda37fc8fb4816e) == 0x80ed21bc3712a440;
    RotateIs(25, 0x1ded1bfe47, 0x1b4816e);
    assert Add(0xda40b71ded1bfe47, 0xa0f8cdc16024411f) == 0x7b3984df4d403f66;
    assert Mul(0x7b3984df4d403f66, 0x9ae16a3b2f90405f) == 0x550f3a771e1106da;
    City64Of8Mix();
  }

  lemma City64Of16Mix()
    ensures HashLen16Mul(0x4362060ca2474e6c, 0x16873ac17b7ce898, 0x9ae16a3b2f90406f) == 0x3ead5f21d344056
  {
    hide Xor64, ShiftMix;
    Xor64Is(0x4362060ca2474e6c, 0x16873ac17b7ce898);
    assert Mul(0x55e53ccdd93ba6f4, 0x9ae16a3b2f90406f) == 0xd4997b00cfda63cc;
    ShiftMixIs(0xd4997b00cfda63cc, 0x1a932);
    Xor64Is(0x16873ac17b7ce898, 0xd4997b00cfdbcafe);
    assert Mul(0xc21e41c1b4a72266, 0x9ae16a3b2f90406f) == 0xb71866fd30716a3a;
    ShiftMixIs(0xb71866fd30716a3a, 0x16e30);
    assert Mul(0xb71866fd3070040a, 0x9ae16a3b2f90406f) == 0x3ead5f21d344056;
  }

  lemma CityHash64Of16Bytes()
    ensures City64(Bytes16()) == 0x3ead5f21d344056
  {
    hide HashLen16Mul, Rotate, Fetch64, Pow2, Bytes16;
    Powers();
    assert Add(K2, 0x20) == 0x9ae16a3b2f90406f;
    Bytes16Words();
    assert Add(0x1f48b199068bfe08, K2) == 0xba2a1bd4361c3e57;
    RotateIs(37, 0x3d571bb, 0x1e8711d2cd);
    assert Mul(0xf4388e966bd571bb, 0x9ae16a3b2f90406f) == 0x8937ea386c2b1015;
    assert Add(0x8937ea386c2b1015, 0xba2a1bd4361c3e57) == 0x4362060ca2474e6c;
    RotateIs(25, 0x5d150dea1b, 0x1c3e57);
    assert Add(0xe1f2bdd150dea1b, 0x7aae377e8711d2cd) == 0x88cd635b9c1fbce8;
    assert Mul(0x88cd635b9c1fbce8, 0x9ae16a3b2f90406f) == 0x16873ac17b7ce898;
    City64Of16Mix();
  }

  lemma City64Of24Mix()
    ensures HashLen16Mul(0xe388c8a550209bca, 0x1d3d22b2ea3997c1, 0x9ae16a3b2f90407f) == 0x36a097aa49519d97
  {
    hide Xor64, ShiftMix;
    Xor64Is(0xe388c8a550209bca, 0x1d3d22b2ea3997c1);
    assert Mul(0xfeb5ea17ba190c0b, 0x9ae16a3b2f90407f) == 0x55b5ac21609fb975;
    ShiftMixIs(0x55b5ac21609fb975, 0xab6b);
    Xor64Is(0x1d3d22b2ea3997c1, 0x55b5ac21609f121e);
    assert Mul(0x48888e938aa685df, 0x9ae16a3b2f90407f) == 0x1fa45e7fa88429a1;
    ShiftMixIs(0x1fa45e7fa88429a1, 0x3f48);
    assert Mul(0x1fa45e7fa88416e9, 0x9ae16a3b2f90407f) == 0x36a097aa49519d97;
  }

  lemma CityHash64Of24Bytes()
    ensures City64(Bytes24()) == 0x36a097aa49519d97
  {
    hide HashLen16Mul, Rotate, Fetch64, Pow2, Bytes24;
    Powers();
    assert Add(K2, 0x30) == 0x9ae16a3b2f90407f;
    Bytes24Words();
    assert Mul(0x7f9980b9745f5bfa, K1) == 0xfd709f999438a54e;
    assert Mul(0x85bdee268f04b761, 0x9ae16a3b2f90407f) == 0x4efa868f16bf391f;
    assert Mul(0x574792cbb5c302f8, K2) == 0x3be2a4b30b6bea88;
    assert Add(0xfd709f999438a54e, 0x574792cbb5c302f8) == 0x54b8326549fba846;
    RotateIs(43, 0xa9706, 0x26549fba846);
    RotateIs(30, 0x13bea1a3c, 0x16bf391f);
    assert Add(0x4ca93f7508ca9706, 0x5afce47d3bea1a3c) == 0xa7a623f244b4b142;
    assert Add(0xa7a623f244b4b142, 0x3be2a4b30b6bea88) == 0xe388c8a550209bca;
    assert Add(0x574792cbb5c302f8, K2) == 0xf228fd06e5534347;
    RotateIs(18, 0x3c8a3f41b954, 0x34347);
    assert Add(0xfd709f999438a54e, 0xd0d1fc8a3f41b954) == 0xce429c23d37a5ea2;
    assert Add(0xce429c23d37a5ea2, 0x4efa868f16bf391f) == 0x1d3d22b2ea3997c1;
    City64Of24Mix();
  }

  lemma City64Of32Mix()
    ensures HashLen16Mul(0xac72e839883ee408, 0xb44eff435cd32777, 0x9ae16a3b2f90408f) == 0x782fa1b08b475e7
  {
    hide Xor64, ShiftMix;
    Xor64Is(0xac72e839883ee408, 0xb44eff435cd32777);
    assert Mul(0x183c177ad4edc37f, 0x9ae16a3b2f90408f) == 0xffce3bfaa1ff3f1;
    ShiftMixIs(0xffce3bfaa1ff3f1, 0x1ff9);
    Xor64Is(0xb44eff435cd32777, 0xffce3bfaa1fec08);
    assert Mul(0xbbb21cfcf6cccb7f, 0x9ae16a3b2f90408f) == 0xd6c57d4d7b56bf1;
    ShiftMixIs(0xd6c57d4d7b56bf1, 0x1ad8);
    assert Mul(0xd6c57d4d7b57129, 0x9ae16a3b2f90408f) == 0x782fa1b08b475e7;
  }

  lemma CityHash64Of32Bytes()
    ensures City64(Bytes32()) == 0x782fa1b08b475e7
  {
    hide HashLen16Mul, Rotate, Fetch64, Pow2, Bytes32;
    Powers();
    assert Add(K2, 0x40) == 0x9ae16a3b2f90408f;
    Bytes32Words();
    assert Mul(0xf6f43980ccb77c68, K1) == 0xd3cc32c077c732b8;
    assert Mul(0xcaf387e94ffc2b1b, 0x9ae16a3b2f90408f) == 0x82a1a64decd2d415;
    assert Mul(0xbc26c049e995a244, K2) == 0xcbee3bd63ffe12fc;
    assert Add(0xd3cc32c077c732b8, 0xfdf276a953193735) == 0xd1bea969cae069ed;
    RotateIs(43, 0x1a37d5, 0x169cae069ed);
    RotateIs(30, 0x20a869937, 0x2cd2d415);
    assert Add(0x2d395c0d3dba37d5, 0xb34b50560a869937) == 0xe084ac634840d10c;
    assert Add(0xe084ac634840d10c, 0xcbee3bd63ffe12fc) == 0xac72e839883ee408;
    assert Add(0xfdf276a953193735, K2) == 0x98d3e0e482a97784;
    RotateIs(18, 0x2634f83920aa, 0x17784);
    assert Add(0xd3cc32c077c732b8, 0x5de12634f83920aa) == 0x31ad58f570005362;
    assert Add(0x31ad58f570005362, 0x82a1a64decd2d415) == 0xb44eff435cd32777;
    City64Of32Mix();
  }

  lemma CityHash64Of40Bytes()
    ensures City64(Bytes40()) == 0x4ec0b54cf1566aff
  {
    hide Xor64, ShiftMix, Rotate, Fetch64, Pow2, Bswap64, Bswap32, Bytes40;
    Powers();
    assert Add(K2, 0x50) == 0x9ae16a3b2f90409f;
    Bytes40Words();
    assert Mul(0xa7d026b4d6ae72ff, K2) == 0xf9fd077c5d053cb1;
    assert Mul(0x4ce5dbc5f489e0c0, K2) == 0xa4b5794a9abc5b40;
    assert Mul(0xb6846356ec590245, 9) == 0x6aa77e0e4f21146d;
    assert Mul(0xb6846356ec590245, 0x9ae16a3b2f90409f) == 0x1f71cf75fda9a8db;
    assert Add(0xf9fd077c5d053cb1, 0x499269410552b4e7) == 0x438f70bd6257f198;
    RotateIs(43, 0x871ee, 0xbd6257f198);
    RotateIs(30, 0x3893acd50, 0x1259ba24);
    assert Add(0x4966e893893acd50, 0x4ce5dbc5f489e0c0) == 0x964cc4597dc4ae10;
    assert Mul(0x964cc4597dc4ae10, 9) == 0x48b2e7256bea1e90;
    assert Add(0x17ac4afe330871ee, 0x48b2e7256bea1e90) == 0x605f32239ef2907e;
    Xor64Is(0x438f70bd6257f198, 0xe24eb3541259ba24);
    assert Add(0xa1c1c3e9700e4bbc, 0x6aa77e0e4f21146d) == 0xc6941f7bf2f6029;
    assert Add(0xc6941f7bf2f6029, 1) == 0xc6941f7bf2f602a;
    assert Add(0x605f32239ef2907e, 0xc6941f7bf2f602a) == 0x6cc8741b5e21f0a8;
    assert Mul(0x6cc8741b5e21f0a8, 0x9ae16a3b2f90409f) == 0x5654298629be7858;
    Bswap64Is(0x56542986, 0x29be7858);
    Bswap32Is(0x56, 0x54, 0x29, 0x86);
    Bswap32Is(0x29, 0xbe, 0x78, 0x58);
    assert Add(0x5878be2986295456, 0x1f71cf75fda9a8db) == 0x77ea8d9f83d2fd31;
    assert Add(0xa4b5794a9abc5b40, 0x6aa77e0e4f21146d) == 0xf5cf758e9dd6fad;
    RotateIs(42, 0x3d73d, 0x358e9dd6fad);
    assert Add(0xd63a775beb43d73d, 0x4ce5dbc5f489e0c0) == 0x23205321dfcdb7fd;
    assert Add(0xc6941f7bf2f602a, 0x77ea8d9f83d2fd31) == 0x8453cf9743025d5b;
    assert Mul(0x8453cf9743025d5b, 0x9ae16a3b2f90409f) == 0xe58512246dfebb85;
    Bswap64Is(0xe5851224, 0x6dfebb85);
    Bswap32Is(0xe5, 0x85, 0x12, 0x24);
    Bswap32Is(0x6d, 0xfe, 0xbb, 0x85);
    assert Add(0x85bbfe6d241285e5, 0x499269410552b4e7) == 0xcf4e67ae29653acc;
    assert Mul(0xcf4e67ae29653acc, 0x9ae16a3b2f90409f) == 0x8127d3458b5284b4;
    assert Add(0xf5cf758e9dd6fad, 0x4ce5dbc5f489e0c0) == 0x5c42d31ede67506d;
    assert Add(0x23205321dfcdb7fd, 0x5c42d31ede67506d) == 0x7f632640be35086a;
    assert Mul(0x7f632640be35086a, 0x9ae16a3b2f90409f) == 0x445a809196aab9d6;
    assert Add(0x445a809196aab9d6, 0x8127d3458b5284b4) == 0xc58253d721fd3e8a;
    Bswap64Is(0xc58253d7, 0x21fd3e8a);
    Bswap32Is(0xc5, 0x82, 0x53, 0xd7);
    Bswap32Is(0x21, 0xfd, 0x3e, 0x8a);
    assert Add(0x8a3efd21d75382c5, 0xe24eb3541259ba24) == 0x6c8db075e9ad3ce9;
    assert Add(0x5c42d31ede67506d, 0x6c8db075e9ad3ce9) == 0xc8d08394c8148d56;
    assert Mul(0xc8d08394c8148d56, 0x9ae16a3b2f90409f) == 0xc2ab6bc1b279486a;
    assert Add(0xc2ab6bc1b279486a, 0xe24eb3541259ba24) == 0xa4fa1f15c4d3028e;
    assert Add(0xa4fa1f15c4d3028e, 0x1f71cf75fda9a8db) == 0xc46bee8bc27cab69;
    ShiftMixIs(0xc46bee8bc27cab69, 0x188d7);
    assert Mul(0xc46bee8bc27d23be, 0x9ae16a3b2f90409f) == 0x2ba0622b1188b302;
    assert Add(0x2ba0622b1188b302, 0x23205321dfcdb7fd) == 0x4ec0b54cf1566aff;
  }

  lemma CityHash64Of64Bytes()
    ensures City64(Bytes64()) == 0xe88419922b87176f
  {
    hide Xor64, ShiftMix, Rotate, Fetch64, Pow2, Bswap64, Bswap32, Bytes64;
    Powers();
    assert Add(K2, 0x80) == 0x9ae16a3b2f9040cf;
    Bytes64Words();
    assert Mul(0x2a4e7d938f25043e, K2) == 0xbfad9b36325bcf22;
    assert Mul(0x9cef7e8050a6d016, K2) == 0xcc752cddaddfb6ca;
    assert Mul(0x46e2db8046db32cd, 9) == 0x7df9b7827db4c935;
    assert Mul(0xa88f8a9a7e9f4b31, 0x9ae16a3b2f9040cf) == 0x36c7c947802a0c9f;
    assert Add(0xbfad9b36325bcf22, 0x33fa206459cd9cad) == 0xf3a7bb9a8c296bcf;
    RotateIs(43, 0x1e74f7, 0x39a8c296bcf);
    RotateIs(30, 0x3fea5472, 0x210c38b1);
    assert Add(0x8430e2c43fea5472, 0xaf95f6d3448bf7dd) == 0x33c6d99784764c4f;
    assert Mul(0x33c6d99784764c4f, 9) == 0xd1fda653a828aec7;
    assert Add(0x7351852d79fe74f7, 0xd1fda653a828aec7) == 0x454f2b81222723be;
    Xor64Is(0xf3a7bb9a8c296bcf, 0x5f3a485ff33fb7ae);
    assert Add(0xac9df3c57f16dc61, 0x7df9b7827db4c935) == 0x2a97ab47fccba596;
    assert Add(0x2a97ab47fccba596, 1) == 0x2a97ab47fccba597;
    assert Add(0x454f2b81222723be, 0x2a97ab47fccba597) == 0x6fe6d6c91ef2c955;
    assert Mul(0x6fe6d6c91ef2c955, 0x9ae16a3b2f9040cf) == 0xae30887b93760bbb;
    Bswap64Is(0xae30887b, 0x93760bbb);
    Bswap32Is(0xae, 0x30, 0x88, 0x7b);
    Bswap32Is(0x93, 0x76, 0xb, 0xbb);
    assert Add(0xbb0b76937b8830ae, 0x36c7c947802a0c9f) == 0xf1d33fdafbb23d4d;
    assert Add(0xcc752cddaddfb6ca, 0x7df9b7827db4c935) == 0x4a6ee4602b947fff;
    RotateIs(42, 0x129bb9, 0x602b947fff);
    assert Add(0x180ae51fffd29bb9, 0xaf95f6d3448bf7dd) == 0xc7a0dbf3445e9396;
    assert Add(0x2a97ab47fccba597, 0xf1d33fdafbb23d4d) == 0x1c6aeb22f87de2e4;
    assert Mul(0x1c6aeb22f87de2e4, 0x9ae16a3b2f9040cf) == 0x5be17569e2c3765c;
    Bswap64Is(0x5be17569, 0xe2c3765c);
    Bswap32Is(0x5b, 0xe1, 0x75, 0x69);
    Bswap32Is(0xe2, 0xc3, 0x76, 0x5c);
    assert Add(0x5c76c3e26975e15b, 0x33fa206459cd9cad) == 0x9070e446c3437e08;
    assert Mul(0x9070e446c3437e08, 0x9ae16a3b2f9040cf) == 0xf1c6dbfb1f94e878;
    assert Add(0x4a6ee4602b947fff, 0xaf95f6d3448bf7dd) == 0xfa04db33702077dc;
    assert Add(0xc7a0dbf3445e9396, 0xfa04db33702077dc) == 0xc1a5b726b47f0b72;
    assert Mul(0xc1a5b726b47f0b72, 0x9ae16a3b2f9040cf) == 0xfae8774213b6c12e;
    assert Add(0xfae8774213b6c12e, 0xf1c6dbfb1f94e878) == 0xecaf533d334ba9a6;
    Bswap64Is(0xecaf533d, 0x334ba9a6);
    Bswap32Is(0xec, 0xaf, 0x53, 0x3d);
    Bswap32Is(0x33, 0x4b, 0xa9, 0xa6);
    assert Add(0xa6a94b333d53afec, 0xffa951ca10c38b1) == 0xb6a3e04fde5fe89d;
    assert Add(0xfa04db33702077dc, 0xb6a3e04fde5fe89d) == 0xb0a8bb834e806079;
    assert Mul(0xb0a8bb834e806079, 0x9ae16a3b2f9040cf) == 0x7077829c0cfc41d7;
    assert Add(0x7077829c0cfc41d7, 0x5f3a485ff33fb7ae) == 0xcfb1cafc003bf985;
    assert Add(0xcfb1cafc003bf985, 0x36c7c947802a0c9f) == 0x679944380660624;
    ShiftMixIs(0x679944380660624, 0xcf3);
    assert Mul(0x679944380660ad7, 0x9ae16a3b2f9040cf) == 0x20e33d9ee72883d9;
    assert Add(0x20e33d9ee72883d9, 0xc7a0dbf3445e9396) == 0xe88419922b87176f;
  }

  lemma City64Of192Mix1()
    ensures HashLen16(0x435911ac4779a476, 0x1f397c3e96838ea2) == 0x3ff7293ee950c5e4
  {
    hide Xor64, ShiftMix;
    Xor64Is(0x435911ac4779a476, 0x1f397c3e96838ea2);
    assert Mul(0x5c606d92d1fa2ad4, K_MUL) == 0x235172cb1382d4f4;
    ShiftMixIs(0x235172cb1382d4f4, 0x46a2);
    Xor64Is(0x1f397c3e96838ea2, 0x235172cb13829256);
    assert Mul(0x3c680ef585011cf4, K_MUL) == 0xc128588710ebc414;
    ShiftMixIs(0xc128588710ebc414, 0x18250);
    assert Mul(0xc128588710ea4644, K_MUL) == 0x3ff7293ee950c5e4;
  }

  lemma City64Of192Weak1()
    ensures WeakHashLen32(Bytes192(), 128, 0xc0, 0x3ff7293ee950c5e4) == (0x8de605206834b2ab, 0xb659b9a4f8edec7c)
  {
    hide Rotate, Fetch64, Pow2, Bytes192;
    Powers();
    Bytes192Words();
    assert Add(0xc0, 0xf40a7ce08d6517d8) == 0xf40a7ce08d651898;
    assert Add(0x3ff7293ee950c5e4, 0xf40a7ce08d651898) == 0x3401a61f76b5de7c;
    assert Add(0x3401a61f76b5de7c, 0xb8be8350b6decc08) == 0xecc029702d94aa84;
    RotateIs(21, 0x766014b816c, 0x14aa84);
    assert Add(0xf40a7ce08d651898, 0x9dc3f342dc772a55) == 0x91ce702369dc42ed;
    assert Add(0x91ce702369dc42ed, 0x435911ac4779a3b6) == 0xd52781cfb155e6a3;
    assert Add(0xd52781cfb155e6a3, 0xb8be8350b6decc08) == 0x8de605206834b2ab;
    RotateIs(44, 0xd5278, 0x1cfb155e6a3);
    assert Add(0xa5542766014b816c, 0x1cfb155e6a3d5278) == 0xc24f3cc46b88d3e4;
    assert Add(0xc24f3cc46b88d3e4, 0xf40a7ce08d651898) == 0xb659b9a4f8edec7c;
  }

  lemma City64Of192Weak2()
    ensures WeakHashLen32(Bytes192(), 160, 0x7e0373705afdf8d7, 0xb8be8350b6decc08) == (0x1e33e44df334bcf8,
      0xaaf43c356b5b5127)
  {
    hide Rotate, Fetch64, Pow2, Bytes192;
    Powers();
    Bytes192Words();
    assert Add(0x7e0373705afdf8d7, 0x2f11c5621700c5fc) == 0xad1538d271febed3;
    assert Add(0xb8be8350b6decc08, 0xad1538d271febed3) == 0x65d3bc2328dd8adb;
    assert Add(0x65d3bc2328dd8adb, 0x2638657f2ac49374) == 0x8c0c21a253a21e4f;
    RotateIs(21, 0x460610d129d, 0x21e4f);
    assert Add(0xad1538d271febed3, 0x1f397c3e96838ea2) == 0xcc4eb51108824d75;
    assert Add(0xcc4eb51108824d75, 0x2bacc9bdbfeddc0f) == 0xf7fb7ecec8702984;
    assert Add(0xf7fb7ecec8702984, 0x2638657f2ac49374) == 0x1e33e44df334bcf8;
    RotateIs(44, 0xf7fb7, 0xecec8702984);
    assert Add(0x10f27c60610d129d, 0xecec8702984f7fb7) == 0xfddf0362f95c9254;
    assert Add(0xfddf0362f95c9254, 0xad1538d271febed3) == 0xaaf43c356b5b5127;
  }

  lemma City64Of192Start()
    ensures Start64(Bytes192()) == State64(0x6ad975a9dc7d0167, 0xc970bd009c650664, 0x3ff7293ee950c5e4,
      (0x8de605206834b2ab, 0xb659b9a4f8edec7c), (0x1e33e44df334bcf8, 0xaaf43c356b5b5127))
  {
    hide HashLen16, Fetch64, WeakHashLen32, Bytes192;
    Bytes192Words();
    City64Of192Mix1();
    City64Of192Weak1();
    City64Of192Weak2();
    assert Mul(0xb8be8350b6decc08, K1) == 0xa195614fd7b53798;
  }

  lemma City64Of192Weak3()
    ensures WeakHashLen32(Bytes192(), 0, 0x8a826cf92e0e73b4, 0x9323281ff54a841a) == (0x6d5ad142df9e0f3,
      0x2b0002a2684fbb0)
  {
    hide Rotate, Fetch64, Pow2, Bytes192;
    Powers();
    Bytes192Words();
    assert Add(0x8a826cf92e0e73b4, 0xc944145a04c7c9cf) == 0x53c6815332d63d83;
    assert Add(0x9323281ff54a841a, 0x53c6815332d63d83) == 0xe6e9a9732820c19d;
    assert Add(0xe6e9a9732820c19d, 0xf72e90454f7b7dd5) == 0xde1839b8779c3f72;
    RotateIs(21, 0x6f0c1cdc3bc, 0x1c3f72);
    assert Add(0x53c6815332d63d83, 0xae03bd336cf48c50) == 0x1ca3e869fcac9d3;
    assert Add(0x1ca3e869fcac9d3, 0xddcde483eb3994b) == 0xfa71ccede7e631e;
    assert Add(0xfa71ccede7e631e, 0xf72e90454f7b7dd5) == 0x6d5ad142df9e0f3;
    RotateIs(44, 0xfa71, 0xccede7e631e);
    assert Add(0xe1fb96f0c1cdc3bc, 0xccede7e631e0fa71) == 0xaee97ed6f3aebe2d;
    assert Add(0xaee97ed6f3aebe2d, 0x53c6815332d63d83) == 0x2b0002a2684fbb0;
  }

  lemma City64Of192Weak4()
    ensures WeakHashLen32(Bytes192(), 32, 0xbb3b6bdfe4fe0819, 0x27ff366e0d47aeb8) == (0x8a0b0e7a617214e5,
      0xf62db4a19202fab0)
  {
    hide Rotate, Fetch64, Pow2, Bytes192;
    Powers();
    Bytes192Words();
    assert Add(0xbb3b6bdfe4fe0819, 0xcc599c4bd10a76f6) == 0x8795082bb6087f0f;
    assert Add(0x27ff366e0d47aeb8, 0x8795082bb6087f0f) == 0xaf943e99c3502dc7;
    assert Add(0xaf943e99c3502dc7, 0x450d622bb5a507f6) == 0xf4a1a0c578f535bd;
    RotateIs(21, 0x7a50d062bc7, 0x1535bd);
    assert Add(0x8795082bb6087f0f, 0xa71ec083dca5cde0) == 0x2eb3c8af92ae4cef;
    assert Add(0x2eb3c8af92ae4cef, 0x1649e39f191ec000) == 0x44fdac4eabcd0cef;
    assert Add(0x44fdac4eabcd0cef, 0x450d622bb5a507f6) == 0x8a0b0e7a617214e5;
    RotateIs(44, 0x44fda, 0xc4eabcd0cef);
    assert Add(0xa9adefa50d062bc7, 0xc4eabcd0cef44fda) == 0x6e98ac75dbfa7ba1;
    assert Add(0x6e98ac75dbfa7ba1, 0x8795082bb6087f0f) == 0xf62db4a19202fab0;
  }

  lemma City64Of192Chunk1()
    ensures Step64(State64(0x6ad975a9dc7d0167, 0xc970bd009c650664, 0x3ff7293ee950c5e4, (0x8de605206834b2ab,
      0xb659b9a4f8edec7c), (0x1e33e44df334bcf8, 0xaaf43c356b5b5127)), Bytes192(), 0) == State64(0x10472faa79a2b6f2,
      0x1a225825ce94156d, 0x74ef43d20215c722, (0x6d5ad142df9e0f3, 0x2b0002a2684fbb0), (0x8a0b0e7a617214e5,
      0xf62db4a19202fab0))
  {
    hide Xor64, Rotate, Fetch64, Pow2, WeakHashLen32, Bytes192;
    Powers();
    assert Add(0x6ad975a9dc7d0167, 0xc970bd009c650664) == 0x344a32aa78e207cb;
    assert Add(0x344a32aa78e207cb, 0x8de605206834b2ab) == 0xc23037cae116ba76;
    Bytes192Words();
    assert Add(0xc23037cae116ba76, 0xae03bd336cf48c50) == 0x7033f4fe4e0b46c6;
    RotateIs(37, 0x3819fa7, 0x1e4e0b46c6);
    assert Mul(0xf2705a3633819fa7, K1) == 0xde1b7fe7694e9605;
    assert Add(0xc970bd009c650664, 0xb659b9a4f8edec7c) == 0x7fca76a59552f2e0;
    assert Add(0x7fca76a59552f2e0, 0x1649e39f191ec000) == 0x96145a44ae71b2e0;
    RotateIs(42, 0x258516, 0x244ae71b2e0);
    assert Mul(0x912b9c6cb8258516, K1) == 0xe51d928189b994e2;
    Xor64Is(0xde1b7fe7694e9605, 0xaaf43c356b5b5127);
    assert Add(0xe51d928189b994e2, 0x8de605206834b2ab) == 0x730397a1f1ee478d;
    assert Add(0x730397a1f1ee478d, 0xa71ec083dca5cde0) == 0x1a225825ce94156d;
    assert Add(0x3ff7293ee950c5e4, 0x1e33e44df334bcf8) == 0x5e2b0d8cdc8582dc;
    RotateIs(33, 0x2f1586c6, 0xdc8582dc);
    assert Mul(0x6e42c16e2f1586c6, K1) == 0x10472faa79a2b6f2;
    assert Mul(0xb659b9a4f8edec7c, K1) == 0x8a826cf92e0e73b4;
    assert Add(0x74ef43d20215c722, 0x1e33e44df334bcf8) == 0x9323281ff54a841a;
    City64Of192Weak3();
    assert Add(0x10472faa79a2b6f2, 0xaaf43c356b5b5127) == 0xbb3b6bdfe4fe0819;
    assert Add(0x1a225825ce94156d, 0xddcde483eb3994b) == 0x27ff366e0d47aeb8;
    City64Of192Weak4();
  }

  lemma City64Of192Weak5()
    ensures WeakHashLen32(Bytes192(), 64, 0x7fcdbe6b14297010, 0xde54b907cc9bb650) == (0xf0ac13fa9db60b90,
      0xaf27161f8c198a26)
  {
    hide Rotate, Fetch64, Pow2, Bytes192;
    Powers();
    Bytes192Words();
    assert Add(0x7fcdbe6b14297010, 0xd5fe0adc6e9505ff) == 0x55cbc94782be760f;
    assert Add(0xde54b907cc9bb650, 0x55cbc94782be760f) == 0x3420824f4f5a2c5f;
    assert Add(0x3420824f4f5a2c5f, 0x7d911c2cfdc163ca) == 0xb1b19e7c4d1b9029;
    RotateIs(21, 0x58d8cf3e268, 0x1b9029);
    assert Add(0x55cbc94782be760f, 0xe57aaa5abac08e9f) == 0x3b4673a23d7f04ae;
    assert Add(0x3b4673a23d7f04ae, 0x37d4842b6275a318) == 0x731af7cd9ff4a7c6;
    assert Add(0x731af7cd9ff4a7c6, 0x7d911c2cfdc163ca) == 0xf0ac13fa9db60b90;
    RotateIs(44, 0x731af, 0x7cd9ff4a7c6);
    assert Add(0xdc814d8d8cf3e268, 0x7cd9ff4a7c6731af) == 0x595b4cd8095b1417;
    assert Add(0x595b4cd8095b1417, 0x55cbc94782be760f) == 0xaf27161f8c198a26;
  }

  lemma City64Of192Weak6()
    ensures WeakHashLen32(Bytes192(), 96, 0xc461da464ab262c2, 0x26120932c0503342) == (0xf8512263f2bf9a9e,
      0xa0cc70f1518bef5d)
  {
    hide Rotate, Fetch64, Pow2, Bytes192;
    Powers();
    Bytes192Words();
    assert Add(0xc461da464ab262c2, 0xa8f4996f8a043968) == 0x6d5673b5d4b69c2a;
    assert Add(0x26120932c0503342, 0x6d5673b5d4b69c2a) == 0x93687ce89506cf6c;
    assert Add(0x93687ce89506cf6c, 0x3ba28c4874536856) == 0xcf0b0931095a37c2;
    RotateIs(21, 0x6785849884a, 0x1a37c2);
    assert Add(0x6d5673b5d4b69c2a, 0xd5b347a418aff493) == 0x4309bb59ed6690bd;
    assert Add(0x4309bb59ed6690bd, 0x79a4dac19105a18b) == 0xbcae961b7e6c3248;
    assert Add(0xbcae961b7e6c3248, 0x3ba28c4874536856) == 0xf8512263f2bf9a9e;
    RotateIs(44, 0xbcae9, 0x61b7e6c3248);
    assert Add(0xd1be16785849884a, 0x61b7e6c3248bcae9) == 0x3375fd3b7cd55333;
    assert Add(0x3375fd3b7cd55333, 0x6d5673b5d4b69c2a) == 0xa0cc70f1518bef5d;
  }

  lemma City64Of192Chunk2()
    ensures Step64(State64(0x10472faa79a2b6f2, 0x1a225825ce94156d, 0x74ef43d20215c722, (0x6d5ad142df9e0f3,
      0x2b0002a2684fbb0), (0x8a0b0e7a617214e5, 0xf62db4a19202fab0)), Bytes192(), 64) == State64(0xce3425a4b8af6812,
      0xee3d85075dda902a, 0x5449aa8d6b29a16b, (0xf0ac13fa9db60b90, 0xaf27161f8c198a26), (0xf8512263f2bf9a9e,
      0xa0cc70f1518bef5d))
  {
    hide Xor64, Rotate, Fetch64, Pow2, WeakHashLen32, Bytes192;
    Powers();
    assert Add(0x10472faa79a2b6f2, 0x1a225825ce94156d) == 0x2a6987d04836cc5f;
    assert Add(0x2a6987d04836cc5f, 0x6d5ad142df9e0f3) == 0x313f34e47630ad52;
    Bytes192Words();
    assert Add(0x313f34e47630ad52, 0xe57aaa5abac08e9f) == 0x16b9df3f30f13bf1;
    RotateIs(37, 0xb5cef9, 0x1f30f13bf1);
    assert Mul(0xf98789df88b5cef9, K1) == 0xa2641e2cf92b5bdb;
    assert Add(0x1a225825ce94156d, 0x2b0002a2684fbb0) == 0x1cd2584ff519111d;
    assert Add(0x1cd2584ff519111d, 0x79a4dac19105a18b) == 0x96773311861eb2a8;
    RotateIs(42, 0x259dcc, 0x311861eb2a8);
    assert Mul(0xc46187acaa259dcc, K1) == 0x11b4904f1730baa4;
    Xor64Is(0xa2641e2cf92b5bdb, 0xf62db4a19202fab0);
    assert Add(0x11b4904f1730baa4, 0x6d5ad142df9e0f3) == 0x188a3d63452a9b97;
    assert Add(0x188a3d63452a9b97, 0xd5b347a418aff493) == 0xee3d85075dda902a;
    assert Add(0x74ef43d20215c722, 0x8a0b0e7a617214e5) == 0xfefa524c6387dc07;
    RotateIs(33, 0x7f7d2926, 0x6387dc07);
    assert Mul(0x31c3ee03ff7d2926, K1) == 0xce3425a4b8af6812;
    assert Mul(0x2b0002a2684fbb0, K1) == 0x7fcdbe6b14297010;
    assert Add(0x5449aa8d6b29a16b, 0x8a0b0e7a617214e5) == 0xde54b907cc9bb650;
    City64Of192Weak5();
    assert Add(0xce3425a4b8af6812, 0xf62db4a19202fab0) == 0xc461da464ab262c2;
    assert Add(0xee3d85075dda902a, 0x37d4842b6275a318) == 0x26120932c0503342;
    City64Of192Weak6();
  }

  lemma City64Of192Mix2()
    ensures HashLen16(0xf0ac13fa9db60b90, 0xf8512263f2bf9a9e) == 0x5f738daa947dfb7f
  {
    hide Xor64, ShiftMix;
    Xor64Is(0xf0ac13fa9db60b90, 0xf8512263f2bf9a9e);
    assert Mul(0x8fd31996f09910e, K_MUL) == 0xc24b722ce7bf4be;
    ShiftMixIs(0xc24b722ce7bf4be, 0x1849);
    Xor64Is(0xf8512263f2bf9a9e, 0xc24b722ce7becf7);
    assert Mul(0xf47595413cc47669, K_MUL) == 0x7d5b0064bf5d0611;
    ShiftMixIs(0x7d5b0064bf5d0611, 0xfab6);
    assert Mul(0x7d5b0064bf5dfca7, K_MUL) == 0x5f738daa947dfb7f;
  }

  lemma City64Of192Mix3()
    ensures HashLen16(0xaf27161f8c198a26, 0xa0cc70f1518bef5d) == 0xaaea1f2c37090626
  {
    hide Xor64, ShiftMix;
    Xor64Is(0xaf27161f8c198a26, 0xa0cc70f1518bef5d);
    assert Mul(0xfeb66eedd92657b, K_MUL) == 0x44c5a9f1b8ca3e73;
    ShiftMixIs(0x44c5a9f1b8ca3e73, 0x898b);
    Xor64Is(0xa0cc70f1518bef5d, 0x44c5a9f1b8cab7f8);
    assert Mul(0xe409d900e94158a5, K_MUL) == 0xff4dc433037a5cad;
    ShiftMixIs(0xff4dc433037a5cad, 0x1fe9b);
    assert Mul(0xff4dc433037ba236, K_MUL) == 0xaaea1f2c37090626;
  }

  lemma City64Of192Mix4()
    ensures HashLen16(0x69b31b38e567774d, 0x791e44d0efb86e38) == 0xd3a2efec0f047e9
  {
    hide Xor64, ShiftMix;
    Xor64Is(0x69b31b38e567774d, 0x791e44d0efb86e38);
    assert Mul(0x10ad5fe80adf1975, K_MUL) == 0x7fde0ae9a59301fd;
    ShiftMixIs(0x7fde0ae9a59301fd, 0xffbc);
    Xor64Is(0x791e44d0efb86e38, 0x7fde0ae9a593fe41);
    assert Mul(0x6c04e394a2b9079, K_MUL) == 0x78107c77c1bb86a1;
    ShiftMixIs(0x78107c77c1bb86a1, 0xf020);
    assert Mul(0x78107c77c1bb7681, K_MUL) == 0xd3a2efec0f047e9;
  }

  lemma City64Of192Finish()
    ensures Finish64(State64(0xce3425a4b8af6812, 0xee3d85075dda902a, 0x5449aa8d6b29a16b, (0xf0ac13fa9db60b90,
      0xaf27161f8c198a26), (0xf8512263f2bf9a9e, 0xa0cc70f1518bef5d))) == 0xd3a2efec0f047e9
  {
    hide HashLen16, ShiftMix;
    City64Of192Mix2();
    ShiftMixIs(0xee3d85075dda902a, 0x1dc7b);
    assert Mul(0xee3d85075ddb4c51, K1) == 0xb5f5e300e5bfda63;
    City64Of192Mix3();
    City64Of192Mix4();
  }

  lemma CityHash64Of192Bytes()
    ensures City64(Bytes192()) == 0xd3a2efec0f047e9
  {
    hide Step64, Start64, Finish64, Rounds64, Bytes192;
    City64Of192Start();
    City64Of192Chunk1();
    City64Of192Chunk2();
    OneChunk(State64(0x6ad975a9dc7d0167, 0xc970bd009c650664, 0x3ff7293ee950c5e4, (0x8de605206834b2ab,
      0xb659b9a4f8edec7c), (0x1e33e44df334bcf8, 0xaaf43c356b5b5127)), Bytes192(), 0, 2);
    OneChunk(State64(0x10472faa79a2b6f2, 0x1a225825ce94156d, 0x74ef43d20215c722, (0x6d5ad142df9e0f3,
      0x2b0002a2684fbb0), (0x8a0b0e7a617214e5, 0xf62db4a19202fab0)), Bytes192(), 64, 1);
    NoChunksLeft(State64(0xce3425a4b8af6812, 0xee3d85075dda902a, 0x5449aa8d6b29a16b, (0xf0ac13fa9db60b90,
      0xaf27161f8c198a26), (0xf8512263f2bf9a9e, 0xa0cc70f1518bef5d)), Bytes192(), 128);
    City64Of192Finish();
  }

  lemma CityHash64Of0Bytes()
    ensures City64([]) == 0x9ae16a3b2f90404f
  {
  }

  lemma City64Of0Mix1()
    ensures HashLen16(0, 0x12d687) == 0x75106db890237a4a
  {
    hide Xor64, ShiftMix;
    Xor64Is(0, 0x12d687);
    assert Mul(0x12d687, K_MUL) == 0xe358694831f7b85f;
    ShiftMixIs(0xe358694831f7b85f, 0x1c6b0);
    Xor64Is(0x12d687, 0xe358694831f67eef);
    assert Mul(0xe358694831e4a868, K_MUL) == 0x2309033df7235aa8;
    ShiftMixIs(0x2309033df7235aa8, 0x4612);
    assert Mul(0x2309033df7231cba, K_MUL) == 0x75106db890237a4a;
  }

  lemma CityHash64WithSeedOf0Bytes()
    ensures HashLen16(Sub(City64([]), K2), 1234567) == 0x75106db890237a4a
  {
    hide HashLen16;
    City64Of0Mix1();
  }

  lemma City64Of0Mix2()
    ensures HashLen16(0x9ae16a3b2f7d69c8, K0) == 0x3feac5f636039766
  {
    hide Xor64, ShiftMix;
    Xor64Is(0x9ae16a3b2f7d69c8, 0xc3a5c85c97cb3127);
    assert Mul(0x5944a267b8b658ef, K_MUL) == 0xe920e101a9b47d07;
    ShiftMixIs(0xe920e101a9b47d07, 0x1d241);
    Xor64Is(0xc3a5c85c97cb3127, 0xe920e101a9b5af46);
    assert Mul(0x2a85295d3e7e9e61, K_MUL) == 0xa1dfdf5893fe02c9;
    ShiftMixIs(0xa1dfdf5893fe02c9, 0x143bf);
    assert Mul(0xa1dfdf5893ff4176, K_MUL) == 0x3feac5f636039766;
  }

  lemma CityHash64WithSeedsOf0Bytes()
    ensures HashLen16(Sub(City64([]), 1234567), K0) == 0x3feac5f636039766
  {
    hide HashLen16;
    City64Of0Mix2();
  }

  /** Up to 16 bytes: each branch, and the lengths at which the branches change. */
  lemma ShortValues()
    ensures City64(Bytes1()) == 0x541150e87f415e96
    ensures City64(Bytes2()) == 0xf3786a4b25827c1
    ensures City64(Bytes3()) == 0xef923a7a1af78eab
    ensures City64(Bytes4()) == 0x11df592596f41d88
    ensures City64(Bytes7()) == 0x1b5a063fb4c7f9f1
    ensures City64(Bytes8()) == 0xa0f10149a0e538d6
    ensures City64(Bytes16()) == 0x3ead5f21d344056
  {
    CityHash64Of1Bytes();
    CityHash64Of2Bytes();
    CityHash64Of3Bytes();
    CityHash64Of4Bytes();
    CityHash64Of7Bytes();
    CityHash64Of8Bytes();
    CityHash64Of16Bytes();
  }

  /** 17 bytes and more: two inputs for each length band that has one formula, and the chunks of a long input. */
  lemma LongValues()
    ensures City64(Bytes24()) == 0x36a097aa49519d97
    ensures City64(Bytes32()) == 0x782fa1b08b475e7
    ensures City64(Bytes40()) == 0x4ec0b54cf1566aff
    ensures City64(Bytes64()) == 0xe88419922b87176f
    ensures City64(Bytes192()) == 0xd3a2efec0f047e9
  {
    CityHash64Of24Bytes();
    CityHash64Of32Bytes();
    CityHash64Of40Bytes();
    CityHash64Of64Bytes();
    CityHash64Of192Bytes();
  }

  /** The empty input, without a seed, with one and with two. */
  lemma SeededValues()
    ensures City64([]) == 0x9ae16a3b2f90404f
    ensures HashLen16(Sub(City64([]), K2), 1234567) == 0x75106db890237a4a
    ensures HashLen16(Sub(City64([]), 1234567), K0) == 0x3feac5f636039766
  {
    CityHash64Of0Bytes();
    CityHash64WithSeedOf0Bytes();
    CityHash64WithSeedsOf0Bytes();
  }
}
