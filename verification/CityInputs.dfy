/** Test data of the published table of hash values: row i hashes i bytes from offset i * i on. Inputs of whole words are
    given as little-endian words. */
module CityInputs {
  import opened RingTypes
  import opened CityHash
  import opened CityValues

  /** The test data from offset 1 on. */
  function Bytes1(): (s: Bytes)
    ensures |s| == 1
  {
    [0xe4]
  }

  /** The test data from offset 4 on. */
  function Bytes2(): (s: Bytes)
    ensures |s| == 2
  {
    [0x3b, 0xe7]
  }

  /** The test data from offset 9 on. */
  function Bytes3(): (s: Bytes)
    ensures |s| == 3
  {
    [0xaa, 0xb0, 0xce]
  }

  /** The test data from offset 16 on. */
  function Bytes4(): (s: Bytes)
    ensures |s| == 4
  {
    [0x3b, 0x30, 0xa7, 0x2c]
  }

  /** The test data from offset 25 on. */
  function Bytes5(): (s: Bytes)
    ensures |s| == 5
  {
    [0x64, 0xfc, 0xf2, 0x8f, 5]
  }

  /** The test data from offset 49 on. */
  function Bytes7(): (s: Bytes)
    ensures |s| == 7
  {
    [0xf8, 0x59, 0xf1, 0x67, 0x27, 0x4d, 0xc2]
  }

  /** The test data from offset 64 on. */
  function Bytes8(): (s: Bytes)
    ensures |s| == 8
  {
    Flat([0xa0f8cdc16024411f])
  }

  lemma Bytes8Words()
    ensures Fetch64(Bytes8(), 0) == 0xa0f8cdc16024411f
  {
    hide Flat, Fetch64;
    var words := [0xa0f8cdc16024411f];
    FlatFetch(words, 0);
  }

  lemma Bytes8Halves()
    ensures Fetch32(Bytes8(), 0) == 0x6024411f && Fetch32(Bytes8(), 4) == 0xa0f8cdc1
  {
    hide Bytes8, Fetch64, Fetch32;
    Bytes8Words();
    FetchHalves(Bytes8(), 0, 0x6024411f, 0xa0f8cdc1);
  }

  /** The test data from offset 256 on. */
  function Bytes16(): (s: Bytes)
    ensures |s| == 16
  {
    Flat([0x1f48b199068bfe08, 0x7aae377e8711d2cd])
  }

  lemma Bytes16Words()
    ensures Fetch64(Bytes16(), 0) == 0x1f48b199068bfe08 && Fetch64(Bytes16(), 8) == 0x7aae377e8711d2cd
  {
    hide Flat, Fetch64;
    var words := [0x1f48b199068bfe08, 0x7aae377e8711d2cd];
    FlatFetch(words, 0);
    FlatFetch(words, 1);
  }

  lemma Bytes16Halves()
    ensures Fetch32(Bytes16(), 0) == 0x68bfe08 && Fetch32(Bytes16(), 4) == 0x1f48b199
    ensures Fetch32(Bytes16(), 8) == 0x8711d2cd && Fetch32(Bytes16(), 12) == 0x7aae377e
  {
    hide Bytes16, Fetch64, Fetch32;
    Bytes16Words();
    FetchHalves(Bytes16(), 0, 0x68bfe08, 0x1f48b199);
    FetchHalves(Bytes16(), 8, 0x8711d2cd, 0x7aae377e);
  }

  /** The test data from offset 576 on. */
  function Bytes24(): (s: Bytes)
    ensures |s| == 24
  {
    Flat([0x7f9980b9745f5bfa, 0x574792cbb5c302f8, 0x85bdee268f04b761])
  }

  lemma Bytes24Words()
    ensures Fetch64(Bytes24(), 0) == 0x7f9980b9745f5bfa && Fetch64(Bytes24(), 8) == 0x574792cbb5c302f8
    ensures Fetch64(Bytes24(), 16) == 0x85bdee268f04b761
  {
    hide Flat, Fetch64;
    var words := [0x7f9980b9745f5bfa, 0x574792cbb5c302f8, 0x85bdee268f04b761];
    FlatFetch(words, 0);
    FlatFetch(words, 1);
    FlatFetch(words, 2);
  }

  lemma Bytes24Halves()
    ensures Fetch32(Bytes24(), 0) == 0x745f5bfa && Fetch32(Bytes24(), 4) == 0x7f9980b9
    ensures Fetch32(Bytes24(), 8) == 0xb5c302f8 && Fetch32(Bytes24(), 12) == 0x574792cb
    ensures Fetch32(Bytes24(), 16) == 0x8f04b761 && Fetch32(Bytes24(), 20) == 0x85bdee26
  {
    hide Bytes24, Fetch64, Fetch32;
    Bytes24Words();
    FetchHalves(Bytes24(), 0, 0x745f5bfa, 0x7f9980b9);
    FetchHalves(Bytes24(), 8, 0xb5c302f8, 0x574792cb);
    FetchHalves(Bytes24(), 16, 0x8f04b761, 0x85bdee26);
  }

  /** The test data from offset 1024 on. */
  function Bytes32(): (s: Bytes)
    ensures |s| == 32
  {
    Flat([0xf6f43980ccb77c68, 0xfdf276a953193735, 0xbc26c049e995a244, 0xcaf387e94ffc2b1b])
  }

  lemma Bytes32Words()
    ensures Fetch64(Bytes32(), 0) == 0xf6f43980ccb77c68 && Fetch64(Bytes32(), 8) == 0xfdf276a953193735
    ensures Fetch64(Bytes32(), 16) == 0xbc26c049e995a244 && Fetch64(Bytes32(), 24) == 0xcaf387e94ffc2b1b
  {
    hide Flat, Fetch64;
    var words := [0xf6f43980ccb77c68, 0xfdf276a953193735, 0xbc26c049e995a244, 0xcaf387e94ffc2b1b];
    FlatFetch(words, 0);
    FlatFetch(words, 1);
    FlatFetch(words, 2);
    FlatFetch(words, 3);
  }

  /** The test data from offset 1600 on. */
  function Bytes40(): (s: Bytes)
    ensures |s| == 40
  {
    Flat([0xa7d026b4d6ae72ff, 0xe24eb3541259ba24, 0x4ce5dbc5f489e0c0, 0xb6846356ec590245, 0x499269410552b4e7])
  }

  lemma Bytes40Words()
    ensures Fetch64(Bytes40(), 0) == 0xa7d026b4d6ae72ff && Fetch64(Bytes40(), 8) == 0xe24eb3541259ba24
    ensures Fetch64(Bytes40(), 16) == 0x4ce5dbc5f489e0c0 && Fetch64(Bytes40(), 24) == 0xb6846356ec590245
    ensures Fetch64(Bytes40(), 32) == 0x499269410552b4e7
  {
    hide Flat, Fetch64;
    var words := [0xa7d026b4d6ae72ff, 0xe24eb3541259ba24, 0x4ce5dbc5f489e0c0, 0xb6846356ec590245, 0x499269410552b4e7];
    FlatFetch(words, 0);
    FlatFetch(words, 1);
    FlatFetch(words, 2);
    FlatFetch(words, 3);
    FlatFetch(words, 4);
  }

  /** The test data from offset 2304 on. */
  function Bytes48(): (s: Bytes)
    ensures |s| == 48
  {
    Flat([0x8e8549b7b12e60dd, 0x8ed621e7c9357798, 0x61ed317ba835f8e, 0x99bc710bb727560, 0xb389b98b4893b3a7,
      0x8820926e65d799a2])
  }

  lemma Bytes48Words()
    ensures Fetch64(Bytes48(), 0) == 0x8e8549b7b12e60dd && Fetch64(Bytes48(), 8) == 0x8ed621e7c9357798
    ensures Fetch64(Bytes48(), 16) == 0x61ed317ba835f8e && Fetch64(Bytes48(), 24) == 0x99bc710bb727560
    ensures Fetch64(Bytes48(), 32) == 0xb389b98b4893b3a7 && Fetch64(Bytes48(), 40) == 0x8820926e65d799a2
  {
    hide Flat, Fetch64;
    var words := [0x8e8549b7b12e60dd, 0x8ed621e7c9357798, 0x61ed317ba835f8e, 0x99bc710bb727560, 0xb389b98b4893b3a7,
      0x8820926e65d799a2];
    FlatFetch(words, 0);
    FlatFetch(words, 1);
    FlatFetch(words, 2);
    FlatFetch(words, 3);
    FlatFetch(words, 4);
    FlatFetch(words, 5);
  }

  /** The test data from offset 4096 on. */
  function Bytes64(): (s: Bytes)
    ensures |s| == 64
  {
    Flat([0x2a4e7d938f25043e, 0xffa951ca10c38b1, 0x9cef7e8050a6d016, 0x46e2db8046db32cd, 0x5f3a485ff33fb7ae,
      0xaf95f6d3448bf7dd, 0xa88f8a9a7e9f4b31, 0x33fa206459cd9cad])
  }

  lemma Bytes64Words()
    ensures Fetch64(Bytes64(), 0) == 0x2a4e7d938f25043e && Fetch64(Bytes64(), 8) == 0xffa951ca10c38b1
    ensures Fetch64(Bytes64(), 16) == 0x9cef7e8050a6d016 && Fetch64(Bytes64(), 24) == 0x46e2db8046db32cd
    ensures Fetch64(Bytes64(), 32) == 0x5f3a485ff33fb7ae && Fetch64(Bytes64(), 40) == 0xaf95f6d3448bf7dd
    ensures Fetch64(Bytes64(), 48) == 0xa88f8a9a7e9f4b31 && Fetch64(Bytes64(), 56) == 0x33fa206459cd9cad
  {
    hide Flat, Fetch64;
    var words := [0x2a4e7d938f25043e, 0xffa951ca10c38b1, 0x9cef7e8050a6d016, 0x46e2db8046db32cd, 0x5f3a485ff33fb7ae,
      0xaf95f6d3448bf7dd, 0xa88f8a9a7e9f4b31, 0x33fa206459cd9cad];
    FlatFetch(words, 0);
    FlatFetch(words, 1);
    FlatFetch(words, 2);
    FlatFetch(words, 3);
    FlatFetch(words, 4);
    FlatFetch(words, 5);
    FlatFetch(words, 6);
    FlatFetch(words, 7);
  }

  /** The test data from offset 6400 on. */
  function Bytes80(): (s: Bytes)
    ensures |s| == 80
  {
    Flat([0xeba3d4cdfb3e64ac, 0xb54dd09c79ef80e4, 0xa5caa276d67bc903, 0x68002eb9bc107c0d, 0xefb0cd11d11c1f94,
      0x8869aa50a1af30f6, 0x13be37c433f59e80, 0x7adabb42311c2bb4, 0xf9e078239339049e, 0x9c534f0ae6a42efd])
  }

  lemma Bytes80Words()
    ensures Fetch64(Bytes80(), 0) == 0xeba3d4cdfb3e64ac && Fetch64(Bytes80(), 8) == 0xb54dd09c79ef80e4
    ensures Fetch64(Bytes80(), 16) == 0xa5caa276d67bc903 && Fetch64(Bytes80(), 24) == 0x68002eb9bc107c0d
    ensures Fetch64(Bytes80(), 32) == 0xefb0cd11d11c1f94 && Fetch64(Bytes80(), 40) == 0x8869aa50a1af30f6
    ensures Fetch64(Bytes80(), 48) == 0x13be37c433f59e80 && Fetch64(Bytes80(), 56) == 0x7adabb42311c2bb4
    ensures Fetch64(Bytes80(), 64) == 0xf9e078239339049e && Fetch64(Bytes80(), 72) == 0x9c534f0ae6a42efd
  {
    hide Flat, Fetch64;
    var words := [0xeba3d4cdfb3e64ac, 0xb54dd09c79ef80e4, 0xa5caa276d67bc903, 0x68002eb9bc107c0d, 0xefb0cd11d11c1f94,
      0x8869aa50a1af30f6, 0x13be37c433f59e80, 0x7adabb42311c2bb4, 0xf9e078239339049e, 0x9c534f0ae6a42efd];
    FlatFetch(words, 0);
    FlatFetch(words, 1);
    FlatFetch(words, 2);
    FlatFetch(words, 3);
    FlatFetch(words, 4);
    FlatFetch(words, 5);
    FlatFetch(words, 6);
    FlatFetch(words, 7);
    FlatFetch(words, 8);
    FlatFetch(words, 9);
  }

  lemma Bytes80Halves()
    ensures Fetch32(Bytes80(), 0) == 0xfb3e64ac && Fetch32(Bytes80(), 4) == 0xeba3d4cd
    ensures Fetch32(Bytes80(), 8) == 0x79ef80e4 && Fetch32(Bytes80(), 12) == 0xb54dd09c
    ensures Fetch32(Bytes80(), 16) == 0xd67bc903 && Fetch32(Bytes80(), 20) == 0xa5caa276
    ensures Fetch32(Bytes80(), 24) == 0xbc107c0d && Fetch32(Bytes80(), 28) == 0x68002eb9
    ensures Fetch32(Bytes80(), 32) == 0xd11c1f94 && Fetch32(Bytes80(), 36) == 0xefb0cd11
    ensures Fetch32(Bytes80(), 40) == 0xa1af30f6 && Fetch32(Bytes80(), 44) == 0x8869aa50
    ensures Fetch32(Bytes80(), 48) == 0x33f59e80 && Fetch32(Bytes80(), 52) == 0x13be37c4
    ensures Fetch32(Bytes80(), 56) == 0x311c2bb4 && Fetch32(Bytes80(), 60) == 0x7adabb42
    ensures Fetch32(Bytes80(), 64) == 0x9339049e && Fetch32(Bytes80(), 68) == 0xf9e07823
    ensures Fetch32(Bytes80(), 72) == 0xe6a42efd && Fetch32(Bytes80(), 76) == 0x9c534f0a
  {
    hide Bytes80, Fetch64, Fetch32;
    Bytes80Words();
    FetchHalves(Bytes80(), 0, 0xfb3e64ac, 0xeba3d4cd);
    FetchHalves(Bytes80(), 8, 0x79ef80e4, 0xb54dd09c);
    FetchHalves(Bytes80(), 16, 0xd67bc903, 0xa5caa276);
    FetchHalves(Bytes80(), 24, 0xbc107c0d, 0x68002eb9);
    FetchHalves(Bytes80(), 32, 0xd11c1f94, 0xefb0cd11);
    FetchHalves(Bytes80(), 40, 0xa1af30f6, 0x8869aa50);
    FetchHalves(Bytes80(), 48, 0x33f59e80, 0x13be37c4);
    FetchHalves(Bytes80(), 56, 0x311c2bb4, 0x7adabb42);
    FetchHalves(Bytes80(), 64, 0x9339049e, 0xf9e07823);
    FetchHalves(Bytes80(), 72, 0xe6a42efd, 0x9c534f0a);
  }

  /** The test data from offset 16384 on. */
  function Bytes128(): (s: Bytes)
    ensures |s| == 128
  {
    Flat([0xa4c192816515eae3, 0x2954801a6ab50302, 0x774cbf7ddde5a2d2, 0x49010498f8a30b1e, 0x6f799914620bdf0c,
      0x996d1a620d3723d0, 0x770de050c28b17ee, 0xf78c200023f38838, 0xd6a83e4a2e46f16a, 0x305850b1edb236bf,
      0x11d70503dc0b5ce7, 0x27e70b73fee11342, 0x30d1509cddac4199, 0x349e1115d792cdfc, 0xef34e5c178f39f29,
      0x2b748a5fd5579189])
  }

  lemma Bytes128Words()
    ensures Fetch64(Bytes128(), 0) == 0xa4c192816515eae3 && Fetch64(Bytes128(), 8) == 0x2954801a6ab50302
    ensures Fetch64(Bytes128(), 16) == 0x774cbf7ddde5a2d2 && Fetch64(Bytes128(), 24) == 0x49010498f8a30b1e
    ensures Fetch64(Bytes128(), 32) == 0x6f799914620bdf0c && Fetch64(Bytes128(), 40) == 0x996d1a620d3723d0
    ensures Fetch64(Bytes128(), 48) == 0x770de050c28b17ee && Fetch64(Bytes128(), 56) == 0xf78c200023f38838
    ensures Fetch64(Bytes128(), 64) == 0xd6a83e4a2e46f16a && Fetch64(Bytes128(), 72) == 0x305850b1edb236bf
    ensures Fetch64(Bytes128(), 80) == 0x11d70503dc0b5ce7 && Fetch64(Bytes128(), 88) == 0x27e70b73fee11342
    ensures Fetch64(Bytes128(), 96) == 0x30d1509cddac4199 && Fetch64(Bytes128(), 104) == 0x349e1115d792cdfc
    ensures Fetch64(Bytes128(), 112) == 0xef34e5c178f39f29 && Fetch64(Bytes128(), 120) == 0x2b748a5fd5579189
  {
    hide Flat, Fetch64;
    var words := [0xa4c192816515eae3, 0x2954801a6ab50302, 0x774cbf7ddde5a2d2, 0x49010498f8a30b1e, 0x6f799914620bdf0c,
      0x996d1a620d3723d0, 0x770de050c28b17ee, 0xf78c200023f38838, 0xd6a83e4a2e46f16a, 0x305850b1edb236bf,
      0x11d70503dc0b5ce7, 0x27e70b73fee11342, 0x30d1509cddac4199, 0x349e1115d792cdfc, 0xef34e5c178f39f29,
      0x2b748a5fd5579189];
    FlatFetch(words, 0);
    FlatFetch(words, 1);
    FlatFetch(words, 2);
    FlatFetch(words, 3);
    FlatFetch(words, 4);
    FlatFetch(words, 5);
    FlatFetch(words, 6);
    FlatFetch(words, 7);
    FlatFetch(words, 8);
    FlatFetch(words, 9);
    FlatFetch(words, 10);
    FlatFetch(words, 11);
    FlatFetch(words, 12);
    FlatFetch(words, 13);
    FlatFetch(words, 14);
    FlatFetch(words, 15);
  }

  /** The test data from offset 36864 on. */
  function Bytes192(): (s: Bytes)
    ensures |s| == 192
  {
    Flat([0xc944145a04c7c9cf, 0xae03bd336cf48c50, 0xddcde483eb3994b, 0xf72e90454f7b7dd5, 0xcc599c4bd10a76f6,
      0xa71ec083dca5cde0, 0x1649e39f191ec000, 0x450d622bb5a507f6, 0xd5fe0adc6e9505ff, 0xe57aaa5abac08e9f,
      0x37d4842b6275a318, 0x7d911c2cfdc163ca, 0xa8f4996f8a043968, 0xd5b347a418aff493, 0x79a4dac19105a18b,
      0x3ba28c4874536856, 0xf40a7ce08d6517d8, 0x9dc3f342dc772a55, 0x435911ac4779a3b6, 0xb8be8350b6decc08,
      0x2f11c5621700c5fc, 0x1f397c3e96838ea2, 0x2bacc9bdbfeddc0f, 0x2638657f2ac49374])
  }

  lemma Bytes192Words()
    ensures Fetch64(Bytes192(), 0) == 0xc944145a04c7c9cf && Fetch64(Bytes192(), 8) == 0xae03bd336cf48c50
    ensures Fetch64(Bytes192(), 16) == 0xddcde483eb3994b && Fetch64(Bytes192(), 24) == 0xf72e90454f7b7dd5
    ensures Fetch64(Bytes192(), 32) == 0xcc599c4bd10a76f6 && Fetch64(Bytes192(), 40) == 0xa71ec083dca5cde0
    ensures Fetch64(Bytes192(), 48) == 0x1649e39f191ec000 && Fetch64(Bytes192(), 56) == 0x450d622bb5a507f6
    ensures Fetch64(Bytes192(), 64) == 0xd5fe0adc6e9505ff && Fetch64(Bytes192(), 72) == 0xe57aaa5abac08e9f
    ensures Fetch64(Bytes192(), 80) == 0x37d4842b6275a318 && Fetch64(Bytes192(), 88) == 0x7d911c2cfdc163ca
    ensures Fetch64(Bytes192(), 96) == 0xa8f4996f8a043968 && Fetch64(Bytes192(), 104) == 0xd5b347a418aff493
    ensures Fetch64(Bytes192(), 112) == 0x79a4dac19105a18b && Fetch64(Bytes192(), 120) == 0x3ba28c4874536856
    ensures Fetch64(Bytes192(), 128) == 0xf40a7ce08d6517d8 && Fetch64(Bytes192(), 136) == 0x9dc3f342dc772a55
    ensures Fetch64(Bytes192(), 144) == 0x435911ac4779a3b6 && Fetch64(Bytes192(), 152) == 0xb8be8350b6decc08
    ensures Fetch64(Bytes192(), 160) == 0x2f11c5621700c5fc && Fetch64(Bytes192(), 168) == 0x1f397c3e96838ea2
    ensures Fetch64(Bytes192(), 176) == 0x2bacc9bdbfeddc0f && Fetch64(Bytes192(), 184) == 0x2638657f2ac49374
  {
    hide Flat, Fetch64;
    var words := [0xc944145a04c7c9cf, 0xae03bd336cf48c50, 0xddcde483eb3994b, 0xf72e90454f7b7dd5, 0xcc599c4bd10a76f6,
      0xa71ec083dca5cde0, 0x1649e39f191ec000, 0x450d622bb5a507f6, 0xd5fe0adc6e9505ff, 0xe57aaa5abac08e9f,
      0x37d4842b6275a318, 0x7d911c2cfdc163ca, 0xa8f4996f8a043968, 0xd5b347a418aff493, 0x79a4dac19105a18b,
      0x3ba28c4874536856, 0xf40a7ce08d6517d8, 0x9dc3f342dc772a55, 0x435911ac4779a3b6, 0xb8be8350b6decc08,
      0x2f11c5621700c5fc, 0x1f397c3e96838ea2, 0x2bacc9bdbfeddc0f, 0x2638657f2ac49374];
    FlatFetch(words, 0);
    FlatFetch(words, 1);
    FlatFetch(words, 2);
    FlatFetch(words, 3);
    FlatFetch(words, 4);
    FlatFetch(words, 5);
    FlatFetch(words, 6);
    FlatFetch(words, 7);
    FlatFetch(words, 8);
    FlatFetch(words, 9);
    FlatFetch(words, 10);
    FlatFetch(words, 11);
    FlatFetch(words, 12);
    FlatFetch(words, 13);
    FlatFetch(words, 14);
    FlatFetch(words, 15);
    FlatFetch(words, 16);
    FlatFetch(words, 17);
    FlatFetch(words, 18);
    FlatFetch(words, 19);
    FlatFetch(words, 20);
    FlatFetch(words, 21);
    FlatFetch(words, 22);
    FlatFetch(words, 23);
  }

  /** What follows the seed in row 16. */
  function Rest16(): (s: Bytes)
    ensures |s| == 0
  {
    []
  }

  /** What follows the seed in row 24. */
  function Rest24(): (s: Bytes)
    ensures |s| == 8
  {
    Flat([0x85bdee268f04b761])
  }

  lemma Rest24Words()
    ensures Fetch64(Rest24(), 0) == 0x85bdee268f04b761
  {
    hide Flat, Fetch64;
    var words := [0x85bdee268f04b761];
    FlatFetch(words, 0);
  }

  lemma Rest24IsRest()
    ensures Bytes24()[16..] == Rest24()
  {
    hide Flat;
    var words := [0x7f9980b9745f5bfa, 0x574792cbb5c302f8, 0x85bdee268f04b761];
    FlatRest(words);
    assert words[2..] == [0x85bdee268f04b761];
  }
}
