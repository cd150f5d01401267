/**
 * Known answers of HighwayHash (lib/checksums/highwayhash.c:16-194), evaluated in the arithmetic of
 * HighwayRounds: the constants, the rotations, the zipper, the last packet and the final permutations together.
 */
module HighwayAnswers {
  import opened Common
  import opened BlockStream
  import opened HighwayRounds
  import Cumulative
  import HighwayHash

  /** The key of the bytes 0 to 31. */
  const KEY: Words<Word> :=
    Words(0x0706050403020100, 0x0f0e0d0c0b0a0908, 0x1716151413121110, 0x1f1e1d1c1b1a1918)

  /** `HighwayHashFinalize64`, after the permutations. */
  function Sum64(s: State<Word>): Word {
    Plus(Plus(s.a.v0, s.a.v1), Plus(s.a.mul0, s.a.mul1))
  }

  function Hash64(data: seq<Byte>): Word {
    Sum64(HighwayHash.Hash(Kernel(OPS, Reset(KEY)), data))
  }

  lemma HashOfRest<W>(o: Ops<W>, start: State<W>, rest: seq<Byte>)
    requires 0 < |rest| < HighwayHash.PACKET
    ensures HighwayHash.Hash(Kernel(o, start), rest)
         == FinalPermutes(o, Update(o, Stir(o, start, |rest|), Lanes(o, HighwayHash.Padded(rest))))
  {}

  lemma PacketFirst<W>(o: Ops<W>, start: State<W>, packet: seq<Byte>, rest: seq<Byte>)
    requires |packet| == HighwayHash.PACKET && |rest| < HighwayHash.PACKET
    ensures HighwayHash.Hash(Kernel(o, start), packet + rest)
         == HighwayHash.Hash(Kernel(o, UpdatePacket(o, start, packet)), rest)
  {
    var data, n := packet + rest, HighwayHash.PACKET;
    assert data[..n] == packet && data[n..] == rest;
    assert Absorb(Packets(o), n, start, data) == Absorb(Packets(o), n, UpdatePacket(o, start, packet), rest);
  }

  /** The words of a packet, from its bytes. */
  lemma LanesOfBytes(p: seq<Byte>)
    requires |p| == HighwayHash.PACKET
    ensures Lanes(OPS, p) == Words(Cumulative.Pack(p[0], p[1], p[2], p[3], p[4], p[5], p[6], p[7]),
                                   Cumulative.Pack(p[8], p[9], p[10], p[11], p[12], p[13], p[14], p[15]),
                                   Cumulative.Pack(p[16], p[17], p[18], p[19], p[20], p[21], p[22], p[23]),
                                   Cumulative.Pack(p[24], p[25], p[26], p[27], p[28], p[29], p[30], p[31]))
  {}

  lemma NoBytes()
    ensures Hash64([]) == 0x907a56de22c26e53
  {}

  // ----- 7 bytes -----

  const BYTES7: seq<Byte> := [0, 1, 2, 3, 4, 5, 6]

  const WORDS7: Words<Word> := Words(0x3020100, 0, 0x60504, 0)

  const AFTER7: State<Word> :=
    State(Lane(0x2e2b8a6f2624cbce, 0x136629d38febac3b, 0xdf1afbe19a132797, 0x0e143a660f09fe91),
          Lane(0xafe1dd9141e9b614, 0xa59994be874c616e, 0xd520e48f12454581, 0xa5bb8ac6c09cb061),
          Lane(0x1ba13a6bbf4f26ca, 0x808ba0b43d52f518, 0x1315b1cf35fae2dd, 0x8f0ea51bbbbff38f),
          Lane(0x36afeec0c1332ab5, 0x59118ae35addaa27, 0x3d261b90fe983911, 0x7681318f5ba52e0f))

  lemma Packet7()
    ensures Lanes(OPS, HighwayHash.Padded(BYTES7)) == WORDS7
  {
    var p: seq<Byte> := [0, 1, 2, 3, 0, 0, 0, 0, 0, 0, 0, 0, 0, 0, 0, 0,
                         4, 5, 6, 0, 0, 0, 0, 0, 0, 0, 0, 0, 0, 0, 0, 0];
    assert HighwayHash.Padded(BYTES7) == p;
    LanesOfBytes(p);
  }

  lemma Rest7()
    ensures Update(OPS, Stir(OPS, Reset(KEY), 7), WORDS7) == AFTER7
  {}

  lemma Sum7()
    ensures Sum64(FinalPermutes(OPS, AFTER7)) == 0x4d02ae1738f59482
  {}

  lemma SevenBytes()
    ensures Hash64(BYTES7) == 0x4d02ae1738f59482
  {
    Packet7();
    Rest7();
    Sum7();
    HashOfRest(OPS, Reset(KEY), BYTES7);
  }

  // ----- 55 bytes: one packet, and 23 more -----

  const FIRST32: seq<Byte> :=
    [0, 1, 2, 3, 4, 5, 6, 7, 8, 9, 10, 11, 12, 13, 14, 15,
     16, 17, 18, 19, 20, 21, 22, 23, 24, 25, 26, 27, 28, 29, 30, 31]

  const NEXT23: seq<Byte> :=
    [32, 33, 34, 35, 36, 37, 38, 39, 40, 41, 42, 43, 44, 45, 46, 47,
     48, 49, 50, 51, 52, 53, 54]

  const AFTER32: State<Word> :=
    State(Lane(0xdf332ea141b5548f, 0xab45cdf6fc0d1a07, 0x6acd68c11bf8be89, 0x2e6566d33ebf7ec7),
          Lane(0x870ce55a162fae53, 0x5e11713ed4d8636e, 0x0415411531681200, 0xab9fcd28f9fc7250),
          Lane(0x8f05a3985ccd10fa, 0xd1cd27c1de4f4928, 0x13f4125d3223077c, 0x840637c436c58aac),
          Lane(0x57a00fab9814470a, 0x3099c5e9d79fc8ee, 0x0a6d214934a6e36b, 0xcd2e69dfaa4900b3))

  const WORDS55: Words<Word> := Words(0x2726252423222120, 0x2f2e2d2c2b2a2928, 0x33323130, 0x3635343300000000)

  const AFTER55: State<Word> :=
    State(Lane(0x446b7bfdb08dcdb0, 0x3e09fdd0bea627e6, 0x504d727c81fd9459, 0x688074ec29e269a8),
          Lane(0xc005fc418728ebcd, 0x173fe2e61025a4e0, 0x0e9e7f14aa0c6949, 0xa6d4a32bb0fdc3f4),
          Lane(0x63413bae8c56fab6, 0xaaf6f30f351ab5dc, 0x987e20086a03c1cc, 0x09212a2a6c78939c),
          Lane(0x191e5655e4703880, 0x98bae39702836233, 0x3088d07e5dab61b5, 0xc0e2eac725f5876b))

  lemma Words32()
    ensures Lanes(OPS, FIRST32) == Words(0x0706050403020100, 0x0f0e0d0c0b0a0908, 0x1716151413121110, 0x1f1e1d1c1b1a1918)
  {
    LanesOfBytes(FIRST32);
  }

  lemma Packet32()
    ensures UpdatePacket(OPS, Reset(KEY), FIRST32) == AFTER32
  {
    Words32();
  }

  lemma Packet55()
    ensures Lanes(OPS, HighwayHash.Padded(NEXT23)) == WORDS55
  {
    var p: seq<Byte> := [32, 33, 34, 35, 36, 37, 38, 39, 40, 41, 42, 43, 44, 45, 46, 47,
                         48, 49, 50, 51, 0, 0, 0, 0, 0, 0, 0, 0, 51, 52, 53, 54];
    assert HighwayHash.Padded(NEXT23) == p;
    LanesOfBytes(p);
  }

  lemma Rest55()
    ensures Update(OPS, Stir(OPS, AFTER32, 23), WORDS55) == AFTER55
  {}

  lemma Sum55()
    ensures Sum64(FinalPermutes(OPS, AFTER55)) == 0xf89b7ff609b1c0a7
  {}

  lemma FiftyFiveBytes()
    ensures Hash64(FIRST32 + NEXT23) == 0xf89b7ff609b1c0a7
  {
    Packet32();
    Packet55();
    Rest55();
    Sum55();
    PacketFirst(OPS, Reset(KEY), FIRST32, NEXT23);
    HashOfRest(OPS, AFTER32, NEXT23);
  }
}
