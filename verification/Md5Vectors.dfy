/** What the digest is, told without its formulas: the four bit functions by their truth tables,
    the initial words and the padding by their octets, and three of the digests that section
    A.5 of RFC 1321 lists. */
module Md5Vectors {
  import opened Md5Spec
  import opened Md5

  // ---------------------------------------------------------------- the bit functions

  /** In the places m, these words have the same bits. */
  predicate Agree(m: Word, v: Word, w: Word) {
    v & m == w & m
  }

  const ONES: Word := 0xffff_ffff

  /** Where the first argument is set it is the second, elsewhere the third. */
  lemma FChooses(m: Word, x: Word, y: Word, z: Word)
    ensures Agree(m, x, ONES) ==> Agree(m, F(x, y, z), y)
    ensures Agree(m, x, 0) ==> Agree(m, F(x, y, z), z)
  {
  }

  /** Where the last argument is set it is the first, elsewhere the second. */
  lemma GChooses(m: Word, x: Word, y: Word, z: Word)
    ensures Agree(m, z, ONES) ==> Agree(m, G(x, y, z), x)
    ensures Agree(m, z, 0) ==> Agree(m, G(x, y, z), y)
  {
  }

  /** Of any three bits two agree: the parity is the other one. */
  lemma HIsParity(m: Word, x: Word, y: Word, z: Word)
    ensures Agree(m, x, y) ==> Agree(m, H(x, y, z), z)
    ensures Agree(m, y, z) ==> Agree(m, H(x, y, z), x)
    ensures Agree(m, z, x) ==> Agree(m, H(x, y, z), y)
  {
    hide H;
    HMasked(m, x, y, z);
    XorCancels(x & m, y & m, z & m);
  }

  lemma HMasked(m: Word, x: Word, y: Word, z: Word)
    ensures H(x, y, z) & m == (x & m) ^ (y & m) ^ (z & m)
  {
  }

  lemma XorCancels(u: Word, v: Word, w: Word)
    ensures u == v ==> u ^ v ^ w == w
    ensures v == w ==> u ^ v ^ w == u
    ensures w == u ==> u ^ v ^ w == v
  {
  }

  /** The second argument, turned over where the first is set or the last is not. */
  lemma ITurns(m: Word, x: Word, y: Word, z: Word)
    ensures Agree(m, x, 0) && Agree(m, z, ONES) ==> Agree(m, I(x, y, z), y)
    ensures Agree(m, x, ONES) || Agree(m, z, 0) ==> Agree(m, I(x, y, z), !y)
  {
  }

  // ---------------------------------------------------------------- words, padding, length

  /** The words of section 3.3, as the octets it lists. */
  lemma InitialOctets()
    ensures OctetsOf(INITIAL.a) == [0x01, 0x23, 0x45, 0x67] && OctetsOf(INITIAL.b) == [0x89, 0xab, 0xcd, 0xef]
    ensures OctetsOf(INITIAL.c) == [0xfe, 0xdc, 0xba, 0x98] && OctetsOf(INITIAL.d) == [0x76, 0x54, 0x32, 0x10]
  {
  }

  /** The padding of section 3.1 is the shortest of its kind. */
  lemma PaddingLeast(n: nat)
    ensures 1 <= |Padding(n)| <= 64 && Padding(n)[0] == 0x80 && forall k :: 0 < k < |Padding(n)| ==> Padding(n)[k] == 0
  {
  }

  // ---------------------------------------------------------------- four operations at a time

  function Four1(
    a: Word, b: Word, c: Word, d: Word, x0: Word, x1: Word, x2: Word, x3: Word, t0: Word, t1: Word, t2: Word, t3: Word): Quad
  {
    var a' := FF(a, b, c, d, x0, 7, t0);
    var d' := FF(d, a', b, c, x1, 12, t1);
    var c' := FF(c, d', a', b, x2, 17, t2);
    var b' := FF(b, c', d', a', x3, 22, t3);
    Quad(a', b', c', d')
  }

  function Four2(
    a: Word, b: Word, c: Word, d: Word, x0: Word, x1: Word, x2: Word, x3: Word, t0: Word, t1: Word, t2: Word, t3: Word): Quad
  {
    var a' := GG(a, b, c, d, x0, 5, t0);
    var d' := GG(d, a', b, c, x1, 9, t1);
    var c' := GG(c, d', a', b, x2, 14, t2);
    var b' := GG(b, c', d', a', x3, 20, t3);
    Quad(a', b', c', d')
  }

  function Four3(
    a: Word, b: Word, c: Word, d: Word, x0: Word, x1: Word, x2: Word, x3: Word, t0: Word, t1: Word, t2: Word, t3: Word): Quad
  {
    var a' := HH(a, b, c, d, x0, 4, t0);
    var d' := HH(d, a', b, c, x1, 11, t1);
    var c' := HH(c, d', a', b, x2, 16, t2);
    var b' := HH(b, c', d', a', x3, 23, t3);
    Quad(a', b', c', d')
  }

  function Four4(
    a: Word, b: Word, c: Word, d: Word, x0: Word, x1: Word, x2: Word, x3: Word, t0: Word, t1: Word, t2: Word, t3: Word): Quad
  {
    var a' := II(a, b, c, d, x0, 6, t0);
    var d' := II(d, a', b, c, x1, 10, t1);
    var c' := II(c, d', a', b, x2, 15, t2);
    var b' := II(b, c', d', a', x3, 21, t3);
    Quad(a', b', c', d')
  }

  lemma Next1(
    x: seq<Word>, i: nat, a: Word, b: Word, c: Word, d: Word, x0: Word, x1: Word, x2: Word, x3: Word,
    t0: Word, t1: Word, t2: Word, t3: Word, r: Quad)
    requires |x| == 16 && 0 <= i < 16 && i % 4 == 0 && Steps(x, i, INITIAL) == Quad(a, b, c, d)
    requires x[Pick(i)] == x0 && x[Pick(i + 1)] == x1 && x[Pick(i + 2)] == x2 && x[Pick(i + 3)] == x3
    requires T1(i) == t0 && T1(i + 1) == t1 && T1(i + 2) == t2 && T1(i + 3) == t3
    requires Four1(a, b, c, d, x0, x1, x2, x3, t0, t1, t2, t3) == r
    ensures Steps(x, i + 4, INITIAL) == r
  {
    hide Steps, FF, Pick, T1;
    FourFF(x, i, INITIAL);
  }

  lemma Next2(
    x: seq<Word>, i: nat, a: Word, b: Word, c: Word, d: Word, x0: Word, x1: Word, x2: Word, x3: Word,
    t0: Word, t1: Word, t2: Word, t3: Word, r: Quad)
    requires |x| == 16 && 16 <= i < 32 && i % 4 == 0 && Steps(x, i, INITIAL) == Quad(a, b, c, d)
    requires x[Pick(i)] == x0 && x[Pick(i + 1)] == x1 && x[Pick(i + 2)] == x2 && x[Pick(i + 3)] == x3
    requires T2(i - 16) == t0 && T2(i + 1 - 16) == t1 && T2(i + 2 - 16) == t2 && T2(i + 3 - 16) == t3
    requires Four2(a, b, c, d, x0, x1, x2, x3, t0, t1, t2, t3) == r
    ensures Steps(x, i + 4, INITIAL) == r
  {
    hide Steps, GG, Pick, T2;
    FourGG(x, i, INITIAL);
  }

  lemma Next3(
    x: seq<Word>, i: nat, a: Word, b: Word, c: Word, d: Word, x0: Word, x1: Word, x2: Word, x3: Word,
    t0: Word, t1: Word, t2: Word, t3: Word, r: Quad)
    requires |x| == 16 && 32 <= i < 48 && i % 4 == 0 && Steps(x, i, INITIAL) == Quad(a, b, c, d)
    requires x[Pick(i)] == x0 && x[Pick(i + 1)] == x1 && x[Pick(i + 2)] == x2 && x[Pick(i + 3)] == x3
    requires T3(i - 32) == t0 && T3(i + 1 - 32) == t1 && T3(i + 2 - 32) == t2 && T3(i + 3 - 32) == t3
    requires Four3(a, b, c, d, x0, x1, x2, x3, t0, t1, t2, t3) == r
    ensures Steps(x, i + 4, INITIAL) == r
  {
    hide Steps, HH, Pick, T3;
    FourHH(x, i, INITIAL);
  }

  lemma Next4(
    x: seq<Word>, i: nat, a: Word, b: Word, c: Word, d: Word, x0: Word, x1: Word, x2: Word, x3: Word,
    t0: Word, t1: Word, t2: Word, t3: Word, r: Quad)
    requires |x| == 16 && 48 <= i < 64 && i % 4 == 0 && Steps(x, i, INITIAL) == Quad(a, b, c, d)
    requires x[Pick(i)] == x0 && x[Pick(i + 1)] == x1 && x[Pick(i + 2)] == x2 && x[Pick(i + 3)] == x3
    requires T4(i - 48) == t0 && T4(i + 1 - 48) == t1 && T4(i + 2 - 48) == t2 && T4(i + 3 - 48) == t3
    requires Four4(a, b, c, d, x0, x1, x2, x3, t0, t1, t2, t3) == r
    ensures Steps(x, i + 4, INITIAL) == r
  {
    hide Steps, II, Pick, T4;
    FourII(x, i, INITIAL);
  }

  // ---------------------------------------------------------------- messages of one word

  lemma NothingDone(x: seq<Word>)
    requires |x| == 16
    ensures Steps(x, 0, INITIAL) == Quad(0x67452301, 0xefcdab89, 0x98badcfe, 0x10325476)
  {
  }

  /** The padded block of a message of at most three octets. */
  predicate ShortBlock(x: seq<Word>, first: Word, bits: Word) {
    |x| == 16 && x[0] == first && x[14] == bits && forall k :: 0 < k < 16 && k != 14 ==> x[k] == 0
  }

  lemma Empty8(x: seq<Word>)
    requires ShortBlock(x, 0x00000080, 0)
    ensures Steps(x, 8, INITIAL) == Quad(0x32033344, 0x9bc13ce9, 0xf5b158db, 0x2f35d494)
  {
    hide Steps;
    NothingDone(x);
    Next1(x, 0, 0x67452301, 0xefcdab89, 0x98badcfe, 0x10325476, 0x00000080, 0x00000000, 0x00000000, 0x00000000,
      0xd76aa478, 0xe8c7b756, 0x242070db, 0xc1bdceee, Quad(0xa5202774, 0x1b163203, 0xe7f06b23, 0xf59592dd));
    Next1(x, 4, 0xa5202774, 0x1b163203, 0xe7f06b23, 0xf59592dd, 0x00000000, 0x00000000, 0x00000000, 0x00000000,
      0xf57c0faf, 0x4787c62a, 0xa8304613, 0xfd469501, Quad(0x32033344, 0x9bc13ce9, 0xf5b158db, 0x2f35d494));
  }

  lemma Empty16(x: seq<Word>)
    requires ShortBlock(x, 0x00000080, 0)
    ensures Steps(x, 16, INITIAL) == Quad(0xf56c7cf1, 0xd6819c6a, 0x5aa53f75, 0x374943a7)
  {
    hide Steps;
    Empty8(x);
    Next1(x, 8, 0x32033344, 0x9bc13ce9, 0xf5b158db, 0x2f35d494, 0x00000000, 0x00000000, 0x00000000, 0x00000000,
      0x698098d8, 0x8b44f7af, 0xffff5bb1, 0x895cd7be, Quad(0x3893b991, 0x70768a29, 0xe1ef0576, 0xfce4a312));
    Next1(x, 12, 0x3893b991, 0x70768a29, 0xe1ef0576, 0xfce4a312, 0x00000000, 0x00000000, 0x00000000, 0x00000000,
      0x6b901122, 0xfd987193, 0xa679438e, 0x49b40821, Quad(0xf56c7cf1, 0xd6819c6a, 0x5aa53f75, 0x374943a7));
  }

  lemma Empty24(x: seq<Word>)
    requires ShortBlock(x, 0x00000080, 0)
    ensures Steps(x, 24, INITIAL) == Quad(0x3d1e3e6c, 0xe422531a, 0xeb41643e, 0x68b7b3e3)
  {
    hide Steps;
    Empty16(x);
    Next2(x, 16, 0xf56c7cf1, 0xd6819c6a, 0x5aa53f75, 0x374943a7, 0x00000000, 0x00000000, 0x00000000, 0x00000080,
      0xf61e2562, 0xc040b340, 0x265e5a51, 0xe9b6c7aa, Quad(0x1c7d7513, 0xbd782e17, 0xc095f13a, 0x7bd57a3a));
    Next2(x, 20, 0x1c7d7513, 0xbd782e17, 0xc095f13a, 0x7bd57a3a, 0x00000000, 0x00000000, 0x00000000, 0x00000000,
      0xd62f105d, 0x02441453, 0xd8a1e681, 0xe7d3fbc8, Quad(0x3d1e3e6c, 0xe422531a, 0xeb41643e, 0x68b7b3e3));
  }

  lemma Empty32(x: seq<Word>)
    requires ShortBlock(x, 0x00000080, 0)
    ensures Steps(x, 32, INITIAL) == Quad(0x13707036, 0xa2205f1f, 0x1c31c384, 0xae7813db)
  {
    hide Steps;
    Empty24(x);
    Next2(x, 24, 0x3d1e3e6c, 0xe422531a, 0xeb41643e, 0x68b7b3e3, 0x00000000, 0x00000000, 0x00000000, 0x00000000,
      0x21e1cde6, 0xc33707d6, 0xf4d50d87, 0x455a14ed, Quad(0x306ec122, 0xa0572807, 0xa3c663da, 0xd28c77c2));
    Next2(x, 28, 0x306ec122, 0xa0572807, 0xa3c663da, 0xd28c77c2, 0x00000000, 0x00000000, 0x00000000, 0x00000000,
      0xa9e3e905, 0xfcefa3f8, 0x676f02d9, 0x8d2a4c8a, Quad(0x13707036, 0xa2205f1f, 0x1c31c384, 0xae7813db));
  }

  lemma Empty40(x: seq<Word>)
    requires ShortBlock(x, 0x00000080, 0)
    ensures Steps(x, 40, INITIAL) == Quad(0x5f7a9b2e, 0xc5dc8c15, 0x91ca4cb7, 0xabc34e16)
  {
    hide Steps;
    Empty32(x);
    Next3(x, 32, 0x13707036, 0xa2205f1f, 0x1c31c384, 0xae7813db, 0x00000000, 0x00000000, 0x00000000, 0x00000000,
      0xfffa3942, 0x8771f681, 0x6d9d6122, 0xfde5380c, Quad(0xdf63eaa1, 0x004b6669, 0x12f3e755, 0xc3689f5b));
    Next3(x, 36, 0xdf63eaa1, 0x004b6669, 0x12f3e755, 0xc3689f5b, 0x00000000, 0x00000000, 0x00000000, 0x00000000,
      0xa4beea44, 0x4bdecfa9, 0xf6bb4b60, 0xbebfbc70, Quad(0x5f7a9b2e, 0xc5dc8c15, 0x91ca4cb7, 0xabc34e16));
  }

  lemma Empty48(x: seq<Word>)
    requires ShortBlock(x, 0x00000080, 0)
    ensures Steps(x, 48, INITIAL) == Quad(0x3f55edfd, 0xca7d2dbd, 0x68d84ea2, 0x22a31f54)
  {
    hide Steps;
    Empty40(x);
    Next3(x, 40, 0x5f7a9b2e, 0xc5dc8c15, 0x91ca4cb7, 0xabc34e16, 0x00000000, 0x00000080, 0x00000000, 0x00000000,
      0x289b7ec6, 0xeaa127fa, 0xd4ef3085, 0x04881d05, Quad(0x4497169d, 0x0fe32453, 0xfd95f243, 0x76fd93d4));
    Next3(x, 44, 0x4497169d, 0x0fe32453, 0xfd95f243, 0x76fd93d4, 0x00000000, 0x00000000, 0x00000000, 0x00000000,
      0xd9d4d039, 0xe6db99e5, 0x1fa27cf8, 0xc4ac5665, Quad(0x3f55edfd, 0xca7d2dbd, 0x68d84ea2, 0x22a31f54));
  }

  lemma Empty56(x: seq<Word>)
    requires ShortBlock(x, 0x00000080, 0)
    ensures Steps(x, 56, INITIAL) == Quad(0x5625a114, 0x1e77fa61, 0x392ad0d0, 0x3450f42b)
  {
    hide Steps;
    Empty48(x);
    Next4(x, 48, 0x3f55edfd, 0xca7d2dbd, 0x68d84ea2, 0x22a31f54, 0x00000080, 0x00000000, 0x00000000, 0x00000000,
      0xf4292244, 0x432aff97, 0xab9423a7, 0xfc93a039, Quad(0x93aa2577, 0x561e0689, 0xcd85b8cb, 0x1688dc85));
    Next4(x, 52, 0x93aa2577, 0x561e0689, 0xcd85b8cb, 0x1688dc85, 0x00000000, 0x00000000, 0x00000000, 0x00000000,
      0x655b59c3, 0x8f0ccc92, 0xffeff47d, 0x85845dd1, Quad(0x5625a114, 0x1e77fa61, 0x392ad0d0, 0x3450f42b));
  }

  lemma Empty64(x: seq<Word>)
    requires ShortBlock(x, 0x00000080, 0)
    ensures Steps(x, 64, INITIAL) == Quad(0x7246fad3, 0x14e45506, 0xff4ea3eb, 0x6e10a476)
  {
    hide Steps;
    Empty56(x);
    Next4(x, 56, 0x5625a114, 0x1e77fa61, 0x392ad0d0, 0x3450f42b, 0x00000000, 0x00000000, 0x00000000, 0x00000000,
      0x6fa87e4f, 0xfe2ce6e0, 0xa3014314, 0x4e0811a1, Quad(0x474a9c8c, 0x30130182, 0x36594b14, 0xdfce00bc));
    Next4(x, 60, 0x474a9c8c, 0x30130182, 0x36594b14, 0xdfce00bc, 0x00000000, 0x00000000, 0x00000000, 0x00000000,
      0xf7537e82, 0xbd3af235, 0x2ad7d2bb, 0xeb86d391, Quad(0x7246fad3, 0x14e45506, 0xff4ea3eb, 0x6e10a476));
  }

  lemma A8(x: seq<Word>)
    requires ShortBlock(x, 0x00008061, 8)
    ensures Steps(x, 8, INITIAL) == Quad(0x3a9d5bcc, 0xa8af6da5, 0xd31ddc83, 0xe0a07db7)
  {
    hide Steps;
    NothingDone(x);
    Next1(x, 0, 0x67452301, 0xefcdab89, 0x98badcfe, 0x10325476, 0x00008061, 0x00000000, 0x00000000, 0x00000000,
      0xd76aa478, 0xe8c7b756, 0x242070db, 0xc1bdceee, Quad(0xa56017f4, 0x607d9686, 0xe65857a7, 0xf2d58361));
    Next1(x, 4, 0xa56017f4, 0x607d9686, 0xe65857a7, 0xf2d58361, 0x00000000, 0x00000000, 0x00000000, 0x00000000,
      0xf57c0faf, 0x4787c62a, 0xa8304613, 0xfd469501, Quad(0x3a9d5bcc, 0xa8af6da5, 0xd31ddc83, 0xe0a07db7));
  }

  lemma A16(x: seq<Word>)
    requires ShortBlock(x, 0x00008061, 8)
    ensures Steps(x, 16, INITIAL) == Quad(0x44244cf8, 0xf01e3ce2, 0x6360a45f, 0xd0fe9b27)
  {
    hide Steps;
    A8(x);
    Next1(x, 8, 0x3a9d5bcc, 0xa8af6da5, 0xd31ddc83, 0xe0a07db7, 0x00000000, 0x00000000, 0x00000000, 0x00000000,
      0x698098d8, 0x8b44f7af, 0xffff5bb1, 0x895cd7be, Quad(0xbe580957, 0x68493d6a, 0xf5fdd933, 0xf386bea6));
    Next1(x, 12, 0xbe580957, 0x68493d6a, 0xf5fdd933, 0xf386bea6, 0x00000000, 0x00000000, 0x00000008, 0x00000000,
      0x6b901122, 0xfd987193, 0xa679438e, 0x49b40821, Quad(0x44244cf8, 0xf01e3ce2, 0x6360a45f, 0xd0fe9b27));
  }

  lemma A24(x: seq<Word>)
    requires ShortBlock(x, 0x00008061, 8)
    ensures Steps(x, 24, INITIAL) == Quad(0x8c444930, 0x373beab0, 0x2dacb8a3, 0x7267097a)
  {
    hide Steps;
    A16(x);
    Next2(x, 16, 0x44244cf8, 0xf01e3ce2, 0x6360a45f, 0xd0fe9b27, 0x00000000, 0x00000000, 0x00000000, 0x00008061,
      0xf61e2562, 0xc040b340, 0x265e5a51, 0xe9b6c7aa, Quad(0x9c341767, 0x8d25cc66, 0xe39ffd23, 0x970ab3a9));
    Next2(x, 20, 0x9c341767, 0x8d25cc66, 0xe39ffd23, 0x970ab3a9, 0x00000000, 0x00000000, 0x00000000, 0x00000000,
      0xd62f105d, 0x02441453, 0xd8a1e681, 0xe7d3fbc8, Quad(0x8c444930, 0x373beab0, 0x2dacb8a3, 0x7267097a));
  }

  lemma A32(x: seq<Word>)
    requires ShortBlock(x, 0x00008061, 8)
    ensures Steps(x, 32, INITIAL) == Quad(0x93842e98, 0x3745961f, 0x94a2ebee, 0xc7043b64)
  {
    hide Steps;
    A24(x);
    Next2(x, 24, 0x8c444930, 0x373beab0, 0x2dacb8a3, 0x7267097a, 0x00000000, 0x00000008, 0x00000000, 0x00000000,
      0x21e1cde6, 0xc33707d6, 0xf4d50d87, 0x455a14ed, Quad(0xf175e3ad, 0xc8f891b4, 0x87b7f475, 0x9d5df67e));
    Next2(x, 28, 0xf175e3ad, 0xc8f891b4, 0x87b7f475, 0x9d5df67e, 0x00000000, 0x00000000, 0x00000000, 0x00000000,
      0xa9e3e905, 0xfcefa3f8, 0x676f02d9, 0x8d2a4c8a, Quad(0x93842e98, 0x3745961f, 0x94a2ebee, 0xc7043b64));
  }

  lemma A40(x: seq<Word>)
    requires ShortBlock(x, 0x00008061, 8)
    ensures Steps(x, 40, INITIAL) == Quad(0x35a82a7a, 0xcf7e60db, 0x5abe099c, 0x89e0ec97)
  {
    hide Steps;
    A32(x);
    Next3(x, 32, 0x93842e98, 0x3745961f, 0x94a2ebee, 0xc7043b64, 0x00000000, 0x00000000, 0x00000000, 0x00000008,
      0xfffa3942, 0x8771f681, 0x6d9d6122, 0xfde5380c, Quad(0xbd607d1e, 0xdaf7f308, 0xbf8b4f98, 0xa6f72085));
    Next3(x, 36, 0xbd607d1e, 0xdaf7f308, 0xbf8b4f98, 0xa6f72085, 0x00000000, 0x00000000, 0x00000000, 0x00000000,
      0xa4beea44, 0x4bdecfa9, 0xf6bb4b60, 0xbebfbc70, Quad(0x35a82a7a, 0xcf7e60db, 0x5abe099c, 0x89e0ec97));
  }

  lemma A48(x: seq<Word>)
    requires ShortBlock(x, 0x00008061, 8)
    ensures Steps(x, 48, INITIAL) == Quad(0x0ac50e18, 0x918f93bb, 0x8a4a6356, 0x79ca7845)
  {
    hide Steps;
    A40(x);
    Next3(x, 40, 0x35a82a7a, 0xcf7e60db, 0x5abe099c, 0x89e0ec97, 0x00000000, 0x00008061, 0x00000000, 0x00000000,
      0x289b7ec6, 0xeaa127fa, 0xd4ef3085, 0x04881d05, Quad(0x75c151e2, 0xcc6f5e9e, 0x0c0e6ac4, 0x942e0c86));
    Next3(x, 44, 0x75c151e2, 0xcc6f5e9e, 0x0c0e6ac4, 0x942e0c86, 0x00000000, 0x00000000, 0x00000000, 0x00000000,
      0xd9d4d039, 0xe6db99e5, 0x1fa27cf8, 0xc4ac5665, Quad(0x0ac50e18, 0x918f93bb, 0x8a4a6356, 0x79ca7845));
  }

  lemma A56(x: seq<Word>)
    requires ShortBlock(x, 0x00008061, 8)
    ensures Steps(x, 56, INITIAL) == Quad(0x982c7861, 0x893501c0, 0x71fc7709, 0x6812a362)
  {
    hide Steps;
    A48(x);
    Next4(x, 48, 0x0ac50e18, 0x918f93bb, 0x8a4a6356, 0x79ca7845, 0x00008061, 0x00000000, 0x00000008, 0x00000000,
      0xf4292244, 0x432aff97, 0xab9423a7, 0xfc93a039, Quad(0xcab8fe42, 0x1ee405eb, 0x36269c3f, 0x6a4daeee));
    Next4(x, 52, 0xcab8fe42, 0x1ee405eb, 0x36269c3f, 0x6a4daeee, 0x00000000, 0x00000000, 0x00000000, 0x00000000,
      0x655b59c3, 0x8f0ccc92, 0xffeff47d, 0x85845dd1, Quad(0x982c7861, 0x893501c0, 0x71fc7709, 0x6812a362));
  }

  lemma A64(x: seq<Word>)
    requires ShortBlock(x, 0x00008061, 8)
    ensures Steps(x, 64, INITIAL) == Quad(0x52309e0b, 0xb8e94637, 0x49dee633, 0x50f422f3)
  {
    hide Steps;
    A56(x);
    Next4(x, 56, 0x982c7861, 0x893501c0, 0x71fc7709, 0x6812a362, 0x00000000, 0x00000000, 0x00000000, 0x00000000,
      0x6fa87e4f, 0xfe2ce6e0, 0xa3014314, 0x4e0811a1, Quad(0xfebd62fd, 0xaa4d8ae3, 0x53e33526, 0x28936a74));
    Next4(x, 60, 0xfebd62fd, 0xaa4d8ae3, 0x53e33526, 0x28936a74, 0x00000000, 0x00000000, 0x00000000, 0x00000000,
      0xf7537e82, 0xbd3af235, 0x2ad7d2bb, 0xeb86d391, Quad(0x52309e0b, 0xb8e94637, 0x49dee633, 0x50f422f3));
  }

  lemma Abc8(x: seq<Word>)
    requires ShortBlock(x, 0x80636261, 24)
    ensures Steps(x, 8, INITIAL) == Quad(0xc73741ef, 0x928d99f6, 0x207dc67b, 0x8bac3051)
  {
    hide Steps;
    NothingDone(x);
    Next1(x, 0, 0x67452301, 0xefcdab89, 0x98badcfe, 0x10325476, 0x80636261, 0x00000000, 0x00000000, 0x00000000,
      0xd76aa478, 0xe8c7b756, 0x242070db, 0xc1bdceee, Quad(0xd6d117b4, 0x7ad956f2, 0x2f6fbd72, 0x344a8432));
    Next1(x, 4, 0xd6d117b4, 0x7ad956f2, 0x2f6fbd72, 0x344a8432, 0x00000000, 0x00000000, 0x00000000, 0x00000000,
      0xf57c0faf, 0x4787c62a, 0xa8304613, 0xfd469501, Quad(0xc73741ef, 0x928d99f6, 0x207dc67b, 0x8bac3051));
  }

  lemma Abc16(x: seq<Word>)
    requires ShortBlock(x, 0x80636261, 24)
    ensures Steps(x, 16, INITIAL) == Quad(0xdda9b9a6, 0x72aff2e0, 0xe396856b, 0xa1051895)
  {
    hide Steps;
    Abc8(x);
    Next1(x, 8, 0xc73741ef, 0x928d99f6, 0x207dc67b, 0x8bac3051, 0x00000000, 0x00000000, 0x00000000, 0x00000000,
      0x698098d8, 0x8b44f7af, 0xffff5bb1, 0x895cd7be, Quad(0x854b3712, 0x5ed49596, 0x3020401c, 0x74e2f284));
    Next1(x, 12, 0x854b3712, 0x5ed49596, 0x3020401c, 0x74e2f284, 0x00000000, 0x00000000, 0x00000018, 0x00000000,
      0x6b901122, 0xfd987193, 0xa679438e, 0x49b40821, Quad(0xdda9b9a6, 0x72aff2e0, 0xe396856b, 0xa1051895));
  }

  lemma Abc24(x: seq<Word>)
    requires ShortBlock(x, 0x80636261, 24)
    ensures Steps(x, 24, INITIAL) == Quad(0x59a8ffda, 0x47092c07, 0xabfc7920, 0x6d002f1e)
  {
    hide Steps;
    Abc16(x);
    Next2(x, 16, 0xdda9b9a6, 0x72aff2e0, 0xe396856b, 0xa1051895, 0x00000000, 0x00000000, 0x00000000, 0x80636261,
      0xf61e2562, 0xc040b340, 0x265e5a51, 0xe9b6c7aa, Quad(0x3e9e9126, 0xb5b204e4, 0xe25e1652, 0x4a1d804e));
    Next2(x, 20, 0x3e9e9126, 0xb5b204e4, 0xe25e1652, 0x4a1d804e, 0x00000000, 0x00000000, 0x00000000, 0x00000000,
      0xd62f105d, 0x02441453, 0xd8a1e681, 0xe7d3fbc8, Quad(0x59a8ffda, 0x47092c07, 0xabfc7920, 0x6d002f1e));
  }

  lemma Abc32(x: seq<Word>)
    requires ShortBlock(x, 0x80636261, 24)
    ensures Steps(x, 32, INITIAL) == Quad(0x790a77fb, 0x726342d3, 0xa62884aa, 0x9f47e4f8)
  {
    hide Steps;
    Abc24(x);
    Next2(x, 24, 0x59a8ffda, 0x47092c07, 0xabfc7920, 0x6d002f1e, 0x00000000, 0x00000018, 0x00000000, 0x00000000,
      0x21e1cde6, 0xc33707d6, 0xf4d50d87, 0x455a14ed, Quad(0xb7f268cf, 0x786acb8f, 0xfe1623b1, 0x09388eff));
    Next2(x, 28, 0xb7f268cf, 0x786acb8f, 0xfe1623b1, 0x09388eff, 0x00000000, 0x00000000, 0x00000000, 0x00000000,
      0xa9e3e905, 0xfcefa3f8, 0x676f02d9, 0x8d2a4c8a, Quad(0x790a77fb, 0x726342d3, 0xa62884aa, 0x9f47e4f8));
  }

  lemma Abc40(x: seq<Word>)
    requires ShortBlock(x, 0x80636261, 24)
    ensures Steps(x, 40, INITIAL) == Quad(0x21b117b9, 0x5a2f5ea5, 0x3575227e, 0x6e7429d5)
  {
    hide Steps;
    Abc32(x);
    Next3(x, 32, 0x790a77fb, 0x726342d3, 0xa62884aa, 0x9f47e4f8, 0x00000000, 0x00000000, 0x00000000, 0x00000018,
      0xfffa3942, 0x8771f681, 0x6d9d6122, 0xfde5380c, Quad(0xb3707ebf, 0x3b0875c7, 0x8d212ff5, 0x60127b2e));
    Next3(x, 36, 0xb3707ebf, 0x3b0875c7, 0x8d212ff5, 0x60127b2e, 0x00000000, 0x00000000, 0x00000000, 0x00000000,
      0xa4beea44, 0x4bdecfa9, 0xf6bb4b60, 0xbebfbc70, Quad(0x21b117b9, 0x5a2f5ea5, 0x3575227e, 0x6e7429d5));
  }

  lemma Abc48(x: seq<Word>)
    requires ShortBlock(x, 0x80636261, 24)
    ensures Steps(x, 48, INITIAL) == Quad(0x7f2e507b, 0x7beb9700, 0x8fae6399, 0x99d9679d)
  {
    hide Steps;
    Abc40(x);
    Next3(x, 40, 0x21b117b9, 0x5a2f5ea5, 0x3575227e, 0x6e7429d5, 0x00000000, 0x80636261, 0x00000000, 0x00000000,
      0x289b7ec6, 0xeaa127fa, 0xd4ef3085, 0x04881d05, Quad(0x11de1779, 0x4c6124f4, 0x31c465ca, 0xfadcaa38));
    Next3(x, 44, 0x11de1779, 0x4c6124f4, 0x31c465ca, 0xfadcaa38, 0x00000000, 0x00000000, 0x00000000, 0x00000000,
      0xd9d4d039, 0xe6db99e5, 0x1fa27cf8, 0xc4ac5665, Quad(0x7f2e507b, 0x7beb9700, 0x8fae6399, 0x99d9679d));
  }

  lemma Abc56(x: seq<Word>)
    requires ShortBlock(x, 0x80636261, 24)
    ensures Steps(x, 56, INITIAL) == Quad(0x06cc5e8a, 0x3bfa2c27, 0x7d632dd0, 0x5b0d97aa)
  {
    hide Steps;
    Abc48(x);
    Next4(x, 48, 0x7f2e507b, 0x7beb9700, 0x8fae6399, 0x99d9679d, 0x80636261, 0x00000000, 0x00000018, 0x00000000,
      0xf4292244, 0x432aff97, 0xab9423a7, 0xfc93a039, Quad(0x7b201df8, 0x8bf025c4, 0xb298cefd, 0xf4e8e96e));
    Next4(x, 52, 0x7b201df8, 0x8bf025c4, 0xb298cefd, 0xf4e8e96e, 0x00000000, 0x00000000, 0x00000000, 0x00000000,
      0x655b59c3, 0x8f0ccc92, 0xffeff47d, 0x85845dd1, Quad(0x06cc5e8a, 0x3bfa2c27, 0x7d632dd0, 0x5b0d97aa));
  }

  lemma Abc64(x: seq<Word>)
    requires ShortBlock(x, 0x80636261, 24)
    ensures Steps(x, 64, INITIAL) == Quad(0x310ade8f, 0xc08226b3, 0xe484b9d8, 0x624d8cb2)
  {
    hide Steps;
    Abc56(x);
    Next4(x, 56, 0x06cc5e8a, 0x3bfa2c27, 0x7d632dd0, 0x5b0d97aa, 0x00000000, 0x00000000, 0x00000000, 0x00000000,
      0x6fa87e4f, 0xfe2ce6e0, 0xa3014314, 0x4e0811a1, Quad(0x7f81cc35, 0x7327d604, 0x4f9dbe3f, 0x094454ab));
    Next4(x, 60, 0x7f81cc35, 0x7327d604, 0x4f9dbe3f, 0x094454ab, 0x00000000, 0x00000000, 0x00000000, 0x00000000,
      0xf7537e82, 0xbd3af235, 0x2ad7d2bb, 0xeb86d391, Quad(0x310ade8f, 0xc08226b3, 0xe484b9d8, 0x624d8cb2));
  }

  // ---------------------------------------------------------------- the digests

  lemma WordOfOctets(w: Word)
    ensures WordOf(OctetsOf(w)) == w
  {
  }

  /** Octets 4k to 4k + 3 of three pieces put together. */
  lemma WordAt(b: seq<Octet>, k: nat, o: seq<Octet>)
    requires |b| % 4 == 0 && 4 * k + 4 <= |b| && |o| == 4
    requires b[4 * k] == o[0] && b[4 * k + 1] == o[1] && b[4 * k + 2] == o[2] && b[4 * k + 3] == o[3]
    ensures WordsOf(b)[k] == WordOf(o)
  {
    hide WordOf, WordsOf;
    WordsOfAt(b, k);
    assert b[4 * k..4 * k + 4] == o;
  }

  lemma LengthOfShort(n: nat)
    requires n < 4
    ensures LengthOctets(n) == OctetsOf((8 * n) as Word) + OctetsOf(0)
  {
    hide OctetsOf, AllOctets;
    assert 8 * n % WORD_MODULUS == 8 * n && 8 * n / WORD_MODULUS % WORD_MODULUS == 0;
    TwoWords((8 * n) as Word, 0);
  }

  lemma TwoWords(a: Word, b: Word)
    ensures AllOctets([a, b]) == OctetsOf(a) + OctetsOf(b)
  {
    hide OctetsOf;
    assert [a, b][1..] == [b];
    assert AllOctets([b]) == OctetsOf(b) + AllOctets([]);
  }

  /** A message of at most three octets fills one block: the octets with the first padding octet,
      zeros, and its length in bits. */
  lemma ShortWords(m: seq<Octet>)
    requires |m| < 4
    ensures |Padded(m)| == BLOCK_SIZE
    ensures ShortBlock(WordsOf(Padded(m)), WordOf((m + [0x80] + Zeros(3))[..4]), (8 * |m|) as Word)
  {
    hide WordOf, OctetsOf, WordsOf, LengthOctets;
    var p, bits := Padded(m), (8 * |m|) as Word;
    LengthOfShort(|m|);
    assert |Padding(|m|)| == 56 - |m|;
    WordAt(p, 0, (m + [0x80] + Zeros(3))[..4]);
    WordAt(p, 14, OctetsOf(bits));
    WordOfOctets(bits);
    NoWord();
    forall k | 0 < k < 16 && k != 14
      ensures WordsOf(p)[k] == 0
    {
      if k == 15 {
        WordAt(p, k, OctetsOf(0));
        WordOfOctets(0);
      } else {
        WordAt(p, k, [0, 0, 0, 0]);
      }
    }
  }

  lemma NoWord()
    ensures WordOf([0, 0, 0, 0]) == 0
  {
  }

  /** One block: the digest is its sum with the initial words. */
  lemma OneBlock(m: seq<Octet>, r: Quad)
    requires |Padded(m)| == BLOCK_SIZE && Steps(WordsOf(Padded(m)), 64, INITIAL) == r
    ensures var q := Add(INITIAL, r); Digest(m) == OctetsOf(q.a) + OctetsOf(q.b) + OctetsOf(q.c) + OctetsOf(q.d)
  {
    hide Steps, WordsOf, Padded, OctetsOf, Plus, Add;
    var p := Padded(m);
    assert p[..BLOCK_SIZE] == p && p[BLOCK_SIZE..] == [];
    NothingProcessed(Transformed(INITIAL, p));
    var q := Add(INITIAL, r);
    FourWords(q.a, q.b, q.c, q.d);
  }

  lemma FourWords(a: Word, b: Word, c: Word, d: Word)
    ensures AllOctets([a, b, c, d]) == OctetsOf(a) + OctetsOf(b) + OctetsOf(c) + OctetsOf(d)
  {
    hide OctetsOf;
    TwoWords(c, d);
    assert [a, b, c, d][1..] == [b, c, d] && [b, c, d][1..] == [c, d];
    assert AllOctets([b, c, d]) == OctetsOf(b) + (OctetsOf(c) + OctetsOf(d));
  }

  lemma EmptyWord()
    ensures WordOf(([] + [0x80] + Zeros(3))[..4]) == 0x00000080
    ensures Add(INITIAL, Quad(0x7246fad3, 0x14e45506, 0xff4ea3eb, 0x6e10a476)) ==
      Quad(0xd98c1dd4, 0x04b2008f, 0x980980e9, 0x7e42f8ec)
  {
    assert ([] + [0x80] + Zeros(3))[..4] == [0x80, 0x00, 0x00, 0x00];
  }

  lemma EmptyOctets()
    ensures OctetsOf(0xd98c1dd4) == [0xd4, 0x1d, 0x8c, 0xd9] && OctetsOf(0x04b2008f) == [0x8f, 0x00, 0xb2, 0x04]
    ensures OctetsOf(0x980980e9) == [0xe9, 0x80, 0x09, 0x98] && OctetsOf(0x7e42f8ec) == [0xec, 0xf8, 0x42, 0x7e]
  {
  }

  /** The digest of the empty message: d41d8cd98f00b204e9800998ecf8427e. */
  lemma EmptyDigest()
    ensures Digest([]) ==
      [0xd4, 0x1d, 0x8c, 0xd9, 0x8f, 0x00, 0xb2, 0x04, 0xe9, 0x80, 0x09, 0x98, 0xec, 0xf8, 0x42, 0x7e]
  {
    hide Digest, Padded, Steps, WordsOf, OctetsOf, Add;
    var m: seq<Octet> := [];
    ShortWords(m);
    EmptyWord();
    Empty64(WordsOf(Padded(m)));
    OneBlock(m, Quad(0x7246fad3, 0x14e45506, 0xff4ea3eb, 0x6e10a476));
    EmptyOctets();
  }

  lemma AWord()
    ensures WordOf(([0x61] + [0x80] + Zeros(3))[..4]) == 0x00008061
    ensures Add(INITIAL, Quad(0x52309e0b, 0xb8e94637, 0x49dee633, 0x50f422f3)) ==
      Quad(0xb975c10c, 0xa8b6f1c0, 0xe299c331, 0x61267769)
  {
    assert ([0x61] + [0x80] + Zeros(3))[..4] == [0x61, 0x80, 0x00, 0x00];
  }

  lemma AOctets()
    ensures OctetsOf(0xb975c10c) == [0x0c, 0xc1, 0x75, 0xb9] && OctetsOf(0xa8b6f1c0) == [0xc0, 0xf1, 0xb6, 0xa8]
    ensures OctetsOf(0xe299c331) == [0x31, 0xc3, 0x99, 0xe2] && OctetsOf(0x61267769) == [0x69, 0x77, 0x26, 0x61]
  {
  }

  /** The digest of "a": 0cc175b9c0f1b6a831c399e269772661. */
  lemma ADigest()
    ensures Digest([0x61]) ==
      [0x0c, 0xc1, 0x75, 0xb9, 0xc0, 0xf1, 0xb6, 0xa8, 0x31, 0xc3, 0x99, 0xe2, 0x69, 0x77, 0x26, 0x61]
  {
    hide Digest, Padded, Steps, WordsOf, OctetsOf, Add;
    var m: seq<Octet> := [0x61];
    ShortWords(m);
    AWord();
    A64(WordsOf(Padded(m)));
    OneBlock(m, Quad(0x52309e0b, 0xb8e94637, 0x49dee633, 0x50f422f3));
    AOctets();
  }

  lemma AbcWord()
    ensures WordOf(([0x61, 0x62, 0x63] + [0x80] + Zeros(3))[..4]) == 0x80636261
    ensures Add(INITIAL, Quad(0x310ade8f, 0xc08226b3, 0xe484b9d8, 0x624d8cb2)) ==
      Quad(0x98500190, 0xb04fd23c, 0x7d3f96d6, 0x727fe128)
  {
    assert ([0x61, 0x62, 0x63] + [0x80] + Zeros(3))[..4] == [0x61, 0x62, 0x63, 0x80];
  }

  lemma AbcOctets()
    ensures OctetsOf(0x98500190) == [0x90, 0x01, 0x50, 0x98] && OctetsOf(0xb04fd23c) == [0x3c, 0xd2, 0x4f, 0xb0]
    ensures OctetsOf(0x7d3f96d6) == [0xd6, 0x96, 0x3f, 0x7d] && OctetsOf(0x727fe128) == [0x28, 0xe1, 0x7f, 0x72]
  {
  }

  /** The digest of "abc": 900150983cd24fb0d6963f7d28e17f72. */
  lemma AbcDigest()
    ensures Digest([0x61, 0x62, 0x63]) ==
      [0x90, 0x01, 0x50, 0x98, 0x3c, 0xd2, 0x4f, 0xb0, 0xd6, 0x96, 0x3f, 0x7d, 0x28, 0xe1, 0x7f, 0x72]
  {
    hide Digest, Padded, Steps, WordsOf, OctetsOf, Add;
    var m: seq<Octet> := [0x61, 0x62, 0x63];
    ShortWords(m);
    AbcWord();
    Abc64(WordsOf(Padded(m)));
    OneBlock(m, Quad(0x310ade8f, 0xc08226b3, 0xe484b9d8, 0x624d8cb2));
    AbcOctets();
  }
}
