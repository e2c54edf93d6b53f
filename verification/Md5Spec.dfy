/** The MD5 digest as RFC 1321 defines it: padding (3.1), the length (3.2), the four words
    (3.3), the 64 indexed operations on each 16-word block (3.4), and the output (3.5). */
module Md5Spec {
  type Octet = bv8
  type Word = bv32

  const BLOCK_SIZE: nat := 64
  const WORD_MODULUS: nat := 0x1_0000_0000

  // ---------------------------------------------------------------- words and octets

  /** Four octets as a word, low-order octet first. */
  function WordOf(b: seq<Octet>): Word
    requires |b| == 4
  {
    (b[0] as Word) + (b[1] as Word) * 0x100 + (b[2] as Word) * 0x1_0000 + (b[3] as Word) * 0x100_0000
  }

  function WordsOf(b: seq<Octet>): (ws: seq<Word>)
    requires |b| % 4 == 0
    ensures |ws| == |b| / 4
  {
    if b == [] then [] else [WordOf(b[..4])] + WordsOf(b[4..])
  }

  /** The octets of a word, low-order first. */
  function OctetsOf(w: Word): (b: seq<Octet>)
    ensures |b| == 4
  {
    [(w & 0xff) as Octet, ((w >> 8) & 0xff) as Octet, ((w >> 16) & 0xff) as Octet, ((w >> 24) & 0xff) as Octet]
  }

  function AllOctets(ws: seq<Word>): (b: seq<Octet>)
    ensures |b| == 4 * |ws|
  {
    if ws == [] then [] else OctetsOf(ws[0]) + AllOctets(ws[1..])
  }

  // ---------------------------------------------------------------- 3.4: the operations

  function F(x: Word, y: Word, z: Word): Word { (x & y) | (!x & z) }

  function G(x: Word, y: Word, z: Word): Word { (x & z) | (y & !z) }

  function H(x: Word, y: Word, z: Word): Word { x ^ y ^ z }

  function I(x: Word, y: Word, z: Word): Word { y ^ (x | !z) }

  /** Addition of words, modulo 2^32. */
  function Plus(x: Word, y: Word): Word { x + y }

  function RotateLeft(x: Word, n: nat): Word
    requires 0 < n < 32
  {
    (x << n) | (x >> (32 - n))
  }

  function FF(a: Word, b: Word, c: Word, d: Word, x: Word, s: nat, ac: Word): Word
    requires 0 < s < 32
  {
    Plus(RotateLeft(Plus(Plus(Plus(a, F(b, c, d)), x), ac), s), b)
  }

  function GG(a: Word, b: Word, c: Word, d: Word, x: Word, s: nat, ac: Word): Word
    requires 0 < s < 32
  {
    Plus(RotateLeft(Plus(Plus(Plus(a, G(b, c, d)), x), ac), s), b)
  }

  function HH(a: Word, b: Word, c: Word, d: Word, x: Word, s: nat, ac: Word): Word
    requires 0 < s < 32
  {
    Plus(RotateLeft(Plus(Plus(Plus(a, H(b, c, d)), x), ac), s), b)
  }

  function II(a: Word, b: Word, c: Word, d: Word, x: Word, s: nat, ac: Word): Word
    requires 0 < s < 32
  {
    Plus(RotateLeft(Plus(Plus(Plus(a, I(b, c, d)), x), ac), s), b)
  }

  /** The table T, entries 1 to 16: the integer part of 2^32 times |sin(k)|. */
  function T1(i: nat): Word {
    match i
    case 0 => 0xd76aa478
    case 1 => 0xe8c7b756
    case 2 => 0x242070db
    case 3 => 0xc1bdceee
    case 4 => 0xf57c0faf
    case 5 => 0x4787c62a
    case 6 => 0xa8304613
    case 7 => 0xfd469501
    case 8 => 0x698098d8
    case 9 => 0x8b44f7af
    case 10 => 0xffff5bb1
    case 11 => 0x895cd7be
    case 12 => 0x6b901122
    case 13 => 0xfd987193
    case 14 => 0xa679438e
    case _ => 0x49b40821
  }

  /** The table T, entries 17 to 32: the integer part of 2^32 times |sin(k)|. */
  function T2(i: nat): Word {
    match i
    case 0 => 0xf61e2562
    case 1 => 0xc040b340
    case 2 => 0x265e5a51
    case 3 => 0xe9b6c7aa
    case 4 => 0xd62f105d
    case 5 => 0x02441453
    case 6 => 0xd8a1e681
    case 7 => 0xe7d3fbc8
    case 8 => 0x21e1cde6
    case 9 => 0xc33707d6
    case 10 => 0xf4d50d87
    case 11 => 0x455a14ed
    case 12 => 0xa9e3e905
    case 13 => 0xfcefa3f8
    case 14 => 0x676f02d9
    case _ => 0x8d2a4c8a
  }

  /** The table T, entries 33 to 48: the integer part of 2^32 times |sin(k)|. */
  function T3(i: nat): Word {
    match i
    case 0 => 0xfffa3942
    case 1 => 0x8771f681
    case 2 => 0x6d9d6122
    case 3 => 0xfde5380c
    case 4 => 0xa4beea44
    case 5 => 0x4bdecfa9
    case 6 => 0xf6bb4b60
    case 7 => 0xbebfbc70
    case 8 => 0x289b7ec6
    case 9 => 0xeaa127fa
    case 10 => 0xd4ef3085
    case 11 => 0x04881d05
    case 12 => 0xd9d4d039
    case 13 => 0xe6db99e5
    case 14 => 0x1fa27cf8
    case _ => 0xc4ac5665
  }

  /** The table T, entries 49 to 64: the integer part of 2^32 times |sin(k)|. */
  function T4(i: nat): Word {
    match i
    case 0 => 0xf4292244
    case 1 => 0x432aff97
    case 2 => 0xab9423a7
    case 3 => 0xfc93a039
    case 4 => 0x655b59c3
    case 5 => 0x8f0ccc92
    case 6 => 0xffeff47d
    case 7 => 0x85845dd1
    case 8 => 0x6fa87e4f
    case 9 => 0xfe2ce6e0
    case 10 => 0xa3014314
    case 11 => 0x4e0811a1
    case 12 => 0xf7537e82
    case 13 => 0xbd3af235
    case 14 => 0x2ad7d2bb
    case _ => 0xeb86d391
  }

  function Shift(i: nat): (s: nat)
    ensures 0 < s < 32
  {
    match (i / 16, i % 4)
    case (0, 0) => 7
    case (0, 1) => 12
    case (0, 2) => 17
    case (0, 3) => 22
    case (1, 0) => 5
    case (1, 1) => 9
    case (1, 2) => 14
    case (1, 3) => 20
    case (2, 0) => 4
    case (2, 1) => 11
    case (2, 2) => 16
    case (2, 3) => 23
    case (3, 0) => 6
    case (3, 1) => 10
    case (3, 2) => 15
    case _ => 21
  }

  /** Which word of the block operation i takes. */
  function Pick(i: nat): (k: nat)
    ensures k < 16
  {
    if i < 16 then i
    else if i < 32 then (1 + 5 * i) % 16
    else if i < 48 then (5 + 3 * i) % 16
    else 7 * i % 16
  }

  datatype Quad = Quad(a: Word, b: Word, c: Word, d: Word)

  /** Operation i of 64; the four words change places after each one. */
  function Step(x: seq<Word>, i: nat, q: Quad): Quad
    requires |x| == 16
  {
    var v, s := x[Pick(i)], Shift(i);
    var b :=
      if i < 16 then FF(q.a, q.b, q.c, q.d, v, s, T1(i))
      else if i < 32 then GG(q.a, q.b, q.c, q.d, v, s, T2(i - 16))
      else if i < 48 then HH(q.a, q.b, q.c, q.d, v, s, T3(i - 32))
      else II(q.a, q.b, q.c, q.d, v, s, T4(i - 48));
    Quad(q.d, b, q.b, q.c)
  }

  /** The first n operations. */
  function Steps(x: seq<Word>, n: nat, q: Quad): Quad
    requires |x| == 16
  {
    if n == 0 then q else Step(x, n - 1, Steps(x, n - 1, q))
  }

  function Add(q: Quad, r: Quad): Quad {
    Quad(Plus(q.a, r.a), Plus(q.b, r.b), Plus(q.c, r.c), Plus(q.d, r.d))
  }

  function Transformed(q: Quad, block: seq<Octet>): Quad
    requires |block| == BLOCK_SIZE
  {
    Add(q, Steps(WordsOf(block), 64, q))
  }

  function Process(q: Quad, m: seq<Octet>): Quad
    requires |m| % BLOCK_SIZE == 0
    decreases |m|
  {
    if m == [] then q else Process(Transformed(q, m[..BLOCK_SIZE]), m[BLOCK_SIZE..])
  }

  // ---------------------------------------------------------------- 3.1 - 3.3, 3.5

  const INITIAL: Quad := Quad(0x67452301, 0xefcdab89, 0x98badcfe, 0x10325476)

  function Zeros(n: nat): (z: seq<Octet>)
    ensures |z| == n
  {
    seq(n, i => 0)
  }

  /** A single 1 bit, then 0 bits up to 448 modulo 512; at least one bit. */
  function Padding(n: nat): (p: seq<Octet>)
    ensures |p| >= 1 && (n + |p| + 8) % BLOCK_SIZE == 0
  {
    [0x80] + Zeros((119 - n % 64) % 64)
  }

  /** A number of octets as a 64-bit count of bits, low-order word first. */
  function LengthOctets(n: nat): (b: seq<Octet>)
    ensures |b| == 8
  {
    AllOctets([((8 * n) % WORD_MODULUS) as Word, ((8 * n) / WORD_MODULUS % WORD_MODULUS) as Word])
  }

  function Padded(m: seq<Octet>): (p: seq<Octet>)
    ensures |p| % BLOCK_SIZE == 0
  {
    var p := m + Padding(|m|) + LengthOctets(|m|);
    assert |p| == |m| + |Padding(|m|)| + 8;
    p
  }

  function Digest(m: seq<Octet>): (d: seq<Octet>)
    ensures |d| == 16
  {
    var q := Process(INITIAL, Padded(m));
    AllOctets([q.a, q.b, q.c, q.d])
  }
}
