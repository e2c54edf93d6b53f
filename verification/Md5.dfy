/** The streaming MD5 class: a 64-octet buffer, a two-word bit counter and the unrolled block
    transform, proved against module Md5Spec. */
module Md5 {
  import opened Bytes
  import opened Md5Spec

  // ---------------------------------------------------------------- the unrolled rounds

  /** Four indexed operations are four lines of round 1: the words are back in place. */
  lemma FourFF(x: seq<Word>, i: nat, q: Quad)
    requires |x| == 16 && 0 <= i <= 12
    ensures
      var p := Steps(x, i, q);
      var a := FF(p.a, p.b, p.c, p.d, x[Pick(i)], Shift(i), T1(i));
      var d := FF(p.d, a, p.b, p.c, x[Pick(i + 1)], Shift(i + 1), T1(i + 1));
      var c := FF(p.c, d, a, p.b, x[Pick(i + 2)], Shift(i + 2), T1(i + 2));
      var b := FF(p.b, c, d, a, x[Pick(i + 3)], Shift(i + 3), T1(i + 3));
      Steps(x, i + 4, q) == Quad(a, b, c, d)
  {
    hide FF, GG, HH, II, T1, T2, T3, T4, Shift, Pick;
    var p := Steps(x, i, q);
    NextStep(x, i, q);
    NextStep(x, i + 1, q);
    NextStep(x, i + 2, q);
    NextStep(x, i + 3, q);
  }

  /** Four indexed operations are four lines of round 2: the words are back in place. */
  lemma FourGG(x: seq<Word>, i: nat, q: Quad)
    requires |x| == 16 && 16 <= i <= 28
    ensures
      var p := Steps(x, i, q);
      var a := GG(p.a, p.b, p.c, p.d, x[Pick(i)], Shift(i), T2(i - 16));
      var d := GG(p.d, a, p.b, p.c, x[Pick(i + 1)], Shift(i + 1), T2(i + 1 - 16));
      var c := GG(p.c, d, a, p.b, x[Pick(i + 2)], Shift(i + 2), T2(i + 2 - 16));
      var b := GG(p.b, c, d, a, x[Pick(i + 3)], Shift(i + 3), T2(i + 3 - 16));
      Steps(x, i + 4, q) == Quad(a, b, c, d)
  {
    hide FF, GG, HH, II, T1, T2, T3, T4, Shift, Pick;
    var p := Steps(x, i, q);
    NextStep(x, i, q);
    NextStep(x, i + 1, q);
    NextStep(x, i + 2, q);
    NextStep(x, i + 3, q);
  }

  /** Four indexed operations are four lines of round 3: the words are back in place. */
  lemma FourHH(x: seq<Word>, i: nat, q: Quad)
    requires |x| == 16 && 32 <= i <= 44
    ensures
      var p := Steps(x, i, q);
      var a := HH(p.a, p.b, p.c, p.d, x[Pick(i)], Shift(i), T3(i - 32));
      var d := HH(p.d, a, p.b, p.c, x[Pick(i + 1)], Shift(i + 1), T3(i + 1 - 32));
      var c := HH(p.c, d, a, p.b, x[Pick(i + 2)], Shift(i + 2), T3(i + 2 - 32));
      var b := HH(p.b, c, d, a, x[Pick(i + 3)], Shift(i + 3), T3(i + 3 - 32));
      Steps(x, i + 4, q) == Quad(a, b, c, d)
  {
    hide FF, GG, HH, II, T1, T2, T3, T4, Shift, Pick;
    var p := Steps(x, i, q);
    NextStep(x, i, q);
    NextStep(x, i + 1, q);
    NextStep(x, i + 2, q);
    NextStep(x, i + 3, q);
  }

  /** Four indexed operations are four lines of round 4: the words are back in place. */
  lemma FourII(x: seq<Word>, i: nat, q: Quad)
    requires |x| == 16 && 48 <= i <= 60
    ensures
      var p := Steps(x, i, q);
      var a := II(p.a, p.b, p.c, p.d, x[Pick(i)], Shift(i), T4(i - 48));
      var d := II(p.d, a, p.b, p.c, x[Pick(i + 1)], Shift(i + 1), T4(i + 1 - 48));
      var c := II(p.c, d, a, p.b, x[Pick(i + 2)], Shift(i + 2), T4(i + 2 - 48));
      var b := II(p.b, c, d, a, x[Pick(i + 3)], Shift(i + 3), T4(i + 3 - 48));
      Steps(x, i + 4, q) == Quad(a, b, c, d)
  {
    hide FF, GG, HH, II, T1, T2, T3, T4, Shift, Pick;
    var p := Steps(x, i, q);
    NextStep(x, i, q);
    NextStep(x, i + 1, q);
    NextStep(x, i + 2, q);
    NextStep(x, i + 3, q);
  }

  lemma NextStep(x: seq<Word>, i: nat, q: Quad)
    requires |x| == 16
    ensures Steps(x, i + 1, q) == Step(x, i, Steps(x, i, q))
  {
    hide Step;
  }

  lemma Table1()
    ensures T1(0) == 0xd76aa478 && T1(1) == 0xe8c7b756 && T1(2) == 0x242070db && T1(3) == 0xc1bdceee
    ensures T1(4) == 0xf57c0faf && T1(5) == 0x4787c62a && T1(6) == 0xa8304613 && T1(7) == 0xfd469501
    ensures T1(8) == 0x698098d8 && T1(9) == 0x8b44f7af && T1(10) == 0xffff5bb1 && T1(11) == 0x895cd7be
    ensures T1(12) == 0x6b901122 && T1(13) == 0xfd987193 && T1(14) == 0xa679438e && T1(15) == 0x49b40821
  {}

  lemma Picks1()
    ensures Pick(0) == 0 && Pick(1) == 1 && Pick(2) == 2 && Pick(3) == 3
    ensures Shift(0) == 7 && Shift(1) == 12 && Shift(2) == 17 && Shift(3) == 22
    ensures Pick(4) == 4 && Pick(5) == 5 && Pick(6) == 6 && Pick(7) == 7
    ensures Shift(4) == 7 && Shift(5) == 12 && Shift(6) == 17 && Shift(7) == 22
    ensures Pick(8) == 8 && Pick(9) == 9 && Pick(10) == 10 && Pick(11) == 11
    ensures Shift(8) == 7 && Shift(9) == 12 && Shift(10) == 17 && Shift(11) == 22
    ensures Pick(12) == 12 && Pick(13) == 13 && Pick(14) == 14 && Pick(15) == 15
    ensures Shift(12) == 7 && Shift(13) == 12 && Shift(14) == 17 && Shift(15) == 22
  {}

  lemma Table2()
    ensures T2(0) == 0xf61e2562 && T2(1) == 0xc040b340 && T2(2) == 0x265e5a51 && T2(3) == 0xe9b6c7aa
    ensures T2(4) == 0xd62f105d && T2(5) == 0x2441453 && T2(6) == 0xd8a1e681 && T2(7) == 0xe7d3fbc8
    ensures T2(8) == 0x21e1cde6 && T2(9) == 0xc33707d6 && T2(10) == 0xf4d50d87 && T2(11) == 0x455a14ed
    ensures T2(12) == 0xa9e3e905 && T2(13) == 0xfcefa3f8 && T2(14) == 0x676f02d9 && T2(15) == 0x8d2a4c8a
  {}

  lemma Picks2()
    ensures Pick(16) == 1 && Pick(17) == 6 && Pick(18) == 11 && Pick(19) == 0
    ensures Shift(16) == 5 && Shift(17) == 9 && Shift(18) == 14 && Shift(19) == 20
    ensures Pick(20) == 5 && Pick(21) == 10 && Pick(22) == 15 && Pick(23) == 4
    ensures Shift(20) == 5 && Shift(21) == 9 && Shift(22) == 14 && Shift(23) == 20
    ensures Pick(24) == 9 && Pick(25) == 14 && Pick(26) == 3 && Pick(27) == 8
    ensures Shift(24) == 5 && Shift(25) == 9 && Shift(26) == 14 && Shift(27) == 20
    ensures Pick(28) == 13 && Pick(29) == 2 && Pick(30) == 7 && Pick(31) == 12
    ensures Shift(28) == 5 && Shift(29) == 9 && Shift(30) == 14 && Shift(31) == 20
  {}

  lemma Table3()
    ensures T3(0) == 0xfffa3942 && T3(1) == 0x8771f681 && T3(2) == 0x6d9d6122 && T3(3) == 0xfde5380c
    ensures T3(4) == 0xa4beea44 && T3(5) == 0x4bdecfa9 && T3(6) == 0xf6bb4b60 && T3(7) == 0xbebfbc70
    ensures T3(8) == 0x289b7ec6 && T3(9) == 0xeaa127fa && T3(10) == 0xd4ef3085 && T3(11) == 0x4881d05
    ensures T3(12) == 0xd9d4d039 && T3(13) == 0xe6db99e5 && T3(14) == 0x1fa27cf8 && T3(15) == 0xc4ac5665
  {}

  lemma Picks3()
    ensures Pick(32) == 5 && Pick(33) == 8 && Pick(34) == 11 && Pick(35) == 14
    ensures Shift(32) == 4 && Shift(33) == 11 && Shift(34) == 16 && Shift(35) == 23
    ensures Pick(36) == 1 && Pick(37) == 4 && Pick(38) == 7 && Pick(39) == 10
    ensures Shift(36) == 4 && Shift(37) == 11 && Shift(38) == 16 && Shift(39) == 23
    ensures Pick(40) == 13 && Pick(41) == 0 && Pick(42) == 3 && Pick(43) == 6
    ensures Shift(40) == 4 && Shift(41) == 11 && Shift(42) == 16 && Shift(43) == 23
    ensures Pick(44) == 9 && Pick(45) == 12 && Pick(46) == 15 && Pick(47) == 2
    ensures Shift(44) == 4 && Shift(45) == 11 && Shift(46) == 16 && Shift(47) == 23
  {}

  lemma Table4()
    ensures T4(0) == 0xf4292244 && T4(1) == 0x432aff97 && T4(2) == 0xab9423a7 && T4(3) == 0xfc93a039
    ensures T4(4) == 0x655b59c3 && T4(5) == 0x8f0ccc92 && T4(6) == 0xffeff47d && T4(7) == 0x85845dd1
    ensures T4(8) == 0x6fa87e4f && T4(9) == 0xfe2ce6e0 && T4(10) == 0xa3014314 && T4(11) == 0x4e0811a1
    ensures T4(12) == 0xf7537e82 && T4(13) == 0xbd3af235 && T4(14) == 0x2ad7d2bb && T4(15) == 0xeb86d391
  {}

  lemma Picks4()
    ensures Pick(48) == 0 && Pick(49) == 7 && Pick(50) == 14 && Pick(51) == 5
    ensures Shift(48) == 6 && Shift(49) == 10 && Shift(50) == 15 && Shift(51) == 21
    ensures Pick(52) == 12 && Pick(53) == 3 && Pick(54) == 10 && Pick(55) == 1
    ensures Shift(52) == 6 && Shift(53) == 10 && Shift(54) == 15 && Shift(55) == 21
    ensures Pick(56) == 8 && Pick(57) == 15 && Pick(58) == 6 && Pick(59) == 13
    ensures Shift(56) == 6 && Shift(57) == 10 && Shift(58) == 15 && Shift(59) == 21
    ensures Pick(60) == 4 && Pick(61) == 11 && Pick(62) == 2 && Pick(63) == 9
    ensures Shift(60) == 6 && Shift(61) == 10 && Shift(62) == 15 && Shift(63) == 21
  {}

  method Round1(x: seq<Word>, q: Quad) returns (r: Quad)
    requires |x| == 16
    ensures r == Steps(x, 16, q)
  {
    hide FF, GG, HH, II, T1, Shift, Pick, Step;
    Table1();
    Picks1();
    var a, b, c, d := q.a, q.b, q.c, q.d;
    a := FF(a, b, c, d, x[0], 7, 0xd76aa478);
    d := FF(d, a, b, c, x[1], 12, 0xe8c7b756);
    c := FF(c, d, a, b, x[2], 17, 0x242070db);
    b := FF(b, c, d, a, x[3], 22, 0xc1bdceee);
    FourFF(x, 0, q);
    a := FF(a, b, c, d, x[4], 7, 0xf57c0faf);
    d := FF(d, a, b, c, x[5], 12, 0x4787c62a);
    c := FF(c, d, a, b, x[6], 17, 0xa8304613);
    b := FF(b, c, d, a, x[7], 22, 0xfd469501);
    FourFF(x, 4, q);
    a := FF(a, b, c, d, x[8], 7, 0x698098d8);
    d := FF(d, a, b, c, x[9], 12, 0x8b44f7af);
    c := FF(c, d, a, b, x[10], 17, 0xffff5bb1);
    b := FF(b, c, d, a, x[11], 22, 0x895cd7be);
    FourFF(x, 8, q);
    a := FF(a, b, c, d, x[12], 7, 0x6b901122);
    d := FF(d, a, b, c, x[13], 12, 0xfd987193);
    c := FF(c, d, a, b, x[14], 17, 0xa679438e);
    b := FF(b, c, d, a, x[15], 22, 0x49b40821);
    FourFF(x, 12, q);
    r := Quad(a, b, c, d);
  }

  method Round2(x: seq<Word>, q: Quad) returns (r: Quad)
    requires |x| == 16
    ensures r == Steps(x, 32, q)
  {
    hide FF, GG, HH, II, T2, Shift, Pick, Step, Steps;
    Table2();
    Picks2();
    var p := Round1(x, q);
    var a, b, c, d := p.a, p.b, p.c, p.d;
    a := GG(a, b, c, d, x[1], 5, 0xf61e2562);
    d := GG(d, a, b, c, x[6], 9, 0xc040b340);
    c := GG(c, d, a, b, x[11], 14, 0x265e5a51);
    b := GG(b, c, d, a, x[0], 20, 0xe9b6c7aa);
    FourGG(x, 16, q);
    a := GG(a, b, c, d, x[5], 5, 0xd62f105d);
    d := GG(d, a, b, c, x[10], 9, 0x2441453);
    c := GG(c, d, a, b, x[15], 14, 0xd8a1e681);
    b := GG(b, c, d, a, x[4], 20, 0xe7d3fbc8);
    FourGG(x, 20, q);
    a := GG(a, b, c, d, x[9], 5, 0x21e1cde6);
    d := GG(d, a, b, c, x[14], 9, 0xc33707d6);
    c := GG(c, d, a, b, x[3], 14, 0xf4d50d87);
    b := GG(b, c, d, a, x[8], 20, 0x455a14ed);
    FourGG(x, 24, q);
    a := GG(a, b, c, d, x[13], 5, 0xa9e3e905);
    d := GG(d, a, b, c, x[2], 9, 0xfcefa3f8);
    c := GG(c, d, a, b, x[7], 14, 0x676f02d9);
    b := GG(b, c, d, a, x[12], 20, 0x8d2a4c8a);
    FourGG(x, 28, q);
    r := Quad(a, b, c, d);
  }

  method Round3(x: seq<Word>, q: Quad) returns (r: Quad)
    requires |x| == 16
    ensures r == Steps(x, 48, q)
  {
    hide FF, GG, HH, II, T3, Shift, Pick, Step, Steps;
    Table3();
    Picks3();
    var p := Round2(x, q);
    var a, b, c, d := p.a, p.b, p.c, p.d;
    a := HH(a, b, c, d, x[5], 4, 0xfffa3942);
    d := HH(d, a, b, c, x[8], 11, 0x8771f681);
    c := HH(c, d, a, b, x[11], 16, 0x6d9d6122);
    b := HH(b, c, d, a, x[14], 23, 0xfde5380c);
    FourHH(x, 32, q);
    a := HH(a, b, c, d, x[1], 4, 0xa4beea44);
    d := HH(d, a, b, c, x[4], 11, 0x4bdecfa9);
    c := HH(c, d, a, b, x[7], 16, 0xf6bb4b60);
    b := HH(b, c, d, a, x[10], 23, 0xbebfbc70);
    FourHH(x, 36, q);
    a := HH(a, b, c, d, x[13], 4, 0x289b7ec6);
    d := HH(d, a, b, c, x[0], 11, 0xeaa127fa);
    c := HH(c, d, a, b, x[3], 16, 0xd4ef3085);
    b := HH(b, c, d, a, x[6], 23, 0x4881d05);
    FourHH(x, 40, q);
    a := HH(a, b, c, d, x[9], 4, 0xd9d4d039);
    d := HH(d, a, b, c, x[12], 11, 0xe6db99e5);
    c := HH(c, d, a, b, x[15], 16, 0x1fa27cf8);
    b := HH(b, c, d, a, x[2], 23, 0xc4ac5665);
    FourHH(x, 44, q);
    r := Quad(a, b, c, d);
  }

  method Round4(x: seq<Word>, q: Quad) returns (r: Quad)
    requires |x| == 16
    ensures r == Steps(x, 64, q)
  {
    hide FF, GG, HH, II, T4, Shift, Pick, Step, Steps;
    Table4();
    Picks4();
    var p := Round3(x, q);
    var a, b, c, d := p.a, p.b, p.c, p.d;
    a := II(a, b, c, d, x[0], 6, 0xf4292244);
    d := II(d, a, b, c, x[7], 10, 0x432aff97);
    c := II(c, d, a, b, x[14], 15, 0xab9423a7);
    b := II(b, c, d, a, x[5], 21, 0xfc93a039);
    FourII(x, 48, q);
    a := II(a, b, c, d, x[12], 6, 0x655b59c3);
    d := II(d, a, b, c, x[3], 10, 0x8f0ccc92);
    c := II(c, d, a, b, x[10], 15, 0xffeff47d);
    b := II(b, c, d, a, x[1], 21, 0x85845dd1);
    FourII(x, 52, q);
    a := II(a, b, c, d, x[8], 6, 0x6fa87e4f);
    d := II(d, a, b, c, x[15], 10, 0xfe2ce6e0);
    c := II(c, d, a, b, x[6], 15, 0xa3014314);
    b := II(b, c, d, a, x[13], 21, 0x4e0811a1);
    FourII(x, 56, q);
    a := II(a, b, c, d, x[4], 6, 0xf7537e82);
    d := II(d, a, b, c, x[11], 10, 0xbd3af235);
    c := II(c, d, a, b, x[2], 15, 0x2ad7d2bb);
    b := II(b, c, d, a, x[9], 21, 0xeb86d391);
    FourII(x, 60, q);
    r := Quad(a, b, c, d);
  }

  // ---------------------------------------------------------------- what streaming relies on

  function Whole(n: nat): (k: nat)
    ensures k <= n && k % BLOCK_SIZE == 0 && n - k < BLOCK_SIZE
  {
    n - n % BLOCK_SIZE
  }

  lemma NothingProcessed(q: Quad)
    ensures Process(q, []) == q
  {
    hide Transformed;
  }

  lemma {:induction false} ProcessMore(q: Quad, m: seq<Octet>, block: seq<Octet>)
    requires |m| % BLOCK_SIZE == 0 && |block| == BLOCK_SIZE
    ensures Process(q, m + block) == Transformed(Process(q, m), block)
    decreases |m|
  {
    hide Transformed;
    if m == [] {
      assert m + block == block && block[..BLOCK_SIZE] == block;
      assert Process(Transformed(q, block), []) == Transformed(q, block);
    } else {
      var q1 := Transformed(q, m[..BLOCK_SIZE]);
      ProcessMore(q1, m[BLOCK_SIZE..], block);
      assert (m + block)[..BLOCK_SIZE] == m[..BLOCK_SIZE];
      assert (m + block)[BLOCK_SIZE..] == m[BLOCK_SIZE..] + block;
    }
  }

  /** The counter after `n` octets, as its low and high word. */
  function Low(n: nat): nat { 8 * n % WORD_MODULUS }

  function High(n: nat): nat { 8 * n / WORD_MODULUS % WORD_MODULUS }

  /** The low word wraps, and the wrap is carried. */
  lemma CountAdds(n: nat, length: nat)
    requires length < WORD_MODULUS
    ensures
      var bits := 8 * length % WORD_MODULUS;
      var low := (Low(n) + bits) % WORD_MODULUS;
      var carry := if low < bits then 1 else 0;
      && low == Low(n + length)
      && ((High(n) + carry) % WORD_MODULUS + length / 0x2000_0000) % WORD_MODULUS == High(n + length)
  {
    var m := WORD_MODULUS;
    var hi, lo, top, bits := 8 * n / m, Low(n), length / 0x2000_0000, 8 * length % m;
    assert 8 * length == m * top + bits;
    var carry := if lo + bits >= m then 1 else 0;
    var low := lo + bits - carry * m;
    ModUnique(lo + bits, m, carry, low);
    ModUnique(8 * (n + length), m, hi + top + carry, low);
    AddMod(hi, carry, top);
  }

  lemma AddMod(x: nat, y: nat, z: nat)
    ensures ((x % WORD_MODULUS + y) % WORD_MODULUS + z) % WORD_MODULUS == (x + z + y) % WORD_MODULUS
  {
    var m := WORD_MODULUS;
    var k, l := x / m, (x % m + y) / m;
    var r := ((x % m + y) % m + z) % m;
    ModUnique(x + z + y, m, k + l + ((x % m + y) % m + z) / m, r);
  }

  lemma IndexOf(n: nat)
    ensures Low(n) / 8 % BLOCK_SIZE == n % BLOCK_SIZE
  {
    var k := 8 * n / WORD_MODULUS;
    assert Low(n) == 8 * (n - 0x2000_0000 * k);
  }

  // ---------------------------------------------------------------- encoding and decoding

  /** Shifting octets into place is their positional value. */
  lemma ShiftedWord(b0: Octet, b1: Octet, b2: Octet, b3: Octet)
    ensures (b0 as Word) | ((b1 as Word) << 8) | ((b2 as Word) << 16) | ((b3 as Word) << 24) == WordOf([b0, b1, b2, b3])
  {}

  lemma SliceOfTail(b: seq<Octet>, i: nat, j: nat, n: nat)
    requires i + j + n <= |b|
    ensures b[i..][j..j + n] == b[i + j..i + j + n]
  {}

  lemma {:induction false} WordsOfAt(b: seq<Octet>, k: nat)
    requires |b| % 4 == 0 && 4 * k < |b|
    ensures WordsOf(b)[k] == WordOf(b[4 * k..4 * k + 4])
  {
    hide WordOf;
    if k > 0 {
      var j := 4 * (k - 1);
      assert 4 * k == j + 4;
      WordsOfAt(b[4..], k - 1);
      SliceOfTail(b, 4, j, 4);
    } else {
      assert b[0..4] == b[..4];
    }
  }

  method Decode(output: array<Word>, input: array<Octet>, offset: nat)
    requires output.Length == 16 && offset + BLOCK_SIZE <= input.Length
    modifies output
    ensures output[..] == WordsOf(input[offset..offset + BLOCK_SIZE])
  {
    ghost var b := input[offset..offset + BLOCK_SIZE];
    var i, j := 0, 0;
    while j < BLOCK_SIZE
      invariant j == 4 * i && i <= 16
      invariant output[..i] == WordsOf(b)[..i]
    {
      var b0, b1, b2, b3 := input[offset + j], input[offset + j + 1], input[offset + j + 2], input[offset + j + 3];
      output[i] := (b0 as Word) | ((b1 as Word) << 8) | ((b2 as Word) << 16) | ((b3 as Word) << 24);
      assert b[j] == b0 && b[j + 1] == b1 && b[j + 2] == b2 && b[j + 3] == b3;
      DecodedWord(b, i, j, b0, b1, b2, b3);
      assert output[..i + 1] == output[..i] + [output[i]];
      i, j := i + 1, j + 4;
    }
  }

  lemma DecodedWord(b: seq<Octet>, i: nat, j: nat, b0: Octet, b1: Octet, b2: Octet, b3: Octet)
    requires |b| == BLOCK_SIZE && i < 16 && j == 4 * i
    requires b[j] == b0 && b[j + 1] == b1 && b[j + 2] == b2 && b[j + 3] == b3
    ensures (b0 as Word) | ((b1 as Word) << 8) | ((b2 as Word) << 16) | ((b3 as Word) << 24) == WordsOf(b)[i]
  {
    hide WordOf, WordsOf;
    ShiftedWord(b0, b1, b2, b3);
    WordsOfAt(b, i);
    assert b[j..j + 4] == [b0, b1, b2, b3];
  }

  /** The octets of the first words, low-order octet first. */
  method Encode(output: array<Octet>, input: seq<Word>)
    requires output.Length == 4 * |input|
    modifies output
    ensures output[..] == AllOctets(input)
  {
    var i, j := 0, 0;
    while i < |input|
      invariant j == 4 * i && i <= |input|
      invariant output[..j] == AllOctets(input[..i])
    {
      output[j] := (input[i] & 0xff) as Octet;
      output[j + 1] := ((input[i] >> 8) & 0xff) as Octet;
      output[j + 2] := ((input[i] >> 16) & 0xff) as Octet;
      output[j + 3] := ((input[i] >> 24) & 0xff) as Octet;
      assert output[..j + 4] == output[..j] + OctetsOf(input[i]);
      AllOctetsMore(input[..i], input[i]);
      assert input[..i + 1] == input[..i] + [input[i]];
      i, j := i + 1, j + 4;
    }
    assert input[..i] == input;
    assert output[..] == output[..j];
  }

  lemma {:induction false} AllOctetsMore(ws: seq<Word>, w: Word)
    ensures AllOctets(ws + [w]) == AllOctets(ws) + OctetsOf(w)
  {
    hide OctetsOf;
    if ws == [] {
      assert AllOctets([w]) == OctetsOf(w) + AllOctets([]);
    } else {
      AllOctetsMore(ws[1..], w);
      assert (ws + [w])[1..] == ws[1..] + [w];
    }
  }

  lemma OneMore(n: nat)
    requires n % BLOCK_SIZE == 0
    ensures (n + BLOCK_SIZE) % BLOCK_SIZE == 0
  {}

  lemma FirstBlock(m: seq<Octet>, part: seq<Octet>, block: seq<Octet>)
    requires |m| % BLOCK_SIZE + |part| == BLOCK_SIZE && block == m[Whole(|m|)..] + part
    ensures |m + part| % BLOCK_SIZE == 0
    ensures Transformed(Process(INITIAL, m[..Whole(|m|)]), block) == Process(INITIAL, m + part)
  {
    hide Transformed, Process;
    assert |m + part| == Whole(|m|) + BLOCK_SIZE;
    OneMore(Whole(|m|));
    ProcessMore(INITIAL, m[..Whole(|m|)], block);
    assert m[..Whole(|m|)] + block == m + part;
  }

  lemma NextBlock(m: seq<Octet>, input: seq<Octet>, i: nat)
    requires i + BLOCK_SIZE <= |input| && (|m| + i) % BLOCK_SIZE == 0
    ensures |m| + (i + BLOCK_SIZE) == (|m| + i) + BLOCK_SIZE && (|m| + (i + BLOCK_SIZE)) % BLOCK_SIZE == 0
    ensures Transformed(Process(INITIAL, m + input[..i]), input[i..i + BLOCK_SIZE]) ==
      Process(INITIAL, m + input[..i + BLOCK_SIZE])
  {
    hide Transformed, Process;
    OneMore(|m| + i);
    ProcessMore(INITIAL, m + input[..i], input[i..i + BLOCK_SIZE]);
    assert m + input[..i] + input[i..i + BLOCK_SIZE] == m + input[..i + BLOCK_SIZE];
  }

  /** After the last whole block, what is left is what the buffer holds. */
  lemma Consumed(m: seq<Octet>, input: seq<Octet>, i: nat, tail: seq<Octet>, index: nat)
    requires i <= |input|
    requires if i == 0
      then index == |m| % BLOCK_SIZE && index + |input| < BLOCK_SIZE && tail == m[Whole(|m|)..] + input
      else index == 0 && (|m| + i) % BLOCK_SIZE == 0 && |input| - i < BLOCK_SIZE && tail == input[i..]
    ensures var all := m + input;
      && Whole(|all|) == (if i == 0 then Whole(|m|) else |m| + i)
      && all[Whole(|all|)..] == tail && |tail| == |all| % BLOCK_SIZE
      && all[..Whole(|all|)] == (if i == 0 then m[..Whole(|m|)] else m + input[..i])
  {
    var all := m + input;
    if i == 0 {
      assert |all| == Whole(|m|) + (index + |input|);
    } else {
      assert |all| == (|m| + i) + (|input| - i);
    }
  }

  /** The static padding array. */
  method PaddingBlock() returns (padding: array<Octet>)
    ensures fresh(padding) && padding.Length == 64
    ensures forall i :: 0 <= i < 64 ==> padding[i] == if i == 0 then 0x80 else 0
  {
    padding := new Octet[64](i => if i == 0 then 0x80 else 0);
  }

  method ToArray(s: seq<Octet>) returns (a: array<Octet>)
    ensures fresh(a) && a.Length == |s| && a[..|s|] == s
  {
    a := new Octet[|s|];
    forall i | 0 <= i < |s| {
      a[i] := s[i];
    }
  }

  // ---------------------------------------------------------------- the class

  function Concat(chunks: seq<seq<Octet>>): seq<Octet> {
    if chunks == [] then [] else chunks[0] + Concat(chunks[1..])
  }

  /** Chunks the counter and the loop bound can take. */
  predicate Updatable(chunks: seq<seq<Octet>>) {
    forall chunk :: chunk in chunks ==> |chunk| + BLOCK_SIZE < WORD_MODULUS
  }

  class MD5 {
    var finalized: bool
    var buffer: array<Octet>
    var count0: nat
    var count1: nat
    var state: Quad
    var digest: array<Octet>
    /** Everything passed to Update so far. */
    ghost var message: seq<Octet>

    ghost predicate Valid()
      reads this, buffer, digest
    {
      && buffer.Length == BLOCK_SIZE && digest.Length == 16 && buffer != digest
      && (finalized ==> digest[..] == Digest(message))
      && (!finalized ==> Streaming(message))
    }

    /** The counter, the chaining words and the buffered tail say what was consumed. */
    ghost predicate Streaming(m: seq<Octet>)
      reads this, buffer
    {
      && buffer.Length == BLOCK_SIZE
      && count0 == Low(|m|) && count1 == High(|m|)
      && state == Process(INITIAL, m[..Whole(|m|)])
      && buffer[..|m| % BLOCK_SIZE] == m[Whole(|m|)..]
    }

    constructor ()
      ensures Valid() && !finalized && message == [] && fresh(buffer) && fresh(digest)
    {
      hide Process, Digest;
      NothingProcessed(INITIAL);
      finalized := false;
      buffer := new Octet[64](_ => 0);
      count0, count1 := 0, 0;
      state := INITIAL;
      digest := new Octet[16](_ => 0);
      message := [];
    }

    method Transform(block: array<Octet>, offset: nat)
      requires offset + BLOCK_SIZE <= block.Length
      modifies this`state
      ensures state == Transformed(old(state), block[offset..offset + BLOCK_SIZE])
    {
      hide Steps, WordsOf, Process, Digest, Plus;
      var x := new Word[16];
      Decode(x, block, offset);
      var r := Round4(x[..], state);
      state := Quad(Plus(state.a, r.a), Plus(state.b, r.b), Plus(state.c, r.c), Plus(state.d, r.d));
    }

    /** memcpy into the buffer. */
    method Fill(index: nat, input: array<Octet>, i: nat, n: nat)
      requires index + n <= buffer.Length && i + n <= input.Length && input != buffer
      modifies buffer
      ensures buffer[..index] == old(buffer[..index]) && buffer[index..index + n] == input[i..i + n]
    {
      forall k | 0 <= k < n {
        buffer[index + k] := input[i + k];
      }
    }

    /** The counter update: the low word wraps and carries. */
    method Count(length: nat, ghost n: nat)
      requires length < WORD_MODULUS && count0 == Low(n) && count1 == High(n)
      modifies this`count0, this`count1
      ensures count0 == Low(n + length) && count1 == High(n + length)
    {
      CountAdds(n, length);
      hide Low, High;
      var bits := 8 * length % WORD_MODULUS;
      count0 := (count0 + bits) % WORD_MODULUS;
      if count0 < bits {
        count1 := (count1 + 1) % WORD_MODULUS;
      } else {
        count1 := count1 % WORD_MODULUS;
      }
      count1 := (count1 + length / 0x2000_0000) % WORD_MODULUS;
    }

    /** Transform as often as possible: the buffer filled up, then blocks of the input itself.
        Returns how much of the input went in; m is what was consumed before. */
    method TakeBlocks(index: nat, input: array<Octet>, length: nat, ghost m: seq<Octet>) returns (i: nat)
      requires buffer.Length == BLOCK_SIZE && index == |m| % BLOCK_SIZE && length <= input.Length && input != buffer
      requires state == Process(INITIAL, m[..Whole(|m|)]) && buffer[..index] == m[Whole(|m|)..]
      modifies this`state, buffer
      ensures i == 0 ==> index + length < BLOCK_SIZE && state == old(state) && buffer[..] == old(buffer[..])
      ensures i > 0 ==>
        && i <= length < i + BLOCK_SIZE && (|m| + i) % BLOCK_SIZE == 0
        && state == Process(INITIAL, m + input[..i])
    {
      hide Process, Transformed;
      var firstpart := BLOCK_SIZE - index;
      if length >= firstpart {
        Fill(index, input, 0, firstpart);
        Transform(buffer, 0);
        FirstBlock(m, input[..firstpart], buffer[0..64]);
        i := firstpart;
        while i + BLOCK_SIZE <= length
          invariant firstpart <= i <= length && (|m| + i) % BLOCK_SIZE == 0
          invariant state == Process(INITIAL, m + input[..i])
          modifies this`state
        {
          Transform(input, i);
          NextBlock(m, input[..], i);
          i := i + BLOCK_SIZE;
        }
      } else {
        i := 0;
      }
    }

    /** Consume `length` octets. */
    method Update(input: array<Octet>, length: nat)
      requires Valid() && !finalized
      requires length <= input.Length && length + BLOCK_SIZE < WORD_MODULUS
      requires input != buffer && input != digest
      modifies this`count0, this`count1, this`state, this`message, buffer
      ensures Valid() && !finalized
      ensures message == old(message) + input[..length]
    {
      hide Process, Low, High, Digest;
      ghost var m := message;
      IndexOf(|m|);
      var index := count0 / 8 % BLOCK_SIZE;
      Count(length, |m|);
      var i := TakeBlocks(index, input, length, m);
      if i > 0 {
        index := 0;
      }
      Fill(index, input, i, length - i);
      message := m + input[..length];
      Consumed(m, input[..length], i, buffer[..index + (length - i)], index);
      assert input[..length][..i] == input[..i];
      assert |message| == |m| + length;
    }

    /** The convenience form that takes the octets themselves. */
    method UpdateText(text: seq<Octet>)
      requires Valid() && !finalized && |text| + BLOCK_SIZE < WORD_MODULUS
      modifies this`count0, this`count1, this`state, this`message, buffer
      ensures Valid() && !finalized && message == old(message) + text
    {
      hide Process, Low, High, Digest;
      var input := ToArray(text);
      Update(input, |text|);
    }

    /** Any number of updates. */
    method UpdateAll(chunks: seq<seq<Octet>>)
      requires Valid() && !finalized && Updatable(chunks)
      modifies this`count0, this`count1, this`state, this`message, buffer
      ensures Valid() && !finalized && message == old(message) + Concat(chunks)
      decreases |chunks|
    {
      hide Process, Low, High, Digest, Valid;
      if chunks != [] {
        UpdateText(chunks[0]);
        UpdateAll(chunks[1..]);
      }
    }

    method Result() returns (d: seq<Octet>)
      requires Valid() && finalized
      ensures d == Digest(message)
    {
      d := digest[..];
    }

    /** The padding, then the number of bits there were before it. */
    method PadOut()
      requires Valid() && !finalized
      modifies this`count0, this`count1, this`state, this`message, buffer
      ensures Valid() && !finalized && message == Padded(old(message))
    {
      hide Process, Low, High, Digest, Padding, LengthOctets, AllOctets;
      ghost var m := message;
      var bits := new Octet[8];
      var low, high := count0, count1;
      LengthIs(|m|, low, high);
      Encode(bits, [low as Word, high as Word]);
      IndexOf(|m|);
      var index := count0 / 8 % 64;
      var padLen := if index < 56 then 56 - index else 120 - index;
      var padding := PaddingBlock();
      PaddingIs(|m|, padding[..], padLen);
      assert bits[..8] == bits[..];
      AllPadded(m, padding[..padLen], bits[..8]);
      Update(padding, padLen);
      Update(bits, 8);
    }

    /** Pad, append the length, and write out the digest of everything consumed; a second call
        changes nothing. */
    method Finalize()
      requires Valid()
      modifies this, buffer, digest
      ensures Valid() && finalized && message == old(message)
      ensures digest == old(digest) && buffer == old(buffer)
      ensures old(finalized) ==> digest[..] == old(digest[..])
    {
      hide Process, Low, High, Digest, AllOctets, Padded;
      if !finalized {
        ghost var m := message;
        PadOut();
        PaddedWhole(m);
        DigestIs(m, state);
        message := m;
        Encode(digest, [state.a, state.b, state.c, state.d]);
        forall k | 0 <= k < BLOCK_SIZE {
          buffer[k] := 0;
        }
        count0, count1 := 0, 0;
        finalized := true;
      }
    }
  }

  lemma PaddedWhole(m: seq<Octet>)
    ensures Padded(m)[..Whole(|Padded(m)|)] == Padded(m)
  {
    hide Padded;
  }

  lemma LengthIs(n: nat, low: nat, high: nat)
    requires low == Low(n) && high == High(n)
    ensures low < WORD_MODULUS && high < WORD_MODULUS
    ensures AllOctets([low as Word, high as Word]) == LengthOctets(n)
  {
    hide AllOctets;
  }

  lemma PaddingIs(n: nat, padding: seq<Octet>, padLen: nat)
    requires |padding| == 64 && forall i :: 0 <= i < 64 ==> padding[i] == if i == 0 then 0x80 else 0
    requires padLen == if n % 64 < 56 then 56 - n % 64 else 120 - n % 64
    ensures padLen <= 64 && padding[..padLen] == Padding(n)
  {}

  lemma AllPadded(m: seq<Octet>, padding: seq<Octet>, bits: seq<Octet>)
    requires padding == Padding(|m|) && bits == LengthOctets(|m|)
    ensures m + padding + bits == Padded(m)
  {
    hide Padding, LengthOctets;
  }

  lemma DigestIs(m: seq<Octet>, q: Quad)
    requires q == Process(INITIAL, Padded(m))
    ensures AllOctets([q.a, q.b, q.c, q.d]) == Digest(m)
  {
    hide Process, Padded, AllOctets;
  }

  /** Any way of cutting the input into updates gives the digest of the whole. */
  method DigestOfChunks(chunks: seq<seq<Octet>>) returns (digest: seq<Octet>)
    requires Updatable(chunks)
    ensures digest == Digest(Concat(chunks))
  {
    hide *;
    var md5 := new MD5();
    md5.UpdateAll(chunks);
    assert [] + Concat(chunks) == Concat(chunks);
    md5.Finalize();
    digest := md5.Result();
  }
}
