/** What the encoding is, told without its 6-bit groups: the alphabet place by place, and the
    bits of each group of symbols as one number. */
module Base64Bits {
  import opened Bytes
  import opened Base64

  // ---------------------------------------------------------------- the alphabet

  /** Table 1 in section 4 of RFC 4648. */
  lemma Alphabet()
    ensures Symbol(0) == 'A' && Symbol(1) == 'B' && Symbol(2) == 'C' && Symbol(3) == 'D'
    ensures Symbol(4) == 'E' && Symbol(5) == 'F' && Symbol(6) == 'G' && Symbol(7) == 'H'
    ensures Symbol(8) == 'I' && Symbol(9) == 'J' && Symbol(10) == 'K' && Symbol(11) == 'L'
    ensures Symbol(12) == 'M' && Symbol(13) == 'N' && Symbol(14) == 'O' && Symbol(15) == 'P'
    ensures Symbol(16) == 'Q' && Symbol(17) == 'R' && Symbol(18) == 'S' && Symbol(19) == 'T'
    ensures Symbol(20) == 'U' && Symbol(21) == 'V' && Symbol(22) == 'W' && Symbol(23) == 'X'
    ensures Symbol(24) == 'Y' && Symbol(25) == 'Z' && Symbol(26) == 'a' && Symbol(27) == 'b'
    ensures Symbol(28) == 'c' && Symbol(29) == 'd' && Symbol(30) == 'e' && Symbol(31) == 'f'
    ensures Symbol(32) == 'g' && Symbol(33) == 'h' && Symbol(34) == 'i' && Symbol(35) == 'j'
    ensures Symbol(36) == 'k' && Symbol(37) == 'l' && Symbol(38) == 'm' && Symbol(39) == 'n'
    ensures Symbol(40) == 'o' && Symbol(41) == 'p' && Symbol(42) == 'q' && Symbol(43) == 'r'
    ensures Symbol(44) == 's' && Symbol(45) == 't' && Symbol(46) == 'u' && Symbol(47) == 'v'
    ensures Symbol(48) == 'w' && Symbol(49) == 'x' && Symbol(50) == 'y' && Symbol(51) == 'z'
    ensures Symbol(52) == '0' && Symbol(53) == '1' && Symbol(54) == '2' && Symbol(55) == '3'
    ensures Symbol(56) == '4' && Symbol(57) == '5' && Symbol(58) == '6' && Symbol(59) == '7'
    ensures Symbol(60) == '8' && Symbol(61) == '9' && Symbol(62) == '+' && Symbol(63) == '/'
  {
  }

  /** Nothing else is a symbol, and each is looked up at its own place. */
  lemma SymbolsOnly(c: char)
    ensures IsSymbol(c) <==> exists n: Sextet :: Symbol(n) == c
    ensures forall n: Sextet :: Symbol(n) == c ==> Find(c) == n
  {
    forall n: Sextet | Symbol(n) == c
      ensures IsSymbol(c) && Find(c) == n
    {
      FindSymbol(n);
    }
    if IsSymbol(c) {
      assert Symbol(Find(c)) == c;
    }
  }

  /** Symbols as the digits of a number. */
  function Value(s: string): nat {
    if s == "" then 0 else Value(s[..|s| - 1]) * 64 + Find(s[|s| - 1])
  }

  predicate AllSymbols(s: string) {
    forall i :: 0 <= i < |s| ==> IsSymbol(s[i])
  }

  lemma ValueOfTwo(p: char, q: char)
    ensures Value([p, q]) == Find(p) * 64 + Find(q)
  {
    assert [p, q][..1] == [p] && [p][..0] == "";
    assert Value([p]) == Value("") * 64 + Find(p);
  }

  lemma ValueOfThree(p: char, q: char, r: char)
    ensures Value([p, q, r]) == (Find(p) * 64 + Find(q)) * 64 + Find(r)
  {
    ValueOfTwo(p, q);
    assert [p, q, r][..2] == [p, q];
  }

  lemma ValueOfFour(p: char, q: char, r: char, s: char)
    ensures Value([p, q, r, s]) == ((Find(p) * 64 + Find(q)) * 64 + Find(r)) * 64 + Find(s)
  {
    ValueOfThree(p, q, r);
    assert [p, q, r, s][..3] == [p, q, r];
  }

  /** Octets as the digits of a number. */
  function Number(b: seq<Byte>): nat {
    if b == [] then 0 else Number(b[..|b| - 1]) * 256 + b[|b| - 1]
  }

  lemma Numbers(a: Byte, b: Byte, c: Byte)
    ensures Number([a]) == a && Number([a, b]) == Number([a]) * 256 + b && Number([a, b, c]) == Number([a, b]) * 256 + c
  {
    assert [a][..0] == [] && [a, b][..1] == [a] && [a, b, c][..2] == [a, b];
    assert Number([]) == 0;
  }

  // ---------------------------------------------------------------- encoding

  lemma SplitValue(a: Byte, b: Byte, c: Byte, p: nat, q: nat, r: nat, s: nat)
    requires Split(a, b, c) == [p, q, r, s]
    ensures p * 64 + q == Number([a]) * 16 + b / 16
    ensures (p * 64 + q) * 64 + r == Number([a, b]) * 4 + c / 64
    ensures ((p * 64 + q) * 64 + r) * 64 + s == Number([a, b, c])
  {
    Parts(a);
    Parts(b);
    Parts(c);
    Numbers(a, b, c);
    var g := Split(a, b, c);
    assert p == g[0] && q == g[1] && r == g[2] && s == g[3];
  }

  lemma SymbolsAre(g: seq<Sextet>)
    ensures AllSymbols(Symbols(g)) && forall i :: 0 <= i < |g| ==> Find(Symbols(g)[i]) == g[i]
  {
    forall i | 0 <= i < |g|
      ensures IsSymbol(Symbols(g)[i]) && Find(Symbols(g)[i]) == g[i]
    {
      FindSymbol(g[i]);
    }
  }

  /** The four symbols of a whole group, as one number, are its three octets as one number. */
  lemma {:induction false} GroupBits(b: seq<Byte>, k: nat)
    requires 3 * k + 3 <= |b|
    ensures 4 * k + 4 <= |Encoded(b)|
    ensures var s := Encoded(b)[4 * k..4 * k + 4];
      AllSymbols(s) && Value(s) == Number(b[3 * k..3 * k + 3])
    decreases k
  {
    hide Split, Symbols, Find, Value;
    var g := Split(b[0], b[1], b[2]);
    var front := Symbols(g);
    if k == 0 {
      SymbolsAre(g);
      SplitValue(b[0], b[1], b[2], g[0], g[1], g[2], g[3]);
      assert b[0..3] == [b[0], b[1], b[2]];
      assert Encoded(b)[0..4] == front == [front[0], front[1], front[2], front[3]];
      ValueOfFour(front[0], front[1], front[2], front[3]);
    } else {
      GroupBits(b[3..], k - 1);
      assert b[3 * k..3 * k + 3] == b[3..][3 * (k - 1)..3 * (k - 1) + 3];
      assert Encoded(b)[4 * k..4 * k + 4] == Encoded(b[3..])[4 * (k - 1)..4 * (k - 1) + 4];
    }
  }

  /** A last group of one octet is two symbols, the last four bits zero, and two fillers; one of
      two octets is three symbols, the last two bits zero, and one filler. */
  lemma {:induction false} LastBits(b: seq<Byte>, k: nat)
    requires 3 * k < |b| < 3 * k + 3
    ensures |Encoded(b)| == 4 * k + 4
    ensures var s := Encoded(b)[4 * k..];
      if |b| == 3 * k + 1 then AllSymbols(s[..2]) && Value(s[..2]) == Number(b[3 * k..]) * 16 && s[2..] == "=="
      else AllSymbols(s[..3]) && Value(s[..3]) == Number(b[3 * k..]) * 4 && s[3..] == "="
    decreases k
  {
    hide Split, Symbols, Find, Value;
    if k == 0 {
      var g := Split(b[0], if |b| == 2 then b[1] else 0, 0);
      var front := Symbols(g[..|b| + 1]);
      SymbolsAre(g[..|b| + 1]);
      SplitValue(b[0], if |b| == 2 then b[1] else 0, 0, g[0], g[1], g[2], g[3]);
      assert b[0..] == if |b| == 2 then [b[0], b[1]] else [b[0]];
      assert Encoded(b)[..|b| + 1] == front;
      if |b| == 1 {
        assert front == [front[0], front[1]];
        ValueOfTwo(front[0], front[1]);
      } else {
        assert front == [front[0], front[1], front[2]];
        ValueOfThree(front[0], front[1], front[2]);
      }
    } else {
      LastBits(b[3..], k - 1);
      assert b[3 * k..] == b[3..][3 * (k - 1)..];
      assert Encoded(b)[4 * k..] == Encoded(b[3..])[4 * (k - 1)..];
    }
  }

  // ---------------------------------------------------------------- decoding

  lemma Div16(q: nat, r: nat)
    requires r < 16
    ensures (q * 16 + r) / 16 == q && (q * 16 + r) % 16 == r
  {
  }

  lemma Div4(q: nat, r: nat)
    requires r < 4
    ensures (q * 4 + r) / 4 == q && (q * 4 + r) % 4 == r
  {
  }

  /** With 16 u + v as the second and 4 w + x as the third sextet. */
  lemma JoinParts(p: nat, u: nat, v: nat, y: Byte, z: Byte)
    requires p < 64 && u < 4 && v < 16
    ensures var d := Join(p, u * 16 + v, y, z);
      d[0] == p * 4 + u && d[1] == (v * 16 + y % 64 / 4) % 256 && d[2] == (y % 4 * 64 + z) % 256
  {
    Div16(u, v);
  }

  lemma JoinTwo(p: nat, u: nat, v: nat, y: Byte, z: Byte)
    requires p < 64 && u < 4 && v < 16
    ensures Number(Join(p, u * 16 + v, y, z)[..1]) == (p * 64 + (u * 16 + v)) / 16
  {
    hide Join;
    JoinParts(p, u, v, y, z);
    var d := Join(p, u * 16 + v, y, z);
    assert d[..1] == [d[0]];
    Div16(p * 4 + u, v);
  }

  lemma JoinThree(p: nat, u: nat, v: nat, w: nat, x: nat, z: Byte)
    requires p < 64 && u < 4 && v < 16 && w < 16 && x < 4
    ensures Number(Join(p, u * 16 + v, w * 4 + x, z)[..2]) == ((p * 64 + (u * 16 + v)) * 64 + (w * 4 + x)) / 4
  {
    hide Join, Number;
    JoinParts(p, u, v, w * 4 + x, z);
    Div4(w, x);
    var d := Join(p, u * 16 + v, w * 4 + x, z);
    assert d[1] == v * 16 + w;
    assert d[..2] == [d[0], d[1]];
    Numbers(d[0], d[1], 0);
    Div4((p * 4 + u) * 256 + v * 16 + w, x);
  }

  lemma JoinFour(p: nat, u: nat, v: nat, w: nat, x: nat, z: nat)
    requires p < 64 && u < 4 && v < 16 && w < 16 && x < 4 && z < 64
    ensures Number(Join(p, u * 16 + v, w * 4 + x, z)) == ((p * 64 + (u * 16 + v)) * 64 + (w * 4 + x)) * 64 + z
  {
    hide Join, Number;
    JoinParts(p, u, v, w * 4 + x, z);
    Div4(w, x);
    var d := Join(p, u * 16 + v, w * 4 + x, z);
    assert d[1] == v * 16 + w && d[2] == x * 64 + z;
    assert d == [d[0], d[1], d[2]];
    Numbers(d[0], d[1], d[2]);
  }

  lemma Sextets(q: nat)
    requires q < 64
    ensures q / 16 < 4 && q / 16 * 16 + q % 16 == q && q / 4 < 16 && q / 4 * 4 + q % 4 == q
  {
  }

  /** Of any text the symbols in front count, in groups of four: each is its three octets. */
  lemma {:induction false} DecodedBits(s: string, k: nat)
    requires 4 * k + 4 <= Run(s)
    ensures 3 * k + 3 <= |Decoded(s)|
    ensures Number(Decoded(s)[3 * k..3 * k + 3]) == Value(s[4 * k..4 * k + 4])
    decreases k
  {
    hide Join, Find, Value, Decoded, Run;
    DecodedStep(s);
    var d := Join(Find(s[0]), Find(s[1]), Find(s[2]), Find(s[3]));
    if k == 0 {
      assert IsSymbol(s[0]) && IsSymbol(s[1]) && IsSymbol(s[2]) && IsSymbol(s[3]);
      var q: nat, r: nat := Find(s[1]), Find(s[2]);
      Sextets(q);
      Sextets(r);
      JoinFour(Find(s[0]), q / 16, q % 16, r / 4, r % 4, Find(s[3]));
      assert s[0..4] == [s[0], s[1], s[2], s[3]];
      ValueOfFour(s[0], s[1], s[2], s[3]);
      assert Decoded(s)[0..3] == d;
    } else {
      DecodedBits(s[4..], k - 1);
      assert Decoded(s)[3 * k..3 * k + 3] == Decoded(s[4..])[3 * (k - 1)..3 * (k - 1) + 3];
      assert s[4 * k..4 * k + 4] == s[4..][4 * (k - 1)..4 * (k - 1) + 4];
    }
  }

  /** Two symbols left over are one octet, three are two, and one is nothing; the bits that do
      not fill an octet are dropped, and so is everything from the first other character on. */
  lemma {:induction false} DecodedLast(s: string, k: nat)
    requires 4 * k <= Run(s) < 4 * k + 4
    ensures |Decoded(s)| == 3 * k + (if Run(s) <= 4 * k + 1 then 0 else Run(s) - 4 * k - 1)
    ensures Run(s) == 4 * k + 2 ==> Number(Decoded(s)[3 * k..]) == Value(s[4 * k..4 * k + 2]) / 16
    ensures Run(s) == 4 * k + 3 ==> Number(Decoded(s)[3 * k..]) == Value(s[4 * k..4 * k + 3]) / 4
    decreases k
  {
    hide Join, Find, Value, Decoded, Run;
    var n := Run(s);
    if k == 0 {
      DecodedTail(s);
      assert forall i :: 0 <= i < n ==> IsSymbol(s[i]);
      if n == 2 {
        var q: nat := Find(s[1]);
        Sextets(q);
        JoinTwo(Find(s[0]), q / 16, q % 16, 255, 255);
        assert s[0..2] == [s[0], s[1]];
        ValueOfTwo(s[0], s[1]);
      } else if n == 3 {
        var q: nat, r: nat := Find(s[1]), Find(s[2]);
        Sextets(q);
        Sextets(r);
        JoinThree(Find(s[0]), q / 16, q % 16, r / 4, r % 4, 255);
        assert s[0..3] == [s[0], s[1], s[2]];
        ValueOfThree(s[0], s[1], s[2]);
      }
    } else {
      DecodedStep(s);
      DecodedLast(s[4..], k - 1);
      assert Decoded(s)[3 * k..] == Decoded(s[4..])[3 * (k - 1)..];
      assert n == 4 * k + 2 ==> s[4 * k..4 * k + 2] == s[4..][4 * (k - 1)..4 * (k - 1) + 2];
      assert n == 4 * k + 3 ==> s[4 * k..4 * k + 3] == s[4..][4 * (k - 1)..4 * (k - 1) + 3];
    }
  }
}
