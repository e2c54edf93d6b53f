/** Base64 as in section 4 of RFC 4648: the two streaming loops, and their round trip. */
module Base64 {
  import opened Bytes

  type Sextet = n: nat | n < 64

  /** The alphabet. */
  function Symbol(n: Sextet): char {
    if n < 26 then ('A' as int + n) as char
    else if n < 52 then ('a' as int + (n - 26)) as char
    else if n < 62 then ('0' as int + (n - 52)) as char
    else if n == 62 then '+'
    else '/'
  }

  predicate IsSymbol(c: char) {
    'A' <= c <= 'Z' || 'a' <= c <= 'z' || '0' <= c <= '9' || c == '+' || c == '/'
  }

  /** The place of a symbol in the alphabet; 255, npos cut to eight bits, for anything else. */
  function Find(c: char): (n: Byte)
    ensures IsSymbol(c) <==> n < 64
  {
    if 'A' <= c <= 'Z' then c as int - 'A' as int
    else if 'a' <= c <= 'z' then c as int - 'a' as int + 26
    else if '0' <= c <= '9' then c as int - '0' as int + 52
    else if c == '+' then 62
    else if c == '/' then 63
    else 255
  }

  lemma FindSymbol(n: Sextet)
    ensures IsSymbol(Symbol(n)) && Find(Symbol(n)) == n && Symbol(n) != '='
  {}

  // ---------------------------------------------------------------- one group

  /** Three octets as four 6-bit groups. */
  function Split(a: Byte, b: Byte, c: Byte): (g: seq<Sextet>)
    ensures |g| == 4
  {
    [a / 4, (a % 4) * 16 + b / 16, (b % 16) * 4 + c / 64, c % 64]
  }

  function Symbols(g: seq<Sextet>): (s: string)
    ensures |s| == |g|
  {
    seq(|g|, i requires 0 <= i < |g| => Symbol(g[i]))
  }

  /** Four groups as three octets, cut to eight bits as the C++ does. */
  function Join(p: Byte, q: Byte, r: Byte, s: Byte): (b: seq<Byte>)
    ensures |b| == 3
  {
    [(p * 4 + q % 64 / 16) % 256, (q % 16 * 16 + r % 64 / 4) % 256, (r % 4 * 64 + s) % 256]
  }

  lemma JoinSplit(a: Byte, b: Byte, c: Byte)
    ensures var g := Split(a, b, c); Join(g[0], g[1], g[2], g[3]) == [a, b, c]
  {
    Parts(a);
    Parts(b);
    Parts(c);
    FirstOctet(a / 4, a % 4, b / 16);
    SecondOctet(a % 4, b / 16, b % 16, c / 64);
    ThirdOctet(b % 16, c / 64, c % 64);
  }

  lemma Parts(n: Byte)
    ensures n / 4 * 4 + n % 4 == n && n / 16 * 16 + n % 16 == n && n / 64 * 64 + n % 64 == n
    ensures n % 64 % 64 == n % 64
  {}

  lemma FirstOctet(q: nat, r: nat, h: nat)
    requires q < 64 && r < 4 && h < 16
    ensures (q * 4 + (r * 16 + h) % 64 / 16) % 256 == q * 4 + r
  {}

  lemma SecondOctet(p: nat, q: nat, r: nat, h: nat)
    requires p < 4 && q < 16 && r < 16 && h < 4
    ensures ((p * 16 + q) % 16 * 16 + (r * 4 + h) % 64 / 4) % 256 == q * 16 + r
  {}

  lemma ThirdOctet(p: nat, q: nat, r: nat)
    requires p < 16 && q < 4 && r < 64
    ensures ((p * 4 + q) % 4 * 64 + r) % 256 == q * 64 + r
  {}

  /** What is left of a last group does not depend on the values its missing symbols are
      given. */
  lemma FillersDoNotShow(p: Byte, q: Byte, r: Byte, s: Byte, x: Byte, y: Byte)
    ensures Join(p, q, x, y)[..1] == Join(p, q, r, s)[..1]
    ensures Join(p, q, r, y)[..2] == Join(p, q, r, s)[..2]
  {}

  // ---------------------------------------------------------------- whole texts

  function Padding(n: nat): string {
    if n == 0 then "" else "=" + Padding(n - 1)
  }

  function Encoded(b: seq<Byte>): string {
    if b == [] then ""
    else if |b| == 1 then Symbols(Split(b[0], 0, 0)[..2]) + "=="
    else if |b| == 2 then Symbols(Split(b[0], b[1], 0)[..3]) + "="
    else Symbols(Split(b[0], b[1], b[2])) + Encoded(b[3..])
  }

  /** Decoding reads symbols up to the first other character. */
  function Decoded(s: string): seq<Byte> {
    if s == "" || !IsSymbol(s[0]) || |s| == 1 || !IsSymbol(s[1]) then []
    else if |s| == 2 || !IsSymbol(s[2]) then Join(Find(s[0]), Find(s[1]), 255, 255)[..1]
    else if |s| == 3 || !IsSymbol(s[3]) then Join(Find(s[0]), Find(s[1]), Find(s[2]), 255)[..2]
    else Join(Find(s[0]), Find(s[1]), Find(s[2]), Find(s[3])) + Decoded(s[4..])
  }

  /** The symbols of a group are read back as its octets, whatever follows them. */
  lemma GroupDecoded(a: Byte, b: Byte, c: Byte, n: nat, rest: string)
    requires 2 <= n <= 4 && (n < 4 ==> rest != "" && rest[0] == '=' && (n == 2 ==> c == 0 && b == 0) && (n == 3 ==> c == 0))
    ensures Decoded(Symbols(Split(a, b, c)[..n]) + rest) == [a, b, c][..n - 1] + if n == 4 then Decoded(rest) else []
  {
    hide Split, Join, Symbol, Find;
    var g := Split(a, b, c);
    var s := Symbols(g[..n]) + rest;
    JoinSplit(a, b, c);
    SymbolsRead(g, n, rest);
    assert s[n..] == rest;
    FillersDoNotShow(g[0], g[1], g[2], g[3], 255, 255);
  }

  lemma SymbolsRead(g: seq<Sextet>, n: nat, rest: string)
    requires |g| == 4 && n <= 4 && (n < 4 ==> rest != "" && rest[0] == '=')
    ensures var s := Symbols(g[..n]) + rest;
      (forall k :: 0 <= k < n ==> IsSymbol(s[k]) && Find(s[k]) == g[k]) && (n < 4 ==> !IsSymbol(s[n]))
  {
    forall k | 0 <= k < n
      ensures IsSymbol(Symbol(g[k])) && Find(Symbol(g[k])) == g[k]
    {
      FindSymbol(g[k]);
    }
  }

  /** Any octets come back from their encoding, which has four symbols for each three octets
      begun. */
  lemma {:induction false} RoundTrip(b: seq<Byte>)
    ensures Decoded(Encoded(b)) == b
    ensures |Encoded(b)| == (|b| + 2) / 3 * 4
    decreases |b|
  {
    hide Split, Symbols, Decoded;
    if b == [] {
      NothingDecoded();
    } else if |b| == 1 {
      GroupDecoded(b[0], 0, 0, 2, "==");
      assert b == [b[0], 0, 0][..1] + [];
    } else if |b| == 2 {
      GroupDecoded(b[0], b[1], 0, 3, "=");
      assert b == [b[0], b[1], 0][..2] + [];
    } else {
      GroupDecoded(b[0], b[1], b[2], 4, Encoded(b[3..]));
      assert Split(b[0], b[1], b[2])[..4] == Split(b[0], b[1], b[2]);
      RoundTrip(b[3..]);
      assert b == [b[0], b[1], b[2]][..3] + b[3..];
    }
  }

  lemma NothingDecoded()
    ensures Decoded("") == []
  {}

  // ---------------------------------------------------------------- the loops

  lemma {:induction false} EncodedMore(b: seq<Byte>, tail: seq<Byte>)
    requires |b| % 3 == 0
    ensures Encoded(b + tail) == Encoded(b) + Encoded(tail)
    decreases |b|
  {
    hide Symbols, Split;
    if b == [] {
      assert b + tail == tail && Encoded([]) == "" && "" + Encoded(tail) == Encoded(tail);
    } else {
      EncodedMore(b[3..], tail);
      assert (b + tail)[3..] == b[3..] + tail;
      var x := Symbols(Split(b[0], b[1], b[2]));
      assert x + (Encoded(b[3..]) + Encoded(tail)) == (x + Encoded(b[3..])) + Encoded(tail);
    }
  }

  /** Base64Encode: octets gather three at a time; the last group is filled with zeros and
      cut short. */
  method Encode(bytes: seq<Byte>) returns (ret: string)
    ensures ret == Encoded(bytes)
  {
    hide Split, Symbols, Encoded;
    NothingEncoded();
    ret := "";
    var octets := new Byte[3](_ => 0);
    var i, k := 0, 0;
    while k < |bytes|
      invariant i < 3 && i <= k <= |bytes| && (k - i) % 3 == 0
      invariant ret == Encoded(bytes[..k - i]) && forall j :: 0 <= j < i ==> octets[j] == bytes[k - i + j]
    {
      octets[i] := bytes[k];
      i, k := i + 1, k + 1;
      if i == 3 {
        ghost var group := bytes[k - 3..k];
        EncodedMore(bytes[..k - 3], group);
        assert bytes[..k] == bytes[..k - 3] + group;
        assert group == [octets[0], octets[1], octets[2]];
        GroupEncoded(group, octets[0], octets[1], octets[2]);
        ret := ret + Symbols(Split(octets[0], octets[1], octets[2]));
        i := 0;
      }
    }
    ghost var tail := bytes[k - i..];
    EncodedMore(bytes[..k - i], tail);
    assert bytes == bytes[..k - i] + tail;
    if i == 0 {
      assert ret + "" == ret && tail == [];
    } else {
      for j := i to 3
        invariant forall m :: 0 <= m < i ==> octets[m] == tail[m]
        invariant forall m :: i <= m < j ==> octets[m] == 0
      {
        octets[j] := 0;
      }
      assert octets[0] == tail[0] && (i == 2 ==> octets[1] == tail[1]);
      var g := Split(octets[0], octets[1], octets[2]);
      ret := ret + Symbols(g[..i + 1]);
      ghost var body := ret;
      var n := i;
      while n < 3
        invariant i <= n <= 3 && ret == body + Padding(n - i)
      {
        assert Padding(n - i) + "=" == Padding(n + 1 - i) by { PaddingMore(n - i); }
        ret := ret + "=";
        n := n + 1;
      }
      TailEncoded(tail, g);
      assert (Encoded(bytes[..k - i]) + Symbols(g[..i + 1])) + Padding(3 - i) ==
        Encoded(bytes[..k - i]) + (Symbols(g[..i + 1]) + Padding(3 - i));
    }
  }

  lemma NothingEncoded()
    ensures Encoded([]) == ""
  {}

  lemma GroupEncoded(b: seq<Byte>, x: Byte, y: Byte, z: Byte)
    requires b == [x, y, z]
    ensures Encoded(b) == Symbols(Split(x, y, z))
  {
    assert b[3..] == [] && Symbols(Split(x, y, z)) + "" == Symbols(Split(x, y, z));
  }

  lemma TailEncoded(b: seq<Byte>, g: seq<Sextet>)
    requires 0 < |b| < 3 && g == Split(b[0], if |b| == 2 then b[1] else 0, 0)
    ensures Encoded(b) == Symbols(g[..|b| + 1]) + Padding(3 - |b|)
  {
    assert Padding(1) == "=" && Padding(2) == "==";
  }

  lemma {:induction false} PaddingMore(n: nat)
    ensures Padding(n) + "=" == Padding(n + 1)
  {
    if n > 0 {
      PaddingMore(n - 1);
    }
  }

  /** How many symbols the text starts with. */
  function Run(s: string): (n: nat)
    ensures n <= |s| && (n < |s| ==> !IsSymbol(s[n])) && forall i :: 0 <= i < n ==> IsSymbol(s[i])
  {
    if s == "" || !IsSymbol(s[0]) then 0 else 1 + Run(s[1..])
  }

  lemma DecodedStep(s: string)
    requires Run(s) >= 4
    ensures Decoded(s) == Join(Find(s[0]), Find(s[1]), Find(s[2]), Find(s[3])) + Decoded(s[4..])
    ensures Run(s[4..]) == Run(s) - 4
  {
    assert s[1..][1..] == s[2..] && s[2..][1..] == s[3..] && s[3..][1..] == s[4..];
    assert IsSymbol(s[0]) && IsSymbol(s[1]) && IsSymbol(s[2]) && IsSymbol(s[3]);
    assert Run(s) == 1 + Run(s[1..]) && Run(s[1..]) == 1 + Run(s[2..]);
    assert Run(s[2..]) == 1 + Run(s[3..]) && Run(s[3..]) == 1 + Run(s[4..]);
  }

  lemma DecodedTail(s: string)
    requires Run(s) < 4
    ensures Run(s) < 2 ==> Decoded(s) == []
    ensures Run(s) == 2 ==> Decoded(s) == Join(Find(s[0]), Find(s[1]), 255, 255)[..1]
    ensures Run(s) == 3 ==> Decoded(s) == Join(Find(s[0]), Find(s[1]), Find(s[2]), 255)[..2]
  {
    var n := Run(s);
    assert n > 0 ==> IsSymbol(s[0]);
    assert n > 1 ==> IsSymbol(s[1]);
    assert n > 2 ==> IsSymbol(s[2]);
  }

  /** Base64Decode: symbols gather four at a time until the first other character; the places
      of a last, shorter group that no symbol fills look up NUL. */
  method Decode(encoded: string) returns (ret: seq<Byte>)
    ensures ret == Decoded(encoded)
  {
    hide Join, Find, Decoded, Run;
    ret := [];
    var group := new char[4](_ => 'A');
    var i, k := 0, 0;
    assert encoded[0..] == encoded;
    while k < |encoded| && IsSymbol(encoded[k])
      invariant i < 4 && i <= k <= |encoded| && k <= k - i + Run(encoded[k - i..])
      invariant ret + Decoded(encoded[k - i..]) == Decoded(encoded)
      invariant forall j :: 0 <= j < i ==> group[j] == encoded[k - i + j]
      decreases |encoded| - k
    {
      ghost var rest := encoded[k - i..];
      RunReaches(rest, i);
      group[i] := encoded[k];
      i, k := i + 1, k + 1;
      if i == 4 {
        DecodedStep(rest);
        assert rest[4..] == encoded[k..];
        assert group[0] == rest[0] && group[1] == rest[1] && group[2] == rest[2] && group[3] == rest[3];
        ghost var b := Join(Find(group[0]), Find(group[1]), Find(group[2]), Find(group[3]));
        assert ret + (b + Decoded(rest[4..])) == (ret + b) + Decoded(rest[4..]);
        ret := ret + Join(Find(group[0]), Find(group[1]), Find(group[2]), Find(group[3]));
        i := 0;
      }
    }
    ghost var rest := encoded[k - i..];
    assert Run(rest) == i by { RunStops(rest, i); }
    DecodedTail(rest);
    if i > 0 {
      for j := i to 4
        invariant forall m :: 0 <= m < i ==> group[m] == rest[m]
        invariant forall m :: i <= m < j ==> group[m] == 0 as char
      {
        group[j] := 0 as char;
      }
      NoSymbol();
      ret := ret + Join(Find(group[0]), Find(group[1]), Find(group[2]), Find(group[3]))[..i - 1];
    }
  }

  lemma NoSymbol()
    ensures Find(0 as char) == 255
  {}

  lemma RunReaches(s: string, i: nat)
    requires i < |s| && i <= Run(s) && IsSymbol(s[i])
    ensures i < Run(s)
  {}

  lemma RunStops(s: string, i: nat)
    requires i <= |s| && i <= Run(s) && (i < |s| ==> !IsSymbol(s[i]))
    ensures Run(s) == i
  {}
}
