/** Strings as section 7 of RFC 8259 spells them: characters as they are, the eight short escapes,
    and code points in hexadecimal, which become the octets of RFC 3629. */
module JsonUnicode {
  import opened Wrappers
  import opened Json
  import opened JsonTokens

  // ---------------------------------------------------------------- UTF-8

  predicate IsSurrogate(cp: nat) {
    0xD800 <= cp <= 0xDFFF
  }

  predicate IsScalar(cp: nat) {
    cp < 0x11_0000 && !IsSurrogate(cp)
  }

  predicate IsTail(c: char) {
    0x80 <= c as int < 0xC0
  }

  function Tail(c: char): nat {
    c as int % 0x40
  }

  /** The code point that these octets are, by the table in section 3 of RFC 3629: the first one
      says how many there are, each of the others holds six bits, and only the shortest form of
      a code point that is no surrogate counts. */
  function FromUtf8(b: string): Option<nat> {
    if |b| == 1 && b[0] as int < 0x80 then Some(b[0] as int)
    else if |b| == 2 && 0xC0 <= b[0] as int < 0xE0 && IsTail(b[1]) then
      Least(0x80, b[0] as int % 0x20 * 0x40 + Tail(b[1]))
    else if |b| == 3 && 0xE0 <= b[0] as int < 0xF0 && IsTail(b[1]) && IsTail(b[2]) then
      Least(0x800, (b[0] as int % 0x10 * 0x40 + Tail(b[1])) * 0x40 + Tail(b[2]))
    else if |b| == 4 && 0xF0 <= b[0] as int < 0xF8 && IsTail(b[1]) && IsTail(b[2]) && IsTail(b[3]) then
      Least(0x1_0000, ((b[0] as int % 8 * 0x40 + Tail(b[1])) * 0x40 + Tail(b[2])) * 0x40 + Tail(b[3]))
    else None
  }

  function Least(first: nat, cp: nat): Option<nat> {
    if cp >= first && IsScalar(cp) then Some(cp) else None
  }

  /** The octets written for a code point are the only ones read as it. */
  lemma Utf8Exactly(cp: nat, b: string)
    requires IsScalar(cp)
    ensures FromUtf8(b) == Some(cp) <==> b == Utf8(cp)
  {
    Utf8Read(cp);
    if FromUtf8(b) == Some(cp) {
      hide Utf8;
      if |b| == 1 {
        OneOctet(b[0]);
        assert b == [b[0]];
      } else if |b| == 2 {
        TwoOctets(b[0], b[1]);
        assert b == [b[0], b[1]];
      } else if |b| == 3 {
        ThreeOctets(b[0], b[1], b[2]);
        assert b == [b[0], b[1], b[2]];
      } else {
        FourOctets(b[0], b[1], b[2], b[3]);
        assert b == [b[0], b[1], b[2], b[3]];
      }
    }
  }

  lemma SixBits(n: nat, r: nat)
    requires r < 0x40
    ensures (n * 0x40 + r) / 0x40 == n && (n * 0x40 + r) % 0x40 == r
  {
  }

  lemma Twice(v: nat)
    ensures v / 0x1000 == v / 0x40 / 0x40 && v / 0x4_0000 == v / 0x40 / 0x40 / 0x40
  {
  }

  /** A number in four parts, the last three of six bits. */
  lemma FourParts(v: nat, p: nat, q: nat, r: nat, t: nat)
    requires q < 0x40 && r < 0x40 && t < 0x40 && v == ((p * 0x40 + q) * 0x40 + r) * 0x40 + t
    ensures v / 0x4_0000 == p && v / 0x1000 % 0x40 == q && v / 0x40 % 0x40 == r && v % 0x40 == t
    ensures v / 0x1000 == p * 0x40 + q
  {
    Twice(v);
    SixBits((p * 0x40 + q) * 0x40 + r, t);
    SixBits(p * 0x40 + q, r);
    SixBits(p, q);
  }

  lemma InParts(v: nat)
    ensures v == ((v / 0x4_0000 * 0x40 + v / 0x1000 % 0x40) * 0x40 + v / 0x40 % 0x40) * 0x40 + v % 0x40
  {
    Twice(v);
    Whole(v);
    Whole(v / 0x40);
    Whole(v / 0x40 / 0x40);
  }

  lemma Whole(n: nat)
    ensures n / 0x40 * 0x40 + n % 0x40 == n
  {
  }

  lemma TailIs(n: nat)
    requires n < 0x40
    ensures IsTail((0x80 + n) as char) && Tail((0x80 + n) as char) == n
  {
  }

  lemma HeadIs(cp: nat)
    ensures cp < 0x800 ==> (0xC0 + cp / 0x40) % 0x20 == cp / 0x40
    ensures cp < 0x1_0000 ==> (0xE0 + cp / 0x1000) % 0x10 == cp / 0x1000
    ensures cp < 0x20_0000 ==> (0xF0 + cp / 0x4_0000) % 8 == cp / 0x4_0000
  {
  }

  lemma Utf8Read(cp: nat)
    requires IsScalar(cp)
    ensures FromUtf8(Utf8(cp)) == Some(cp)
  {
    hide IsTail, Tail;
    InParts(cp);
    HeadIs(cp);
    TailIs(cp % 0x40);
    TailIs(cp / 0x40 % 0x40);
    TailIs(cp / 0x1000 % 0x40);
    Twice(cp);
    assert cp < 0x1_0000 ==> cp / 0x4_0000 == 0 && cp / 0x1000 == cp / 0x1000 % 0x40;
    assert cp < 0x800 ==> cp / 0x1000 == 0 && cp / 0x40 == cp / 0x40 % 0x40;
  }

  /** A lone surrogate gives three octets that are no UTF-8. */
  lemma SurrogateUnread(cp: nat)
    requires IsSurrogate(cp)
    ensures FromUtf8(Utf8(cp)) == None
  {
    hide IsTail, Tail;
    InParts(cp);
    HeadIs(cp);
    TailIs(cp % 0x40);
    TailIs(cp / 0x40 % 0x40);
    Twice(cp);
    assert cp / 0x4_0000 == 0 && cp / 0x1000 == cp / 0x1000 % 0x40;
  }

  lemma OneOctet(a: char)
    requires FromUtf8([a]).Some?
    ensures Utf8(FromUtf8([a]).value) == [a]
  {
  }

  lemma TwoOctets(a: char, b: char)
    requires FromUtf8([a, b]).Some?
    ensures Utf8(FromUtf8([a, b]).value) == [a, b]
  {
  }

  lemma ThreeOctets(a: char, b: char, c: char)
    requires FromUtf8([a, b, c]).Some?
    ensures Utf8(FromUtf8([a, b, c]).value) == [a, b, c]
  {
    var cp := FromUtf8([a, b, c]).value;
    FourParts(cp, 0, a as int - 0xE0, b as int - 0x80, c as int - 0x80);
  }

  lemma FourOctets(a: char, b: char, c: char, d: char)
    requires FromUtf8([a, b, c, d]).Some?
    ensures Utf8(FromUtf8([a, b, c, d]).value) == [a, b, c, d]
  {
    var cp := FromUtf8([a, b, c, d]).value;
    FourParts(cp, a as int - 0xF0, b as int - 0x80, c as int - 0x80, d as int - 0x80);
  }

  // ---------------------------------------------------------------- hexadecimal escapes

  /** A hexadecimal digit in either case. */
  predicate IsHexDigit(c: char, d: nat) {
    if d < 10 then c as int == 0x30 + d else d < 16 && (c as int == 0x41 + d - 10 || c as int == 0x61 + d - 10)
  }

  /** Four digits that spell u. */
  predicate Spells(h: string, u: nat) {
    && |h| == 4
    && IsHexDigit(h[0], u / 0x1000) && IsHexDigit(h[1], u / 0x100 % 0x10)
    && IsHexDigit(h[2], u / 0x10 % 0x10) && IsHexDigit(h[3], u % 0x10)
  }

  /** What may stand behind "\\u" for a code point: its four digits, or beyond 0xFFFF those of a
      surrogate pair, the second in an escape of its own. */
  predicate SpellsCodePoint(h: string, cp: nat) {
    && IsScalar(cp)
    && if cp < 0x1_0000 then Spells(h, cp)
       else
         && |h| == 10 && h[4..6] == "\\u"
         && Spells(h[..4], 0xD800 + (cp - 0x1_0000) / 0x400) && Spells(h[6..], 0xDC00 + (cp - 0x1_0000) % 0x400)
  }

  lemma DigitValue(c: char, d: nat)
    requires IsHexDigit(c, d)
    ensures HexValue(c) == Some(d) && d < 16
  {
  }

  lemma FourDigits(u: nat)
    ensures u == ((u / 0x1000 * 0x10 + u / 0x100 % 0x10) * 0x10 + u / 0x10 % 0x10) * 0x10 + u % 0x10
  {
    assert u / 0x100 == u / 0x10 / 0x10 && u / 0x1000 == u / 0x100 / 0x10;
  }

  lemma QuadRead(s: string, i: nat, h: string, u: nat)
    requires Has(s, i, h) && Spells(h, u)
    ensures HexQuad(s, i) == Some(u)
  {
    hide HexValue, IsHexDigit;
    HasAt(s, i, h, 0);
    HasAt(s, i, h, 1);
    HasAt(s, i, h, 2);
    HasAt(s, i, h, 3);
    DigitValue(h[0], u / 0x1000);
    DigitValue(h[1], u / 0x100 % 0x10);
    DigitValue(h[2], u / 0x10 % 0x10);
    DigitValue(h[3], u % 0x10);
    FourDigits(u);
  }

  /** The reader sees the code point that is spelled. */
  lemma CodePointRead(s: string, i: nat, h: string, cp: nat)
    requires Has(s, i, h) && SpellsCodePoint(h, cp)
    ensures CodePoint(s, i) == Some((cp, i + |h|))
  {
    hide HexQuad, Spells;
    if cp < 0x1_0000 {
      assert |h| == 4 by { SpelledLength(h, cp); }
      QuadRead(s, i, h, cp);
    } else {
      var x: nat := cp - 0x1_0000;
      HasSplit(s, i, h[..4], h[4..]);
      assert h == h[..4] + h[4..] && h[4..] == h[4..6] + h[6..];
      HasSplit(s, i + 4, h[4..6], h[6..]);
      QuadRead(s, i, h[..4], 0xD800 + x / 0x400);
      QuadRead(s, i + 6, h[6..], 0xDC00 + x % 0x400);
      HasAt(s, i + 4, h[4..6], 0);
      HasAt(s, i + 4, h[4..6], 1);
      Surrogates(x);
    }
  }

  lemma SpelledLength(h: string, u: nat)
    requires Spells(h, u)
    ensures |h| == 4
  {
  }

  lemma Surrogates(x: nat)
    requires x < 0x10_0000
    ensures (0xD800 + x / 0x400) % 0x400 == x / 0x400 && (0xDC00 + x % 0x400) % 0x400 == x % 0x400
    ensures 0xD800 <= 0xD800 + x / 0x400 <= 0xDBFF && x == x / 0x400 * 0x400 + x % 0x400
  {
  }

  // ---------------------------------------------------------------- the pieces of a string

  /** A character as it is, a short escape by its letter, or a code point in hexadecimal. */
  datatype Piece = Plain(c: char) | Short(letter: char) | Unicode(digits: string, cp: nat)

  predicate GoodPiece(p: Piece) {
    match p
    case Plain(c) => c != '"' && c != '\\'
    case Short(c) => c in "\"\\/bfnrt"
    case Unicode(h, cp) => SpellsCodePoint(h, cp)
  }

  function PieceText(p: Piece): (s: string)
    ensures |s| > 0
  {
    match p
    case Plain(c) => [c]
    case Short(c) => ['\\', c]
    case Unicode(h, _) => "\\u" + h
  }

  /** The octets a piece stands for. */
  function PieceMeaning(p: Piece): string {
    match p
    case Plain(c) => [c]
    case Short(c) =>
      [if c == 'b' then 0x08 as char else if c == 'f' then 0x0C as char else if c == 'n' then 0x0A as char
       else if c == 'r' then 0x0D as char else if c == 't' then 0x09 as char else c]
    case Unicode(_, cp) => if cp < 0x11_0000 then Utf8(cp) else ""
  }

  predicate GoodPieces(ps: seq<Piece>) {
    forall p :: p in ps ==> GoodPiece(p)
  }

  function PiecesText(ps: seq<Piece>): string {
    if ps == [] then "" else PieceText(ps[0]) + PiecesText(ps[1..])
  }

  function PiecesMeaning(ps: seq<Piece>): string {
    if ps == [] then "" else PieceMeaning(ps[0]) + PiecesMeaning(ps[1..])
  }

  lemma PieceRead(s: string, i: nat, p: Piece)
    requires GoodPiece(p) && Has(s, i, PieceText(p))
    ensures i + |PieceText(p)| <= |s| && Unescaped(s, i) == Prepend(PieceMeaning(p), Unescaped(s, i + |PieceText(p)|))
  {
    hide CodePoint, Utf8, SpellsCodePoint, Prepend;
    HasAt(s, i, PieceText(p), 0);
    match p
    case Plain(_) =>
    case Short(_) => HasAt(s, i, PieceText(p), 1);
    case Unicode(h, cp) =>
      HasAt(s, i, PieceText(p), 1);
      HasSplit(s, i, "\\u", h);
      CodePointRead(s, i + 2, h, cp);
  }

  lemma HexDigitPlain(c: char, d: nat)
    requires IsHexDigit(c, d)
    ensures c != '"' && c != '\\'
  {
  }

  lemma QuadScanned(s: string, i: nat, h: string, u: nat)
    requires Has(s, i, h) && Spells(h, u) && i + 4 < |s|
    ensures StringEnd(s, i) == StringEnd(s, i + 4)
  {
    hide IsHexDigit;
    HasAt(s, i, h, 0);
    HasAt(s, i, h, 1);
    HasAt(s, i, h, 2);
    HasAt(s, i, h, 3);
    HexDigitPlain(h[0], u / 0x1000);
    HexDigitPlain(h[1], u / 0x100 % 0x10);
    HexDigitPlain(h[2], u / 0x10 % 0x10);
    HexDigitPlain(h[3], u % 0x10);
    assert StringEnd(s, i) == StringEnd(s, i + 1);
    assert StringEnd(s, i + 1) == StringEnd(s, i + 2);
    assert StringEnd(s, i + 2) == StringEnd(s, i + 3);
  }

  lemma EscapeScanned(s: string, i: nat)
    requires i + 2 < |s| && s[i] == '\\'
    ensures StringEnd(s, i) == StringEnd(s, i + 2)
  {
  }

  lemma CodePointScanned(s: string, i: nat, h: string, cp: nat)
    requires Has(s, i, h) && SpellsCodePoint(h, cp) && i + |h| < |s|
    ensures StringEnd(s, i) == StringEnd(s, i + |h|)
  {
    hide StringEnd, Spells;
    if cp < 0x1_0000 {
      SpelledLength(h, cp);
      QuadScanned(s, i, h, cp);
    } else {
      var x: nat := cp - 0x1_0000;
      assert h == h[..4] + h[4..] && h[4..] == h[4..6] + h[6..];
      HasSplit(s, i, h[..4], h[4..]);
      HasSplit(s, i + 4, h[4..6], h[6..]);
      HasAt(s, i + 4, h[4..6], 0);
      QuadScanned(s, i, h[..4], 0xD800 + x / 0x400);
      EscapeScanned(s, i + 4);
      QuadScanned(s, i + 6, h[6..], 0xDC00 + x % 0x400);
    }
  }

  lemma PieceScanned(s: string, i: nat, p: Piece)
    requires GoodPiece(p) && Has(s, i, PieceText(p)) && i + |PieceText(p)| < |s|
    ensures StringEnd(s, i) == StringEnd(s, i + |PieceText(p)|)
  {
    hide SpellsCodePoint;
    HasAt(s, i, PieceText(p), 0);
    match p
    case Plain(_) =>
    case Short(_) => EscapeScanned(s, i);
    case Unicode(h, cp) =>
      EscapeScanned(s, i);
      HasSplit(s, i, "\\u", h);
      CodePointScanned(s, i + 2, h, cp);
  }

  lemma {:induction false} PiecesScanned(s: string, i: nat, ps: seq<Piece>)
    requires GoodPieces(ps) && Has(s, i, PiecesText(ps) + "\"")
    ensures StringEnd(s, i) == (i + |PiecesText(ps)| + 1, true)
    decreases |ps|
  {
    hide PieceText, GoodPiece, Has;
    HasRoom(s, i, PiecesText(ps) + "\"");
    if ps == [] {
      HasAt(s, i, PiecesText(ps) + "\"", 0);
    } else {
      var rest := PiecesText(ps[1..]) + "\"";
      assert PiecesText(ps) + "\"" == PieceText(ps[0]) + rest;
      HasSplit(s, i, PieceText(ps[0]), rest);
      PieceScanned(s, i, ps[0]);
      PiecesScanned(s, i + |PieceText(ps[0])|, ps[1..]);
    }
  }

  lemma Prepended2(a: string, b: string)
    ensures Prepend(a, Some(b)) == Some(a + b)
  {
  }

  /** Any spelling of a string decodes to what it spells. */
  lemma {:induction false} PiecesRead(s: string, i: nat, ps: seq<Piece>)
    requires GoodPieces(ps) && Has(s, i, PiecesText(ps)) && i + |PiecesText(ps)| == |s|
    ensures Unescaped(s, i) == Some(PiecesMeaning(ps))
    decreases |ps|
  {
    hide PieceText, PieceMeaning, GoodPiece, Prepend, Has;
    if ps != [] {
      HasSplit(s, i, PieceText(ps[0]), PiecesText(ps[1..]));
      PieceRead(s, i, ps[0]);
      PiecesRead(s, i + |PieceText(ps[0])|, ps[1..]);
      Prepended2(PieceMeaning(ps[0]), PiecesMeaning(ps[1..]));
    }
  }

  function Spelled(ps: seq<Piece>): string {
    "\"" + PiecesText(ps) + "\""
  }

  /** In a document, such a string is one token, which decodes to what it spells. */
  lemma SpelledToken(s: string, i: nat, ps: seq<Piece>)
    requires GoodPieces(ps) && Has(s, i, Spelled(ps))
    ensures var t := NextToken(s, i);
      && t == Token(StringToken, i, i + |Spelled(ps)|)
      && t.start + 2 <= t.end
      && DecodedString(s, t) == Some(PiecesMeaning(ps))
  {
    hide StringEnd, Unescaped, PiecesText, GoodPieces, PiecesMeaning;
    var q := Spelled(ps);
    assert q == "\"" + (PiecesText(ps) + "\"");
    HasSplit(s, i, "\"", PiecesText(ps) + "\"");
    HasSplit(s, i + 1, PiecesText(ps), "\"");
    HasAt(s, i, q, 0);
    PiecesScanned(s, i + 1, ps);
    var body := s[i + 1..i + |q| - 1];
    assert body == PiecesText(ps) && body[0..0 + |body|] == body;
    PiecesRead(body, 0, ps);
  }
}
