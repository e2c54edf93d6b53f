/** How the reader's tokens and decoders see what the writer printed. */
module JsonTokens {
  import opened Wrappers
  import opened Json

  /** The text stands at i. */
  predicate Has(s: string, i: nat, text: string) {
    i + |text| <= |s| && s[i..i + |text|] == text
  }

  lemma HasSplit(s: string, i: nat, a: string, b: string)
    requires Has(s, i, a + b)
    ensures Has(s, i, a) && Has(s, i + |a|, b)
  {
    var w := s[i..i + |a + b|];
    assert w[..|a|] == a && w[|a|..] == b;
    assert s[i..i + |a|] == w[..|a|];
    assert s[i + |a|..i + |a| + |b|] == w[|a|..];
  }

  lemma HasRoom(s: string, i: nat, text: string)
    requires Has(s, i, text)
    ensures i + |text| <= |s|
  {}

  lemma HasAt(s: string, i: nat, text: string, k: nat)
    requires Has(s, i, text) && k < |text|
    ensures s[i + k] == text[k]
  {
    assert s[i..i + |text|][k] == text[k];
  }

  // ---------------------------------------------------------------- numbers

  lemma {:induction false} DigitsRead(n: nat)
    ensures AllDigits(Digits(n)) && DigitsValue(Digits(n)) == n
  {
    if n < 10 {
      assert Digits(n)[..0] == "";
    } else {
      DigitsRead(n / 10);
      var s := Digits(n / 10) + [DigitChar(n % 10)];
      assert s[..|s| - 1] == Digits(n / 10);
    }
  }

  lemma {:induction false} DigitsSkipped(s: string, i: nat, j: nat)
    requires i <= j <= |s| && AllDigits(s[i..j]) && !IsDigit(At(s, j))
    ensures SkipDigits(s, i) == j
    decreases j - i
  {
    if i < j {
      assert IsDigit(s[i..j][0]);
      assert s[i..j][1..] == s[i + 1..j];
      DigitsSkipped(s, i + 1, j);
    }
  }

  /** A character that does not continue a number. */
  predicate EndsNumber(c: char) {
    !IsDigit(c) && c != '.' && c != 'e' && c != 'E'
  }

  /** An integer in the text, followed by something that ends it, is one number token. */
  lemma IntegerToken(s: string, i: nat, n: int)
    requires Has(s, i, IntText(n)) && EndsNumber(At(s, i + |IntText(n)|))
    ensures NextToken(s, i) == Token(NumberToken, i, i + |IntText(n)|)
  {
    var text := IntText(n);
    IntTextShape(n);
    HasAt(s, i, text, 0);
    assert s[i + 1..i + |text|] == text[1..];
    DigitsSkipped(s, i + 1, i + |text|);
    hide SkipDigits, IntText, Digits;
    assert SkipSpaces(s, i) == i;
  }

  lemma IntTextShape(n: int)
    ensures var text := IntText(n); |text| > 0 && (IsDigit(text[0]) || text[0] == '-') && AllDigits(text[1..])
  {
    var k: nat := if n < 0 then -n else n;
    DigitsRead(k);
    assert n < 0 ==> IntText(n)[1..] == Digits(k);
  }

  /** Up to the tag, a printed 64-bit integer decodes to itself. */
  lemma NumberDecoded(n: int)
    requires -(MAX_LARGEST_INT + 1) <= n <= MAX_LARGEST_UINT
    ensures DecodedNumber(IntText(n)) == if n <= MAX_INT then Int(n) else UInt(n)
  {
    var k: nat := if n < 0 then -n else n;
    DigitsRead(k);
    if n < 0 {
      assert ("-" + Digits(k))[1..] == Digits(k);
    } else {
      assert IsDigit(Digits(k)[0]);
    }
  }

  // ---------------------------------------------------------------- strings

  lemma {:induction false} ScanStep(s: string, i: nat, c: char)
    requires Has(s, i, Escape(c)) && i + |Escape(c)| < |s|
    ensures StringEnd(s, i) == StringEnd(s, i + |Escape(c)|)
  {
    var e := Escape(c);
    HasAt(s, i, e, 0);
    if |e| == 2 {
    } else if |e| == 6 {
      assert e == "\\u00" + [HexDigit(c as int / 16), HexDigit(c as int % 16)];
      HasAt(s, i, e, 2);
      HasAt(s, i, e, 3);
      HasAt(s, i, e, 4);
      HasAt(s, i, e, 5);
      assert StringEnd(s, i) == StringEnd(s, i + 2);
      assert StringEnd(s, i + 2) == StringEnd(s, i + 3);
      assert StringEnd(s, i + 3) == StringEnd(s, i + 4);
      assert StringEnd(s, i + 4) == StringEnd(s, i + 5);
    }
  }

  lemma {:induction false} StringScanned(s: string, i: nat, text: string)
    requires Has(s, i, Escaped(text) + "\"")
    ensures StringEnd(s, i) == (i + |Escaped(text)| + 1, true)
    decreases |text|
  {
    hide Escape, Has;
    if text == "" {
      HasAt(s, i, Escaped(text) + "\"", 0);
      HasRoom(s, i, Escaped(text) + "\"");
    } else {
      assert Escaped(text) + "\"" == Escape(text[0]) + (Escaped(text[1..]) + "\"");
      HasSplit(s, i, Escape(text[0]), Escaped(text[1..]) + "\"");
      HasRoom(s, i + |Escape(text[0])|, Escaped(text[1..]) + "\"");
      ScanStep(s, i, text[0]);
      StringScanned(s, i + |Escape(text[0])|, text[1..]);
    }
  }

  lemma HexDecoded(d: nat)
    requires d < 16
    ensures HexValue(HexDigit(d)) == Some(d)
  {}

  lemma {:induction false} UnescapeStep(s: string, i: nat, c: char)
    requires Has(s, i, Escape(c))
    ensures Unescaped(s, i) == Prepend([c], Unescaped(s, i + |Escape(c)|))
  {
    var e := Escape(c);
    HasAt(s, i, e, 0);
    if |e| == 2 {
      HasAt(s, i, e, 1);
    } else if |e| == 6 {
      var h, l := c as int / 16, c as int % 16;
      assert e == "\\u00" + [HexDigit(h), HexDigit(l)];
      HasAt(s, i, e, 1);
      HasAt(s, i, e, 2);
      HasAt(s, i, e, 3);
      HasAt(s, i, e, 4);
      HasAt(s, i, e, 5);
      HexDecoded(h);
      HexDecoded(l);
      assert HexQuad(s, i + 2) == Some(c as int);
      assert Utf8(c as int) == [c];
    }
  }

  lemma Prepended(c: char, text: string)
    ensures Prepend([c], Some(text)) == Some([c] + text)
  {}

  /** Undoing the escapes gives back any string, control characters and NULs included. */
  lemma {:induction false} StringDecoded(s: string, i: nat, text: string)
    requires Has(s, i, Escaped(text)) && i + |Escaped(text)| == |s|
    ensures Unescaped(s, i) == Some(text)
    decreases |text|
  {
    hide Escape, Prepend, Has, Utf8, CodePoint;
    if text != "" {
      assert Escaped(text) == Escape(text[0]) + Escaped(text[1..]);
      HasSplit(s, i, Escape(text[0]), Escaped(text[1..]));
      HasRoom(s, i + |Escape(text[0])|, Escaped(text[1..]));
      UnescapeStep(s, i, text[0]);
      StringDecoded(s, i + |Escape(text[0])|, text[1..]);
      Prepended(text[0], text[1..]);
      assert [text[0]] + text[1..] == text;
    }
  }

  /** A quoted string in the text is one token and decodes to the string. */
  lemma QuotedToken(s: string, i: nat, text: string)
    requires Has(s, i, Quoted(text))
    ensures var t := NextToken(s, i);
      && t == Token(StringToken, i, i + |Quoted(text)|)
      && t.start + 2 <= t.end
      && DecodedString(s, t) == Some(text)
  {
    hide StringEnd, Unescaped, Escaped;
    var q := Quoted(text);
    assert q == "\"" + (Escaped(text) + "\"");
    HasSplit(s, i, "\"", Escaped(text) + "\"");
    HasSplit(s, i + 1, Escaped(text), "\"");
    HasAt(s, i, q, 0);
    StringScanned(s, i + 1, text);
    var body := s[i + 1..i + |q| - 1];
    assert body == Escaped(text) && body[0..0 + |body|] == body;
    StringDecoded(body, 0, text);
  }
}
