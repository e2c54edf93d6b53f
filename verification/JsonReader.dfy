/** The Reader: a cursor over the document, proved to find what module Json says is there. */
module JsonReader {
  import opened Wrappers
  import opened Json

  // ---------------------------------------------------------------- decoding numbers

  lemma DigitAppended(s: string, c: char)
    requires AllDigits(s) && IsDigit(c)
    ensures AllDigits(s + [c]) && DigitsValue(s + [c]) == 10 * DigitsValue(s) + DigitOf(c)
  {
    assert (s + [c])[..|s + [c]| - 1] == s;
  }

  /** More digits never make the number smaller. */
  lemma {:induction false} DigitsGrow(s: string, k: nat)
    requires AllDigits(s) && k <= |s|
    ensures AllDigits(s[..k]) && DigitsValue(s) >= DigitsValue(s[..k])
    ensures k < |s| ==> DigitsValue(s) >= 10 * DigitsValue(s[..k])
    decreases |s|
  {
    if k == |s| {
      assert s[..k] == s;
    } else {
      var t := s[..|s| - 1];
      DigitsGrow(t, k);
      assert t[..k] == s[..k];
    }
  }

  lemma NoDigits(s: string)
    ensures AllDigits(s[..0]) && DigitsValue(s[..0]) == 0
  {}

  lemma NotAllDigits(s: string, k: nat)
    requires k < |s| && !IsDigit(s[k])
    ensures !AllDigits(s)
  {}

  /** Digit by digit, giving up on the first character that is no digit and as soon as the
      64-bit limit would be passed: exactly when the number is beyond it, and with no step
      overflowing. */
  method DecodeNumber(text: string) returns (decoded: Value)
    requires text != ""
    ensures decoded == DecodedNumber(text)
  {
    hide DigitsValue, AllDigits;
    var current := 0;
    var isNegative := text[0] == '-';
    if isNegative {
      current := 1;
    }
    ghost var digits := text[current..];
    ghost var first := current;
    var maxIntegerValue: nat := if isNegative then MAX_LARGEST_INT + 1 else MAX_LARGEST_UINT;
    var threshold: nat := maxIntegerValue / 10;
    var value: nat := 0;
    NoDigits(digits);
    while current < |text|
      invariant first <= current <= |text| && digits == text[first..]
      invariant AllDigits(digits[..current - first]) && value == DigitsValue(digits[..current - first])
      invariant value <= maxIntegerValue
    {
      var c := text[current];
      assert c == digits[current - first];
      current := current + 1;
      if !IsDigit(c) {
        NotAllDigits(digits, current - first - 1);
        return Decimal(text);
      }
      ghost var before := digits[..current - first - 1];
      var digit := DigitOf(c);
      DigitAppended(before, c);
      assert digits[..current - first] == before + [c];
      if value >= threshold {
        if value > threshold || current != |text| || digit > maxIntegerValue % 10 {
          TooLarge(digits, current - first, maxIntegerValue);
          return Decimal(text);
        }
      }
      value := value * 10 + digit;
    }
    assert digits[..current - first] == digits;
    if isNegative && value == maxIntegerValue {
      decoded := Int(-(MAX_LARGEST_INT + 1));
    } else if isNegative {
      decoded := Int(0 - (value as int));
    } else if value <= MAX_INT {
      decoded := Int(value);
    } else {
      decoded := UInt(value);
    }
  }

  lemma TooLarge(digits: string, k: nat, max: nat)
    requires 0 < k <= |digits| && AllDigits(digits[..k]) && max >= 10
    requires
      var value := DigitsValue(digits[..k - 1]);
      value >= max / 10 && (value > max / 10 || k < |digits| || DigitOf(digits[k - 1]) > max % 10)
    ensures AllDigits(digits) ==> DigitsValue(digits) > max
  {
    hide DigitsValue;
    var before, c := digits[..k - 1], digits[k - 1];
    assert digits[..k] == before + [c];
    assert IsDigit(digits[..k][k - 1]);
    DigitsGrow(digits[..k], k - 1);
    assert digits[..k][..k - 1] == before;
    DigitAppended(before, c);
    if AllDigits(digits) {
      DigitsGrow(digits, k);
      PastLimit(DigitsValue(before), DigitOf(c), DigitsValue(digits), k < |digits|, max);
    }
  }

  lemma PastLimit(value: nat, digit: nat, all: nat, more: bool, max: nat)
    requires max >= 10 && value >= max / 10 && (value > max / 10 || more || digit > max % 10)
    requires all >= 10 * value + digit && (more ==> all >= 10 * (10 * value + digit))
    ensures all > max
  {}

  // ---------------------------------------------------------------- decoding strings

  /** The code point of an escape, taking a surrogate pair together. */
  method DecodeUnicodeCodePoint(text: string, i: nat) returns (r: Option<(nat, nat)>)
    ensures r == CodePoint(text, i)
  {
    var first := DecodeUnicodeEscapeSequence(text, i);
    if first.None? {
      return None;
    }
    var unicode, current := first.value, i + 4;
    if 0xD800 <= unicode <= 0xDBFF {
      if |text| - current < 6 || text[current] != '\\' || text[current + 1] != 'u' {
        return None;
      }
      var second := DecodeUnicodeEscapeSequence(text, current + 2);
      if second.None? {
        return None;
      }
      return Some((0x1_0000 + (unicode % 0x400) * 0x400 + second.value % 0x400, current + 6));
    }
    r := Some((unicode, current));
  }

  /** Four digits, most significant first. */
  method DecodeUnicodeEscapeSequence(text: string, i: nat) returns (r: Option<nat>)
    ensures r == HexQuad(text, i)
  {
    hide HexValue, HexPrefix;
    if |text| - i < 4 {
      return None;
    }
    QuadIsPrefix(text, i);
    NextHex(text, i, 0);
    var unicode: nat := 0;
    var index := 0;
    while index < 4
      invariant index <= 4 && HexPrefix(text, i, index) == Some(unicode)
    {
      var c := HexValue(text[i + index]);
      NextHex(text, i, index);
      if c.None? {
        NoMore(text, i, index + 1, 4);
        return None;
      }
      unicode := unicode * 16 + c.value;
      index := index + 1;
    }
    r := Some(unicode);
  }

  function HexPrefix(text: string, i: nat, n: nat): Option<nat>
    requires i + n <= |text|
  {
    if n == 0 then Some(0)
    else
      match (HexPrefix(text, i, n - 1), HexValue(text[i + n - 1]))
      case (Some(u), Some(d)) => Some(u * 16 + d)
      case _ => None
  }

  lemma QuadIsPrefix(text: string, i: nat)
    requires i + 4 <= |text|
    ensures HexQuad(text, i) == HexPrefix(text, i, 4)
  {
    hide HexValue, HexPrefix;
    NextHex(text, i, 0);
    NextHex(text, i, 1);
    NextHex(text, i, 2);
    NextHex(text, i, 3);
  }

  lemma NextHex(text: string, i: nat, n: nat)
    requires i + n < |text|
    ensures HexPrefix(text, i, n + 1) ==
      match (HexPrefix(text, i, n), HexValue(text[i + n]))
      case (Some(u), Some(d)) => Some(u * 16 + d)
      case _ => None
    ensures HexPrefix(text, i, 0) == Some(0)
  {
    hide HexValue;
  }

  lemma {:induction false} NoMore(text: string, i: nat, n: nat, k: nat)
    requires n <= k && i + k <= |text| && HexPrefix(text, i, n).None?
    ensures HexPrefix(text, i, k).None?
  {
    if n < k {
      NoMore(text, i, n, k - 1);
    }
  }

  /** Undo the escapes of the text between the quotes. */
  method DecodeString(text: string) returns (r: Option<string>)
    ensures r == Unescaped(text, 0)
  {
    hide CodePoint, Utf8, Simple;
    var decoded := "";
    var current := 0;
    assert Prepend("", Unescaped(text, 0)) == Unescaped(text, 0) by { PrependNothing(Unescaped(text, 0)); }
    while current < |text|
      invariant current <= |text|
      invariant Prepend(decoded, Unescaped(text, current)) == Unescaped(text, 0)
      decreases |text| - current
    {
      var c, at := text[current], current;
      current := current + 1;
      if c == '"' {
        PrependEnd(decoded);
        return Some(decoded);
      } else if c == '\\' {
        if current == |text| {
          return None;
        }
        var escape := text[current];
        current := current + 1;
        if escape == 'u' {
          var point := DecodeUnicodeCodePoint(text, current);
          if point.None? {
            return None;
          }
          PrependTwice(decoded, Utf8(point.value.0), Unescaped(text, point.value.1));
          decoded := decoded + Utf8(point.value.0);
          current := point.value.1;
        } else {
          var plain := Simple(escape);
          if plain.None? {
            return None;
          }
          PrependTwice(decoded, [plain.value], Unescaped(text, current));
          decoded := decoded + [plain.value];
        }
      } else {
        PrependTwice(decoded, [c], Unescaped(text, current));
        decoded := decoded + [c];
      }
    }
    PrependEnd(decoded);
    r := Some(decoded);
  }

  lemma PrependNothing(r: Option<string>)
    ensures Prepend("", r) == r
  {
    if r.Some? {
      assert "" + r.value == r.value;
    }
  }

  lemma PrependEnd(a: string)
    ensures Prepend(a, Some("")) == Some(a)
  {
    assert a + "" == a;
  }

  lemma PrependTwice(a: string, b: string, r: Option<string>)
    ensures Prepend(a, Prepend(b, r)) == Prepend(a + b, r)
  {
    if r.Some? {
      assert a + (b + r.value) == (a + b) + r.value;
    }
  }

  // ---------------------------------------------------------------- the reader

  class Reader {
    const document: string
    var current: nat
    var stackDepth: nat

    ghost predicate Valid()
      reads this
    {
      current <= |document|
    }

    constructor (document: string)
      ensures Valid() && this.document == document && current == 0 && stackDepth == 0
    {
      this.document := document;
      current := 0;
      stackDepth := 0;
    }

    method GetNextChar() returns (c: char)
      requires Valid()
      modifies this`current
      ensures Valid() && c == At(document, old(current))
      ensures current == if old(current) < |document| then old(current) + 1 else old(current)
    {
      if current == |document| {
        return 0 as char;
      }
      c := document[current];
      current := current + 1;
    }

    method SkipBlanks()
      requires Valid()
      modifies this`current
      ensures Valid() && current == SkipSpaces(document, old(current))
    {
      while current != |document|
        invariant Valid() && SkipSpaces(document, current) == SkipSpaces(document, old(current))
        decreases |document| - current
      {
        if IsSpace(document[current]) {
          current := current + 1;
        } else {
          break;
        }
      }
    }

    method Match(pattern: string) returns (ok: bool)
      requires Valid()
      modifies this`current
      ensures Valid() && ok == Matches(document, old(current), pattern)
      ensures current == if ok then old(current) + |pattern| else old(current)
    {
      if |document| - current < |pattern| {
        return false;
      }
      ghost var window := document[current..current + |pattern|];
      var index := |pattern|;
      while index > 0
        invariant 0 <= index <= |pattern| && current == old(current)
        invariant forall k :: index <= k < |pattern| ==> window[k] == pattern[k]
      {
        index := index - 1;
        if document[current + index] != pattern[index] {
          assert window[index] != pattern[index];
          return false;
        }
      }
      assert window == pattern;
      current := current + |pattern|;
      ok := true;
    }

    /** Look at the character at p: it stays unread, and q is the place behind it. */
    method Peek(p: nat) returns (c: char, q: nat)
      requires p <= |document|
      modifies this`current
      ensures current == p && c == At(document, p) && q == (if p < |document| then p + 1 else p)
    {
      current := p;
      if current < |document| {
        c, q := document[p], p + 1;
      } else {
        c, q := 0 as char, p;
      }
    }

    /** Skip digits from p on; c and q are the first other character and what follows it. */
    method PeekDigits(p: nat) returns (c: char, q: nat)
      requires p <= |document|
      modifies this`current
      ensures current == SkipDigits(document, p) && c == At(document, current) && !IsDigit(c)
      ensures q == if current < |document| then current + 1 else current
    {
      c, q := Peek(p);
      while IsDigit(c)
        invariant current <= |document| && c == At(document, current)
        invariant q == if current < |document| then current + 1 else current
        invariant SkipDigits(document, current) == SkipDigits(document, p)
        decreases |document| - current
      {
        c, q := Peek(q);
      }
    }

    method ReadNumber()
      requires Valid()
      modifies this`current
      ensures Valid() && current == NumberEnd(document, old(current))
    {
      var c, p := PeekDigits(current);
      if c == '.' {
        c, p := PeekDigits(p);
      }
      if c == 'e' || c == 'E' {
        c, p := Peek(p);
        if c == '+' || c == '-' {
          c, p := PeekDigits(p);
        } else {
          c, p := PeekDigits(current);
        }
      }
    }

    method ReadString() returns (closed: bool)
      requires Valid()
      modifies this`current
      ensures Valid() && (current, closed) == StringEnd(document, old(current))
    {
      var c := 0 as char;
      while current != |document|
        invariant Valid() && c != '"'
        invariant StringEnd(document, current) == StringEnd(document, old(current))
        decreases |document| - current
      {
        c := GetNextChar();
        if c == '\\' {
          var skipped := GetNextChar();
        } else if c == '"' {
          break;
        }
      }
      closed := c == '"';
    }

    method ReadCStyleComment() returns (closed: bool)
      requires Valid()
      modifies this`current
      ensures Valid() && (current, closed) == BlockEnd(document, old(current))
    {
      while current != |document|
        invariant Valid() && BlockEnd(document, current) == BlockEnd(document, old(current))
        decreases |document| - current
      {
        var c := GetNextChar();
        if c == '*' && At(document, current) == '/' {
          break;
        }
      }
      var last := GetNextChar();
      closed := last == '/';
    }

    method ReadCppStyleComment()
      requires Valid()
      modifies this`current
      ensures Valid() && current == LineEnd(document, old(current))
    {
      while current != |document|
        invariant Valid() && LineEnd(document, current) == LineEnd(document, old(current))
        decreases |document| - current
      {
        var c := GetNextChar();
        if c == '\n' {
          return;
        }
        if c == '\r' {
          if At(document, current) == '\n' {
            var feed := GetNextChar();
          }
          return;
        }
      }
    }

    method ReadComment() returns (successful: bool)
      requires Valid()
      modifies this`current
      ensures Valid() && (current, successful) == CommentEnd(document, old(current))
    {
      var c := GetNextChar();
      successful := false;
      if c == '*' {
        successful := ReadCStyleComment();
      } else if c == '/' {
        ReadCppStyleComment();
        successful := true;
      }
    }

    method ReadToken() returns (token: Token)
      requires Valid()
      modifies this`current
      ensures Valid() && token == NextToken(document, old(current)) && current == token.end
    {
      hide NumberEnd, StringEnd, CommentEnd, Matches, SkipSpaces;
      SkipBlanks();
      var start := current;
      var c := GetNextChar();
      var kind, ok := ErrorToken, true;
      if c == '{' {
        kind := ObjectBegin;
      } else if c == '}' {
        kind := ObjectEnd;
      } else if c == '[' {
        kind := ArrayBegin;
      } else if c == ']' {
        kind := ArrayEnd;
      } else if c == '"' {
        kind := StringToken;
        ok := ReadString();
      } else if c == '/' {
        kind := Comment;
        ok := ReadComment();
      } else if IsDigit(c) || c == '-' {
        kind := NumberToken;
        ReadNumber();
      } else if c == 't' {
        kind := TrueToken;
        ok := Match("rue");
      } else if c == 'f' {
        kind := FalseToken;
        ok := Match("alse");
      } else if c == 'n' {
        kind := NullToken;
        ok := Match("ull");
      } else if c == ',' {
        kind := Separator;
      } else if c == ':' {
        kind := Colon;
      } else if c == 0 as char {
        kind := EndOfStream;
      } else {
        ok := false;
      }
      token := Token(if ok then kind else ErrorToken, start, current);
    }

    method SkipCommentTokens() returns (token: Token)
      requires Valid()
      modifies this`current
      ensures Valid() && token == SkipComments(document, old(current)) && current == token.end
    {
      hide NextToken;
      token := ReadToken();
      while token.kind == Comment
        invariant Valid() && current == token.end
        invariant SkipComments(document, old(current)) ==
          if token.kind == Comment then SkipComments(document, current) else token
        decreases |document| - current, if token.kind == Comment then 1 else 0
      {
        token := ReadToken();
      }
    }

    /** What a read that has finished means. */
    ghost predicate Agrees(r: Parsed, ok: bool, value: Value)
      reads this
    {
      Valid() && (match r case Ok(v, next) => ok && value == v && current == next case Fail => !ok)
    }

    method ReadValue() returns (ok: bool, value: Value)
      requires Valid()
      modifies this
      ensures Agrees(Parse(document, old(current), old(stackDepth)), ok, value)
      ensures ok ==> stackDepth == old(stackDepth)
      decreases if stackDepth < STACK_LIMIT then STACK_LIMIT - stackDepth else 0, 2, 0
    {
      hide NextToken, SkipComments, Unescaped, DecodedNumber, ParseItems, ParseMembers, SkipSpaces;
      ok, value := false, Null;
      if stackDepth >= STACK_LIMIT {
        return;
      }
      stackDepth := stackDepth + 1;
      var token := SkipCommentTokens();
      match token.kind {
      case ObjectBegin => ok, value := ReadObject();
      case ArrayBegin => ok, value := ReadArray();
      case NumberToken =>
        value := DecodeNumber(document[token.start..token.end]);
        ok := true;
      case StringToken =>
        if token.start + 2 <= token.end {
          var text := DecodeString(document[token.start + 1..token.end - 1]);
          if text.Some? {
            ok, value := true, Text(text.value);
          }
        }
      case TrueToken => ok, value := true, Bool(true);
      case FalseToken => ok, value := true, Bool(false);
      case NullToken => ok, value := true, Null;
      case _ =>
      }
      if ok {
        stackDepth := stackDepth - 1;
      }
    }

    method ReadArray() returns (ok: bool, value: Value)
      requires Valid() && stackDepth > 0
      modifies this
      ensures Agrees(ArraySpec(document, old(current), old(stackDepth)), ok, value)
      ensures ok ==> stackDepth == old(stackDepth)
      decreases if stackDepth < STACK_LIMIT then STACK_LIMIT - stackDepth else 0, 3
    {
      hide NextToken, SkipComments, Parse, SkipSpaces;
      SkipBlanks();
      if At(document, current) == ']' {
        var endArray := ReadToken();
        return true, List([]);
      }
      ghost var start, depth := current, stackDepth;
      var items := [];
      while true
        invariant Valid() && stackDepth == depth == old(stackDepth)
        invariant ParseItems(document, start, depth, []) == ParseItems(document, current, depth, items)
        decreases |document| - current
      {
        ghost var here := current;
        var item;
        ok, item := ReadValue();
        if !ok {
          return false, Null;
        }
        items := items + [item];
        var token := SkipCommentTokens();
        if token.kind != Separator && token.kind != ArrayEnd {
          return false, Null;
        }
        if token.kind == ArrayEnd {
          break;
        }
        assert current > here;
      }
      ok, value := true, List(items);
    }

    method ReadObject() returns (ok: bool, value: Value)
      requires Valid() && stackDepth > 0
      modifies this
      ensures Agrees(ParseMembers(document, old(current), old(stackDepth), [], true), ok, value)
      ensures ok ==> stackDepth == old(stackDepth)
      decreases if stackDepth < STACK_LIMIT then STACK_LIMIT - stackDepth else 0, 3
    {
      hide NextToken, SkipComments, Parse, SkipSpaces, Unescaped, SetMember;
      ghost var start, depth := current, stackDepth;
      var members := [];
      var name := "";
      while true
        invariant Valid() && stackDepth == depth == old(stackDepth)
        invariant ParseMembers(document, start, depth, [], true) ==
          ParseMembers(document, current, depth, members, name == "")
        decreases |document| - current
      {
        ghost var here := current;
        var tokenName := SkipCommentTokens();
        if tokenName.kind == ObjectEnd && name == "" {
          return true, Object(members);
        }
        if tokenName.kind != StringToken || tokenName.start + 2 > tokenName.end {
          return false, Null;
        }
        var decoded := DecodeString(document[tokenName.start + 1..tokenName.end - 1]);
        if decoded.None? {
          return false, Null;
        }
        name := decoded.value;
        var colon := ReadToken();
        if colon.kind != Colon {
          return false, Null;
        }
        var item;
        ok, item := ReadValue();
        if !ok {
          return false, Null;
        }
        members := SetMember(members, Member(name, item));
        ghost var next := current;
        var comma := ReadToken();
        if comma.kind != ObjectEnd && comma.kind != Separator && comma.kind != Comment {
          return false, Null;
        }
        if comma.kind == Comment {
          AfterComment(document, next);
          comma := SkipCommentTokens();
        }
        if comma.kind == ObjectEnd {
          return true, Object(members);
        }
        assert current > here;
      }
      assert false;
    }
  }

  function ArraySpec(s: string, i: nat, depth: nat): Parsed
    requires i <= |s| && depth > 0
  {
    var j := SkipSpaces(s, i);
    if At(s, j) == ']' then Ok(List([]), NextToken(s, j).end) else ParseItems(s, j, depth, [])
  }

  lemma AfterComment(s: string, i: nat)
    requires i <= |s| && NextToken(s, i).kind == Comment
    ensures SkipComments(s, i) == SkipComments(s, NextToken(s, i).end)
  {
    hide NextToken;
  }

  /** Reader::parse: the whole document, of which only the root value has to be read. */
  method ParseDocument(document: string) returns (ok: bool, root: Value)
    ensures ok == Parse(document, 0, 0).Ok?
    ensures ok ==> root == Parse(document, 0, 0).value
  {
    hide Parse;
    var reader := new Reader(document);
    ok, root := reader.ReadValue();
  }
}
