/** What the reader accepts and no writer prints, and what it never accepts. */
module JsonLimits {
  import Strings
  import opened Json
  import opened JsonTokens
  import opened JsonRoundTrip

  /** A sign that no digit, point or exponent follows is a number, and reads as zero. */
  lemma LoneMinus(s: string, i: nat, depth: nat)
    requires Has(s, i, "-") && depth < STACK_LIMIT && EndsNumber(At(s, i + 1))
    ensures i <= |s| && Parse(s, i, depth) == Ok(Int(0), i + 1)
  {
    HasAt(s, i, "-", 0);
    assert SkipSpaces(s, i) == i;
    assert NextToken(s, i) == Token(NumberToken, i, i + 1);
    assert s[i..i + 1] == "-";
    assert "-"[1..] == "";
  }

  /** Members with a comma behind the last of them, read from any place on: the object may end
      there exactly when the name of the last member is empty. */
  lemma {:induction false} MembersThenComma(ms: seq<Member>, s: string, i: nat, depth: nat, read: seq<Member>, nameEmpty: bool)
    requires ms != [] && (forall m :: m in ms ==> Printable(m.value)) && 0 < depth
    requires Ascending(ms) && Before(read, ms)
    requires depth + MembersHeight(ms) <= STACK_LIMIT && Has(s, i, PrintMembers(ms) + ",}")
    ensures i <= |s| && ParseMembers(s, i, depth, read, nameEmpty) ==
      if ms[|ms| - 1].name == "" then Ok(Object(read + RetagMembers(ms)), i + |PrintMembers(ms)| + 2) else Fail
    decreases ms
  {
    hide NextToken, SkipComments, Parse, ParseMembers, Print, Retag, Height, PrintMembers, RetagMembers, Printable, MembersHeight;
    hide Quoted, DecodedString, SetMember, Strings.Less, Ascending, Before, Has, At, Stands, Reads, EndsNumber;
    var m, rest := ms[0], ms[1..];
    PartsThenComma(ms);
    var tail := if rest == [] then ",}" else "," + (PrintMembers(rest) + ",}");
    var colon := i + |Quoted(m.name)|;
    var next := colon + 1 + |Print(m.value)|;
    MemberTokens(s, i, m, tail);
    assert m in ms;
    ParsePrinted(m.value, s, colon + 1, depth);
    var m1 := Member(m.name, Retag(m.value));
    BeforeNext(read, ms, m1.value);
    SetLast(read, m1);
    ReadsOk(m.value, s, colon + 1, depth);
    MemberParsed(s, i, depth, read, nameEmpty, m.name, m1.value, next);
    if rest == [] {
      CommaThenBrace(s, next);
      BraceAfterComma(s, next + 1, depth, read + [m1], m.name == "");
      NoneRetagged();
      assert read + RetagMembers(ms) == read + [m1];
    } else {
      HasSplit(s, next, ",", PrintMembers(rest) + ",}");
      Punctuation(s, next, ',');
      MembersThenComma(rest, s, next + 1, depth, read + [m1], m.name == "");
      ReadJoined(read, m1, RetagMembers(rest));
    }
  }

  lemma CommaThenBrace(s: string, i: nat)
    requires Has(s, i, ",}")
    ensures i + 1 <= |s| && NextToken(s, i) == Token(Separator, i, i + 1)
    ensures NextToken(s, i + 1) == Token(ObjectEnd, i + 1, i + 2)
  {
    hide NextToken, Has;
    assert ",}" == "," + "}";
    HasSplit(s, i, ",", "}");
    HasRoom(s, i, ",");
    Punctuation(s, i, ',');
    Punctuation(s, i + 1, '}');
  }

  lemma PartsThenComma(ms: seq<Member>)
    requires ms != []
    ensures
      var rest := ms[1..];
      PrintMembers(ms) + ",}" ==
        Quoted(ms[0].name) + (":" + (Print(ms[0].value) + (if rest == [] then ",}" else "," + (PrintMembers(rest) + ",}"))))
    ensures RetagMembers(ms) == [Member(ms[0].name, Retag(ms[0].value))] + RetagMembers(ms[1..])
    ensures MembersHeight(ms) == Max(Height(ms[0].value), MembersHeight(ms[1..]))
  {
    hide Print, Retag, Height, Quoted;
    var rest := ms[1..];
    var q, p := Quoted(ms[0].name), Print(ms[0].value);
    assert PrintMembers(ms) == (q + (":" + p)) + MoreMembers(rest);
    JoinTail(q, p, MoreMembers(rest), ",}");
    if rest == [] {
      assert "" + ",}" == ",}";
    } else {
      assert MoreMembers(rest) == "," + PrintMembers(rest);
      assert ("," + PrintMembers(rest)) + ",}" == "," + (PrintMembers(rest) + ",}");
    }
  }

  lemma BraceAfterComma(s: string, i: nat, depth: nat, read: seq<Member>, nameEmpty: bool)
    requires i <= |s| && depth > 0 && NextToken(s, i).kind == ObjectEnd
    ensures ParseMembers(s, i, depth, read, nameEmpty) ==
      if nameEmpty then Ok(Object(read), NextToken(s, i).end) else Fail
  {
    hide NextToken, SkipComments;
  }

  /** When does the reader take a printed object with a comma put in front of its brace?
      Exactly when its one member has an empty name. */
  lemma TrailingCommaExactly(ms: seq<Member>, behind: string)
    requires ms != [] && Printable(Object(ms)) && Height(Object(ms)) <= STACK_LIMIT
    ensures Parse("{" + PrintMembers(ms) + ",}" + behind, 0, 0).Ok? <==> ms[0].name == "" && |ms| == 1
  {
    hide NextToken, SkipComments, Parse, ParseMembers, PrintMembers, Has, Before;
    var s := "{" + PrintMembers(ms) + ",}" + behind;
    var body := PrintMembers(ms) + ",}";
    assert Has(s, 0, "{" + body) by { AtStart("{" + body, behind); assert s == ("{" + body) + behind; }
    HasSplit(s, 0, "{", body);
    Punctuation(s, 0, '{');
    ObjectOpened(s, 0, 0);
    ObjectIsPrintable(ms);
    MembersThenComma(ms, s, 1, 1, [], true);
    LastIsFirst(ms);
  }

  lemma AtStart(text: string, behind: string)
    ensures Has(text + behind, 0, text)
  {
    assert (text + behind)[0..0 + |text|] == text;
  }

  lemma ObjectIsPrintable(ms: seq<Member>)
    requires Printable(Object(ms))
    ensures Ascending(ms) && (forall m :: m in ms ==> Printable(m.value)) && Before([], ms)
    ensures Height(Object(ms)) == 1 + MembersHeight(ms)
  {
    hide Ascending;
  }

  /** Names ascend, so only the first can be empty. */
  lemma LastIsFirst(ms: seq<Member>)
    requires ms != [] && Ascending(ms)
    ensures ms[|ms| - 1].name == "" <==> ms[0].name == "" && |ms| == 1
  {
    assert |ms| > 1 ==> Strings.Less(ms[0].name, ms[|ms| - 1].name);
  }

  // ---------------------------------------------------------------- nothing else is accepted

  /** What stands at a token, by its kind. */
  predicate Shows(s: string, t: Token) {
    && t.start <= t.end <= |s|
    && match t.kind
       case NullToken => s[t.start..t.end] == "null"
       case TrueToken => s[t.start..t.end] == "true"
       case FalseToken => s[t.start..t.end] == "false"
       case ArrayBegin => t.end == t.start + 1 && s[t.start] == '['
       case ArrayEnd => t.end == t.start + 1 && s[t.start] == ']'
       case ObjectBegin => t.end == t.start + 1 && s[t.start] == '{'
       case ObjectEnd => t.end == t.start + 1 && s[t.start] == '}'
       case Separator => t.end == t.start + 1 && s[t.start] == ','
       case Colon => t.end == t.start + 1 && s[t.start] == ':'
       case StringToken => t.end >= t.start + 2 && s[t.start] == '"' && s[t.end - 1] == '"'
       case NumberToken => t.end > t.start && (s[t.start] == '-' || 0x30 <= s[t.start] as int <= 0x39)
       case _ => true
  }

  lemma {:induction false} QuoteEnds(s: string, i: nat)
    requires i <= |s| && StringEnd(s, i).1
    ensures i < StringEnd(s, i).0 && s[StringEnd(s, i).0 - 1] == '"'
    decreases |s| - i
  {
    if s[i] == '\\' {
      QuoteEnds(s, if i + 1 == |s| then i + 1 else i + 2);
    } else if s[i] != '"' {
      QuoteEnds(s, i + 1);
    }
  }

  lemma TokenShows(s: string, i: nat)
    requires i <= |s|
    ensures Shows(s, NextToken(s, i))
  {
    hide StringEnd, NumberEnd, CommentEnd, SkipSpaces;
    var start := SkipSpaces(s, i);
    if start < |s| && s[start] == '"' && StringEnd(s, start + 1).1 {
      QuoteEnds(s, start + 1);
    }
  }

  lemma {:induction false} LaterTokenShows(s: string, i: nat)
    requires i <= |s|
    ensures Shows(s, SkipComments(s, i))
    decreases |s| - i
  {
    hide NextToken, Shows;
    TokenShows(s, i);
    if NextToken(s, i).kind == Comment {
      LaterTokenShows(s, NextToken(s, i).end);
    }
  }

  lemma {:induction false} ItemsEnd(s: string, i: nat, depth: nat, read: seq<Value>)
    requires i <= |s| && depth > 0 && ParseItems(s, i, depth, read).Ok?
    ensures var r := ParseItems(s, i, depth, read); r.value.List? && r.next > i && s[r.next - 1] == ']'
    decreases |s| - i
  {
    hide NextToken, SkipComments, Parse;
    var next := Parse(s, i, depth).next;
    LaterTokenShows(s, next);
    var t := SkipComments(s, next);
    if t.kind == Separator {
      ItemsEnd(s, t.end, depth, read + [Parse(s, i, depth).value]);
    }
  }

  lemma {:induction false} MembersEnd(s: string, i: nat, depth: nat, read: seq<Member>, nameEmpty: bool)
    requires i <= |s| && depth > 0 && ParseMembers(s, i, depth, read, nameEmpty).Ok?
    ensures var r := ParseMembers(s, i, depth, read, nameEmpty); r.value.Object? && r.next > i && s[r.next - 1] == '}'
    decreases |s| - i
  {
    hide NextToken, SkipComments, Parse, DecodedString, SetMember;
    LaterTokenShows(s, i);
    var t := SkipComments(s, i);
    if !(t.kind == ObjectEnd && nameEmpty) {
      var name := DecodedString(s, t).value;
      var colon := NextToken(s, t.end);
      var r := Parse(s, colon.end, depth);
      LaterTokenShows(s, r.next);
      var comma := SkipComments(s, r.next);
      if comma.kind != ObjectEnd {
        MembersEnd(s, comma.end, depth, SetMember(read, Member(name, r.value)), name == "");
      }
    }
  }

  /** Whatever is accepted begins and ends as its value does: null and the truth values as they
      are spelled, texts in quotes, arrays and objects in their brackets, numbers with a digit or
      a sign in front. */
  lemma AcceptedLooks(s: string, i: nat, depth: nat)
    requires i <= |s| && Parse(s, i, depth).Ok?
    ensures var t, v, next := SkipComments(s, i), Parse(s, i, depth).value, Parse(s, i, depth).next;
      && depth < STACK_LIMIT && i <= t.start < next <= |s|
      && match v
         case Null => s[t.start..next] == "null"
         case Bool(b) => s[t.start..next] == if b then "true" else "false"
         case Text(_) => s[t.start] == '"' && s[next - 1] == '"'
         case List(_) => s[t.start] == '[' && s[next - 1] == ']'
         case Object(_) => s[t.start] == '{' && s[next - 1] == '}'
         case _ => s[t.start] == '-' || 0x30 <= s[t.start] as int <= 0x39
  {
    hide NextToken, SkipComments, ParseItems, ParseMembers, DecodedString, DecodedNumber, SkipSpaces;
    LaterTokenShows(s, i);
    var t := SkipComments(s, i);
    match t.kind
    case ObjectBegin => MembersEnd(s, t.end, depth + 1, [], true);
    case ArrayBegin =>
      var j := SkipSpaces(s, t.end);
      if At(s, j) == ']' {
        BracketAt(s, j);
      } else {
        ItemsEnd(s, j, depth + 1, []);
      }
    case NumberToken => NumberKinds(s[t.start..t.end]);
    case _ =>
  }

  lemma BracketAt(s: string, j: nat)
    requires j <= |s| && At(s, j) == ']'
    ensures j < |s| && NextToken(s, j) == Token(ArrayEnd, j, j + 1) && s[j] == ']'
  {
  }

  lemma NumberKinds(text: string)
    requires text != ""
    ensures var v := DecodedNumber(text); v.Int? || v.UInt? || v.Decimal?
  {
    hide DigitsValue;
  }
}
