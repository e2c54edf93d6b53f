/** JSON as the protocol prints and parses it: the values, the printed form, and what the
    reader makes of a text.  A C++ char is a character here; those of a C++ string are below
    256, which nothing depends on. */
module Json {
  import Strings
  import opened Wrappers

  /** Decimal holds the text of a number that the reader leaves to double conversion. */
  datatype Value =
    | Null
    | Bool(b: bool)
    | Int(n: int)
    | UInt(u: nat)
    | Decimal(text: string)
    | Text(s: string)
    | List(items: seq<Value>)
    | Object(members: seq<Member>)

  datatype Member = Member(name: string, value: Value)

  const MAX_INT: nat := 0x7fff_ffff
  const MAX_LARGEST_INT: nat := 0x7fff_ffff_ffff_ffff
  const MAX_LARGEST_UINT: nat := 0xffff_ffff_ffff_ffff
  const STACK_LIMIT: nat := 1000

  const BACKSPACE: char := 8 as char
  const FORM_FEED: char := 12 as char

  // ---------------------------------------------------------------- printing numbers

  function DigitChar(d: nat): (c: char)
    requires d < 10
    ensures '0' <= c <= '9'
  {
    ('0' as int + d) as char
  }

  predicate IsDigit(c: char) {
    '0' <= c <= '9'
  }

  function DigitOf(c: char): (d: nat)
    requires IsDigit(c)
    ensures d < 10
  {
    c as int - '0' as int
  }

  /** Decimal digits, without leading zeros. */
  function Digits(n: nat): (s: string)
    ensures |s| > 0
  {
    if n < 10 then [DigitChar(n)] else Digits(n / 10) + [DigitChar(n % 10)]
  }

  function IntText(n: int): string {
    if n < 0 then "-" + Digits(-n) else Digits(n)
  }

  // ---------------------------------------------------------------- printing strings

  predicate IsControl(c: char) {
    c as int < 0x20
  }

  function HexDigit(d: nat): char
    requires d < 16
  {
    if d < 10 then ('0' as int + d) as char else ('A' as int + (d - 10)) as char
  }

  function Escape(c: char): (s: string)
    ensures |s| > 0
  {
    if c == '"' then "\\\""
    else if c == '\\' then "\\\\"
    else if c == BACKSPACE then "\\b"
    else if c == FORM_FEED then "\\f"
    else if c == '\n' then "\\n"
    else if c == '\r' then "\\r"
    else if c == '\t' then "\\t"
    else if IsControl(c) then "\\u00" + [HexDigit(c as int / 16), HexDigit(c as int % 16)]
    else [c]
  }

  function Escaped(s: string): string {
    if s == "" then "" else Escape(s[0]) + Escaped(s[1..])
  }

  function Quoted(s: string): string {
    "\"" + Escaped(s) + "\""
  }

  // ---------------------------------------------------------------- printing values

  function Print(v: Value): string {
    match v
    case Null => "null"
    case Bool(b) => if b then "true" else "false"
    case Int(n) => IntText(n)
    case UInt(n) => Digits(n)
    case Decimal(text) => text
    case Text(s) => Quoted(s)
    case List(items) => "[" + PrintItems(items) + "]"
    case Object(members) => "{" + PrintMembers(members) + "}"
  }

  function PrintItems(items: seq<Value>): string {
    if items == [] then "" else Print(items[0]) + MoreItems(items[1..])
  }

  function MoreItems(items: seq<Value>): string {
    if items == [] then "" else "," + (Print(items[0]) + MoreItems(items[1..]))
  }

  function PrintMember(m: Member): string {
    Quoted(m.name) + (":" + Print(m.value))
  }

  function PrintMembers(members: seq<Member>): string {
    if members == [] then "" else PrintMember(members[0]) + MoreMembers(members[1..])
  }

  function MoreMembers(members: seq<Member>): string {
    if members == [] then "" else "," + (PrintMember(members[0]) + MoreMembers(members[1..]))
  }

  // ---------------------------------------------------------------- tokens

  datatype TokenType =
    | ObjectBegin | ObjectEnd | ArrayBegin | ArrayEnd | StringToken | NumberToken | TrueToken | FalseToken
    | NullToken | Separator | Colon | Comment | EndOfStream | ErrorToken

  datatype Token = Token(kind: TokenType, start: nat, end: nat)

  /** The character at i; 0 at the end of the text. */
  function At(s: string, i: nat): char {
    if i < |s| then s[i] else 0 as char
  }

  predicate IsSpace(c: char) {
    c == ' ' || c == '\t' || c == '\r' || c == '\n'
  }

  function SkipSpaces(s: string, i: nat): (j: nat)
    requires i <= |s|
    ensures i <= j <= |s|
    decreases |s| - i
  {
    if i < |s| && IsSpace(s[i]) then SkipSpaces(s, i + 1) else i
  }

  function SkipDigits(s: string, i: nat): (j: nat)
    requires i <= |s|
    ensures i <= j <= |s|
    decreases |s| - i
  {
    if i < |s| && IsDigit(s[i]) then SkipDigits(s, i + 1) else i
  }

  /** Where a number ends that started just before i: digits, a fraction, an exponent. */
  function NumberEnd(s: string, i: nat): (j: nat)
    requires i <= |s|
    ensures i <= j <= |s|
  {
    var a := SkipDigits(s, i);
    var b := if At(s, a) == '.' then SkipDigits(s, a + 1) else a;
    if At(s, b) == 'e' || At(s, b) == 'E' then
      SkipDigits(s, if At(s, b + 1) == '+' || At(s, b + 1) == '-' then b + 2 else b + 1)
    else b
  }

  /** Where the string ends whose opening quote is just before i, and whether it was closed. */
  function StringEnd(s: string, i: nat): (r: (nat, bool))
    requires i <= |s|
    ensures i <= r.0 <= |s|
    decreases |s| - i
  {
    if i == |s| then (i, false)
    else if s[i] == '\\' then StringEnd(s, if i + 1 == |s| then i + 1 else i + 2)
    else if s[i] == '"' then (i + 1, true)
    else StringEnd(s, i + 1)
  }

  /** Where a comment of the first style ends that was opened just before i, and whether it was
      closed. */
  function BlockEnd(s: string, i: nat): (r: (nat, bool))
    requires i <= |s|
    ensures i <= r.0 <= |s|
    decreases |s| - i
  {
    if i == |s| then (i, false)
    else if s[i] == '*' && At(s, i + 1) == '/' then (i + 2, true)
    else BlockEnd(s, i + 1)
  }

  /** Where a comment of the second style ends: behind the line. */
  function LineEnd(s: string, i: nat): (j: nat)
    requires i <= |s|
    ensures i <= j <= |s|
    decreases |s| - i
  {
    if i == |s| then i
    else if s[i] == '\n' then i + 1
    else if s[i] == '\r' then (if At(s, i + 1) == '\n' then i + 2 else i + 1)
    else LineEnd(s, i + 1)
  }

  /** Where the comment ends whose slash is just before i, and whether it is one. */
  function CommentEnd(s: string, i: nat): (r: (nat, bool))
    requires i <= |s|
    ensures i <= r.0 <= |s|
  {
    var j := if i < |s| then i + 1 else i;
    if At(s, i) == '*' then BlockEnd(s, j)
    else if At(s, i) == '/' then (LineEnd(s, j), true)
    else (j, false)
  }

  predicate Matches(s: string, i: nat, pattern: string) {
    i + |pattern| <= |s| && s[i..i + |pattern|] == pattern
  }

  /** The token that starts with the character before j. */
  function TokenFrom(s: string, start: nat, c: char, j: nat): (t: Token)
    requires j <= |s|
    ensures t.start == start && j <= t.end <= |s|
  {
    if c == '{' then Token(ObjectBegin, start, j)
    else if c == '}' then Token(ObjectEnd, start, j)
    else if c == '[' then Token(ArrayBegin, start, j)
    else if c == ']' then Token(ArrayEnd, start, j)
    else if c == '"' then
      var (end, closed) := StringEnd(s, j);
      Token(if closed then StringToken else ErrorToken, start, end)
    else if c == '/' then
      var (end, closed) := CommentEnd(s, j);
      Token(if closed then Comment else ErrorToken, start, end)
    else if IsDigit(c) || c == '-' then Token(NumberToken, start, NumberEnd(s, j))
    else if c == 't' then Keyword(s, start, j, "rue", TrueToken)
    else if c == 'f' then Keyword(s, start, j, "alse", FalseToken)
    else if c == 'n' then Keyword(s, start, j, "ull", NullToken)
    else if c == ',' then Token(Separator, start, j)
    else if c == ':' then Token(Colon, start, j)
    else if c == 0 as char then Token(EndOfStream, start, j)
    else Token(ErrorToken, start, j)
  }

  function Keyword(s: string, start: nat, j: nat, rest: string, kind: TokenType): (t: Token)
    requires j <= |s|
    ensures t.start == start && j <= t.end <= |s|
  {
    if Matches(s, j, rest) then Token(kind, start, j + |rest|) else Token(ErrorToken, start, j)
  }

  function NextToken(s: string, i: nat): (t: Token)
    requires i <= |s|
    ensures i <= t.start <= t.end <= |s|
    ensures t.end == i ==> t.kind == EndOfStream
  {
    var start := SkipSpaces(s, i);
    TokenFrom(s, start, At(s, start), if start < |s| then start + 1 else start)
  }

  /** The next token that is no comment. */
  function SkipComments(s: string, i: nat): (t: Token)
    requires i <= |s|
    ensures i <= t.start <= t.end <= |s|
    ensures t.end == i ==> t.kind == EndOfStream
    ensures t.kind == NumberToken ==> t.start < t.end
    ensures NextToken(s, i).kind != Comment ==> t == NextToken(s, i)
    decreases |s| - i
  {
    var t := NextToken(s, i);
    if t.kind == Comment then SkipComments(s, t.end) else t
  }

  // ---------------------------------------------------------------- numbers

  predicate AllDigits(s: string) {
    forall i :: 0 <= i < |s| ==> IsDigit(s[i])
  }

  function DigitsValue(s: string): nat
    requires AllDigits(s)
  {
    if s == "" then 0 else 10 * DigitsValue(s[..|s| - 1]) + DigitOf(s[|s| - 1])
  }

  /** The integer a number token stands for, when it is one of 64 bits: signed if it is
      negative or fits an int, unsigned otherwise. */
  function DecodedNumber(text: string): Value
    requires text != ""
  {
    var negative := text[0] == '-';
    var digits := if negative then text[1..] else text;
    if !AllDigits(digits) then Decimal(text)
    else
      var n: int := DigitsValue(digits);
      if n > (if negative then MAX_LARGEST_INT + 1 else MAX_LARGEST_UINT) then Decimal(text)
      else if negative then Int(-n)
      else if n <= MAX_INT then Int(n)
      else UInt(n)
  }

  // ---------------------------------------------------------------- strings

  function HexValue(c: char): (r: Option<nat>)
    ensures r.Some? ==> r.value < 16
  {
    if '0' <= c <= '9' then Some(c as int - '0' as int)
    else if 'a' <= c <= 'f' then Some(c as int - 'a' as int + 10)
    else if 'A' <= c <= 'F' then Some(c as int - 'A' as int + 10)
    else None
  }

  /** Four hexadecimal digits at i. */
  function HexQuad(s: string, i: nat): (r: Option<nat>)
    ensures r.Some? ==> i + 4 <= |s| && r.value < 0x1_0000
  {
    if i + 4 > |s| then None
    else
      match (HexValue(s[i]), HexValue(s[i + 1]), HexValue(s[i + 2]), HexValue(s[i + 3]))
      case (Some(a), Some(b), Some(c), Some(d)) => Some(((a * 16 + b) * 16 + c) * 16 + d)
      case _ => None
  }

  /** The code point whose escape starts at i, just behind "\u", and where it ends; a high
      surrogate takes the next escape with it. */
  function CodePoint(s: string, i: nat): (r: Option<(nat, nat)>)
    ensures r.Some? ==> i < r.value.1 <= |s| && r.value.0 < 0x11_0000
  {
    match HexQuad(s, i)
    case None => None
    case Some(u) =>
      if !(0xD800 <= u <= 0xDBFF) then Some((u, i + 4))
      else if |s| - (i + 4) < 6 || s[i + 4] != '\\' || s[i + 5] != 'u' then None
      else
        match HexQuad(s, i + 6)
        case None => None
        case Some(low) => Some((0x1_0000 + (u % 0x400) * 0x400 + low % 0x400, i + 10))
  }

  function Utf8(cp: nat): string
    requires cp < 0x11_0000
  {
    if cp <= 0x7f then [cp as char]
    else if cp <= 0x7ff then [(0xC0 + cp / 0x40) as char, (0x80 + cp % 0x40) as char]
    else if cp <= 0xffff then
      [(0xE0 + cp / 0x1000) as char, (0x80 + cp / 0x40 % 0x40) as char, (0x80 + cp % 0x40) as char]
    else
      [(0xF0 + cp / 0x4_0000) as char, (0x80 + cp / 0x1000 % 0x40) as char, (0x80 + cp / 0x40 % 0x40) as char,
       (0x80 + cp % 0x40) as char]
  }

  function Simple(c: char): Option<char> {
    if c == '"' || c == '/' || c == '\\' then Some(c)
    else if c == 'b' then Some(BACKSPACE)
    else if c == 'f' then Some(FORM_FEED)
    else if c == 'n' then Some('\n')
    else if c == 'r' then Some('\r')
    else if c == 't' then Some('\t')
    else None
  }

  /** The text between the quotes, from i on, with its escapes undone. */
  function Unescaped(s: string, i: nat): Option<string>
    requires i <= |s|
    decreases |s| - i
  {
    if i == |s| || s[i] == '"' then Some("")
    else if s[i] != '\\' then Prepend([s[i]], Unescaped(s, i + 1))
    else if i + 1 == |s| then None
    else if s[i + 1] == 'u' then
      match CodePoint(s, i + 2)
      case None => None
      case Some((cp, end)) => Prepend(Utf8(cp), Unescaped(s, end))
    else
      match Simple(s[i + 1])
      case None => None
      case Some(c) => Prepend([c], Unescaped(s, i + 2))
  }

  function Prepend(a: string, r: Option<string>): Option<string> {
    if r.Some? then Some(a + r.value) else None
  }

  function DecodedString(s: string, t: Token): Option<string>
    requires t.start + 2 <= t.end <= |s|
  {
    Unescaped(s[t.start + 1..t.end - 1], 0)
  }

  // ---------------------------------------------------------------- values

  datatype Parsed = Ok(value: Value, next: nat) | Fail

  function SetMember(ms: seq<Member>, m: Member): seq<Member> {
    if ms == [] then [m]
    else if Strings.Less(ms[0].name, m.name) then [ms[0]] + SetMember(ms[1..], m)
    else if ms[0].name == m.name then [m] + ms[1..]
    else [m] + ms
  }

  /** What readValue makes of the text at i, with `depth` values open around it. */
  function Parse(s: string, i: nat, depth: nat): (r: Parsed)
    requires i <= |s|
    ensures r.Ok? ==> i < r.next <= |s|
    decreases if depth < STACK_LIMIT then STACK_LIMIT - depth else 0, 2, 0
  {
    if depth >= STACK_LIMIT then Fail
    else
      var t := SkipComments(s, i);
      match t.kind
      case ObjectBegin => ParseMembers(s, t.end, depth + 1, [], true)
      case ArrayBegin =>
        var j := SkipSpaces(s, t.end);
        if At(s, j) == ']' then Ok(List([]), NextToken(s, j).end) else ParseItems(s, j, depth + 1, [])
      case NumberToken => Ok(DecodedNumber(s[t.start..t.end]), t.end)
      case StringToken =>
        if t.start + 2 > t.end then Fail
        else (match DecodedString(s, t) case Some(text) => Ok(Text(text), t.end) case None => Fail)
      case TrueToken => Ok(Bool(true), t.end)
      case FalseToken => Ok(Bool(false), t.end)
      case NullToken => Ok(Null, t.end)
      case _ => Fail
  }

  /** The items from i on, after those already read. */
  function ParseItems(s: string, i: nat, depth: nat, read: seq<Value>): (r: Parsed)
    requires i <= |s| && depth > 0
    ensures r.Ok? ==> i < r.next <= |s|
    decreases if depth < STACK_LIMIT then STACK_LIMIT - depth else 0, 3, |s| - i
  {
    match Parse(s, i, depth)
    case Fail => Fail
    case Ok(v, next) =>
      var t := SkipComments(s, next);
      if t.kind == ArrayEnd then Ok(List(read + [v]), t.end)
      else if t.kind == Separator then ParseItems(s, t.end, depth, read + [v])
      else Fail
  }

  /** The members from i on, after those already read.  `}` may stand in place of a member as
      long as `name`, the last one read, is empty: at the start it is.  Behind a comment any
      token stands for the comma. */
  function ParseMembers(s: string, i: nat, depth: nat, read: seq<Member>, nameEmpty: bool): (r: Parsed)
    requires i <= |s| && depth > 0
    ensures r.Ok? ==> i < r.next <= |s|
    decreases if depth < STACK_LIMIT then STACK_LIMIT - depth else 0, 3, |s| - i
  {
    var t := SkipComments(s, i);
    if t.kind == ObjectEnd && nameEmpty then Ok(Object(read), t.end)
    else if t.kind != StringToken || t.start + 2 > t.end then Fail
    else
      match DecodedString(s, t)
      case None => Fail
      case Some(name) =>
        var colon := NextToken(s, t.end);
        if colon.kind != Colon then Fail
        else
          match Parse(s, colon.end, depth)
          case Fail => Fail
          case Ok(v, next) =>
            var members := SetMember(read, Member(name, v));
            var first, comma := NextToken(s, next), SkipComments(s, next);
            if comma.kind == ObjectEnd then Ok(Object(members), comma.end)
            else if comma.kind == Separator || first.kind == Comment then ParseMembers(s, comma.end, depth, members, name == "")
            else Fail
  }
}
