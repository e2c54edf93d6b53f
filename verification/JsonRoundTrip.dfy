/** Parsing what was printed gives the value back. */
module JsonRoundTrip {
  import Strings
  import opened Wrappers
  import opened Json
  import opened JsonTokens

  /** Names ascend, as in the map that holds them. */
  predicate Ascending(ms: seq<Member>) {
    forall i, j :: 0 <= i < j < |ms| ==> Strings.Less(ms[i].name, ms[j].name)
  }

  /** Values without reals: 64-bit integers under their tags, and objects in map order. */
  predicate Printable(v: Value) {
    match v
    case Int(n) => -(MAX_LARGEST_INT + 1) <= n <= MAX_LARGEST_INT
    case UInt(u) => u <= MAX_LARGEST_UINT
    case Decimal(_) => false
    case List(items) => forall x :: x in items ==> Printable(x)
    case Object(members) => Ascending(members) && forall m :: m in members ==> Printable(m.value)
    case _ => true
  }

  predicate AllPrintable(items: seq<Value>) {
    forall x :: x in items ==> Printable(x)
  }

  lemma FirstPrintable(items: seq<Value>)
    requires items != [] && AllPrintable(items)
    ensures Printable(items[0]) && AllPrintable(items[1..])
  {
    hide Printable;
  }

  /** How many values are open at once, at most, while the value is read. */
  function Height(v: Value): (h: nat)
    ensures h >= 1
  {
    match v
    case List(items) => 1 + ItemsHeight(items)
    case Object(members) => 1 + MembersHeight(members)
    case _ => 1
  }

  function ItemsHeight(items: seq<Value>): nat {
    if items == [] then 0 else Max(Height(items[0]), ItemsHeight(items[1..]))
  }

  function MembersHeight(ms: seq<Member>): nat {
    if ms == [] then 0 else Max(Height(ms[0].value), MembersHeight(ms[1..]))
  }

  function Max(a: nat, b: nat): nat { if a < b then b else a }

  /** The tags the reader chooses: signed while the number fits an int, else unsigned. */
  function Retag(v: Value): Value {
    match v
    case Int(n) => if n > MAX_INT then UInt(n) else v
    case UInt(u) => if u <= MAX_INT then Int(u) else v
    case List(items) => List(RetagItems(items))
    case Object(members) => Object(RetagMembers(members))
    case _ => v
  }

  function RetagItems(items: seq<Value>): seq<Value> {
    if items == [] then [] else [Retag(items[0])] + RetagItems(items[1..])
  }

  function RetagMembers(ms: seq<Member>): seq<Member> {
    if ms == [] then [] else [Member(ms[0].name, Retag(ms[0].value))] + RetagMembers(ms[1..])
  }

  predicate Reads(v: Value, s: string, i: nat, depth: nat) {
    i <= |s| && Parse(s, i, depth) == Ok(Retag(v), i + |Print(v)|)
  }

  /** The printed value stands at i, and what follows does not continue a number. */
  predicate Stands(v: Value, s: string, i: nat) {
    Has(s, i, Print(v)) && EndsNumber(At(s, i + |Print(v)|))
  }

  // ---------------------------------------------------------------- punctuation

  lemma Punctuation(s: string, i: nat, c: char)
    requires Has(s, i, [c])
    ensures c == ',' ==> NextToken(s, i) == Token(Separator, i, i + 1)
    ensures c == ':' ==> NextToken(s, i) == Token(Colon, i, i + 1)
    ensures c == '[' ==> NextToken(s, i) == Token(ArrayBegin, i, i + 1)
    ensures c == ']' ==> NextToken(s, i) == Token(ArrayEnd, i, i + 1)
    ensures c == '{' ==> NextToken(s, i) == Token(ObjectBegin, i, i + 1)
    ensures c == '}' ==> NextToken(s, i) == Token(ObjectEnd, i, i + 1)
    ensures At(s, i) == c
  {
    HasAt(s, i, [c], 0);
  }

  lemma Word(s: string, i: nat, v: Value)
    requires v.Null? || v.Bool?
    requires Has(s, i, Print(v))
    ensures var t := NextToken(s, i);
      && t.start == i && t.end == i + |Print(v)|
      && t.kind == (if v.Null? then NullToken else if v.b then TrueToken else FalseToken)
  {
    var text := Print(v);
    HasAt(s, i, text, 0);
    assert s[i + 1..i + |text|] == text[1..];
  }

  // ---------------------------------------------------------------- by cases

  lemma {:induction false} ParsePrinted(v: Value, s: string, i: nat, depth: nat)
    requires Printable(v) && depth + Height(v) <= STACK_LIMIT && Stands(v, s, i)
    ensures Reads(v, s, i, depth)
    decreases v, 1
  {
    hide Printable, Stands, Reads, Height;
    match v
    case List(items) => ListRead(items, s, i, depth);
    case Object(members) => ObjectRead(members, s, i, depth);
    case _ => ScalarRead(v, s, i, depth);
  }

  lemma ScalarRead(v: Value, s: string, i: nat, depth: nat)
    requires Printable(v) && depth < STACK_LIMIT && Stands(v, s, i) && !v.List? && !v.Object?
    ensures Reads(v, s, i, depth)
  {
    hide NextToken, Unescaped, DecodedString, DecodedNumber, IntText, Digits, Quoted, EndsNumber;
    match v
    case Int(n) =>
      IntegerToken(s, i, n);
      NumberDecoded(n);
    case UInt(u) =>
      assert IntText(u) == Digits(u) by { IntTextOf(u); }
      IntegerToken(s, i, u);
      NumberDecoded(u);
    case Text(text) => QuotedToken(s, i, text);
    case Null => Word(s, i, v);
    case Bool(_) => Word(s, i, v);
  }

  lemma IntTextOf(u: nat)
    ensures IntText(u) == Digits(u)
  {}

  /** No printed value starts with a space or a closing bracket. */
  lemma FirstCharacter(v: Value)
    requires Printable(v)
    ensures Print(v) != "" && !IsSpace(Print(v)[0]) && Print(v)[0] != ']'
  {
    match v
    case Int(n) => IntTextShape(n);
    case UInt(u) =>
      IntTextOf(u);
      IntTextShape(u);
    case _ =>
  }

  // ---------------------------------------------------------------- arrays

  lemma {:induction false} ListRead(items: seq<Value>, s: string, i: nat, depth: nat)
    requires Printable(List(items)) && depth + Height(List(items)) <= STACK_LIMIT && Stands(List(items), s, i)
    ensures Reads(List(items), s, i, depth)
    decreases items, 2
  {
    hide NextToken, Parse, ParseItems, PrintItems, Print, EndsNumber, Printable, Height, Has, RetagItems, Stands, SkipSpaces;
    var body := PrintItems(items);
    ListParts(items, s, i);
    HasSplit(s, i, "[", body + "]");
    Punctuation(s, i, '[');
    ListOpened(s, i, depth);
    if items == [] {
      NoItems();
      NoneRetagged();
      NoSpace(s, i + 1, body + "]");
      Punctuation(s, i + 1, ']');
    } else {
      ItemsStart(items);
      NoSpace(s, i + 1, body + "]");
      ItemsRead(items, s, i + 1, depth + 1, []);
      assert [] + RetagItems(items) == RetagItems(items);
    }
  }

  lemma ListParts(items: seq<Value>, s: string, i: nat)
    requires Printable(List(items)) && Stands(List(items), s, i)
    ensures Has(s, i, "[" + (PrintItems(items) + "]")) && i <= |s|
    ensures |Print(List(items))| == 1 + |PrintItems(items) + "]"|
    ensures AllPrintable(items)
    ensures Height(List(items)) == 1 + ItemsHeight(items)
    ensures Retag(List(items)) == List(RetagItems(items))
  {
    hide PrintItems, RetagItems;
    assert Print(List(items)) == "[" + (PrintItems(items) + "]");
  }

  lemma ListOpened(s: string, i: nat, depth: nat)
    requires i <= |s| && depth < STACK_LIMIT && NextToken(s, i).kind == ArrayBegin
    ensures
      var j := SkipSpaces(s, NextToken(s, i).end);
      Parse(s, i, depth) ==
        if At(s, j) == ']' then Ok(List([]), NextToken(s, j).end) else ParseItems(s, j, depth + 1, [])
  {
    hide NextToken, ParseItems, SkipSpaces;
  }

  lemma NoSpace(s: string, i: nat, text: string)
    requires Has(s, i, text) && text != "" && !IsSpace(text[0])
    ensures i <= |s| && SkipSpaces(s, i) == i && At(s, i) == text[0]
  {
    HasAt(s, i, text, 0);
  }

  lemma NoItems()
    ensures PrintItems([]) + "]" == "]"
  {}

  lemma ItemsStart(items: seq<Value>)
    requires items != [] && Printable(List(items))
    ensures var text := PrintItems(items) + "]"; |text| > 0 && !IsSpace(text[0]) && text[0] != ']'
  {
    assert items[0] in items;
    FirstCharacter(items[0]);
    hide Print;
  }

  lemma ItemsParts(items: seq<Value>)
    requires items != []
    ensures
      var rest := items[1..];
      PrintItems(items) + "]" == Print(items[0]) + (if rest == [] then "]" else "," + (PrintItems(rest) + "]"))
    ensures RetagItems(items) == [Retag(items[0])] + RetagItems(items[1..])
    ensures ItemsHeight(items) == Max(Height(items[0]), ItemsHeight(items[1..]))
  {
    hide Print, Retag, Height;
  }

  /** One item, up to the token behind it. */
  lemma ItemParsed(s: string, i: nat, depth: nat, read: seq<Value>, v: Value, next: nat)
    requires 0 < depth && i <= |s| && Parse(s, i, depth) == Ok(v, next)
    ensures next <= |s|
    ensures var t := NextToken(s, next);
      && (t.kind == ArrayEnd ==> ParseItems(s, i, depth, read) == Ok(List(read + [v]), t.end))
      && (t.kind == Separator ==> ParseItems(s, i, depth, read) == ParseItems(s, t.end, depth, read + [v]))
  {
    hide NextToken, SkipComments, Parse;
  }

  lemma {:induction false} ItemsRead(items: seq<Value>, s: string, i: nat, depth: nat, read: seq<Value>)
    requires items != [] && AllPrintable(items) && 0 < depth
    requires depth + ItemsHeight(items) <= STACK_LIMIT && Has(s, i, PrintItems(items) + "]")
    ensures i <= |s| && ParseItems(s, i, depth, read) ==
      Ok(List(read + RetagItems(items)), i + |PrintItems(items) + "]"|)
    decreases items, 1
  {
    hide NextToken, Parse, ParseItems, Print, Retag, Height, PrintItems, RetagItems, Printable, AllPrintable, ItemsHeight, Has;
    hide SkipComments, Stands, Reads, At, EndsNumber;
    var x, rest := items[0], items[1..];
    var next := i + |Print(x)|;
    ItemsParts(items);
    var tail := if rest == [] then "]" else "," + (PrintItems(rest) + "]");
    HasSplit(s, i, Print(x), tail);
    MemberEnds(s, i, x, tail);
    FirstPrintable(items);
    ParsePrinted(x, s, i, depth);
    ReadsOk(x, s, i, depth);
    ItemParsed(s, i, depth, read, Retag(x), next);
    if rest == [] {
      Punctuation(s, next, ']');
      NoneRetagged();
      assert read + RetagItems(items) == read + [Retag(x)];
    } else {
      HasSplit(s, next, ",", PrintItems(rest) + "]");
      Punctuation(s, next, ',');
      ItemsRead(rest, s, next + 1, depth, read + [Retag(x)]);
      ReadJoined(read, Retag(x), RetagItems(rest));
    }
  }

  lemma ReadJoined<T>(read: seq<T>, x: T, rest: seq<T>)
    ensures (read + [x]) + rest == read + ([x] + rest)
  {}

  lemma NoneRetagged()
    ensures RetagItems([]) == [] && RetagMembers([]) == []
  {}

  // ---------------------------------------------------------------- objects

  lemma {:induction false} ObjectRead(members: seq<Member>, s: string, i: nat, depth: nat)
    requires Printable(Object(members)) && depth + Height(Object(members)) <= STACK_LIMIT && Stands(Object(members), s, i)
    ensures Reads(Object(members), s, i, depth)
    decreases members, 2
  {
    hide NextToken, Parse, ParseMembers, PrintMembers, Print, EndsNumber, Printable, Height, Strings.Less, Ascending, Has;
    hide RetagMembers, Stands;
    var body := PrintMembers(members);
    ObjectParts(members, s, i);
    HasSplit(s, i, "{", body + "}");
    Punctuation(s, i, '{');
    ObjectOpened(s, i, depth);
    if members == [] {
      NoneRetagged();
      NoMembers(s, i + 1, depth + 1);
    } else {
      assert [] + members == members;
      MembersRead(members, s, i + 1, depth + 1, [], true);
      assert [] + RetagMembers(members) == RetagMembers(members);
    }
  }

  lemma ObjectParts(members: seq<Member>, s: string, i: nat)
    requires Printable(Object(members)) && Stands(Object(members), s, i)
    ensures Has(s, i, "{" + (PrintMembers(members) + "}")) && i <= |s|
    ensures |Print(Object(members))| == 1 + |PrintMembers(members) + "}"|
    ensures Ascending(members) && (forall m :: m in members ==> Printable(m.value)) && Before([], members)
    ensures Height(Object(members)) == 1 + MembersHeight(members)
    ensures Retag(Object(members)) == Object(RetagMembers(members))
  {
    hide PrintMembers, RetagMembers, Ascending;
    assert Print(Object(members)) == "{" + (PrintMembers(members) + "}");
  }

  lemma ObjectOpened(s: string, i: nat, depth: nat)
    requires i <= |s| && depth < STACK_LIMIT && NextToken(s, i).kind == ObjectBegin
    ensures Parse(s, i, depth) == ParseMembers(s, NextToken(s, i).end, depth + 1, [], true)
  {
    hide NextToken, ParseMembers;
  }

  lemma NoMembers(s: string, i: nat, depth: nat)
    requires Has(s, i, PrintMembers([]) + "}") && depth > 0
    ensures PrintMembers([]) + "}" == "}" && ParseMembers(s, i, depth, [], true) == Ok(Object([]), i + 1)
  {
    Punctuation(s, i, '}');
  }

  lemma MembersParts(ms: seq<Member>)
    requires ms != []
    ensures
      var rest := ms[1..];
      PrintMembers(ms) + "}" ==
        Quoted(ms[0].name) + (":" + (Print(ms[0].value) + (if rest == [] then "}" else "," + (PrintMembers(rest) + "}"))))
    ensures RetagMembers(ms) == [Member(ms[0].name, Retag(ms[0].value))] + RetagMembers(ms[1..])
    ensures MembersHeight(ms) == Max(Height(ms[0].value), MembersHeight(ms[1..]))
  {
    hide Print, Retag, Height, Quoted;
    var rest := ms[1..];
    var q, p := Quoted(ms[0].name), Print(ms[0].value);
    assert PrintMembers(ms) == (q + (":" + p)) + MoreMembers(rest);
    JoinTail(q, p, MoreMembers(rest), "}");
    if rest == [] {
      assert "" + "}" == "}";
    } else {
      assert MoreMembers(rest) == "," + PrintMembers(rest);
      assert ("," + PrintMembers(rest)) + "}" == "," + (PrintMembers(rest) + "}");
    }
  }

  lemma JoinTail(q: string, p: string, more: string, close: string)
    ensures ((q + (":" + p)) + more) + close == q + (":" + (p + (more + close)))
  {}

  lemma {:induction false} SetLast(ms: seq<Member>, m: Member)
    requires forall i :: 0 <= i < |ms| ==> Strings.Less(ms[i].name, m.name)
    ensures SetMember(ms, m) == ms + [m]
  {
    if ms != [] {
      SetLast(ms[1..], m);
    }
  }

  /** Every name already read comes before every name still to come. */
  predicate Before(read: seq<Member>, ms: seq<Member>) {
    forall i, j :: 0 <= i < |read| && 0 <= j < |ms| ==> Strings.Less(read[i].name, ms[j].name)
  }

  lemma BeforeNext(read: seq<Member>, ms: seq<Member>, v: Value)
    requires ms != [] && Before(read, ms) && Ascending(ms)
    ensures Before(read + [Member(ms[0].name, v)], ms[1..]) && Ascending(ms[1..])
    ensures forall i :: 0 <= i < |read| ==> Strings.Less(read[i].name, ms[0].name)
  {
    hide Strings.Less;
  }

  lemma MemberEnds(s: string, i: nat, v: Value, tail: string)
    requires Has(s, i, Print(v)) && Has(s, i + |Print(v)|, tail) && tail != "" && (tail[0] == ',' || tail[0] == '}' || tail[0] == ']')
    ensures Stands(v, s, i)
  {
    hide Print;
    HasAt(s, i + |Print(v)|, tail, 0);
  }

  lemma ReadsOk(v: Value, s: string, i: nat, depth: nat)
    requires Reads(v, s, i, depth)
    ensures i <= |s| && Parse(s, i, depth) == Ok(Retag(v), i + |Print(v)|)
  {
    hide Parse, Retag, Print;
  }

  lemma MemberTokens(s: string, i: nat, m: Member, tail: string)
    requires Has(s, i, Quoted(m.name) + (":" + (Print(m.value) + tail)))
    requires tail != "" && (tail[0] == ',' || tail[0] == '}')
    ensures var colon := i + |Quoted(m.name)|;
      var t := NextToken(s, i);
      && i <= |s| && t == Token(StringToken, i, colon) && t.start + 2 <= t.end && DecodedString(s, t) == Some(m.name)
      && NextToken(s, colon) == Token(Colon, colon, colon + 1)
      && Stands(m.value, s, colon + 1) && Has(s, colon + 1 + |Print(m.value)|, tail)
  {
    hide NextToken, Print, Quoted, DecodedString, Stands, Has;
    var colon := i + |Quoted(m.name)|;
    HasSplit(s, i, Quoted(m.name), ":" + (Print(m.value) + tail));
    HasRoom(s, i, Quoted(m.name));
    QuotedToken(s, i, m.name);
    HasSplit(s, colon, ":", Print(m.value) + tail);
    Punctuation(s, colon, ':');
    HasSplit(s, colon + 1, Print(m.value), tail);
    MemberEnds(s, colon + 1, m.value, tail);
  }

  /** One member, up to the token behind its value. */
  lemma MemberParsed(s: string, i: nat, depth: nat, read: seq<Member>, nameEmpty: bool, name: string, v: Value, next: nat)
    requires 0 < depth && i <= |s|
    requires var t := NextToken(s, i);
      && t.kind == StringToken && t.start + 2 <= t.end && DecodedString(s, t) == Some(name)
      && NextToken(s, t.end).kind == Colon && Parse(s, NextToken(s, t.end).end, depth) == Ok(v, next)
    ensures next <= |s|
    ensures var comma := NextToken(s, next);
      var members := SetMember(read, Member(name, v));
      && (comma.kind == ObjectEnd ==> ParseMembers(s, i, depth, read, nameEmpty) == Ok(Object(members), comma.end))
      && (comma.kind == Separator ==>
            ParseMembers(s, i, depth, read, nameEmpty) == ParseMembers(s, comma.end, depth, members, name == ""))
  {
    hide NextToken, SkipComments, Parse, DecodedString, SetMember;
  }

  lemma {:induction false} MembersRead(
    ms: seq<Member>, s: string, i: nat, depth: nat, read: seq<Member>, nameEmpty: bool)
    requires ms != [] && (forall m :: m in ms ==> Printable(m.value)) && 0 < depth
    requires Ascending(ms) && Before(read, ms)
    requires depth + MembersHeight(ms) <= STACK_LIMIT && Has(s, i, PrintMembers(ms) + "}")
    ensures i <= |s| && ParseMembers(s, i, depth, read, nameEmpty) ==
      Ok(Object(read + RetagMembers(ms)), i + |PrintMembers(ms) + "}"|)
    decreases ms, 1
  {
    hide NextToken, Parse, ParseMembers, Print, Retag, Height, PrintMembers, RetagMembers, Printable, MembersHeight;
    hide Quoted, DecodedString, SetMember, Strings.Less, Ascending, Before, Has, At, SkipComments, Stands, Reads, EndsNumber;
    var m, rest := ms[0], ms[1..];
    MembersParts(ms);
    var tail := if rest == [] then "}" else "," + (PrintMembers(rest) + "}");
    var colon := i + |Quoted(m.name)|;
    var next := colon + 1 + |Print(m.value)|;
    MemberTokens(s, i, m, tail);
    assert m in ms;
    ParsePrinted(m.value, s, colon + 1, depth);
    var m1 := Member(m.name, Retag(m.value));
    BeforeNext(read, ms, m1.value);
    SetLast(read, m1);
    ReadsOk(m.value, s, colon + 1, depth);
    MemberParsed(s, i, depth, read, nameEmpty, m.name, m1.value, next);
    if rest == [] {
      Punctuation(s, next, '}');
      NoneRetagged();
      assert read + RetagMembers(ms) == read + [m1];
    } else {
      HasSplit(s, next, ",", PrintMembers(rest) + "}");
      Punctuation(s, next, ',');
      MembersRead(rest, s, next + 1, depth, read + [m1], m.name == "");
      ReadJoined(read, m1, RetagMembers(rest));
    }
  }

  // ---------------------------------------------------------------- too deep

  lemma {:induction false} TooDeep(v: Value, s: string, i: nat, depth: nat)
    requires Printable(v) && depth + Height(v) > STACK_LIMIT && Stands(v, s, i) && i <= |s|
    ensures Parse(s, i, depth) == Fail
    decreases v, 1
  {
    hide Printable, Stands, Height, NextToken, Parse;
    if depth >= STACK_LIMIT {
      NoRoom(s, i, depth);
    } else {
      match v
      case List(items) => ListTooDeep(items, s, i, depth);
      case Object(members) => ObjectTooDeep(members, s, i, depth);
      case _ => ScalarHeight(v);
    }
  }

  lemma NoRoom(s: string, i: nat, depth: nat)
    requires i <= |s| && depth >= STACK_LIMIT
    ensures Parse(s, i, depth) == Fail
  {}

  lemma ScalarHeight(v: Value)
    requires !v.List? && !v.Object?
    ensures Height(v) == 1
  {}

  lemma {:induction false} ListTooDeep(items: seq<Value>, s: string, i: nat, depth: nat)
    requires Printable(List(items)) && depth + Height(List(items)) > STACK_LIMIT && Stands(List(items), s, i)
    requires depth < STACK_LIMIT && i <= |s|
    ensures Parse(s, i, depth) == Fail
    decreases items, 2
  {
    hide NextToken, Parse, ParseItems, PrintItems, Print, EndsNumber, Printable, Height, Has, RetagItems, Stands, SkipSpaces;
    ListParts(items, s, i);
    HasSplit(s, i, "[", PrintItems(items) + "]");
    Punctuation(s, i, '[');
    ListOpened(s, i, depth);
    ItemsStart(items);
    NoSpace(s, i + 1, PrintItems(items) + "]");
    ItemsTooDeep(items, s, i + 1, depth + 1, []);
  }

  lemma {:induction false} ItemsTooDeep(items: seq<Value>, s: string, i: nat, depth: nat, read: seq<Value>)
    requires items != [] && AllPrintable(items) && 0 < depth <= STACK_LIMIT && i <= |s|
    requires depth + ItemsHeight(items) > STACK_LIMIT && Has(s, i, PrintItems(items) + "]")
    ensures ParseItems(s, i, depth, read) == Fail
    decreases items, 1
  {
    hide NextToken, Parse, ParseItems, Print, Retag, Height, PrintItems, RetagItems, Printable, AllPrintable, ItemsHeight, Has;
    hide SkipComments, Stands, Reads, At, EndsNumber;
    var x, rest := items[0], items[1..];
    ItemsParts(items);
    var tail := if rest == [] then "]" else "," + (PrintItems(rest) + "]");
    HasSplit(s, i, Print(x), tail);
    MemberEnds(s, i, x, tail);
    FirstPrintable(items);
    if depth + Height(x) > STACK_LIMIT {
      TooDeep(x, s, i, depth);
      ItemFailed(s, i, depth, read);
    } else {
      var next := i + |Print(x)|;
      ParsePrinted(x, s, i, depth);
      ReadsOk(x, s, i, depth);
      ItemParsed(s, i, depth, read, Retag(x), next);
      NothingDeep();
      HasSplit(s, next, ",", PrintItems(rest) + "]");
      Punctuation(s, next, ',');
      ItemsTooDeep(rest, s, next + 1, depth, read + [Retag(x)]);
    }
  }

  lemma NothingDeep()
    ensures ItemsHeight([]) == 0 && MembersHeight([]) == 0
  {}

  lemma ItemFailed(s: string, i: nat, depth: nat, read: seq<Value>)
    requires 0 < depth && i <= |s| && Parse(s, i, depth) == Fail
    ensures ParseItems(s, i, depth, read) == Fail
  {
    hide Parse;
  }

  lemma {:induction false} ObjectTooDeep(members: seq<Member>, s: string, i: nat, depth: nat)
    requires Printable(Object(members)) && depth + Height(Object(members)) > STACK_LIMIT && Stands(Object(members), s, i)
    requires depth < STACK_LIMIT && i <= |s|
    ensures Parse(s, i, depth) == Fail
    decreases members, 2
  {
    hide NextToken, Parse, ParseMembers, PrintMembers, Print, EndsNumber, Printable, Height, Strings.Less, Ascending, Has, Stands;
    ObjectParts(members, s, i);
    HasSplit(s, i, "{", PrintMembers(members) + "}");
    Punctuation(s, i, '{');
    ObjectOpened(s, i, depth);
    NothingDeep();
    MembersTooDeep(members, s, i + 1, depth + 1, [], true);
  }

  lemma {:induction false} MembersTooDeep(
    ms: seq<Member>, s: string, i: nat, depth: nat, read: seq<Member>, nameEmpty: bool)
    requires ms != [] && (forall m :: m in ms ==> Printable(m.value)) && 0 < depth <= STACK_LIMIT && i <= |s|
    requires depth + MembersHeight(ms) > STACK_LIMIT && Has(s, i, PrintMembers(ms) + "}")
    ensures ParseMembers(s, i, depth, read, nameEmpty) == Fail
    decreases ms, 1
  {
    hide NextToken, Parse, ParseMembers, Print, Retag, Height, PrintMembers, RetagMembers, Printable, MembersHeight;
    hide Quoted, DecodedString, SetMember, Has, At;
    var m, rest := ms[0], ms[1..];
    MembersParts(ms);
    var tail := if rest == [] then "}" else "," + (PrintMembers(rest) + "}");
    var colon := i + |Quoted(m.name)|;
    MemberTokens(s, i, m, tail);
    assert m in ms;
    if depth + Height(m.value) > STACK_LIMIT {
      TooDeep(m.value, s, colon + 1, depth);
      MemberFailed(s, i, depth, read, nameEmpty, m.name);
    } else {
      var next := colon + 1 + |Print(m.value)|;
      ParsePrinted(m.value, s, colon + 1, depth);
      ReadsOk(m.value, s, colon + 1, depth);
      MemberParsed(s, i, depth, read, nameEmpty, m.name, Retag(m.value), next);
      NothingDeep();
      HasSplit(s, next, ",", PrintMembers(rest) + "}");
      Punctuation(s, next, ',');
      MembersTooDeep(rest, s, next + 1, depth, SetMember(read, Member(m.name, Retag(m.value))), m.name == "");
    }
  }

  lemma MemberFailed(s: string, i: nat, depth: nat, read: seq<Member>, nameEmpty: bool, name: string)
    requires 0 < depth && i <= |s|
    requires var t := NextToken(s, i);
      && t.kind == StringToken && t.start + 2 <= t.end && DecodedString(s, t) == Some(name)
      && NextToken(s, t.end).kind == Colon && Parse(s, NextToken(s, t.end).end, depth) == Fail
    ensures ParseMembers(s, i, depth, read, nameEmpty) == Fail
  {
    hide NextToken, Parse, DecodedString, SetMember;
  }

  // ---------------------------------------------------------------- whole documents

  /** What FastWriter::write returns. */
  function Written(v: Value): string {
    Print(v) + "\n"
  }

  /** A written document is read back, up to the tags of its numbers, exactly when it is not
      nested deeper than the reader's stack allows; whatever lies behind it in memory. */
  lemma WrittenReadBack(v: Value, behind: string)
    requires Printable(v)
    ensures Parse(Written(v) + behind, 0, 0) ==
      if Height(v) <= STACK_LIMIT then Ok(Retag(v), |Print(v)|) else Fail
  {
    hide Printable, Height, Print, Parse, Retag;
    var s := Written(v) + behind;
    assert s[0..0 + |Print(v)|] == Print(v);
    assert At(s, |Print(v)|) == '\n';
    if Height(v) <= STACK_LIMIT {
      ParsePrinted(v, s, 0, 0);
    } else {
      TooDeep(v, s, 0, 0);
    }
  }

  /** Retagging does not show: printing what was read gives the same text again. */
  lemma {:induction false} RetagPrintsSame(v: Value)
    requires Printable(v)
    ensures Print(Retag(v)) == Print(v)
    decreases v, 1
  {
    match v
    case List(items) => ItemsPrintSame(items);
    case Object(members) => MembersPrintSame(members);
    case UInt(u) => IntTextOf(u);
    case _ =>
  }

  lemma {:induction false} ItemsPrintSame(items: seq<Value>)
    requires AllPrintable(items)
    ensures PrintItems(RetagItems(items)) == PrintItems(items) && MoreItems(RetagItems(items)) == MoreItems(items)
    decreases items, 0
  {
    hide Printable, Retag, Print;
    if items != [] {
      assert items[0] in items;
      RetagPrintsSame(items[0]);
      ItemsPrintSame(items[1..]);
      assert RetagItems(items)[1..] == RetagItems(items[1..]);
    }
  }

  lemma {:induction false} MembersPrintSame(ms: seq<Member>)
    requires forall m :: m in ms ==> Printable(m.value)
    ensures PrintMembers(RetagMembers(ms)) == PrintMembers(ms) && MoreMembers(RetagMembers(ms)) == MoreMembers(ms)
    decreases ms, 0
  {
    hide Printable, Retag, Print;
    if ms != [] {
      assert ms[0] in ms;
      RetagPrintsSame(ms[0].value);
      MembersPrintSame(ms[1..]);
      assert RetagMembers(ms)[1..] == RetagMembers(ms[1..]);
    }
  }

  /** A printed string holds no raw control character, as RFC 8259 section 7 asks. */
  lemma {:induction false} NoControlsPrinted(s: string)
    ensures forall c :: c in Quoted(s) ==> !IsControl(c)
  {
    if s != "" {
      NoControlsPrinted(s[1..]);
      assert forall c :: c in Escaped(s[1..]) ==> c in Quoted(s[1..]);
    }
  }
}
