/** Documents as RFC 8259 writes them, whoever wrote them: blanks between the tokens, numbers with
    fractions and exponents, strings in any spelling, members in any order and with repeated
    names.  What the reader makes of them. */
module JsonSyntax {
  import opened Wrappers
  import opened Json
  import opened JsonTokens
  import opened JsonUnicode
  import opened JsonRoundTrip

  // ---------------------------------------------------------------- the grammar

  /** The number of section 6: a sign, the digits of a whole number, what stands behind them. */
  datatype Node =
    | NullNode
    | BoolNode(b: bool)
    | NumberNode(negative: bool, whole: nat, fraction: string, exponent: string)
    | TextNode(pieces: seq<Piece>)
    | EmptyList(blanks: string)
    | ListNode(items: seq<Item>)
    | EmptyObject(blanks: string)
    | ObjectNode(pairs: seq<Pair>)

  datatype Item = Item(before: string, node: Node, after: string)

  datatype Pair = Pair(before: string, name: seq<Piece>, colon: string, item: Item)

  /** Space, tab, line feed and carriage return. */
  predicate IsBlank(c: char) {
    c as int == 0x20 || c as int == 0x09 || c as int == 0x0A || c as int == 0x0D
  }

  predicate Blanks(s: string) {
    forall i :: 0 <= i < |s| ==> IsBlank(s[i])
  }

  predicate SomeDigits(s: string) {
    s != "" && forall i :: 0 <= i < |s| ==> 0x30 <= s[i] as int <= 0x39
  }

  predicate IsFraction(s: string) {
    s == "" || (s[0] == '.' && SomeDigits(s[1..]))
  }

  predicate IsExponent(s: string) {
    s == "" || (s[0] in "eE" && (SomeDigits(s[1..]) || (|s| > 1 && s[1] in "+-" && SomeDigits(s[2..]))))
  }

  predicate Good(n: Node) {
    match n
    case NumberNode(_, _, f, e) => IsFraction(f) && IsExponent(e)
    case TextNode(ps) => GoodPieces(ps)
    case EmptyList(b) => Blanks(b)
    case ListNode(items) => items != [] && forall it :: it in items ==> GoodItem(it)
    case EmptyObject(b) => Blanks(b)
    case ObjectNode(pairs) =>
      pairs != [] && forall p :: p in pairs ==> Blanks(p.before) && GoodPieces(p.name) && Blanks(p.colon) && GoodItem(p.item)
    case _ => true
  }

  predicate GoodItem(it: Item) {
    Blanks(it.before) && Good(it.node) && Blanks(it.after)
  }

  function NumberText(negative: bool, whole: nat, fraction: string, exponent: string): string {
    (if negative then "-" else "") + Digits(whole) + fraction + exponent
  }

  function NodeText(n: Node): string {
    match n
    case NullNode => "null"
    case BoolNode(b) => if b then "true" else "false"
    case NumberNode(negative, w, f, e) => NumberText(negative, w, f, e)
    case TextNode(ps) => Spelled(ps)
    case EmptyList(b) => "[" + (b + "]")
    case ListNode(items) => "[" + ItemsText(items)
    case EmptyObject(b) => "{" + (b + "}")
    case ObjectNode(pairs) => "{" + PairsText(pairs)
  }

  function ItemText(it: Item): string {
    it.before + (NodeText(it.node) + it.after)
  }

  /** The items up to the closing bracket. */
  function ItemsText(items: seq<Item>): string {
    if items == [] then "]"
    else ItemText(items[0]) + (if |items| == 1 then "]" else "," + ItemsText(items[1..]))
  }

  function PairText(p: Pair): string {
    p.before + (Spelled(p.name) + (p.colon + (":" + ItemText(p.item))))
  }

  function PairsText(ps: seq<Pair>): string {
    if ps == [] then "}"
    else PairText(ps[0]) + (if |ps| == 1 then "}" else "," + PairsText(ps[1..]))
  }

  // ---------------------------------------------------------------- what it means

  /** A whole number of the 64-bit range is an integer, any other number its text. */
  function NumberMeaning(negative: bool, whole: nat, fraction: string, exponent: string): Value {
    var n: int := if negative then 0 - whole else whole;
    if fraction == "" && exponent == "" && -(MAX_LARGEST_INT + 1) <= n <= MAX_LARGEST_UINT then
      if n <= MAX_INT then Int(n) else UInt(n)
    else Decimal(NumberText(negative, whole, fraction, exponent))
  }

  function Meaning(n: Node): Value {
    match n
    case NullNode => Null
    case BoolNode(b) => Bool(b)
    case NumberNode(negative, w, f, e) => NumberMeaning(negative, w, f, e)
    case TextNode(ps) => Text(PiecesMeaning(ps))
    case EmptyList(_) => List([])
    case ListNode(items) => List(ItemsMeaning(items))
    case EmptyObject(_) => Object([])
    case ObjectNode(pairs) => Object(SetAll([], PairsMeaning(pairs)))
  }

  function ItemsMeaning(items: seq<Item>): seq<Value> {
    if items == [] then [] else [Meaning(items[0].node)] + ItemsMeaning(items[1..])
  }

  function PairsMeaning(ps: seq<Pair>): seq<Member> {
    if ps == [] then [] else [Member(PiecesMeaning(ps[0].name), Meaning(ps[0].item.node))] + PairsMeaning(ps[1..])
  }

  /** The members of an object, set one after the other. */
  function SetAll(done: seq<Member>, ms: seq<Member>): seq<Member>
    decreases |ms|
  {
    if ms == [] then done else SetAll(SetMember(done, ms[0]), ms[1..])
  }

  function NodeHeight(n: Node): (h: nat)
    ensures h >= 1
  {
    match n
    case ListNode(items) => 1 + ItemsHigh(items)
    case ObjectNode(pairs) => 1 + PairsHigh(pairs)
    case _ => 1
  }

  function ItemsHigh(items: seq<Item>): nat {
    if items == [] then 0 else Max(NodeHeight(items[0].node), ItemsHigh(items[1..]))
  }

  function PairsHigh(ps: seq<Pair>): nat {
    if ps == [] then 0 else Max(NodeHeight(ps[0].item.node), PairsHigh(ps[1..]))
  }

  // ---------------------------------------------------------------- members by name

  /** The value of the first member of this name. */
  function Named(ms: seq<Member>, name: string): Option<Value> {
    if ms == [] then None else if ms[0].name == name then Some(ms[0].value) else Named(ms[1..], name)
  }

  /** The value of the last member of this name. */
  function LastNamed(ms: seq<Member>, name: string): Option<Value> {
    if ms == [] then None
    else if LastNamed(ms[1..], name).Some? then LastNamed(ms[1..], name)
    else if ms[0].name == name then Some(ms[0].value)
    else None
  }

  lemma AscendingTail(ms: seq<Member>)
    requires ms != [] && Ascending(ms)
    ensures Ascending(ms[1..]) && forall m :: m in ms[1..] ==> Strings.Less(ms[0].name, m.name)
  {
    hide Strings.Less;
    forall i, j | 0 <= i < j < |ms| - 1
      ensures Strings.Less(ms[1..][i].name, ms[1..][j].name)
    {
      assert ms[1..][i] == ms[i + 1] && ms[1..][j] == ms[j + 1];
    }
  }

  lemma AscendingFront(m: Member, ms: seq<Member>)
    requires Ascending(ms) && forall x :: x in ms ==> Strings.Less(m.name, x.name)
    ensures Ascending([m] + ms)
  {
    hide Strings.Less;
    var ns := [m] + ms;
    forall i, j | 0 <= i < j < |ns|
      ensures Strings.Less(ns[i].name, ns[j].name)
    {
      assert ns[j] == ms[j - 1] && ns[j] in ms;
      assert i > 0 ==> ns[i] == ms[i - 1];
    }
  }

  lemma NamedFront(m: Member, ms: seq<Member>)
    ensures forall x :: Named([m] + ms, x) == if m.name == x then Some(m.value) else Named(ms, x)
  {
    assert ([m] + ms)[1..] == ms;
  }

  lemma {:induction false} NotNamed(ms: seq<Member>, name: string)
    requires forall m :: m in ms ==> m.name != name
    ensures Named(ms, name) == None
  {
    if ms != [] {
      NotNamed(ms[1..], name);
    }
  }

  /** ms with m in it, in place of a member of its name. */
  ghost predicate Replaced(ms: seq<Member>, m: Member, r: seq<Member>) {
    && Ascending(r)
    && (forall x :: x in r ==> x == m || x in ms)
    && (forall x :: Named(r, x) == if x == m.name then Some(m.value) else Named(ms, x))
  }

  /** What the assignment to a member does: the names go on ascending, the one named takes the
      value, every other member stays. */
  lemma {:induction false} SetMemberIs(ms: seq<Member>, m: Member)
    requires Ascending(ms)
    ensures Replaced(ms, m, SetMember(ms, m))
  {
    hide Ascending, Strings.Less, Replaced;
    if ms == [] {
      Alone(m);
    } else {
      var h, tail := ms[0], ms[1..];
      assert ms == [h] + tail;
      AscendingTail(ms);
      NamedFront(h, tail);
      Strings.LessIsTotal(h.name, m.name);
      if Strings.Less(h.name, m.name) {
        SetMemberIs(tail, m);
        SetBehind(ms, m, SetMember(tail, m));
      } else if h.name == m.name {
        SetInPlace(ms, m);
      } else {
        SetInFront(ms, m);
      }
    }
  }

  lemma Alone(m: Member)
    ensures Replaced([], m, [m])
  {
    assert [m] == [m] + [];
    NamedFront(m, []);
  }

  lemma SetBehind(ms: seq<Member>, m: Member, more: seq<Member>)
    requires ms != [] && Strings.Less(ms[0].name, m.name) && Replaced(ms[1..], m, more)
    requires forall x :: x in ms[1..] ==> Strings.Less(ms[0].name, x.name)
    ensures Replaced(ms, m, [ms[0]] + more)
  {
    hide Ascending, Strings.Less, Named;
    var h := ms[0];
    assert ms == [h] + ms[1..];
    NamedFront(h, ms[1..]);
    NamedFront(h, more);
    Strings.LessIsStrict(h.name);
    AscendingFront(h, more);
  }

  lemma SetInPlace(ms: seq<Member>, m: Member)
    requires ms != [] && ms[0].name == m.name && Ascending(ms)
    ensures Replaced(ms, m, [m] + ms[1..])
  {
    hide Ascending, Strings.Less, Named;
    assert ms == [ms[0]] + ms[1..];
    AscendingTail(ms);
    NamedFront(ms[0], ms[1..]);
    NamedFront(m, ms[1..]);
    AscendingFront(m, ms[1..]);
  }

  lemma SetInFront(ms: seq<Member>, m: Member)
    requires ms != [] && Strings.Less(m.name, ms[0].name) && Ascending(ms)
    ensures Replaced(ms, m, [m] + ms)
  {
    hide Ascending, Strings.Less, Named;
    AscendingTail(ms);
    forall x | x in ms
      ensures Strings.Less(m.name, x.name)
    {
      if x != ms[0] {
        assert ms == [ms[0]] + ms[1..];
        Strings.LessIsTransitive(m.name, ms[0].name, x.name);
      }
    }
    NamedFront(m, ms);
    AscendingFront(m, ms);
  }

  /** An object holds its members in the order of their names, and of a repeated name the last
      value. */
  lemma {:induction false} SetAllIs(done: seq<Member>, ms: seq<Member>)
    requires Ascending(done)
    ensures Ascending(SetAll(done, ms))
    ensures forall x :: Named(SetAll(done, ms), x) == if LastNamed(ms, x).Some? then LastNamed(ms, x) else Named(done, x)
    decreases |ms|
  {
    hide Ascending;
    if ms != [] {
      SetMemberIs(done, ms[0]);
      SetAllIs(SetMember(done, ms[0]), ms[1..]);
    }
  }

  // ---------------------------------------------------------------- blanks

  lemma {:induction false} BlanksSkipped(s: string, i: nat, b: string)
    requires Blanks(b) && Has(s, i, b)
    ensures i + |b| <= |s| && SkipSpaces(s, i) == SkipSpaces(s, i + |b|)
    decreases |b|
  {
    hide Has;
    HasRoom(s, i, b);
    if b != "" {
      assert b == [b[0]] + b[1..];
      HasSplit(s, i, [b[0]], b[1..]);
      HasAt(s, i, b, 0);
      HasRoom(s, i, b);
      assert IsBlank(b[0]) && SkipSpaces(s, i) == SkipSpaces(s, i + 1);
      BlanksSkipped(s, i + 1, b[1..]);
    }
  }

  /** Blanks in front of anything make no difference. */
  lemma BlanksIgnored(s: string, i: nat, b: string, depth: nat)
    requires Blanks(b) && Has(s, i, b)
    ensures i + |b| <= |s| && NextToken(s, i) == NextToken(s, i + |b|) && SkipComments(s, i) == SkipComments(s, i + |b|)
    ensures Parse(s, i, depth) == Parse(s, i + |b|, depth)
  {
    hide TokenFrom, SkipSpaces, Blanks, Has;
    HasRoom(s, i, b);
    BlanksSkipped(s, i, b);
    SameToken(s, i, i + |b|);
    hide NextToken;
    assert SkipComments(s, i) == SkipComments(s, i + |b|);
    hide SkipComments;
  }

  lemma SameToken(s: string, i: nat, j: nat)
    requires i <= |s| && j <= |s| && SkipSpaces(s, i) == SkipSpaces(s, j)
    ensures NextToken(s, i) == NextToken(s, j)
  {
    hide TokenFrom, SkipSpaces;
  }

  lemma ItemsIgnoreBlanks(s: string, i: nat, b: string, depth: nat, read: seq<Value>)
    requires Blanks(b) && Has(s, i, b) && depth > 0
    ensures i + |b| <= |s| && ParseItems(s, i, depth, read) == ParseItems(s, i + |b|, depth, read)
  {
    BlanksIgnored(s, i, b, depth);
    hide Parse, SkipComments, NextToken;
  }

  /** A blank does not continue a number. */
  lemma BlankEnds(s: string, i: nat, b: string)
    requires Blanks(b) && Has(s, i, b) && EndsNumber(At(s, i + |b|))
    ensures EndsNumber(At(s, i))
  {
    if b != "" {
      HasAt(s, i, b, 0);
      assert IsBlank(b[0]);
    }
  }

  // ---------------------------------------------------------------- numbers

  lemma DigitsAll(s: string)
    requires SomeDigits(s)
    ensures AllDigits(s) && s != ""
  {
  }

  /** The cursor behind the digits that stand at i. */
  lemma SkipTo(s: string, i: nat, text: string)
    requires Has(s, i, text) && AllDigits(text) && !IsDigit(At(s, i + |text|))
    ensures i <= |s| && SkipDigits(s, i) == i + |text|
  {
    DigitsSkipped(s, i, i + |text|);
  }

  lemma ExponentRead(s: string, b: nat, e: string)
    requires Has(s, b, e) && IsExponent(e) && EndsNumber(At(s, b + |e|))
    ensures !IsDigit(At(s, b)) && At(s, b) != '.'
    ensures b <= |s| && b + |e| ==
      if At(s, b) == 'e' || At(s, b) == 'E' then
        SkipDigits(s, if At(s, b + 1) == '+' || At(s, b + 1) == '-' then b + 2 else b + 1)
      else b
  {
    if e != "" {
      HasAt(s, b, e, 0);
      assert e == e[..1] + e[1..];
      HasSplit(s, b, e[..1], e[1..]);
      assert |e| > 1;
      HasAt(s, b, e, 1);
      if SomeDigits(e[1..]) {
        DigitsAll(e[1..]);
        assert e[1..][0] == e[1];
        SkipTo(s, b + 1, e[1..]);
      } else {
        assert e[1..] == e[1..2] + e[2..];
        HasSplit(s, b + 1, e[1..2], e[2..]);
        DigitsAll(e[2..]);
        SkipTo(s, b + 2, e[2..]);
      }
    }
  }

  lemma FractionRead(s: string, a: nat, f: string)
    requires Has(s, a, f) && IsFraction(f) && !IsDigit(At(s, a + |f|)) && At(s, a + |f|) != '.'
    ensures !IsDigit(At(s, a))
    ensures a <= |s| && a + |f| == if At(s, a) == '.' then SkipDigits(s, a + 1) else a
  {
    if f != "" {
      HasAt(s, a, f, 0);
      assert f == f[..1] + f[1..];
      HasSplit(s, a, f[..1], f[1..]);
      DigitsAll(f[1..]);
      SkipTo(s, a + 1, f[1..]);
    }
  }

  lemma WholeRead(s: string, i: nat, negative: bool, w: nat)
    requires var text := (if negative then "-" else "") + Digits(w); Has(s, i, text) && !IsDigit(At(s, i + |text|))
    ensures var text := (if negative then "-" else "") + Digits(w);
      && i < |s| && (IsDigit(s[i]) || s[i] == '-') && SkipDigits(s, i + 1) == i + |text|
  {
    hide Digits, Has, At, SkipDigits;
    var text := (if negative then "-" else "") + Digits(w);
    DigitsRead(w);
    DigitsNotEmpty(w);
    HasAt(s, i, text, 0);
    HasRoom(s, i, text);
    assert text == text[..1] + text[1..];
    HasSplit(s, i, text[..1], text[1..]);
    assert negative ==> text[1..] == Digits(w);
    assert AllDigits(text[1..]);
    SkipTo(s, i + 1, text[1..]);
  }

  /** A number in any of its forms is one token, up to what does not continue it. */
  lemma NumberRead(s: string, i: nat, negative: bool, w: nat, f: string, e: string)
    requires IsFraction(f) && IsExponent(e)
    requires var text := NumberText(negative, w, f, e); Has(s, i, text) && EndsNumber(At(s, i + |text|))
    ensures NextToken(s, i) == Token(NumberToken, i, i + |NumberText(negative, w, f, e)|)
  {
    hide IsFraction, IsExponent, Digits, SkipDigits, Has, At;
    var front := (if negative then "-" else "") + Digits(w);
    assert NumberText(negative, w, f, e) == front + (f + e);
    HasSplit(s, i, front, f + e);
    HasSplit(s, i + |front|, f, e);
    ExponentRead(s, i + |front| + |f|, e);
    FractionRead(s, i + |front|, f);
    WholeRead(s, i, negative, w);
    assert NumberEnd(s, i + 1) == i + |NumberText(negative, w, f, e)|;
    TokenOfNumber(s, i);
  }

  lemma TokenOfNumber(s: string, i: nat)
    requires i < |s| && (IsDigit(s[i]) || s[i] == '-')
    ensures NextToken(s, i) == Token(NumberToken, i, NumberEnd(s, i + 1))
  {
    hide NumberEnd;
    assert SkipSpaces(s, i) == i;
  }

  lemma NumberMeant(negative: bool, w: nat, f: string, e: string)
    requires IsFraction(f) && IsExponent(e)
    ensures var text := NumberText(negative, w, f, e); text != "" && DecodedNumber(text) == NumberMeaning(negative, w, f, e)
  {
    hide Digits, DigitsValue;
    DigitsRead(w);
    DigitsNotEmpty(w);
    var text := NumberText(negative, w, f, e);
    var digits := Digits(w) + f + e;
    assert negative ==> text[0] == '-' && text[1..] == digits;
    assert !negative ==> text == digits && IsDigit(text[0]);
    if f != "" {
      assert digits[|Digits(w)|] == '.';
    } else if e != "" {
      assert digits[|Digits(w)|] == e[0];
    } else {
      assert digits == Digits(w);
    }
  }

  lemma DigitsNotEmpty(w: nat)
    ensures Digits(w) != "" && IsDigit(Digits(w)[0])
  {
    DigitsRead(w);
  }

  // ---------------------------------------------------------------- by cases

  /** The node stands at i, and what follows does not continue a number. */
  predicate NodeStands(n: Node, s: string, i: nat) {
    Has(s, i, NodeText(n)) && EndsNumber(At(s, i + |NodeText(n)|))
  }

  predicate NodeReads(n: Node, s: string, i: nat, depth: nat) {
    i <= |s| && Parse(s, i, depth) == Ok(Meaning(n), i + |NodeText(n)|)
  }

  lemma {:induction false} NodeRead(n: Node, s: string, i: nat, depth: nat)
    requires Good(n) && depth + NodeHeight(n) <= STACK_LIMIT && NodeStands(n, s, i)
    ensures NodeReads(n, s, i, depth)
    decreases n, 2
  {
    hide Good, NodeStands, NodeReads, NodeHeight;
    match n
    case ListNode(items) => ListNodeRead(items, s, i, depth);
    case ObjectNode(pairs) => ObjectNodeRead(pairs, s, i, depth);
    case EmptyList(b) => EmptyListRead(b, s, i, depth);
    case EmptyObject(b) => EmptyObjectRead(b, s, i, depth);
    case _ => LeafRead(n, s, i, depth);
  }

  lemma LeafRead(n: Node, s: string, i: nat, depth: nat)
    requires Good(n) && depth < STACK_LIMIT && NodeStands(n, s, i)
    requires n.NullNode? || n.BoolNode? || n.NumberNode? || n.TextNode?
    ensures NodeReads(n, s, i, depth)
  {
    hide NextToken, DecodedString, DecodedNumber, Spelled, EndsNumber, NumberText, IsFraction, IsExponent, NumberMeaning;
    hide GoodPieces, PiecesMeaning;
    HasRoom(s, i, NodeText(n));
    match n
    case NumberNode(negative, w, f, e) =>
      NumberRead(s, i, negative, w, f, e);
      NumberMeant(negative, w, f, e);
    case TextNode(ps) => SpelledToken(s, i, ps);
    case NullNode => Word(s, i, Null);
    case BoolNode(b) => Word(s, i, Bool(b));
  }

  lemma EmptyListRead(b: string, s: string, i: nat, depth: nat)
    requires Good(EmptyList(b)) && depth < STACK_LIMIT && NodeStands(EmptyList(b), s, i)
    ensures NodeReads(EmptyList(b), s, i, depth)
  {
    hide NextToken, Parse, SkipSpaces, Blanks, At;
    HasSplit(s, i, "[", b + "]");
    HasSplit(s, i + 1, b, "]");
    Punctuation(s, i, '[');
    ListOpened(s, i, depth);
    BlanksSkipped(s, i + 1, b);
    NoSpace(s, i + 1 + |b|, "]");
    Punctuation(s, i + 1 + |b|, ']');
  }

  lemma EmptyObjectRead(b: string, s: string, i: nat, depth: nat)
    requires Good(EmptyObject(b)) && depth < STACK_LIMIT && NodeStands(EmptyObject(b), s, i)
    ensures NodeReads(EmptyObject(b), s, i, depth)
  {
    hide NextToken, Parse, Blanks, At;
    HasSplit(s, i, "{", b + "}");
    HasSplit(s, i + 1, b, "}");
    Punctuation(s, i, '{');
    ObjectOpened(s, i, depth);
    BlanksIgnored(s, i + 1, b, depth);
    Punctuation(s, i + 1 + |b|, '}');
  }

  // ---------------------------------------------------------------- items

  /** An item stands at i, and behind it what does not continue a number. */
  predicate ItemStands(it: Item, s: string, i: nat) {
    Has(s, i, ItemText(it)) && EndsNumber(At(s, i + |ItemText(it)|))
  }

  lemma {:induction false} ItemNodeRead(it: Item, s: string, i: nat, depth: nat) returns (next: nat)
    requires GoodItem(it) && depth + NodeHeight(it.node) <= STACK_LIMIT && ItemStands(it, s, i)
    ensures i <= |s| && next <= |s| && Parse(s, i, depth) == Ok(Meaning(it.node), next)
    ensures i + |ItemText(it)| <= |s| && NextToken(s, next) == NextToken(s, i + |ItemText(it)|)
    decreases it, 3
  {
    hide Parse, NextToken, Meaning, NodeText, NodeHeight, Good, Has, At, EndsNumber, Blanks;
    var start := i + |it.before|;
    next := start + |NodeText(it.node)|;
    HasSplit(s, i, it.before, NodeText(it.node) + it.after);
    HasSplit(s, start, NodeText(it.node), it.after);
    HasRoom(s, start, NodeText(it.node));
    BlankEnds(s, next, it.after);
    NodeRead(it.node, s, start, depth);
    BlanksIgnored(s, i, it.before, depth);
    BlanksIgnored(s, next, it.after, depth);
  }

  lemma NodeStart(n: Node)
    requires Good(n)
    ensures NodeText(n) != "" && !IsSpace(NodeText(n)[0]) && NodeText(n)[0] != ']'
  {
    match n
    case NumberNode(negative, w, f, e) => DigitsNotEmpty(w);
    case _ =>
  }

  lemma ItemsOpen(items: seq<Item>)
    requires Good(ListNode(items))
    ensures items != [] && forall it :: it in items ==> GoodItem(it)
    ensures NodeText(ListNode(items)) == "[" + ItemsText(items) && Meaning(ListNode(items)) == List(ItemsMeaning(items))
    ensures NodeHeight(ListNode(items)) == 1 + ItemsHigh(items)
  {
  }

  lemma {:induction false} ListNodeRead(items: seq<Item>, s: string, i: nat, depth: nat)
    requires Good(ListNode(items)) && depth + NodeHeight(ListNode(items)) <= STACK_LIMIT && NodeStands(ListNode(items), s, i)
    ensures NodeReads(ListNode(items), s, i, depth)
    decreases items, 5
  {
    hide NextToken, Parse, ParseItems, ItemsText, ItemsMeaning, NodeText, Meaning, NodeHeight, Good, GoodItem, Has, At, SkipSpaces;
    ItemsOpen(items);
    HasSplit(s, i, "[", ItemsText(items));
    Punctuation(s, i, '[');
    HasRoom(s, i, "[");
    ListOpened(s, i, depth);
    var j := FirstItem(items, s, i + 1, depth + 1);
    ItemNodesRead(items, s, i + 1, depth + 1, []);
    assert [] + ItemsMeaning(items) == ItemsMeaning(items);
  }

  /** Behind the bracket the reader skips the blanks in front of the first item. */
  lemma FirstItem(items: seq<Item>, s: string, i: nat, depth: nat) returns (j: nat)
    requires items != [] && GoodItem(items[0]) && Has(s, i, ItemsText(items)) && depth > 0
    ensures i <= |s| && j == SkipSpaces(s, i) <= |s| && At(s, j) != ']' && ParseItems(s, i, depth, []) == ParseItems(s, j, depth, [])
  {
    hide ParseItems, NodeText, Good, Has, At, Blanks, SkipSpaces;
    var it := items[0];
    var tail := if |items| == 1 then "]" else "," + ItemsText(items[1..]);
    assert ItemsText(items) == it.before + (NodeText(it.node) + (it.after + tail));
    HasSplit(s, i, it.before, NodeText(it.node) + (it.after + tail));
    HasRoom(s, i, it.before);
    BlanksSkipped(s, i, it.before);
    NodeStart(it.node);
    j := i + |it.before|;
    NoSpace(s, j, NodeText(it.node) + (it.after + tail));
    ItemsIgnoreBlanks(s, i, it.before, depth, []);
  }

  lemma ItemsSteps(items: seq<Item>)
    requires items != []
    ensures ItemsText(items) == ItemText(items[0]) + (if |items| == 1 then "]" else "," + ItemsText(items[1..]))
    ensures ItemsMeaning(items) == [Meaning(items[0].node)] + ItemsMeaning(items[1..])
    ensures ItemsHigh(items) == Max(NodeHeight(items[0].node), ItemsHigh(items[1..]))
    ensures |items| == 1 ==> ItemsMeaning(items[1..]) == []
  {
    hide ItemText, Meaning, NodeHeight;
  }

  lemma CommaEnds(s: string, i: nat, tail: string)
    requires Has(s, i, tail) && tail != "" && (tail[0] == ',' || tail[0] == ']' || tail[0] == '}')
    ensures EndsNumber(At(s, i))
  {
    HasAt(s, i, tail, 0);
  }

  lemma {:induction false} ItemNodesRead(items: seq<Item>, s: string, i: nat, depth: nat, read: seq<Value>)
    requires items != [] && (forall it :: it in items ==> GoodItem(it)) && 0 < depth
    requires depth + ItemsHigh(items) <= STACK_LIMIT && Has(s, i, ItemsText(items))
    ensures i <= |s| && ParseItems(s, i, depth, read) == Ok(List(read + ItemsMeaning(items)), i + |ItemsText(items)|)
    decreases items, 4
  {
    hide NextToken, SkipComments, Parse, ParseItems, ItemText, ItemsText, Meaning, ItemsMeaning, NodeHeight, ItemsHigh;
    hide GoodItem, Has, At, EndsNumber;
    var it, rest := items[0], items[1..];
    ItemsSteps(items);
    var tail := if |items| == 1 then "]" else "," + ItemsText(rest);
    var end := i + |ItemText(it)|;
    HasSplit(s, i, ItemText(it), tail);
    CommaEnds(s, end, tail);
    var next := ItemNodeRead(it, s, i, depth);
    ItemParsed(s, i, depth, read, Meaning(it.node), next);
    if |items| == 1 {
      Punctuation(s, end, ']');
      assert read + ItemsMeaning(items) == read + [Meaning(it.node)];
    } else {
      HasSplit(s, end, ",", ItemsText(rest));
      Punctuation(s, end, ',');
      ItemNodesRead(rest, s, end + 1, depth, read + [Meaning(it.node)]);
      ReadJoined(read, Meaning(it.node), ItemsMeaning(rest));
    }
  }

  // ---------------------------------------------------------------- members

  predicate GoodPair(p: Pair) {
    Blanks(p.before) && GoodPieces(p.name) && Blanks(p.colon) && GoodItem(p.item)
  }

  lemma PairsOpen(pairs: seq<Pair>)
    requires Good(ObjectNode(pairs))
    ensures pairs != [] && forall p :: p in pairs ==> GoodPair(p)
    ensures NodeText(ObjectNode(pairs)) == "{" + PairsText(pairs)
    ensures Meaning(ObjectNode(pairs)) == Object(SetAll([], PairsMeaning(pairs)))
    ensures NodeHeight(ObjectNode(pairs)) == 1 + PairsHigh(pairs)
  {
  }

  lemma {:induction false} ObjectNodeRead(pairs: seq<Pair>, s: string, i: nat, depth: nat)
    requires Good(ObjectNode(pairs)) && depth + NodeHeight(ObjectNode(pairs)) <= STACK_LIMIT
    requires NodeStands(ObjectNode(pairs), s, i)
    ensures NodeReads(ObjectNode(pairs), s, i, depth)
    decreases pairs, 5
  {
    hide NextToken, Parse, ParseMembers, PairsText, PairsMeaning, NodeText, Meaning, NodeHeight, Good, GoodPair, Has, At, SetAll;
    PairsOpen(pairs);
    HasSplit(s, i, "{", PairsText(pairs));
    Punctuation(s, i, '{');
    HasRoom(s, i, "{");
    ObjectOpened(s, i, depth);
    PairsRead(pairs, s, i + 1, depth + 1, [], true);
  }

  lemma PairsSteps(ps: seq<Pair>, read: seq<Member>)
    requires ps != []
    ensures PairsText(ps) == PairText(ps[0]) + (if |ps| == 1 then "}" else "," + PairsText(ps[1..]))
    ensures PairsHigh(ps) == Max(NodeHeight(ps[0].item.node), PairsHigh(ps[1..]))
    ensures var m := Member(PiecesMeaning(ps[0].name), Meaning(ps[0].item.node));
      && SetAll(read, PairsMeaning(ps)) == SetAll(SetMember(read, m), PairsMeaning(ps[1..]))
      && (|ps| == 1 ==> SetAll(read, PairsMeaning(ps)) == SetMember(read, m))
  {
    hide PairText, Meaning, NodeHeight, SetMember, PiecesMeaning;
    assert PairsMeaning(ps)[1..] == PairsMeaning(ps[1..]);
    if |ps| == 1 {
      assert PairsMeaning(ps[1..]) == [];
    }
  }

  /** The tokens of a member up to its value. */
  lemma PairTokens(p: Pair, s: string, i: nat) returns (at: nat)
    requires GoodPair(p) && Has(s, i, PairText(p))
    ensures i <= |s| && at + |ItemText(p.item)| == i + |PairText(p)| <= |s| && Has(s, at, ItemText(p.item))
    ensures var t := NextToken(s, i);
      && t.kind == StringToken && t.start + 2 <= t.end && DecodedString(s, t) == Some(PiecesMeaning(p.name))
      && NextToken(s, t.end).kind == Colon && NextToken(s, t.end).end == at
  {
    hide NextToken, SkipComments, Parse, DecodedString, Spelled, ItemText, Blanks, Has, PiecesMeaning, GoodPieces, GoodItem;
    var value := ":" + ItemText(p.item);
    var name, colon := i + |p.before|, i + |p.before| + |Spelled(p.name)|;
    HasSplit(s, i, p.before, Spelled(p.name) + (p.colon + value));
    HasRoom(s, i, p.before);
    BlanksIgnored(s, i, p.before, 0);
    HasSplit(s, name, Spelled(p.name), p.colon + value);
    SpelledToken(s, name, p.name);
    HasSplit(s, colon, p.colon, value);
    BlanksIgnored(s, colon, p.colon, 0);
    HasSplit(s, colon + |p.colon|, ":", ItemText(p.item));
    Punctuation(s, colon + |p.colon|, ':');
    at := colon + |p.colon| + 1;
    HasRoom(s, at, ItemText(p.item));
  }

  lemma {:induction false} PairsRead(
    ps: seq<Pair>, s: string, i: nat, depth: nat, read: seq<Member>, nameEmpty: bool)
    requires ps != [] && (forall p :: p in ps ==> GoodPair(p)) && 0 < depth
    requires depth + PairsHigh(ps) <= STACK_LIMIT && Has(s, i, PairsText(ps))
    ensures i <= |s| && ParseMembers(s, i, depth, read, nameEmpty) ==
      Ok(Object(SetAll(read, PairsMeaning(ps))), i + |PairsText(ps)|)
    decreases ps, 4
  {
    hide NextToken, SkipComments, Parse, ParseMembers, PairText, PairsText, Meaning, PairsMeaning, NodeHeight, PairsHigh, SetAll;
    hide GoodItem, Has, At, EndsNumber, SetMember, DecodedString, PiecesMeaning, ItemText, Blanks, GoodPieces;
    var p, rest := ps[0], ps[1..];
    PairsSteps(ps, read);
    var tail := if |ps| == 1 then "}" else "," + PairsText(rest);
    var end := i + |PairText(p)|;
    HasSplit(s, i, PairText(p), tail);
    CommaEnds(s, end, tail);
    var at := PairTokens(p, s, i);
    var next := ItemNodeRead(p.item, s, at, depth);
    var m := Member(PiecesMeaning(p.name), Meaning(p.item.node));
    MemberParsed(s, i, depth, read, nameEmpty, m.name, m.value, next);
    if |ps| == 1 {
      Punctuation(s, end, '}');
    } else {
      HasSplit(s, end, ",", PairsText(rest));
      Punctuation(s, end, ',');
      PairsRead(rest, s, end + 1, depth, SetMember(read, m), m.name == "");
    }
  }

  // ---------------------------------------------------------------- too deep

  lemma {:induction false} NodeTooDeep(n: Node, s: string, i: nat, depth: nat)
    requires Good(n) && depth + NodeHeight(n) > STACK_LIMIT && NodeStands(n, s, i) && i <= |s|
    ensures Parse(s, i, depth) == Fail
    decreases n, 2
  {
    hide Good, NodeStands, Parse;
    if depth >= STACK_LIMIT {
      NoRoom(s, i, depth);
    } else {
      match n
      case ListNode(items) => ListTooHigh(items, s, i, depth);
      case ObjectNode(pairs) => ObjectTooHigh(pairs, s, i, depth);
      case _ =>
    }
  }

  lemma {:induction false} ListTooHigh(items: seq<Item>, s: string, i: nat, depth: nat)
    requires Good(ListNode(items)) && depth + NodeHeight(ListNode(items)) > STACK_LIMIT && NodeStands(ListNode(items), s, i)
    requires depth < STACK_LIMIT && i <= |s|
    ensures Parse(s, i, depth) == Fail
    decreases items, 5
  {
    hide NextToken, Parse, ParseItems, ItemsText, ItemsMeaning, NodeText, Meaning, NodeHeight, Good, GoodItem, Has, At, SkipSpaces;
    ItemsOpen(items);
    HasSplit(s, i, "[", ItemsText(items));
    Punctuation(s, i, '[');
    ListOpened(s, i, depth);
    var j := FirstItem(items, s, i + 1, depth + 1);
    ItemsTooHigh(items, s, i + 1, depth + 1, []);
  }

  lemma {:induction false} ItemsTooHigh(items: seq<Item>, s: string, i: nat, depth: nat, read: seq<Value>)
    requires items != [] && (forall it :: it in items ==> GoodItem(it)) && 0 < depth <= STACK_LIMIT && i <= |s|
    requires depth + ItemsHigh(items) > STACK_LIMIT && Has(s, i, ItemsText(items))
    ensures ParseItems(s, i, depth, read) == Fail
    decreases items, 4
  {
    hide NextToken, SkipComments, Parse, ParseItems, ItemText, ItemsText, Meaning, ItemsMeaning, NodeHeight, ItemsHigh;
    hide GoodItem, Has, At, EndsNumber;
    var it, rest := items[0], items[1..];
    ItemsSteps(items);
    var tail := if |items| == 1 then "]" else "," + ItemsText(rest);
    var end := i + |ItemText(it)|;
    HasSplit(s, i, ItemText(it), tail);
    CommaEnds(s, end, tail);
    if depth + NodeHeight(it.node) > STACK_LIMIT {
      ItemTooHigh(it, s, i, depth);
      ItemFailed(s, i, depth, read);
    } else {
      NothingHigh();
      var next := ItemNodeRead(it, s, i, depth);
      ItemParsed(s, i, depth, read, Meaning(it.node), next);
      HasSplit(s, end, ",", ItemsText(rest));
      Punctuation(s, end, ',');
      ItemsTooHigh(rest, s, end + 1, depth, read + [Meaning(it.node)]);
    }
  }

  lemma NothingHigh()
    ensures ItemsHigh([]) == 0 && PairsHigh([]) == 0
  {
  }

  lemma {:induction false} ItemTooHigh(it: Item, s: string, i: nat, depth: nat)
    requires GoodItem(it) && depth + NodeHeight(it.node) > STACK_LIMIT && ItemStands(it, s, i) && i <= |s|
    ensures Parse(s, i, depth) == Fail
    decreases it, 3
  {
    hide Parse, NextToken, SkipComments, NodeText, NodeHeight, Good, Has, At, EndsNumber, Blanks;
    var start := i + |it.before|;
    HasSplit(s, i, it.before, NodeText(it.node) + it.after);
    HasSplit(s, start, NodeText(it.node), it.after);
    HasRoom(s, start, NodeText(it.node));
    BlankEnds(s, start + |NodeText(it.node)|, it.after);
    BlanksIgnored(s, i, it.before, depth);
    NodeTooDeep(it.node, s, start, depth);
  }

  lemma {:induction false} ObjectTooHigh(pairs: seq<Pair>, s: string, i: nat, depth: nat)
    requires Good(ObjectNode(pairs)) && depth + NodeHeight(ObjectNode(pairs)) > STACK_LIMIT
    requires NodeStands(ObjectNode(pairs), s, i) && depth < STACK_LIMIT && i <= |s|
    ensures Parse(s, i, depth) == Fail
    decreases pairs, 5
  {
    hide NextToken, Parse, ParseMembers, PairsText, PairsMeaning, NodeText, Meaning, NodeHeight, Good, GoodPair, Has, At, SetAll;
    PairsOpen(pairs);
    HasSplit(s, i, "{", PairsText(pairs));
    Punctuation(s, i, '{');
    HasRoom(s, i, "{");
    ObjectOpened(s, i, depth);
    PairsTooHigh(pairs, s, i + 1, depth + 1, [], true);
  }

  lemma {:induction false} PairsTooHigh(
    ps: seq<Pair>, s: string, i: nat, depth: nat, read: seq<Member>, nameEmpty: bool)
    requires ps != [] && (forall p :: p in ps ==> GoodPair(p)) && 0 < depth <= STACK_LIMIT && i <= |s|
    requires depth + PairsHigh(ps) > STACK_LIMIT && Has(s, i, PairsText(ps))
    ensures ParseMembers(s, i, depth, read, nameEmpty) == Fail
    decreases ps, 4
  {
    hide NextToken, SkipComments, Parse, ParseMembers, PairText, PairsText, Meaning, PairsMeaning, NodeHeight, PairsHigh, SetAll;
    hide GoodItem, Has, At, EndsNumber, SetMember, DecodedString, PiecesMeaning, ItemText, Blanks, GoodPieces;
    var p, rest := ps[0], ps[1..];
    PairsSteps(ps, read);
    var tail := if |ps| == 1 then "}" else "," + PairsText(rest);
    var end := i + |PairText(p)|;
    HasSplit(s, i, PairText(p), tail);
    CommaEnds(s, end, tail);
    var at := PairTokens(p, s, i);
    var name := PiecesMeaning(p.name);
    if depth + NodeHeight(p.item.node) > STACK_LIMIT {
      ItemTooHigh(p.item, s, at, depth);
      MemberFailed(s, i, depth, read, nameEmpty, name);
    } else {
      NothingHigh();
      var next := ItemNodeRead(p.item, s, at, depth);
      var m := Member(name, Meaning(p.item.node));
      MemberParsed(s, i, depth, read, nameEmpty, m.name, m.value, next);
      HasSplit(s, end, ",", PairsText(rest));
      Punctuation(s, end, ',');
      PairsTooHigh(rest, s, end + 1, depth, SetMember(read, m), m.name == "");
    }
  }

  // ---------------------------------------------------------------- documents

  /** A document of RFC 8259 is read as what it says, whatever lies behind it, exactly when it is
      not nested deeper than the reader's stack allows. */
  lemma DocumentRead(front: string, n: Node, behind: string)
    requires Blanks(front) && Good(n) && (behind == "" || EndsNumber(behind[0]))
    ensures Parse(front + NodeText(n) + behind, 0, 0) ==
      if NodeHeight(n) <= STACK_LIMIT then Ok(Meaning(n), |front| + |NodeText(n)|) else Fail
  {
    hide Blanks, Good, NodeHeight, NodeText, Meaning, Parse, NextToken, SkipComments;
    InDocument(front, NodeText(n), behind);
    var s := front + NodeText(n) + behind;
    if NodeHeight(n) <= STACK_LIMIT {
      NodeRead(n, s, |front|, 0);
    } else {
      NodeTooDeep(n, s, |front|, 0);
    }
    BlanksIgnored(s, 0, front, 0);
  }

  lemma InDocument(front: string, text: string, behind: string)
    requires behind == "" || EndsNumber(behind[0])
    ensures var s := front + text + behind; Has(s, 0, front) && Has(s, |front|, text) && EndsNumber(At(s, |front| + |text|))
  {
    var s := front + text + behind;
    assert s[0..0 + |front|] == front;
    assert s[|front|..|front| + |text|] == text;
  }

  // ---------------------------------------------------------------- comments

  predicate NoEndMark(b: string) {
    forall i :: 0 <= i < |b| - 1 ==> !(b[i] == '*' && b[i + 1] == '/')
  }

  lemma {:induction false} BlockScanned(s: string, i: nat, b: string)
    requires Has(s, i, b + "*/") && NoEndMark(b + "*")
    ensures BlockEnd(s, i) == (i + |b| + 2, true)
    decreases |b|
  {
    hide Has;
    var text := b + "*/";
    HasRoom(s, i, text);
    HasAt(s, i, text, 0);
    HasAt(s, i, text, 1);
    if b != "" {
      assert (b + "*")[0] == b[0] && (b + "*")[1] == text[1];
      assert text == [b[0]] + (b[1..] + "*/");
      HasSplit(s, i, [b[0]], b[1..] + "*/");
      assert b[1..] + "*" == (b + "*")[1..];
      BlockScanned(s, i + 1, b[1..]);
    }
  }

  lemma {:induction false} LineScanned(s: string, i: nat, b: string)
    requires Has(s, i, b + "\n") && forall k :: 0 <= k < |b| ==> b[k] != '\n' && b[k] != '\r'
    ensures i <= |s| && LineEnd(s, i) == i + |b| + 1
    decreases |b|
  {
    hide Has;
    var text := b + "\n";
    HasRoom(s, i, text);
    HasAt(s, i, text, 0);
    if b != "" {
      assert text == [b[0]] + (b[1..] + "\n");
      HasSplit(s, i, [b[0]], b[1..] + "\n");
      LineScanned(s, i + 1, b[1..]);
    }
  }

  /** A comment in front of a value, from its mark up to the first end mark or the end of the
      line, makes no difference. */
  lemma CommentIgnored(s: string, i: nat, b: string, block: bool, depth: nat)
    requires var text := if block then "/*" + (b + "*/") else "//" + (b + "\n"); Has(s, i, text)
    requires if block then NoEndMark(b + "*") else forall k :: 0 <= k < |b| ==> b[k] != '\n' && b[k] != '\r'
    ensures i <= |s| && i + |b| + (if block then 4 else 3) <= |s|
    ensures Parse(s, i, depth) == Parse(s, i + |b| + (if block then 4 else 3), depth)
  {
    var text := if block then "/*" + (b + "*/") else "//" + (b + "\n");
    var end := i + |b| + (if block then 4 else 3);
    hide Parse, BlockEnd, LineEnd, NoEndMark, Has;
    HasRoom(s, i, text);
    HasAt(s, i, text, 0);
    HasAt(s, i, text, 1);
    if block {
      HasSplit(s, i, "/*", b + "*/");
      BlockScanned(s, i + 2, b);
    } else {
      HasSplit(s, i, "//", b + "\n");
      LineScanned(s, i + 2, b);
    }
    assert SkipSpaces(s, i) == i;
    assert NextToken(s, i) == Token(Comment, i, end);
    AfterComment(s, i, end, depth);
  }

  lemma AfterComment(s: string, i: nat, end: nat, depth: nat)
    requires i <= |s| && end <= |s| && NextToken(s, i) == Token(Comment, i, end)
    ensures Parse(s, i, depth) == Parse(s, end, depth)
  {
    hide NextToken;
    assert SkipComments(s, i) == SkipComments(s, end);
    hide SkipComments;
  }
}
