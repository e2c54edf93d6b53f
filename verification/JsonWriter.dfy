/** FastWriter: appending to the document, with the digit loop and the string escaper it uses. */
module JsonWriter {
  import opened Json
  import opened JsonRoundTrip

  const BUFFER_SIZE: nat := 25

  function Pow10(k: nat): (p: nat)
    ensures p >= 1
  {
    if k == 0 then 1 else 10 * Pow10(k - 1)
  }

  lemma {:induction false} DigitsFit(n: nat, k: nat)
    requires k >= 1 && n < Pow10(k)
    ensures |Digits(n)| <= k
    decreases k
  {
    if n >= 10 {
      DigitsFit(n / 10, k - 1);
    }
  }

  lemma LargestFits()
    ensures MAX_LARGEST_UINT < Pow10(20)
  {
    assert Pow10(5) == 10_0000;
    assert Pow10(10) == 1_00_0000_0000 by { assert Pow10(7) == 1000_0000; }
    assert Pow10(15) == 1000_0000_0000_0000 by { assert Pow10(12) == 1_0000_0000_0000; }
    assert Pow10(18) == 100_0000_0000_0000_0000;
    assert Pow10(20) == 10 * (10 * Pow10(18));
  }

  /** Decimal digits written backwards in front of `current`, with a terminating NUL; the
      buffer is large enough for any 64-bit number and a sign. */
  method UintToString(value: nat, buffer: array<char>, current: nat) returns (first: nat)
    requires value <= MAX_LARGEST_UINT && buffer.Length == BUFFER_SIZE && current == BUFFER_SIZE
    modifies buffer
    ensures 0 < first < current && buffer[first..current - 1] == Digits(value) && buffer[current - 1] == 0 as char
  {
    LargestFits();
    hide Pow10;
    DigitsFit(value, 20);
    var end := current - 1;
    buffer[end] := 0 as char;
    var v: nat := value;
    first := end - 1;
    buffer[first] := DigitChar(v % 10);
    v := v / 10;
    while v != 0
      invariant first <= end - 1 && buffer[end] == 0 as char && v <= MAX_LARGEST_UINT
      invariant Digits(value) == (if v == 0 then buffer[first..end] else Digits(v) + buffer[first..end])
      decreases v
    {
      assert |Digits(value)| == |Digits(v)| + (end - first);
      first := first - 1;
      buffer[first] := DigitChar(v % 10);
      assert buffer[first..end] == [DigitChar(v % 10)] + buffer[first + 1..end];
      assert v >= 10 ==> (Digits(v / 10) + [DigitChar(v % 10)]) + buffer[first + 1..end] == Digits(v / 10) + buffer[first..end];
      v := v / 10;
    }
    assert |Digits(value)| == end - first;
  }

  method ValueToString(value: int) returns (text: string)
    requires -(MAX_LARGEST_INT + 1) <= value <= MAX_LARGEST_UINT
    ensures text == IntText(value)
  {
    var buffer := new char[BUFFER_SIZE];
    var first := UintToString(if value < 0 then -value else value, buffer, BUFFER_SIZE);
    text := buffer[first..BUFFER_SIZE - 1];
    if value < 0 {
      text := "-" + text;
    }
  }

  predicate Plain(c: char) {
    c != '"' && c != '\\' && !IsControl(c)
  }

  lemma {:induction false} PlainEscaped(s: string)
    requires forall i :: 0 <= i < |s| ==> Plain(s[i])
    ensures Escaped(s) == s
  {
    if s != "" {
      assert Plain(s[0]);
      PlainEscaped(s[1..]);
      assert s == [s[0]] + s[1..];
    }
  }

  /** The quick scans: is there nothing to escape? */
  method NothingToEscape(value: string) returns (plain: bool)
    ensures plain <==> forall i :: 0 <= i < |value| ==> Plain(value[i])
  {
    var i := 0;
    while i < |value|
      invariant i <= |value| && forall j :: 0 <= j < i ==> Plain(value[j])
    {
      if !Plain(value[i]) {
        return false;
      }
      i := i + 1;
    }
    plain := true;
  }

  method ValueToQuotedStringN(value: string) returns (result: string)
    ensures result == Quoted(value)
  {
    var plain := NothingToEscape(value);
    if plain {
      PlainEscaped(value);
      return "\"" + value + "\"";
    }
    result := "\"";
    var k := 0;
    assert value[0..] == value;
    while k < |value|
      invariant k <= |value|
      invariant result + Escaped(value[k..]) == "\"" + Escaped(value)
    {
      hide Escape;
      assert value[k..][1..] == value[k + 1..];
      assert result + (Escape(value[k]) + Escaped(value[k + 1..])) == (result + Escape(value[k])) + Escaped(value[k + 1..]);
      result := result + Escape(value[k]);
      k := k + 1;
    }
    assert result + "" == result;
    result := result + "\"";
  }

  lemma Appended(document: string, text: string, rest: string)
    ensures document + (text + rest) == (document + text) + rest
  {}

  lemma AppendedMember(document: string, comma: string, name: string, value: string, rest: string)
    ensures document + (comma + ((name + (":" + value)) + rest)) == ((((document + comma) + name) + ":") + value) + rest
  {}

  class FastWriter {
    var document: string

    constructor ()
      ensures document == ""
    {
      document := "";
    }

    method Write(root: Value) returns (text: string)
      requires Printable(root)
      modifies this
      ensures text == Written(root)
    {
      hide Printable, Print;
      document := "";
      WriteValue(root);
      assert "" + Print(root) == Print(root);
      document := document + "\n";
      text := document;
    }

    method WriteValue(value: Value)
      requires Printable(value)
      modifies this
      ensures document == old(document) + Print(value)
      decreases value, 1
    {
      hide Digits, IntText, Quoted, PrintItems, PrintMembers, Ascending, Retag;
      match value
      case Null => document := document + "null";
      case Int(n) =>
        var text := ValueToString(n);
        document := document + text;
      case UInt(u) =>
        IntTextOf(u);
        var text := ValueToString(u);
        document := document + text;
      case Text(s) =>
        var text := ValueToQuotedStringN(s);
        document := document + text;
      case Bool(b) => document := document + if b then "true" else "false";
      case List(items) =>
        document := document + "[";
        WriteItems(items);
        document := document + "]";
        assert Print(value) == "[" + PrintItems(items) + "]";
      case Object(members) =>
        document := document + "{";
        WriteMembers(members);
        document := document + "}";
        assert Print(value) == "{" + PrintMembers(members) + "}";
    }

    /** The loop over an array. */
    method WriteItems(items: seq<Value>)
      requires AllPrintable(items)
      modifies this
      ensures document == old(document) + PrintItems(items)
      decreases items, 0
    {
      hide Print, Printable;
      var index := 0;
      assert items[0..] == items;
      while index < |items|
        invariant index <= |items|
        invariant document + (if index == 0 then PrintItems(items) else MoreItems(items[index..])) ==
          old(document) + PrintItems(items)
      {
        assert items[index..][1..] == items[index + 1..];
        ghost var rest := Print(items[index]) + MoreItems(items[index + 1..]);
        if index > 0 {
          Appended(document, ",", rest);
          document := document + ",";
        }
        Appended(document, Print(items[index]), MoreItems(items[index + 1..]));
        WriteValue(items[index]);
        index := index + 1;
      }
      assert document + "" == document;
    }

    /** The loop over an object's members, in the order of their names. */
    method WriteMembers(members: seq<Member>)
      requires forall m :: m in members ==> Printable(m.value)
      modifies this
      ensures document == old(document) + PrintMembers(members)
      decreases members, 0
    {
      hide Print, Printable, Quoted, MembersLeft;
      var index := 0;
      LeftAtEnds(members);
      while index < |members|
        invariant index <= |members|
        invariant document + MembersLeft(members, index) == old(document) + PrintMembers(members)
      {
        var m := members[index];
        LeftStep(members, index);
        AppendedMember(document, if index > 0 then "," else "", Quoted(m.name), Print(m.value), MembersLeft(members, index + 1));
        if index > 0 {
          document := document + ",";
        } else {
          assert document + "" == document;
        }
        var name := ValueToQuotedStringN(m.name);
        document := document + name;
        document := document + ":";
        WriteValue(m.value);
        index := index + 1;
      }
      assert document + "" == document;
    }
  }

  /** What is still to be printed from member k on. */
  function MembersLeft(members: seq<Member>, k: nat): string
    requires k <= |members|
  {
    if k == 0 then PrintMembers(members) else MoreMembers(members[k..])
  }

  lemma LeftAtEnds(members: seq<Member>)
    ensures MembersLeft(members, 0) == PrintMembers(members) && MembersLeft(members, |members|) == ""
  {}

  lemma LeftStep(members: seq<Member>, k: nat)
    requires k < |members|
    ensures
      var m := members[k];
      MembersLeft(members, k) ==
        (if k > 0 then "," else "") + ((Quoted(m.name) + (":" + Print(m.value))) + MembersLeft(members, k + 1))
  {
    hide Print, Quoted;
    var tail := members[k..];
    assert tail[1..] == members[k + 1..] && tail[0] == members[k];
    if k == 0 {
      assert tail == members;
      assert PrintMembers(tail) == PrintMember(tail[0]) + MoreMembers(tail[1..]);
      assert "" + PrintMembers(tail) == PrintMembers(tail);
    } else {
      assert MoreMembers(tail) == "," + (PrintMember(tail[0]) + MoreMembers(tail[1..]));
    }
  }
}
