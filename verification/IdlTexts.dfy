/** The texts C# can hold are exactly those that spell code points in UTF-8. */
module IdlTexts {
  import opened Bytes
  import Idl
  import opened Json
  import opened JsonUnicode

  function Chars(bs: seq<Byte>): (s: string)
    ensures |s| == |bs| && forall i :: 0 <= i < |bs| ==> s[i] as int == bs[i]
  {
    seq(|bs|, i requires 0 <= i < |bs| => bs[i] as char)
  }

  /** These code points, one after the other. */
  function Spelling(cps: seq<nat>): string {
    if cps == [] then "" else (if IsScalar(cps[0]) then Utf8(cps[0]) else "") + Spelling(cps[1..])
  }

  predicate Scalars(cps: seq<nat>) {
    forall i :: 0 <= i < |cps| ==> IsScalar(cps[i])
  }

  /** The first n octets have the form of section 4 of RFC 3629. */
  predicate Leads(bs: seq<Byte>, n: nat) {
    && 1 <= n <= 4 && n <= |bs|
    && (forall i :: 1 <= i < n ==> 0x80 <= bs[i] < 0xc0)
    && (n == 1 ==> bs[0] < 0x80)
    && (n == 2 ==> 0xc2 <= bs[0] < 0xe0)
    && (n == 3 ==> 0xe0 <= bs[0] < 0xf0 && (bs[0] == 0xe0 ==> bs[1] >= 0xa0) && (bs[0] == 0xed ==> bs[1] < 0xa0))
    && (n == 4 ==> 0xf0 <= bs[0] < 0xf5 && (bs[0] == 0xf0 ==> bs[1] >= 0x90) && (bs[0] == 0xf4 ==> bs[1] < 0x90))
  }

  lemma CharacterLeads(bs: seq<Byte>, n: nat)
    requires n <= |bs| && FromUtf8(Chars(bs[..n])).Some?
    ensures Leads(bs, n)
  {
    var c := Chars(bs[..n]);
    assert forall i :: 0 <= i < n ==> c[i] as int == bs[i];
    assert 1 <= n <= 4;
    if n == 3 {
      ThreeInRange(c[0] as int - 0xe0, c[1] as int - 0x80, c[2] as int - 0x80);
    } else if n == 4 {
      FourInRange(c[0] as int - 0xf0, c[1] as int - 0x80, c[2] as int - 0x80, c[3] as int - 0x80);
    }
  }

  lemma LeadsOn(bs: seq<Byte>, n: nat)
    requires Leads(bs, n)
    ensures Idl.Utf8(bs) <==> Idl.Utf8(bs[n..])
  {
    if n > 1 {
      Tails(bs, n);
    }
  }

  /** The octets of one code point in front make no difference. */
  lemma CharacterInFront(bs: seq<Byte>, n: nat)
    requires n <= |bs| && FromUtf8(Chars(bs[..n])).Some?
    ensures n > 0 && (Idl.Utf8(bs) <==> Idl.Utf8(bs[n..]))
  {
    hide Idl.Utf8, FromUtf8;
    CharacterLeads(bs, n);
    LeadsOn(bs, n);
  }

  lemma Tails(bs: seq<Byte>, n: nat)
    requires 2 <= n <= |bs| && forall i :: 1 <= i < n ==> 0x80 <= bs[i] < 0xc0
    ensures Idl.Continues(bs[1..], n - 1)
  {
    assert forall i :: 0 <= i < n - 1 ==> bs[1..][i] == bs[i + 1];
  }

  lemma ThreeInRange(p: int, q: int, r: int)
    requires 0 <= p < 0x10 && 0 <= q < 0x40 && 0 <= r < 0x40
    requires (p * 0x40 + q) * 0x40 + r >= 0x800 && !(0xD800 <= (p * 0x40 + q) * 0x40 + r <= 0xDFFF)
    ensures (p == 0 ==> q >= 0x20) && (p == 0xd ==> q < 0x20)
  {
  }

  lemma FourInRange(p: int, q: int, r: int, t: int)
    requires 0 <= p < 8 && 0 <= q < 0x40 && 0 <= r < 0x40 && 0 <= t < 0x40
    requires 0x1_0000 <= ((p * 0x40 + q) * 0x40 + r) * 0x40 + t < 0x11_0000
    ensures p < 5 && (p == 0 ==> q >= 0x10) && (p == 4 ==> q < 0x10)
  {
  }

  /** A text that is not empty begins with the octets of a code point. */
  lemma FirstCharacter(bs: seq<Byte>) returns (n: nat)
    requires bs != [] && Idl.Utf8(bs)
    ensures 0 < n <= |bs| && FromUtf8(Chars(bs[..n])).Some? && Idl.Utf8(bs[n..])
  {
    n := if bs[0] < 0x80 then 1 else if bs[0] < 0xe0 then 2 else if bs[0] < 0xf0 then 3 else 4;
    assert forall i :: 1 <= i < n ==> i <= |bs[1..]| && bs[1..][i - 1] == bs[i];
    var c := Chars(bs[..n]);
    assert forall i :: 0 <= i < n ==> c[i] as int == bs[i];
  }

  lemma CharsJoin(a: seq<Byte>, b: seq<Byte>)
    ensures Chars(a + b) == Chars(a) + Chars(b)
  {
  }

  lemma {:induction false} SpelledText(bs: seq<Byte>) returns (cps: seq<nat>)
    requires Idl.Utf8(bs)
    ensures Scalars(cps) && Chars(bs) == Spelling(cps)
    decreases |bs|
  {
    if bs == [] {
      cps := [];
    } else {
      hide Utf8, FromUtf8, Idl.Utf8, IsScalar, Chars;
      var n := FirstCharacter(bs);
      var cp := FromUtf8(Chars(bs[..n])).value;
      Decoded(Chars(bs[..n]));
      Utf8Exactly(cp, Chars(bs[..n]));
      var rest := SpelledText(bs[n..]);
      CharsJoin(bs[..n], bs[n..]);
      assert bs[..n] + bs[n..] == bs;
      cps := [cp] + rest;
    }
  }

  lemma Decoded(b: string)
    requires FromUtf8(b).Some?
    ensures IsScalar(FromUtf8(b).value)
  {
  }

  lemma NoText()
    ensures Idl.Utf8([])
  {
  }

  lemma FirstSpelled(bs: seq<Byte>, cps: seq<nat>) returns (n: nat)
    requires Scalars(cps) && cps != [] && Chars(bs) == Spelling(cps)
    ensures n <= |bs| && Chars(bs[..n]) == Utf8(cps[0]) && Chars(bs[n..]) == Spelling(cps[1..])
  {
    hide Utf8, Chars;
    assert IsScalar(cps[0]);
    n := |Utf8(cps[0])|;
    CharsJoin(bs[..n], bs[n..]);
    assert bs[..n] + bs[n..] == bs;
    assert Chars(bs)[..n] == Utf8(cps[0]) && Chars(bs)[n..] == Spelling(cps[1..]);
  }

  lemma {:induction false} SpellingIsText(bs: seq<Byte>, cps: seq<nat>)
    requires Scalars(cps) && Chars(bs) == Spelling(cps)
    ensures Idl.Utf8(bs)
    decreases |cps|
  {
    hide Utf8, FromUtf8, Idl.Utf8, IsScalar, Chars;
    if cps == [] {
      assert bs == [];
      NoText();
    } else {
      var n := FirstSpelled(bs, cps);
      Utf8Exactly(cps[0], Chars(bs[..n]));
      CharacterInFront(bs, n);
      SpellingIsText(bs[n..], cps[1..]);
    }
  }

  /** Which octets are the text of a C# string?  Exactly the spellings of code points that are no
      surrogates. */
  lemma TextExactly(bs: seq<Byte>)
    ensures Idl.Utf8(bs) <==> exists cps :: Scalars(cps) && Chars(bs) == Spelling(cps)
  {
    if Idl.Utf8(bs) {
      var cps := SpelledText(bs);
    } else if exists cps :: Scalars(cps) && Chars(bs) == Spelling(cps) {
      var cps :| Scalars(cps) && Chars(bs) == Spelling(cps);
      SpellingIsText(bs, cps);
    }
  }
}
