/** The interface language: types, the values they describe, and the wire format as a
    direct encoder.  User-defined types appear resolved, as the declaration they name. */
module Idl {
  import opened Bytes

  datatype Prim =
    | Boolean | SByte | UByte | Int16 | Int32 | Int64 | UInt16 | UInt32 | UInt64 | Float | Double

  function Width(p: Prim): (w: nat)
    ensures 1 <= w <= 8
  {
    match p
    case Boolean => 1
    case SByte => 1
    case UByte => 1
    case Int16 => 2
    case UInt16 => 2
    case Int32 => 4
    case UInt32 => 4
    case Float => 4
    case _ => 8
  }

  /** An enum is known by its first enumerator, which C++ constructs it with.  `Nothing` stands
      for the parent of a message that has none. */
  datatype Type =
    | Primitive(prim: Prim)
    | Text
    | List(elem: Type)
    | Array(elem: Type)
    | StaticArray(elem: Type, count: nat)
    | Map(key: Type, elem: Type)
    | Message(parent: Type, fields: Fields)
    | Enum(first: nat)
    | Alias(target: Type)
    | Nothing

  datatype Fields = End | Field(name: string, typ: Type, rest: Fields)

  datatype Entry = Entry(key: Value, value: Value)

  /** Numbers are the bit patterns of their fields; text is its encoded bytes. */
  datatype Value =
    | Num(n: nat)
    | Str(bytes: seq<Byte>)
    | Items(items: seq<Value>)
    | Entries(entries: seq<Entry>)
    | Record(base: Value, values: seq<Value>)
    | Absent

  const LENGTH_SIZE: nat := 4
  const ENUM_SIZE: nat := 4

  // ---------------------------------------------------------------- the wire format

  /** Numbers little-endian in their width, a 32-bit length in front of text, lists, arrays
      and maps, static arrays bare, a message's parent before its own fields. */
  function Encode(t: Type, v: Value): seq<Byte>
    decreases t, 0
  {
    match (t, v)
    case (Primitive(p), Num(n)) => LE(n, Width(p))
    case (Text, Str(bs)) => LE(|bs|, LENGTH_SIZE) + bs
    case (List(e), Items(vs)) => LE(|vs|, LENGTH_SIZE) + EncodeItems(e, vs)
    case (Array(e), Items(vs)) => LE(|vs|, LENGTH_SIZE) + EncodeItems(e, vs)
    case (StaticArray(e, _), Items(vs)) => EncodeItems(e, vs)
    case (Map(k, e), Entries(es)) => LE(|es|, LENGTH_SIZE) + EncodeEntries(k, e, es)
    case (Message(p, fs), Record(b, vs)) => Encode(p, b) + EncodeFields(fs, vs)
    case (Enum(_), Num(n)) => LE(n, ENUM_SIZE)
    case (Alias(u), _) => Encode(u, v)
    case _ => []
  }

  function EncodeItems(e: Type, vs: seq<Value>): seq<Byte>
    decreases e, 1 + |vs|
  {
    if vs == [] then [] else Encode(e, vs[0]) + EncodeItems(e, vs[1..])
  }

  function EncodeEntries(k: Type, e: Type, es: seq<Entry>): seq<Byte>
    decreases Map(k, e), 0, |es|
  {
    if es == [] then [] else Encode(k, es[0].key) + Encode(e, es[0].value) + EncodeEntries(k, e, es[1..])
  }

  function EncodeFields(fs: Fields, vs: seq<Value>): seq<Byte>
    decreases fs, 0
  {
    match fs
    case End => []
    case Field(_, t, rest) => if vs == [] then [] else Encode(t, vs[0]) + EncodeFields(rest, vs[1..])
  }

  // ---------------------------------------------------------------- the values of a type

  /** The two back ends. */
  datatype Lang = Cpp | CSharp

  /** One more than the longest container or text: the length travels as an unsigned 32-bit
      number in C++ and as a signed one in C#. */
  function MaxLength(lang: Lang): nat {
    if lang.Cpp? then 0x1_0000_0000 else 0x8000_0000
  }

  predicate Signed(p: Prim) {
    p == SByte || p == Int16 || p == Int32 || p == Int64
  }

  function SignedValue(n: nat, w: nat): int {
    if 2 * n < Pow256(w) then n else n - Pow256(w)
  }

  predicate BytesLess(a: seq<Byte>, b: seq<Byte>) {
    b != [] && (a == [] || a[0] < b[0] || (a[0] == b[0] && BytesLess(a[1..], b[1..])))
  }

  /** The order a C++ std::map keeps its keys in. */
  predicate KeyLess(t: Type, a: Value, b: Value) {
    match t
    case Primitive(p) =>
      a.Num? && b.Num? && (if Signed(p) then SignedValue(a.n, Width(p)) < SignedValue(b.n, Width(p)) else a.n < b.n)
    case Text => a.Str? && b.Str? && BytesLess(a.bytes, b.bytes)
    case Alias(u) => KeyLess(u, a, b)
    case _ => false
  }

  /** What a bit pattern of a field stands for: the number of the field's range, signed or not,
      that it is congruent to. */
  predicate StandsFor(p: Prim, n: nat, v: int) {
    var size: int := Pow256(Width(p));
    && (v - n) % size == 0
    && if p in {SByte, Int16, Int32, Int64} then -size <= 2 * v < size else 0 <= v < size
  }

  /** The range of an integer type, from its name. */
  predicate InRangeOf(p: Prim, v: int) {
    match p
    case SByte => -0x80 <= v < 0x80
    case UByte => 0 <= v < 0x100
    case Int16 => -0x8000 <= v < 0x8000
    case UInt16 => 0 <= v < 0x1_0000
    case Int32 => -0x8000_0000 <= v < 0x8000_0000
    case UInt32 => 0 <= v < 0x1_0000_0000
    case Int64 => -0x8000_0000_0000_0000 <= v < 0x8000_0000_0000_0000
    case UInt64 => 0 <= v < 0x1_0000_0000_0000_0000
    case _ => false
  }

  predicate IsInteger(p: Prim) {
    p != Boolean && p != Float && p != Double
  }

  /** A field holds exactly the numbers of its type's range. */
  lemma FieldHolds(p: Prim, v: int)
    requires IsInteger(p)
    ensures (exists n: nat :: n < Pow256(Width(p)) && StandsFor(p, n, v)) <==> InRangeOf(p, v)
  {
    PowersOf256();
    hide Pow256;
    var size: int := Pow256(Width(p));
    assert InRangeOf(p, v) <==> if Signed(p) then -size <= 2 * v < size else 0 <= v < size;
    if InRangeOf(p, v) {
      var n: nat := if v < 0 then v + size else v;
      assert (v - n) % size == 0 by { OneBelow(size); }
      assert StandsFor(p, n, v);
    }
  }

  lemma OneBelow(d: int)
    requires d > 0
    ensures (-d) % d == 0 && 0 % d == 0
  {
    assert -d == d * -1;
  }

  /** Integer keys are in the order of the numbers they stand for. */
  lemma KeysNumeric(p: Prim, a: nat, b: nat, x: int, y: int)
    requires a < Pow256(Width(p)) && b < Pow256(Width(p)) && StandsFor(p, a, x) && StandsFor(p, b, y)
    ensures KeyLess(Primitive(p), Num(a), Num(b)) <==> x < y
  {
    Representative(p, a, x);
    Representative(p, b, y);
  }

  lemma Representative(p: Prim, n: nat, v: int)
    requires n < Pow256(Width(p)) && StandsFor(p, n, v)
    ensures v == if Signed(p) then SignedValue(n, Width(p)) else n
  {
    hide Pow256;
    var size := Pow256(Width(p));
    var k := (v - n) / size;
    assert v - n == size * k;
    Between(size, k, v - n);
  }

  /** A multiple of d that is less than d away from zero, or from -d, is none but these. */
  lemma Between(d: int, k: int, x: int)
    requires d > 0 && x == d * k
    ensures -d < x < d ==> x == 0
    ensures -2 * d < x < 0 ==> x == -d
  {
    if k >= 1 {
      assert d * k >= d;
    } else if k <= -2 {
      assert d * k <= d * -2;
    }
  }

  /** Up to k the texts are the same; there the first one ends or has the smaller byte. */
  predicate DiffersAt(a: seq<Byte>, b: seq<Byte>, k: nat) {
    k <= |a| && k < |b| && a[..k] == b[..k] && (k == |a| || a[k] < b[k])
  }

  /** Text keys are in lexicographic order. */
  lemma {:induction false} TextsLexicographic(a: seq<Byte>, b: seq<Byte>)
    ensures KeyLess(Text, Str(a), Str(b)) <==> exists k :: DiffersAt(a, b, k)
  {
    if b != [] && a != [] && a[0] == b[0] {
      TextsLexicographic(a[1..], b[1..]);
      if BytesLess(a, b) {
        var k: nat :| DiffersAt(a[1..], b[1..], k);
        assert a[..k + 1] == [a[0]] + a[1..][..k] && b[..k + 1] == [b[0]] + b[1..][..k];
        assert DiffersAt(a, b, k + 1);
      } else if exists k :: DiffersAt(a, b, k) {
        var k: nat :| DiffersAt(a, b, k);
        assert a[1..][..k - 1] == a[..k][1..] && b[1..][..k - 1] == b[..k][1..];
        assert DiffersAt(a[1..], b[1..], k - 1);
      }
    } else if BytesLess(a, b) {
      assert DiffersAt(a, b, 0);
    } else if exists k :: DiffersAt(a, b, k) {
      var k: nat :| DiffersAt(a, b, k);
      if k > 0 {
        FirstSame(a, b, k);
      }
    }
  }

  lemma FirstSame(a: seq<Byte>, b: seq<Byte>, k: nat)
    requires DiffersAt(a, b, k) && k > 0
    ensures a != [] && a[0] == b[0]
  {
    assert a[..k][0] == b[..k][0];
  }

  /** The entries in the order the language iterates over them: a std::map ascends, a
      Dictionary only never repeats a key. */
  predicate Ordered(lang: Lang, k: Type, es: seq<Entry>) {
    forall i, j :: 0 <= i < j < |es| ==>
      if lang.Cpp? then KeyLess(k, es[i].key, es[j].key) else es[i].key != es[j].key
  }

  predicate Continues(bs: seq<Byte>, n: nat) {
    n <= |bs| && forall i :: 0 <= i < n ==> 0x80 <= bs[i] < 0xc0
  }

  /** Well-formed UTF-8 as in section 4 of RFC 3629: a C# string has no other encoding, while a
      C++ one holds any bytes. */
  predicate Utf8(bs: seq<Byte>)
    decreases |bs|
  {
    if bs == [] then true
    else if bs[0] < 0x80 then Utf8(bs[1..])
    else if 0xc2 <= bs[0] < 0xe0 then Continues(bs[1..], 1) && Utf8(bs[2..])
    else if 0xe0 <= bs[0] < 0xf0 then
      && Continues(bs[1..], 2)
      && (bs[0] == 0xe0 ==> bs[1] >= 0xa0) && (bs[0] == 0xed ==> bs[1] < 0xa0)
      && Utf8(bs[3..])
    else if 0xf0 <= bs[0] < 0xf5 then
      && Continues(bs[1..], 3)
      && (bs[0] == 0xf0 ==> bs[1] >= 0x90) && (bs[0] == 0xf4 ==> bs[1] < 0x90)
      && Utf8(bs[4..])
    else false
  }

  predicate HasType(lang: Lang, t: Type, v: Value)
    decreases t
  {
    match (t, v)
    case (Primitive(p), Num(n)) => n < Pow256(Width(p)) && (p == Boolean ==> n < 2)
    case (Text, Str(bs)) => |bs| < MaxLength(lang) && (lang.CSharp? ==> Utf8(bs))
    case (List(e), Items(vs)) => |vs| < MaxLength(lang) && forall i :: 0 <= i < |vs| ==> HasType(lang, e, vs[i])
    case (Array(e), Items(vs)) => |vs| < MaxLength(lang) && forall i :: 0 <= i < |vs| ==> HasType(lang, e, vs[i])
    case (StaticArray(e, n), Items(vs)) => |vs| == n && forall i :: 0 <= i < |vs| ==> HasType(lang, e, vs[i])
    case (Map(k, e), Entries(es)) =>
      && |es| < MaxLength(lang) && Ordered(lang, k, es)
      && (forall i :: 0 <= i < |es| ==> HasType(lang, k, es[i].key) && HasType(lang, e, es[i].value))
    case (Message(p, fs), Record(b, vs)) => HasType(lang, p, b) && FieldsHaveType(lang, fs, vs)
    case (Enum(_), Num(n)) => n < Pow256(ENUM_SIZE)
    case (Alias(u), _) => HasType(lang, u, v)
    case (Nothing, Absent) => true
    case _ => false
  }

  function FieldsCount(fs: Fields): nat {
    match fs
    case End => 0
    case Field(_, _, rest) => 1 + FieldsCount(rest)
  }

  predicate FieldsHaveType(lang: Lang, fs: Fields, vs: seq<Value>)
    ensures FieldsHaveType(lang, fs, vs) ==> |vs| == FieldsCount(fs)
    decreases fs
  {
    match fs
    case End => vs == []
    case Field(_, t, rest) => vs != [] && HasType(lang, t, vs[0]) && FieldsHaveType(lang, rest, vs[1..])
  }

  // ---------------------------------------------------------------- the targets of a load

  function Copies(n: nat, v: Value): (vs: seq<Value>)
    ensures |vs| == n && forall i :: 0 <= i < n ==> vs[i] == v
  {
    seq(n, i => v)
  }

  /** A default-constructed object. */
  function Default(lang: Lang, t: Type): Value
    decreases t
  {
    match t
    case Primitive(_) => Num(0)
    case Text => Str([])
    case List(_) => Items([])
    case Array(_) => Items([])
    case StaticArray(e, n) => Items(Copies(n, Default(lang, e)))
    case Map(_, _) => Entries([])
    case Message(p, fs) => Record(Default(lang, p), DefaultFields(lang, fs))
    case Enum(first) => Num(if lang.Cpp? then first % Pow256(ENUM_SIZE) else 0)
    case Alias(u) => Default(lang, u)
    case Nothing => Absent
  }

  function DefaultFields(lang: Lang, fs: Fields): seq<Value>
    decreases fs
  {
    match fs
    case End => []
    case Field(_, t, rest) => [Default(lang, t)] + DefaultFields(lang, rest)
  }

  /** What a load needs of its target: containers are empty.  Numbers, text and the elements
      of static arrays may hold anything, as uninitialised members do. */
  predicate Blank(t: Type, u: Value)
    decreases t
  {
    match t
    case Primitive(_) => true
    case Text => true
    case Enum(_) => true
    case List(_) => u == Items([])
    case Array(_) => u == Items([])
    case StaticArray(_, n) => u.Items? && |u.items| == n
    case Map(_, _) => u == Entries([])
    case Message(p, fs) => u.Record? && Blank(p, u.base) && BlankFields(fs, u.values)
    case Alias(w) => Blank(w, u)
    case Nothing => u == Absent
  }

  predicate BlankFields(fs: Fields, us: seq<Value>)
    ensures BlankFields(fs, us) ==> |us| == FieldsCount(fs)
    decreases fs
  {
    match fs
    case End => us == []
    case Field(_, t, rest) => us != [] && Blank(t, us[0]) && BlankFields(rest, us[1..])
  }

  lemma DefaultIsBlank(lang: Lang, t: Type)
    ensures Blank(t, Default(lang, t))
    decreases t
  {
    match t
    case Message(p, fs) => DefaultIsBlank(lang, p); DefaultFieldsBlank(lang, fs);
    case Alias(u) => DefaultIsBlank(lang, u);
    case _ =>
  }

  lemma DefaultFieldsBlank(lang: Lang, fs: Fields)
    ensures BlankFields(fs, DefaultFields(lang, fs))
    decreases fs
  {
    match fs
    case End =>
    case Field(_, t, rest) =>
      DefaultIsBlank(lang, t);
      DefaultFieldsBlank(lang, rest);
      assert DefaultFields(lang, fs)[1..] == DefaultFields(lang, rest);
  }

  // ---------------------------------------------------------------- well-formed schemas

  function Names(fs: Fields): set<string> {
    match fs
    case End => {}
    case Field(f, _, rest) => {f} + Names(rest)
  }

  /** Types whose generated code declares a local for the length. */
  predicate Sized(t: Type) {
    t.Text? || t.List? || t.Array? || t.Map?
  }

  /** The locals that stay in scope after the code of field x: a later field of that name
      would be shadowed. */
  function Locals(lang: Lang, t: Type, x: string): set<string> {
    if !Sized(t) then {}
    else if lang.Cpp? then {x + "_length", x + "_size"}
    else if t.Text? then {x + "_length", x + "_buf"}
    else {x + "_length"}
  }

  function LocalsOf(lang: Lang, fs: Fields): set<string> {
    match fs
    case End => {}
    case Field(f, t, rest) => Locals(lang, t, f) + LocalsOf(lang, rest)
  }

  /** In C# a local is in scope in all of its block, also in front of its declaration: no
      earlier field may have its name. */
  predicate InFront(lang: Lang, f: string, rest: Fields) {
    lang.CSharp? ==> f !in LocalsOf(lang, rest)
  }

  /** C++ counts the rounds of these in `i`. */
  predicate Looped(t: Type) {
    t.List? || t.Array? || t.Map? || (t.StaticArray? && !t.elem.Primitive?)
  }

  /** The generated functions have parameters and locals of their own: a field of these names
      is hidden by them. */
  predicate NameOk(lang: Lang, f: string, t: Type) {
    && '[' !in f && ']' !in f && f != "_buf_"
    && match lang
       case Cpp => f != "nSize" && (Looped(t) ==> f != "i")
       case CSharp => f == "nSize" ==> t.Primitive? || (t.StaticArray? && t.elem.Primitive?)
  }

  predicate UserDefined(t: Type) {
    t.Message? || t.Enum? || t.Alias?
  }

  /** Keys with a strict order in C++: integers, text and aliases of those. */
  predicate KeyType(t: Type) {
    match t
    case Primitive(p) => p != Float && p != Double
    case Text => true
    case Alias(u) => KeyType(u)
    case _ => false
  }

  /** Whether a typedef is named in a type, messages aside. */
  predicate NamesAlias(t: Type) {
    match t
    case List(e) => NamesAlias(e)
    case Array(e) => NamesAlias(e)
    case StaticArray(e, _) => NamesAlias(e)
    case Map(k, e) => NamesAlias(k) || NamesAlias(e)
    case Alias(_) => true
    case _ => false
  }

  /** In C++ a static array cannot be the element of a container: its type is written as that
      of its own elements. */
  predicate SlotOk(lang: Lang, e: Type) {
    e != Nothing && (lang.Cpp? ==> !e.StaticArray?)
  }

  /** What only C# refuses: an element of an array of texts has no name to form a local from
      and is no class to make with `new`; neither is a typedef of text; and one typedef is not
      in scope in another. */
  predicate ElementOk(lang: Lang, e: Type) {
    e.Primitive? || UserDefined(e) || (e.Text? && lang.Cpp?)
  }

  predicate AliasOk(lang: Lang, u: Type) {
    u != Nothing && !u.StaticArray? && (lang.CSharp? ==> !u.Text? && !NamesAlias(u))
  }

  predicate WellFormed(lang: Lang, t: Type)
    decreases t
  {
    match t
    case Primitive(_) => true
    case Text => true
    case List(e) => WellFormed(lang, e) && SlotOk(lang, e)
    case Array(e) => WellFormed(lang, e) && SlotOk(lang, e)
    case StaticArray(e, _) => WellFormed(lang, e) && ElementOk(lang, e)
    case Map(k, e) => KeyType(k) && WellFormed(lang, k) && WellFormed(lang, e) && SlotOk(lang, e)
    case Message(p, fs) => (p.Message? || p.Nothing?) && WellFormed(lang, p) && FieldsWellFormed(lang, fs)
    case Enum(_) => true
    case Alias(u) => WellFormed(lang, u) && AliasOk(lang, u)
    case Nothing => true
  }

  predicate FieldsWellFormed(lang: Lang, fs: Fields)
    decreases fs
  {
    match fs
    case End => true
    case Field(f, t, rest) =>
      && WellFormed(lang, t) && t != Nothing
      && NameOk(lang, f, t)
      && f !in Names(rest) && Locals(lang, t, f) !! Names(rest) && InFront(lang, f, rest)
      && FieldsWellFormed(lang, rest)
  }
}
