/** What the generated serializers promise together. */
module IdlTheorems {
  import opened Bytes
  import opened Idl
  import opened IdlCode
  import opened IdlCompiler
  import opened IdlStore
  import opened IdlSize
  import opened IdlScopes
  import opened IdlTaken
  import opened IdlLoad
  import opened IdlSafety

  predicate Serializable(lang: Lang, t: Type, v: Value) {
    UserDefined(t) && WellFormed(lang, t) && HasType(lang, t, v)
  }

  /** Store writes the wire format and Size is its length. */
  lemma StoreIsEncode(lang: Lang, t: Type, v: Value)
    requires Serializable(lang, t, v)
    ensures StoreBytes(lang, t, v) == Encode(t, v) && SizeOf(lang, t, v) == |StoreBytes(lang, t, v)|
  {
    hide WellFormed, HasType, Encode, ExecCode, StoreCode, SizeCode;
    StoreObject(lang, t, v, [], 0);
    SizeObject(lang, t, v, [], 0);
    assert [] + Encode(t, v) == Encode(t, v);
  }

  /** Loading what was stored, with anything behind it, into a default-constructed object (or
      any other blank one) gives the value back, consumes exactly Size bytes, and leaves the
      rest. */
  lemma RoundTrip(lang: Lang, t: Type, u: Value, v: Value, rest: seq<Byte>)
    requires Serializable(lang, t, v) && (u == Default(lang, t) || Blank(t, u))
    ensures LoadInto(lang, t, u, StoreBytes(lang, t, v) + rest) == Done(Loaded(v, SizeOf(lang, t, v), |rest|))
  {
    hide WellFormed, HasType, Encode, RunCode, LoadCodeOf, StoreBytes, SizeOf, Blank, Default;
    DefaultIsBlank(lang, t);
    StoreIsEncode(lang, t, v);
    var bs := Encode(t, v);
    var buf := bs + rest;
    assert buf[0..0 + |bs|] == bs;
    LoadTypedObject(lang, t, u, v, buf, 0, |buf|);
  }

  // ---------------------------------------------------------------- the two back ends

  predicate MapFree(t: Type)
    decreases t
  {
    match t
    case Map(_, _) => false
    case List(e) => MapFree(e)
    case Array(e) => MapFree(e)
    case StaticArray(e, _) => MapFree(e)
    case Message(p, fs) => MapFree(p) && FieldsMapFree(fs)
    case Alias(u) => MapFree(u)
    case _ => true
  }

  predicate FieldsMapFree(fs: Fields)
    decreases fs
  {
    match fs
    case End => true
    case Field(_, t, rest) => MapFree(t) && FieldsMapFree(rest)
  }

  /** A value both sides can hold is stored as the same bytes by both, and each side loads
      what the other stored.  (For a map this asks for the C++ order of its entries.) */
  lemma SameWireFormat(t: Type, v: Value, writer: Lang, reader: Lang, rest: seq<Byte>)
    requires forall lang :: Serializable(lang, t, v)
    ensures StoreBytes(writer, t, v) == StoreBytes(reader, t, v) && SizeOf(writer, t, v) == SizeOf(reader, t, v)
    ensures LoadInto(reader, t, Default(reader, t), StoreBytes(writer, t, v) + rest) ==
      Done(Loaded(v, SizeOf(writer, t, v), |rest|))
  {
    hide WellFormed, HasType, Encode, LoadInto, StoreBytes, SizeOf, Default;
    assert Serializable(writer, t, v) && Serializable(reader, t, v);
    StoreIsEncode(writer, t, v);
    StoreIsEncode(reader, t, v);
    RoundTrip(reader, t, Default(reader, t), v, rest);
  }

  /** A map-free value of the C# side is one of the C++ side. */
  lemma {:induction false} MapFreeShared(t: Type, v: Value)
    requires MapFree(t) && HasType(CSharp, t, v)
    ensures HasType(Cpp, t, v)
    decreases t
  {
    match t
    case List(e) => forall i | 0 <= i < |v.items| ensures HasType(Cpp, e, v.items[i]) { MapFreeShared(e, v.items[i]); }
    case Array(e) => forall i | 0 <= i < |v.items| ensures HasType(Cpp, e, v.items[i]) { MapFreeShared(e, v.items[i]); }
    case StaticArray(e, _) =>
      forall i | 0 <= i < |v.items| ensures HasType(Cpp, e, v.items[i]) { MapFreeShared(e, v.items[i]); }
    case Message(p, fs) =>
      MapFreeShared(p, v.base);
      MapFreeFieldsShared(fs, v.values);
    case Alias(u) => MapFreeShared(u, v);
    case _ =>
  }

  lemma {:induction false} MapFreeFieldsShared(fs: Fields, vs: seq<Value>)
    requires FieldsMapFree(fs) && FieldsHaveType(CSharp, fs, vs)
    ensures FieldsHaveType(Cpp, fs, vs)
    decreases fs
  {
    match fs
    case End =>
    case Field(_, t, rest) =>
      MapFreeShared(t, vs[0]);
      MapFreeFieldsShared(rest, vs[1..]);
  }

  /** No static array of texts, no typedef of a text, none made of another typedef, and no field
      called like a local that C# declares for another one. */
  predicate Portable(t: Type)
    decreases t
  {
    match t
    case List(e) => Portable(e)
    case Array(e) => Portable(e)
    case StaticArray(e, _) => Portable(e) && !e.Text?
    case Map(k, e) => Portable(k) && Portable(e)
    case Message(p, fs) => Portable(p) && FieldsPortable(fs)
    case Alias(u) => Portable(u) && !u.Text? && !NamesAlias(u)
    case _ => true
  }

  predicate FieldsPortable(fs: Fields)
    decreases fs
  {
    match fs
    case End => true
    case Field(f, t, rest) =>
      Portable(t) && Locals(CSharp, t, f) !! Names(rest) && InFront(CSharp, f, rest) && FieldsPortable(rest)
  }

  /** Which schemas that suit C++ suit C#: exactly the portable ones. */
  lemma {:induction false} SchemaShared(t: Type)
    requires WellFormed(Cpp, t)
    ensures WellFormed(CSharp, t) <==> Portable(t)
    decreases t
  {
    match t
    case List(e) => SchemaShared(e);
    case Array(e) => SchemaShared(e);
    case StaticArray(e, _) => SchemaShared(e);
    case Map(k, e) => SchemaShared(k); SchemaShared(e);
    case Message(p, fs) => SchemaShared(p); FieldsShared(fs);
    case Alias(u) => SchemaShared(u);
    case _ =>
  }

  lemma {:induction false} FieldsShared(fs: Fields)
    requires FieldsWellFormed(Cpp, fs)
    ensures FieldsWellFormed(CSharp, fs) <==> FieldsPortable(fs)
    decreases fs
  {
    match fs
    case End =>
    case Field(f, t, rest) =>
      SchemaShared(t);
      FieldsShared(rest);
  }

  /** Every map-free message of a portable schema goes across in both directions. */
  lemma MapFreeCrosses(t: Type, v: Value, writer: Lang, reader: Lang, rest: seq<Byte>)
    requires UserDefined(t) && MapFree(t) && WellFormed(Cpp, t) && Portable(t) && HasType(CSharp, t, v)
    ensures StoreBytes(writer, t, v) == StoreBytes(reader, t, v) && SizeOf(writer, t, v) == SizeOf(reader, t, v)
    ensures LoadInto(reader, t, Default(reader, t), StoreBytes(writer, t, v) + rest) ==
      Done(Loaded(v, SizeOf(writer, t, v), |rest|))
  {
    MapFreeShared(t, v);
    SchemaShared(t);
    forall lang ensures Serializable(lang, t, v) { if lang.Cpp? {} }
    SameWireFormat(t, v, writer, reader, rest);
  }

  /** Whatever the wire holds, maps in any order and with repeated keys included: Load accepts it,
      takes a value of its own type, and leaves the rest. */
  lemma WireLoaded(lang: Lang, t: Type, u: Value, v: Value, rest: seq<Byte>)
    requires UserDefined(t) && WellFormed(lang, t) && OnWire(lang, t, v) && (u == Default(lang, t) || Blank(t, u))
    ensures LoadInto(lang, t, u, Encode(t, v) + rest) == Done(Loaded(Taken(lang, t, v), |Encode(t, v)|, |rest|))
    ensures HasType(lang, t, Taken(lang, t, v))
  {
    hide WellFormed, HasType, OnWire, Taken, Encode, RunCode, LoadCodeOf, Blank, Default;
    DefaultIsBlank(lang, t);
    TakenTyped(lang, t, v);
    var bs := Encode(t, v);
    var buf := bs + rest;
    assert buf[0..0 + |bs|] == bs;
    LoadObject(lang, t, u, v, buf, 0, |buf|);
  }

  /** Every message of a portable schema goes from C# to C++: a Dictionary that lists its entries
      in any order arrives as a std::map with the same entries. */
  lemma CSharpCrosses(t: Type, v: Value, rest: seq<Byte>)
    requires UserDefined(t) && WellFormed(Cpp, t) && Portable(t) && HasType(CSharp, t, v)
    ensures var w := Taken(Cpp, t, v);
      && LoadInto(Cpp, t, Default(Cpp, t), StoreBytes(CSharp, t, v) + rest) == Done(Loaded(w, SizeOf(CSharp, t, v), |rest|))
      && HasType(Cpp, t, w) && SameValue(t, v, w)
  {
    hide WellFormed, HasType, OnWire, Taken, SameValue, Encode, LoadInto, StoreBytes, SizeOf, Default;
    SchemaShared(t);
    StoreIsEncode(CSharp, t, v);
    TakenSame(t, v);
    WireLoaded(Cpp, t, Default(Cpp, t), v, rest);
  }

  /** C# adds up Size in a 32-bit int: it is right exactly when the message is shorter than
      2^31 bytes. */
  function AsInt32(n: nat): int {
    var low := n % 0x1_0000_0000;
    if low < 0x8000_0000 then low else low - 0x1_0000_0000
  }

  lemma AsInt32Exact(n: nat)
    ensures AsInt32(n) == n <==> n < 0x8000_0000
  {}

  lemma SizeFitsInt(t: Type, v: Value)
    requires Serializable(CSharp, t, v)
    ensures AsInt32(SizeOf(CSharp, t, v)) == |StoreBytes(CSharp, t, v)| <==> |StoreBytes(CSharp, t, v)| < 0x8000_0000
  {
    hide SizeOf, StoreBytes, AsInt32, Serializable;
    StoreIsEncode(CSharp, t, v);
    AsInt32Exact(SizeOf(CSharp, t, v));
  }

  // ---------------------------------------------------------------- truncated input

  /** Cut short, a stored message is refused: exactly the raw-copying C++ code may instead
      run past the end, and nothing accepts it. */
  lemma TruncatedRefused(lang: Lang, t: Type, v: Value, cut: nat)
    requires Serializable(lang, t, v) && cut < |StoreBytes(lang, t, v)|
    ensures !LoadInto(lang, t, Default(lang, t), StoreBytes(lang, t, v)[..cut]).Done?
    ensures Checked(lang, t) ==> LoadInto(lang, t, Default(lang, t), StoreBytes(lang, t, v)[..cut]) == Refused
  {
    hide WellFormed, HasType, Encode, RunCode, LoadCodeOf, StoreBytes, Blank, Default, Checked;
    StoreIsEncode(lang, t, v);
    DefaultIsBlank(lang, t);
    TruncatedNeverLoads(lang, t, Default(lang, t), v, cut);
    if Checked(lang, t) {
      ObjectLoadSafe(lang, t, Default(lang, t), Encode(t, v)[..cut], 0, cut);
    }
  }

  /** The vector form of the C++ Load takes an empty vector for success. */
  function LoadVector(t: Type, u: Value, buf: seq<Byte>): Outcome<Loaded> {
    if |buf| == 0 then Done(Loaded(u, 0, 0)) else LoadInto(Cpp, t, u, buf)
  }

  /** So of all truncated messages it accepts exactly the empty one. */
  lemma VectorAcceptsOnlyEmpty(t: Type, v: Value, cut: nat)
    requires Serializable(Cpp, t, v) && cut < |StoreBytes(Cpp, t, v)|
    ensures LoadVector(t, Default(Cpp, t), StoreBytes(Cpp, t, v)[..cut]).Done? <==> cut == 0
  {
    hide WellFormed, HasType, LoadInto, StoreBytes, Default;
    TruncatedRefused(Cpp, t, v, cut);
  }

  // ---------------------------------------------------------------- reads past the end

  lemma {:induction false} DefaultTyped(lang: Lang, t: Type)
    ensures HasType(lang, t, Default(lang, t))
    decreases t
  {
    match t
    case Primitive(_) =>
    case Message(p, fs) => DefaultTyped(lang, p); DefaultFieldsTyped(lang, fs);
    case Alias(u) => DefaultTyped(lang, u);
    case StaticArray(e, n) => DefaultTyped(lang, e);
    case _ =>
  }

  /** A default-constructed enum goes out as its first enumerator in C++ and as 0 in C#. */
  lemma DefaultEnumStored(lang: Lang, first: nat)
    requires first < 0x1_0000_0000
    ensures StoreBytes(lang, Enum(first), Default(lang, Enum(first))) == LE(if lang.Cpp? then first else 0, 4)
  {
    hide StoreBytes, SizeOf, LE;
    PowersOf256();
    DefaultTyped(lang, Enum(first));
    StoreIsEncode(lang, Enum(first), Default(lang, Enum(first)));
    assert first % Pow256(ENUM_SIZE) == first;
  }

  lemma {:induction false} DefaultFieldsTyped(lang: Lang, fs: Fields)
    ensures FieldsHaveType(lang, fs, DefaultFields(lang, fs))
    decreases fs
  {
    match fs
    case End =>
    case Field(_, t, rest) =>
      DefaultTyped(lang, t);
      DefaultFieldsTyped(lang, rest);
      assert DefaultFields(lang, fs)[1..] == DefaultFields(lang, rest);
  }

  /** An input that stops just where the first block copy starts. */
  function Short(t: Type): seq<Byte>
    decreases t
  {
    match t
    case List(e) => LE(1, LENGTH_SIZE) + Short(e)
    case Array(e) => LE(1, LENGTH_SIZE) + Short(e)
    case StaticArray(e, _) => Short(e)
    case Map(k, e) => LE(1, LENGTH_SIZE) + (Encode(k, Default(Cpp, k)) + Short(e))
    case Message(p, fs) => if HasRaw(p) then Short(p) else Encode(p, Default(Cpp, p)) + ShortFields(fs)
    case Alias(u) => Short(u)
    case _ => []
  }

  function ShortFields(fs: Fields): seq<Byte>
    decreases fs
  {
    match fs
    case End => []
    case Field(_, t, rest) => if HasRaw(t) then Short(t) else Encode(t, Default(Cpp, t)) + ShortFields(rest)
  }

  /** The cursor has exactly these bytes left. */
  predicate Left(buf: seq<Byte>, st: State, bs: seq<Byte>) {
    InStep(buf, st) && At(buf, st.pos, bs) && st.pos + |bs| == |buf|
  }

  lemma LeftSplit(buf: seq<Byte>, st: State, env: Env, a: seq<Byte>, b: seq<Byte>)
    requires Left(buf, st, a + b)
    ensures InStep(buf, st) && At(buf, st.pos, a) && Left(buf, Moved(st, env, |a|), b)
  {
    AtSplit(buf, st.pos, a, b);
  }

  lemma LeftWith(buf: seq<Byte>, st: State, env: Env, bs: seq<Byte>)
    requires Left(buf, st, bs)
    ensures Left(buf, st.(env := env), bs)
  {}

  lemma SeqOut(buf: seq<Byte>, a: Load, b: Load, st: State)
    requires Run(buf, a, st) == OutOfBounds || (Run(buf, a, st).Done? && Run(buf, b, Run(buf, a, st).value) == OutOfBounds)
    ensures Run(buf, Seq(a, b), st) == OutOfBounds
  {}

  lemma TimesOut(buf: seq<Byte>, body: Load, n: nat, st: State)
    requires n > 0 && Run(buf, body, st) == OutOfBounds
    ensures Times(buf, body, n, st) == OutOfBounds
  {
    hide Run;
  }

  lemma FillOut(buf: seq<Byte>, x: string, n: nat, item: string, body: Load, st: State)
    requires n > 0 && Run(buf, body, st) == OutOfBounds
    ensures Run(buf, Fill(x, n, item, body), st) == OutOfBounds
  {
    hide Run;
    RunFill(buf, x, n, item, body, st);
  }

  lemma {:induction false} Overruns(t: Type, x: string, buf: seq<Byte>, st: State)
    requires WellFormed(Cpp, t) && HasRaw(t) && Bound(st.env, x) && Blank(t, Get(st.env, x)) && Left(buf, st, Short(t))
    ensures Run(buf, GenLoad(Cpp, t, x), st) == OutOfBounds
    decreases t, 2
  {
    hide Run, RunCode, Left, Get, Bound, LoadCodeOf, ListBody, LoadLength, LoadNew, MapBody;
    match t
    case List(e) => ListOverruns(e, x, buf, st);
    case Array(e) => ListOverruns(e, x, buf, st);
    case StaticArray(e, n) =>
      if e.Primitive? {
        assert Short(t) == [];
        BlockOverruns(x, Width(e.prim), n, buf, st);
      } else {
        NewOverruns(e, x + "_val", buf, st);
        FillOut(buf, x, n, x + "_val", LoadNew(Cpp, e, x + "_val"), st);
      }
    case Map(k, e) => MapOverruns(k, e, x, buf, st);
    case Message(_, _) => CallOverruns(t, x, buf, st);
    case Alias(_) => CallOverruns(t, x, buf, st);
  }

  lemma BlockOverruns(x: string, w: nat, n: nat, buf: seq<Byte>, st: State)
    requires w > 0 && n > 0 && Left(buf, st, [])
    ensures Run(buf, ReadItems(x, w, n), st) == OutOfBounds
  {
    assert w * n > 0;
    ItemsOut(buf, x, w, n, st);
  }

  lemma {:induction false} NewOverruns(t: Type, y: string, buf: seq<Byte>, st: State)
    requires WellFormed(Cpp, t) && HasRaw(t) && Left(buf, st, Short(t))
    ensures Run(buf, LoadNew(Cpp, t, y), st) == OutOfBounds
    decreases t, 3
  {
    hide Run, WellFormed, HasRaw, Short, GenLoad, Blank, Default;
    DefaultIsBlank(Cpp, t);
    RunDeclare(buf, y, Default(Cpp, t), st);
    Overruns(t, y, buf, st.(env := Bind(y, Default(Cpp, t), st.env)));
    SeqOut(buf, Declare(y, Default(Cpp, t)), GenLoad(Cpp, t, y), st);
  }

  lemma {:induction false} ListOverruns(e: Type, x: string, buf: seq<Byte>, st: State)
    requires WellFormed(Cpp, e) && HasRaw(e) && Left(buf, st, LE(1, LENGTH_SIZE) + Short(e))
    ensures Run(buf, Seq(LoadLength(x), Repeat(x + "_length", false, ListBody(Cpp, e, x))), st) == OutOfBounds
    decreases e, 4
  {
    hide Run, Times, WellFormed, HasRaw, Short, Left, LoadLength, LoadNew;
    var l, body := x + "_length", ListBody(Cpp, e, x);
    var env1 := Bind(l, Num(1), st.env);
    var st1 := Moved(st, env1, LENGTH_SIZE);
    LeftSplit(buf, st, env1, LE(1, LENGTH_SIZE), Short(e));
    RunLength(buf, x, 1, st);
    NewOverruns(e, x + "_val", buf, st1);
    SeqOut(buf, LoadNew(Cpp, e, x + "_val"), PushBack(x, x + "_val"), st1);
    TimesOut(buf, body, 1, st1);
    RunRepeat(buf, l, false, body, st1, 1);
    SeqOut(buf, LoadLength(x), Repeat(l, false, body), st);
  }

  lemma {:induction false} KeysNotRaw(k: Type)
    requires KeyType(k)
    ensures !HasRaw(k)
  {
    match k
    case Alias(u) => KeysNotRaw(u);
    case _ =>
  }

  lemma {:induction false} MapOverruns(k: Type, e: Type, x: string, buf: seq<Byte>, st: State)
    requires WellFormed(Cpp, Map(k, e)) && HasRaw(Map(k, e)) && Left(buf, st, Short(Map(k, e)))
    ensures Run(buf, Seq(LoadLength(x), Repeat(x + "_length", false, MapBody(Cpp, k, e, x))), st) == OutOfBounds
    decreases Map(k, e), 1
  {
    KeysNotRaw(k);
    hide Run, Times, LoadLength, LoadNew, Left, Encode, Default;
    var l, body := x + "_length", MapBody(Cpp, k, e, x);
    var env1 := Bind(l, Num(1), st.env);
    var st1 := Moved(st, env1, LENGTH_SIZE);
    LeftSplit(buf, st, env1, LE(1, LENGTH_SIZE), Encode(k, Default(Cpp, k)) + Short(e));
    RunLength(buf, x, 1, st);
    EntryOverruns(k, e, x, buf, st1);
    TimesOut(buf, body, 1, st1);
    RunRepeat(buf, l, false, body, st1, 1);
    SeqOut(buf, LoadLength(x), Repeat(l, false, body), st);
  }

  lemma {:induction false} EntryOverruns(k: Type, e: Type, x: string, buf: seq<Byte>, st: State)
    requires WellFormed(Cpp, k) && k != Nothing && WellFormed(Cpp, e) && HasRaw(e)
    requires Left(buf, st, Encode(k, Default(Cpp, k)) + Short(e))
    ensures Run(buf, MapBody(Cpp, k, e, x), st) == OutOfBounds
    decreases Map(k, e), 0
  {
    hide Run, WellFormed, HasRaw, HasType, Short, Left, LoadNew, Encode, Default, AfterLoad;
    var a, b, c := LoadNew(Cpp, k, x + "_key"), LoadNew(Cpp, e, x + "_val"), Insert(x, x + "_key", x + "_val", k);
    DefaultTyped(Cpp, k);
    LeftSplit(buf, st, st.env, Encode(k, Default(Cpp, k)), Short(e));
    var env1 := LoadTypedNew(Cpp, k, x + "_key", Default(Cpp, k), buf, st);
    LeftSplit(buf, st, env1, Encode(k, Default(Cpp, k)), Short(e));
    var st1 := Moved(st, env1, |Encode(k, Default(Cpp, k))|);
    NewOverruns(e, x + "_val", buf, st1);
    SeqOut(buf, b, c, st1);
    SeqOut(buf, a, Seq(b, c), st);
  }

  lemma {:induction false} CallOverruns(t: Type, x: string, buf: seq<Byte>, st: State)
    requires UserDefined(t) && WellFormed(Cpp, t) && HasRaw(t) && Blank(t, Get(st.env, x)) && Left(buf, st, Short(t))
    ensures Run(buf, CallLoad(x, LoadCodeOf(Cpp, t)), st) == OutOfBounds
    decreases t, 1
  {
    hide RunCode, LoadCodeOf, WellFormed, HasRaw, Blank, Short, Get;
    ObjectOverruns(t, Get(st.env, x), buf, st);
  }

  lemma {:induction false} ObjectOverruns(t: Type, u: Value, buf: seq<Byte>, st: State)
    requires WellFormed(Cpp, t) && UserDefined(t) && HasRaw(t) && Blank(t, u) && Left(buf, st, Short(t))
    ensures RunCode(buf, LoadCodeOf(Cpp, t), u, st.pos, st.nSize) == OutOfBounds
    decreases t, 0
  {
    hide Run, GenLoad, Left, LoadMembers;
    match t
    case Alias(w) =>
      LeftWith(buf, st, Bind("obj", u, Empty), Short(w));
      Overruns(w, "obj", buf, st.(env := Bind("obj", u, Empty)));
    case Message(p, fs) =>
      if HasRaw(p) {
        ObjectOverruns(p, u.base, buf, st);
      } else {
        MembersOverrun(p, fs, u, buf, st);
      }
  }

  lemma {:induction false} MembersOverrun(p: Type, fs: Fields, u: Value, buf: seq<Byte>, st: State)
    requires WellFormed(Cpp, Message(p, fs)) && !HasRaw(p) && FieldsHaveRaw(fs) && Blank(Message(p, fs), u)
    requires Left(buf, st, Encode(p, Default(Cpp, p)) + ShortFields(fs))
    ensures RunCode(buf, LoadCodeOf(Cpp, Message(p, fs)), u, st.pos, st.nSize) == OutOfBounds
    decreases fs, 1
  {
    hide Run, HasRaw, HasType, FieldsHaveRaw, Encode, Default, ShortFields, LoadMembers, FieldsWellFormed, BlankFields, BindFields, Left;
    DefaultTyped(Cpp, p);
    var env, n := BindFields(fs, u.values), |Encode(p, Default(Cpp, p))|;
    LeftSplit(buf, st, env, Encode(p, Default(Cpp, p)), ShortFields(fs));
    LoadTypedObject(Cpp, p, u.base, Default(Cpp, p), buf, st.pos, st.nSize);
    BindFieldsReady(Cpp, fs, u.values);
    FieldsOverrun(fs, buf, Moved(st, env, n));
  }

  lemma {:induction false} FieldsOverrun(fs: Fields, buf: seq<Byte>, st: State)
    requires FieldsWellFormed(Cpp, fs) && FieldsHaveRaw(fs) && FieldsReady(st.env, fs) && Left(buf, st, ShortFields(fs))
    ensures Run(buf, LoadMembers(Cpp, fs), st) == OutOfBounds
    decreases fs, 0
  {
    hide Run, GenLoad, HasRaw, HasType, Encode, Default, WellFormed, Blank, Left, Get, Bound;
    match fs
    case Field(f, t, rest) =>
      if HasRaw(t) {
        Overruns(t, f, buf, st);
        SeqOut(buf, GenLoad(Cpp, t, f), LoadMembers(Cpp, rest), st);
      } else {
        var v, set1, local := Default(Cpp, t), Set(st.env, f, Default(Cpp, t)), f + "_length";
        var st1 := Moved(st, AfterLoad(t, f, v, st.env), |Encode(t, v)|);
        DefaultTyped(Cpp, t);
        LeftSplit(buf, st, st1.env, Encode(t, v), ShortFields(rest));
        LoadTyped(Cpp, t, f, v, buf, st);
        ReadySet(st.env, f, v, rest);
        assert Sized(t) ==> local in Locals(Cpp, t, f);
        if Sized(t) {
          ReadyUnder(local, Num(LengthOf(v)), set1, rest);
        }
        FieldsOverrun(rest, buf, st1);
        SeqOut(buf, GenLoad(Cpp, t, f), LoadMembers(Cpp, rest), st);
      }
  }

  /** A well-formed schema names no member like a parameter. */
  lemma {:induction false} NoneHidden(t: Type)
    requires WellFormed(Cpp, t)
    ensures !HidesParameter(t)
    decreases t
  {
    match t
    case List(e) => NoneHidden(e);
    case Array(e) => NoneHidden(e);
    case StaticArray(e, _) => NoneHidden(e);
    case Map(k, e) => NoneHidden(k); NoneHidden(e);
    case Message(p, fs) => NoneHidden(p); NoFieldHidden(fs);
    case Alias(u) => NoneHidden(u);
    case _ =>
  }

  lemma {:induction false} NoFieldHidden(fs: Fields)
    requires FieldsWellFormed(Cpp, fs)
    ensures !FieldsHideParameter(fs)
    decreases fs
  {
    hide WellFormed, HidesParameter;
    match fs
    case End =>
    case Field(_, t, rest) => NoneHidden(t); NoFieldHidden(rest);
  }

  /** Some input makes a generated Load read outside its buffer exactly when the back end is
      C++ and the schema holds a non-empty static array of numbers. */
  lemma OverreadExactly(lang: Lang, t: Type)
    requires UserDefined(t) && WellFormed(lang, t)
    ensures (exists buf :: LoadInto(lang, t, Default(lang, t), buf) == OutOfBounds) <==> lang.Cpp? && HasRaw(t)
  {
    if lang.Cpp? {
      NoneHidden(t);
    }
    if Checked(lang, t) {
      forall buf ensures LoadInto(lang, t, Default(lang, t), buf) != OutOfBounds {
        hide Checked, RunCode;
        ObjectLoadSafe(lang, t, Default(lang, t), buf, 0, |buf|);
      }
    } else {
      DefaultIsBlank(lang, t);
      var buf := Short(t);
      assert buf[0..0 + |buf|] == buf;
      ObjectOverruns(t, Default(lang, t), buf, State(Empty, 0, |buf|));
      assert LoadInto(lang, t, Default(lang, t), buf) == OutOfBounds;
    }
  }
}
