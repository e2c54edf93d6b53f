/** Why module Idl restricts the names of fields.  The generated functions declare locals and
    have parameters; a field called like one of them is hidden by it, and the compiler emits
    the code all the same. */
module IdlLimits {
  import opened Bytes
  import opened Idl
  import opened IdlCode
  import opened IdlCompiler
  import opened IdlStore
  import opened IdlLoad
  import opened IdlTheorems

  // ---------------------------------------------------------------- schemas that compile

  /** The locals declared in front of a field, given those declared so far: a text or a
      container leaves its length behind under this suffix. */
  function Declared(locals: set<string>, f: string, t: Type, suffix: string): set<string> {
    if Sized(t) then locals + {f + suffix} else locals
  }

  /** Typedefs of integers and enums, and these themselves. */
  predicate Integral(t: Type) {
    match t
    case Primitive(p) => p != Boolean && p != Float && p != Double
    case Enum(_) => true
    case Alias(u) => Integral(u)
    case _ => false
  }

  predicate IsUInt32(t: Type) {
    t == Primitive(UInt32) || (t.Alias? && IsUInt32(t.target))
  }

  /** What a local may stand in for.  In the C++ store that is a size_t: any number is copied
      from it, and it converts to an enum and to a typedef of an integer.  In the C++ load it is
      a uint32_t: it takes four bytes, and is referred to as that type only.  In the C# load it
      is an int, to which nothing wider is assigned. */
  predicate StandsIn(lang: Lang, t: Type, suffix: string) {
    match lang
    case CSharp => t.Primitive? && t.prim in {SByte, UByte, Int16, UInt16, Int32}
    case Cpp =>
      if suffix == "_size" then t.Primitive? || Integral(t)
      else (t.Primitive? && Width(t.prim) <= 4) || IsUInt32(t)
  }

  /** A field list whose generated function compiles and stays inside its locals: the names are
      distinct, none is hidden by a parameter, and what a local of an earlier field hides is
      something that local can stand in for. */
  predicate Compiles(lang: Lang, locals: set<string>, fs: Fields, suffix: string)
    decreases fs
  {
    match fs
    case End => true
    case Field(f, t, rest) =>
      && WellFormed(lang, t) && t != Nothing && NameOk(lang, f, t) && f !in Names(rest)
      && InFront(lang, f, rest) && (lang.CSharp? && t.Text? ==> f + "_buf" !in Names(rest))
      && (f in locals ==> StandsIn(lang, t, suffix))
      && Compiles(lang, Declared(locals, f, t, suffix), rest, suffix)
  }

  /** Some field is called like a local of an earlier one. */
  predicate Shadowed(locals: set<string>, fs: Fields, suffix: string)
    decreases fs
  {
    match fs
    case End => false
    case Field(f, t, rest) => f in locals || Shadowed(Declared(locals, f, t, suffix), rest, suffix)
  }

  // ---------------------------------------------------------------- what is stored

  /** The values that go out for these members: in place of a shadowed number, what the local
      holds. */
  function Stored(lang: Lang, env: Env, locals: set<string>, fs: Fields, vs: seq<Value>): seq<Value>
    requires |vs| == FieldsCount(fs)
    decreases fs
  {
    match fs
    case End => []
    case Field(f, t, rest) =>
      var v := if f in locals then Num(NumOf(Get(env, f))) else vs[0];
      [v] + Stored(lang, AfterStore(lang, t, f, v, env), Declared(locals, f, t, "_size"), rest, vs[1..])
  }

  /** The members that no local hides are in scope with their values. */
  predicate Seen(env: Env, locals: set<string>, fs: Fields, vs: seq<Value>)
    decreases fs
  {
    match fs
    case End => vs == []
    case Field(f, t, rest) => vs != [] && (f !in locals ==> Get(env, f) == vs[0]) && Seen(env, locals, rest, vs[1..])
  }

  lemma {:induction false} SeenUnder(env: Env, x: string, w: Value, locals: set<string>, fs: Fields, vs: seq<Value>)
    requires Seen(env, locals, fs, vs)
    ensures Seen(Bind(x, w, env), locals + {x}, fs, vs)
    decreases fs
  {
    match fs
    case End =>
    case Field(_, _, rest) => SeenUnder(env, x, w, locals, rest, vs[1..]);
  }

  lemma {:induction false} StoreCompiled(fs: Fields, vs: seq<Value>, locals: set<string>, tr: Trace)
    requires Compiles(Cpp, locals, fs, "_size") && FieldsHaveType(Cpp, fs, vs) && Seen(tr.env, locals, fs, vs)
    ensures Exec(StoreMembers(Cpp, fs), tr).out == tr.out + EncodeFields(fs, Stored(Cpp, tr.env, locals, fs, vs))
    decreases fs
  {
    hide GenStore, HasType, Encode, WellFormed;
    match fs
    case End => assert tr.out + [] == tr.out;
    case Field(f, t, rest) =>
      hide Exec;
      var v := if f in locals then Num(NumOf(Get(tr.env, f))) else vs[0];
      FieldStored(t, f, v, locals, tr);
      var tr1 := Exec(GenStore(Cpp, t, f), tr);
      if Sized(t) {
        NothingReplaced(f, '[');
        NothingReplaced(f, ']');
        SeenUnder(tr.env, f + "_size", Num(LengthOf(v)), locals, rest, vs[1..]);
      }
      StoreCompiled(rest, vs[1..], Declared(locals, f, t, "_size"), tr1);
      ExecThen(GenStore(Cpp, t, f), StoreMembers(Cpp, rest), tr);
      var more := Stored(Cpp, tr1.env, Declared(locals, f, t, "_size"), rest, vs[1..]);
      assert ([v] + more)[1..] == more;
      Joined(tr.out, Encode(t, v), EncodeFields(rest, more));
  }

  /** One field: its own value, or the local that hides it. */
  lemma FieldStored(t: Type, f: string, v: Value, locals: set<string>, tr: Trace)
    requires WellFormed(Cpp, t)
    requires if f in locals then StandsIn(Cpp, t, "_size") && v == Num(NumOf(Get(tr.env, f))) else v == Get(tr.env, f) && HasType(Cpp, t, v)
    ensures Exec(GenStore(Cpp, t, f), tr) == Trace(AfterStore(Cpp, t, f, v, tr.env), tr.out + Encode(t, v), tr.size)
  {
    if f !in locals {
      hide GenStore, Exec, WellFormed, HasType, Encode, AfterStore;
      StoreValue(Cpp, t, f, tr);
    } else if !t.Primitive? {
      CallStored(t, f, Get(tr.env, f), tr);
    }
  }

  /** The serializer of an enum or a typedef of an integer, called on a number. */
  lemma {:induction false} IntegralStored(t: Type, u: Value, out: seq<Byte>, size: nat)
    requires Integral(t) && !t.Primitive?
    ensures var done := ExecCode(StoreCode(Cpp, t), u, out, size);
      done.out == out + Encode(t, Num(NumOf(u))) && done.size == size
  {
    match t
    case Enum(_) =>
    case Alias(w) =>
      if !w.Primitive? {
        IntegralStored(w, u, out, size);
      }
  }

  lemma CallStored(t: Type, x: string, u: Value, tr: Trace)
    requires Integral(t) && !t.Primitive? && u == Get(tr.env, x)
    ensures Exec(GenStore(Cpp, t, x), tr) == Trace(tr.env, tr.out + Encode(t, Num(NumOf(u))), tr.size)
  {
    IntegralStored(t, u, tr.out, tr.size);
  }

  lemma {:induction false} SeenBehind(env: Env, x: string, w: Value, locals: set<string>, fs: Fields, vs: seq<Value>)
    requires Seen(env, locals, fs, vs) && x !in Names(fs)
    ensures Seen(Bind(x, w, env), locals, fs, vs)
    decreases fs
  {
    match fs
    case End =>
    case Field(_, _, rest) => SeenBehind(env, x, w, locals, rest, vs[1..]);
  }

  lemma {:induction false} MembersSeen(lang: Lang, locals: set<string>, fs: Fields, suffix: string, vs: seq<Value>)
    requires Compiles(lang, locals, fs, suffix) && |vs| == FieldsCount(fs)
    ensures Seen(BindFields(fs, vs), {}, fs, vs)
    decreases fs
  {
    match fs
    case End =>
    case Field(f, t, rest) =>
      MembersSeen(lang, Declared(locals, f, t, suffix), rest, suffix, vs[1..]);
      SeenBehind(BindFields(rest, vs[1..]), f, vs[0], {}, rest, vs[1..]);
  }

  /** What a message's Store writes, whatever its fields are called. */
  lemma MessageStored(p: Type, fs: Fields, v: Value)
    requires WellFormed(Cpp, p) && (p.Message? || p.Nothing?) && Compiles(Cpp, {}, fs, "_size")
    requires HasType(Cpp, Message(p, fs), v)
    ensures StoreBytes(Cpp, Message(p, fs), v) ==
      Encode(p, v.base) + EncodeFields(fs, Stored(Cpp, BindFields(fs, v.values), {}, fs, v.values))
  {
    hide Exec, EncodeFields, StoreMembers, GenStore, Stored, BindFields, WellFormed, Encode;
    StoreObject(Cpp, p, v.base, [], 0);
    var base := ExecCode(StoreCode(Cpp, p), v.base, [], 0);
    assert base.out == Encode(p, v.base);
    MembersSeen(Cpp, {}, fs, "_size", v.values);
    StoreCompiled(fs, v.values, {}, base.(env := BindFields(fs, v.values)));
  }

  /** Nothing shadowed: the values themselves. */
  lemma {:induction false} OwnStored(env: Env, locals: set<string>, fs: Fields, vs: seq<Value>)
    requires !Shadowed(locals, fs, "_size") && |vs| == FieldsCount(fs)
    ensures Stored(Cpp, env, locals, fs, vs) == vs
    decreases fs
  {
    match fs
    case End =>
    case Field(f, t, rest) =>
      OwnStored(AfterStore(Cpp, t, f, vs[0], env), Declared(locals, f, t, "_size"), rest, vs[1..]);
  }

  // ---------------------------------------------------------------- a value that shows it

  /** Everything empty, and one in the shadowed numbers. */
  function Ones(lang: Lang, locals: set<string>, fs: Fields, suffix: string): (vs: seq<Value>)
    ensures |vs| == FieldsCount(fs)
    decreases fs
  {
    match fs
    case End => []
    case Field(f, t, rest) =>
      [if f in locals then Num(1) else Default(lang, t)] + Ones(lang, Declared(locals, f, t, suffix), rest, suffix)
  }

  lemma {:induction false} OnesTyped(lang: Lang, locals: set<string>, fs: Fields, suffix: string)
    requires Compiles(lang, locals, fs, suffix)
    ensures FieldsHaveType(lang, fs, Ones(lang, locals, fs, suffix))
    decreases fs
  {
    match fs
    case End =>
    case Field(f, t, rest) =>
      hide HasType, Default, WellFormed;
      OnesTyped(lang, Declared(locals, f, t, suffix), rest, suffix);
      var vs := Ones(lang, locals, fs, suffix);
      assert vs[1..] == Ones(lang, Declared(locals, f, t, suffix), rest, suffix);
      if f in locals {
        StandInTyped(lang, t, suffix);
      } else {
        DefaultTyped(lang, t);
      }
  }

  lemma {:induction false} OneTyped(lang: Lang, t: Type)
    requires t.Primitive? || Integral(t)
    ensures HasType(lang, t, Num(1)) && Encode(t, Num(1)) != Encode(t, Num(0))
    ensures |Encode(t, Num(1))| == |Encode(t, Num(0))|
  {
    match t
    case Primitive(p) => OneWide(Width(p));
    case Enum(_) => OneWide(ENUM_SIZE);
    case Alias(u) => OneTyped(lang, u);
  }

  lemma OneWide(w: nat)
    requires w > 0
    ensures 1 < Pow256(w) && LE(1, w) != LE(0, w) && |LE(1, w)| == |LE(0, w)|
  {
    assert Pow256(w) == 256 * Pow256(w - 1);
    assert LE(1, w)[0] == 1 && LE(0, w)[0] == 0;
  }

  lemma {:induction false} UInt32IsIntegral(t: Type)
    requires IsUInt32(t)
    ensures Integral(t)
  {
    if t.Alias? {
      UInt32IsIntegral(t.target);
    }
  }

  lemma StandInTyped(lang: Lang, t: Type, suffix: string)
    requires StandsIn(lang, t, suffix)
    ensures HasType(lang, t, Num(1))
  {
    if IsUInt32(t) {
      UInt32IsIntegral(t);
    }
    OneTyped(lang, t);
  }

  lemma EmptyLength(lang: Lang, t: Type)
    ensures Sized(t) ==> LengthOf(Default(lang, t)) == 0
  {
  }

  lemma TailsDiffer(a: seq<Byte>, b: seq<Byte>, c: seq<Byte>)
    requires b != c
    ensures a + b != a + c
  {
    assert (a + b)[|a|..] == b && (a + c)[|a|..] == c;
  }

  lemma HeadsDiffer(a: seq<Byte>, b: seq<Byte>, c: seq<Byte>, d: seq<Byte>)
    requires a != b && |a| == |b|
    ensures a + c != b + d
  {
    assert (a + c)[..|a|] == a && (b + d)[..|a|] == b;
  }

  /** The empty containers leave zero lengths behind, and zero goes out instead of one. */
  lemma {:induction false} OnesNotStored(env: Env, locals: set<string>, fs: Fields)
    requires Compiles(Cpp, locals, fs, "_size") && Shadowed(locals, fs, "_size")
    requires forall x :: x in locals ==> Get(env, x) == Num(0)
    ensures var vs := Ones(Cpp, locals, fs, "_size");
      EncodeFields(fs, Stored(Cpp, env, locals, fs, vs)) != EncodeFields(fs, vs)
    decreases fs
  {
    hide HasType, Default, WellFormed, Encode;
    match fs
    case Field(f, t, rest) =>
      var vs := Ones(Cpp, locals, fs, "_size");
      var locals', env' := Declared(locals, f, t, "_size"), AfterStore(Cpp, t, f, vs[0], env);
      assert vs[1..] == Ones(Cpp, locals', rest, "_size");
      var out := Stored(Cpp, env, locals, fs, vs);
      if f in locals {
        OneTyped(Cpp, t);
        HeadsDiffer(Encode(t, out[0]), Encode(t, vs[0]), EncodeFields(rest, out[1..]), EncodeFields(rest, vs[1..]));
      } else {
        EmptyLength(Cpp, t);
        LocalIsEmpty(t, f, vs[0], env, locals);
        OnesNotStored(env', locals', rest);
        assert out[1..] == Stored(Cpp, env', locals', rest, vs[1..]);
        TailsDiffer(Encode(t, vs[0]), EncodeFields(rest, out[1..]), EncodeFields(rest, vs[1..]));
      }
  }

  lemma LocalIsEmpty(t: Type, f: string, v: Value, env: Env, locals: set<string>)
    requires NameOk(Cpp, f, t) && (Sized(t) ==> LengthOf(v) == 0) && forall x :: x in locals ==> Get(env, x) == Num(0)
    ensures forall x :: x in Declared(locals, f, t, "_size") ==> Get(AfterStore(Cpp, t, f, v, env), x) == Num(0)
  {
    NothingReplaced(f, '[');
    NothingReplaced(f, ']');
  }

  /** When does every value of a C++ message go out as it is?  Exactly when no field is called
      like the length local of an earlier text or container. */
  lemma StoredExactly(p: Type, fs: Fields)
    requires WellFormed(Cpp, p) && (p.Message? || p.Nothing?) && Compiles(Cpp, {}, fs, "_size")
    ensures (forall v :: HasType(Cpp, Message(p, fs), v) ==>
               StoreBytes(Cpp, Message(p, fs), v) == Encode(Message(p, fs), v))
      <==> !Shadowed({}, fs, "_size")
  {
    hide WellFormed, StoreBytes, EncodeFields, FieldsHaveType, Stored;
    var t := Message(p, fs);
    if Shadowed({}, fs, "_size") {
      var vs := Ones(Cpp, {}, fs, "_size");
      var v := Record(Default(Cpp, p), vs);
      OnesTyped(Cpp, {}, fs, "_size");
      DefaultTyped(Cpp, p);
      assert HasType(Cpp, t, v);
      MessageStored(p, fs, v);
      OnesNotStored(BindFields(fs, vs), {}, fs);
      TailsDiffer(Encode(p, v.base), EncodeFields(fs, Stored(Cpp, BindFields(fs, vs), {}, fs, vs)), EncodeFields(fs, vs));
    } else {
      forall v | HasType(Cpp, t, v)
        ensures StoreBytes(Cpp, t, v) == Encode(t, v)
      {
        MessageStored(p, fs, v);
        CountTyped(Cpp, fs, v.values);
        OwnStored(BindFields(fs, v.values), {}, fs, v.values);
      }
    }
  }
}
