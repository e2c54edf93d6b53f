/** What a generated Load does to members whose names are hidden by a length local of an earlier
    member. */
module IdlLoadLimits {
  import opened Bytes
  import opened Idl
  import opened IdlCode
  import opened IdlCompiler
  import opened IdlScopes
  import opened IdlLoad
  import opened IdlTheorems
  import opened IdlLimits

  // ---------------------------------------------------------------- locals on top of members

  /** The names declared on top of the outermost d variables. */
  function Top(env: Env, d: nat): set<string> {
    if Depth(env) <= d then {} else {env.name} + Top(env.outer, d)
  }

  lemma {:induction false} TopSet(env: Env, d: nat, x: string, v: Value)
    requires Depth(env) >= d
    ensures Top(Set(env, x, v), d) == Top(env, d)
    ensures Pop(Set(env, x, v), d) == if x in Top(env, d) then Pop(env, d) else Set(Pop(env, d), x, v)
  {
    if Depth(env) > d {
      TopSet(env.outer, d, x, v);
    }
  }

  lemma {:induction false} TopGet(env: Env, d: nat, x: string)
    requires Depth(env) >= d
    ensures x in Top(env, d) ==> Bound(env, x)
    ensures x !in Top(env, d) ==> Bound(env, x) == Bound(Pop(env, d), x) && Get(env, x) == Get(Pop(env, d), x)
  {
    if Depth(env) > d {
      TopGet(env.outer, d, x);
    }
  }

  lemma TopBind(env: Env, d: nat, x: string, v: Value)
    requires Depth(env) >= d
    ensures Top(Bind(x, v, env), d) == {x} + Top(env, d) && Pop(Bind(x, v, env), d) == Pop(env, d)
  {
  }

  // ---------------------------------------------------------------- what is loaded

  /** The members after the load: those no local hides are set. */
  function SetSeen(env: Env, locals: set<string>, fs: Fields, vs: seq<Value>): Env
    requires |vs| == FieldsCount(fs)
    decreases fs
  {
    match fs
    case End => env
    case Field(f, t, rest) =>
      SetSeen(if f in locals then env else Set(env, f, vs[0]), Declared(locals, f, t, "_length"), rest, vs[1..])
  }

  /** The member a field is loaded into, and what its code leaves on top. */
  lemma FieldLoaded(t: Type, f: string, v: Value, env: Env, d: nat)
    requires Depth(env) >= d && Bound(Pop(env, d), f) && Blank(t, Get(Pop(env, d), f)) && (f in Top(env, d) ==> AnyNumber(t))
    ensures Bound(env, f) && Blank(t, Get(env, f))
    ensures var env1 := AfterLoad(t, f, v, env);
      && Depth(env1) >= d
      && Top(env1, d) == Declared(Top(env, d), f, t, "_length")
      && Pop(env1, d) == if f in Top(env, d) then Pop(env, d) else Set(Pop(env, d), f, v)
  {
    hide Blank;
    TopGet(env, d, f);
    TopSet(env, d, f, v);
    TopBind(Set(env, f, v), d, f + "_length", Num(LengthOf(v)));
    if f in Top(env, d) {
      NumbersBlank(t, Get(env, f));
    }
  }

  predicate AnyNumber(t: Type) {
    t.Primitive? || Integral(t)
  }

  lemma {:induction false} NumbersBlank(t: Type, u: Value)
    requires AnyNumber(t)
    ensures Blank(t, u)
  {
    match t
    case Alias(w) => NumbersBlank(w, u);
    case _ =>
  }

  /** A local stands in for a number only, and a default-constructed one is zero. */
  lemma StandInNumber(lang: Lang, t: Type)
    requires StandsIn(lang, t, "_length")
    ensures AnyNumber(t) && Default(lang, t) == Num(0)
  {
    if IsUInt32(t) {
      UInt32IsIntegral(t);
      ZeroDefault(lang, t);
    }
  }

  lemma {:induction false} ZeroDefault(lang: Lang, t: Type)
    requires IsUInt32(t)
    ensures Default(lang, t) == Num(0)
  {
    if t.Alias? {
      ZeroDefault(lang, t.target);
    }
  }

  lemma {:induction false} FieldsLoaded(lang: Lang, fs: Fields, vs: seq<Value>, buf: seq<Byte>, st: State, d: nat)
    returns (inner: Env)
    requires Depth(st.env) >= d && Compiles(lang, Top(st.env, d), fs, "_length") && FieldsHaveType(lang, fs, vs)
    requires FieldsReady(Pop(st.env, d), fs) && InStep(buf, st) && At(buf, st.pos, EncodeFields(fs, vs))
    ensures |vs| == FieldsCount(fs)
    ensures Run(buf, LoadMembers(lang, fs), st) == Done(Moved(st, inner, |EncodeFields(fs, vs)|))
    ensures Pop(inner, d) == SetSeen(Pop(st.env, d), Top(st.env, d), fs, vs)
    decreases fs
  {
    hide GenLoad, WellFormed, HasType, Encode, Blank, Run, At, InStep, Get, Set, Bound, Top, Pop, AfterLoad, NameOk;
    CountTyped(lang, fs, vs);
    match fs
    case End =>
      NoFieldsLoaded(lang, vs, buf, st);
      inner := st.env;
    case Field(f, t, rest) =>
      AtSplit(buf, st.pos, Encode(t, vs[0]), EncodeFields(rest, vs[1..]));
      if f in Top(st.env, d) {
        StandInNumber(lang, t);
      }
      FieldLoaded(t, f, vs[0], st.env, d);
      LoadTyped(lang, t, f, vs[0], buf, st);
      var st1 := Moved(st, AfterLoad(t, f, vs[0], st.env), |Encode(t, vs[0])|);
      MovedInStep(buf, st, st1.env, Encode(t, vs[0]));
      RoomTwo(buf, st, Encode(t, vs[0]), EncodeFields(rest, vs[1..]));
      ReadySet(Pop(st.env, d), f, vs[0], rest);
      inner := FieldsLoaded(lang, rest, vs[1..], buf, st1, d);
      MovedTwice(st, st1.env, |Encode(t, vs[0])|, inner, |EncodeFields(rest, vs[1..])|);
      RunSeq(buf, GenLoad(lang, t, f), LoadMembers(lang, rest), st, st1);
  }

  /** The members read back: what they held before, where a local hides them. */
  function Kept(env: Env, locals: set<string>, fs: Fields, vs: seq<Value>): (r: seq<Value>)
    requires |vs| == FieldsCount(fs)
    ensures |r| == |vs|
    decreases fs
  {
    match fs
    case End => []
    case Field(f, t, rest) =>
      [if f in locals then Get(env, f) else vs[0]] + Kept(env, Declared(locals, f, t, "_length"), rest, vs[1..])
  }

  lemma {:induction false} SetSeenKeeps(env: Env, locals: set<string>, fs: Fields, vs: seq<Value>, x: string)
    requires |vs| == FieldsCount(fs) && x !in Names(fs)
    ensures Get(SetSeen(env, locals, fs, vs), x) == Get(env, x)
    decreases fs
  {
    match fs
    case End =>
    case Field(f, t, rest) =>
      SetThenGet(env, f, vs[0], x);
      SetSeenKeeps(if f in locals then env else Set(env, f, vs[0]), Declared(locals, f, t, "_length"), rest, vs[1..], x);
  }

  lemma {:induction false} KeptUnder(env: Env, x: string, w: Value, locals: set<string>, fs: Fields, vs: seq<Value>)
    requires |vs| == FieldsCount(fs) && x !in Names(fs)
    ensures Kept(Set(env, x, w), locals, fs, vs) == Kept(env, locals, fs, vs)
    decreases fs
  {
    match fs
    case End =>
    case Field(f, t, rest) =>
      SetThenGet(env, x, w, f);
      KeptUnder(env, x, w, Declared(locals, f, t, "_length"), rest, vs[1..]);
  }

  lemma {:induction false} CollectSeen(lang: Lang, env: Env, locals: set<string>, fs: Fields, vs: seq<Value>)
    requires Compiles(lang, locals, fs, "_length") && FieldsReady(env, fs) && |vs| == FieldsCount(fs)
    ensures Collect(SetSeen(env, locals, fs, vs), fs) == Kept(env, locals, fs, vs)
    decreases fs
  {
    hide WellFormed, NameOk, Blank;
    match fs
    case End =>
    case Field(f, t, rest) =>
      var env1 := if f in locals then env else Set(env, f, vs[0]);
      var locals' := Declared(locals, f, t, "_length");
      ReadySet(env, f, vs[0], rest);
      CollectSeen(lang, env1, locals', rest, vs[1..]);
      SetSeenKeeps(env1, locals', rest, vs[1..], f);
      SetThenGet(env, f, vs[0], f);
      KeptUnder(env, f, vs[0], locals', rest, vs[1..]);
  }

  lemma {:induction false} MembersReady(lang: Lang, locals: set<string>, fs: Fields, suffix: string, us: seq<Value>)
    requires Compiles(lang, locals, fs, suffix) && BlankFields(fs, us)
    ensures FieldsReady(BindFields(fs, us), fs)
    decreases fs
  {
    hide WellFormed, NameOk, Blank;
    match fs
    case End =>
    case Field(f, t, rest) =>
      MembersReady(lang, Declared(locals, f, t, suffix), rest, suffix, us[1..]);
      ReadyUnder(f, us[0], BindFields(rest, us[1..]), rest);
  }

  /** What a message's Load reads, whatever its fields are called. */
  lemma MessageLoaded(lang: Lang, p: Type, fs: Fields, u: Value, v: Value, rest: seq<Byte>)
    requires WellFormed(lang, p) && (p.Message? || p.Nothing?) && Compiles(lang, {}, fs, "_length")
    requires HasType(lang, Message(p, fs), v) && Blank(Message(p, fs), u)
    ensures var t := Message(p, fs);
      LoadInto(lang, t, u, Encode(t, v) + rest) ==
        Done(Loaded(Record(v.base, Kept(BindFields(fs, u.values), {}, fs, v.values)), |Encode(t, v)|, |rest|))
  {
    hide Run, RunCode, Encode, EncodeFields, LoadMembers, LoadCodeOf, WellFormed, HasType, FieldsHaveType, Kept, SetSeen;
    hide Blank, BlankFields, BindFields, FieldsReady, At, Compiles;
    TypedParts(lang, p, fs, u, v);
    var t, bs, n := Message(p, fs), EncodeFields(fs, v.values), |Encode(p, v.base)|;
    var buf := Encode(t, v) + rest;
    assert At(buf, 0, Encode(p, v.base) + bs) by { AtFront(Encode(t, v), rest); }
    AtSplit(buf, 0, Encode(p, v.base), bs);
    LoadTypedObject(lang, p, u.base, v.base, buf, 0, |buf|);
    var env := BindFields(fs, u.values);
    MembersReady(lang, {}, fs, "_length", u.values);
    var st := Moved(State(env, 0, |buf|), env, n);
    RoomTwo(buf, State(env, 0, |buf|), Encode(p, v.base), bs);
    NothingOnTop(env);
    var inner := FieldsLoaded(lang, fs, v.values, buf, st, Depth(env));
    RunClass(buf, LoadCodeOf(lang, p), fs, LoadMembers(lang, fs), u, 0, |buf|, Loaded(v.base, st.pos, st.nSize), Moved(st, inner, |bs|));
    CollectSeen(lang, env, {}, fs, v.values);
  }

  lemma NothingOnTop(env: Env)
    ensures Top(env, Depth(env)) == {} && Pop(env, Depth(env)) == env
  {
  }

  lemma AtFront(bs: seq<Byte>, rest: seq<Byte>)
    ensures At(bs + rest, 0, bs)
  {
    assert (bs + rest)[0..0 + |bs|] == bs;
  }

  lemma TypedParts(lang: Lang, p: Type, fs: Fields, u: Value, v: Value)
    requires HasType(lang, Message(p, fs), v) && Blank(Message(p, fs), u)
    ensures v.Record? && HasType(lang, p, v.base) && FieldsHaveType(lang, fs, v.values) && |v.values| == FieldsCount(fs)
    ensures u.Record? && Blank(p, u.base) && BlankFields(fs, u.values)
    ensures Encode(Message(p, fs), v) == Encode(p, v.base) + EncodeFields(fs, v.values)
    ensures LoadCodeOf(lang, Message(p, fs)) == LoadClass(LoadCodeOf(lang, p), fs, LoadMembers(lang, fs))
  {
  }

  lemma {:induction false} OwnKept(env: Env, locals: set<string>, fs: Fields, vs: seq<Value>)
    requires !Shadowed(locals, fs, "_length") && |vs| == FieldsCount(fs)
    ensures Kept(env, locals, fs, vs) == vs
    decreases fs
  {
    match fs
    case End =>
    case Field(f, t, rest) => OwnKept(env, Declared(locals, f, t, "_length"), rest, vs[1..]);
  }

  /** In a default-constructed target every number is zero. */
  lemma {:induction false} OnesNotKept(lang: Lang, env: Env, locals: set<string>, fs: Fields)
    requires Compiles(lang, locals, fs, "_length") && Shadowed(locals, fs, "_length")
    requires Seen(env, {}, fs, DefaultFields(lang, fs))
    ensures var vs := Ones(lang, locals, fs, "_length"); Kept(env, locals, fs, vs) != vs
    decreases fs
  {
    match fs
    case Field(f, t, rest) =>
      var vs := Ones(lang, locals, fs, "_length");
      var locals' := Declared(locals, f, t, "_length");
      assert vs[1..] == Ones(lang, locals', rest, "_length");
      assert DefaultFields(lang, fs)[1..] == DefaultFields(lang, rest);
      if f in locals {
        StandInNumber(lang, t);
      } else {
        OnesNotKept(lang, env, locals', rest);
        assert Kept(env, locals, fs, vs)[1..] == Kept(env, locals', rest, vs[1..]);
      }
  }

  /** When does a message's Load give back every value?  Exactly when no field is called like
      the length local of an earlier text or container. */
  lemma LoadedExactly(lang: Lang, p: Type, fs: Fields)
    requires WellFormed(lang, p) && (p.Message? || p.Nothing?) && Compiles(lang, {}, fs, "_length")
    ensures var t := Message(p, fs);
      (forall v :: HasType(lang, t, v) ==>
         LoadInto(lang, t, Default(lang, t), Encode(t, v)) == Done(Loaded(v, |Encode(t, v)|, 0)))
      <==> !Shadowed({}, fs, "_length")
  {
    hide WellFormed, LoadInto, EncodeFields, FieldsHaveType, Kept, Encode, Compiles, Shadowed, Default, Blank;
    var t := Message(p, fs);
    var u := Default(lang, t);
    DefaultIsBlank(lang, t);
    assert u == Record(Default(lang, p), DefaultFields(lang, fs)) by { DefaultMessage(lang, p, fs); }
    if Shadowed({}, fs, "_length") {
      var vs := Ones(lang, {}, fs, "_length");
      var v := Record(Default(lang, p), vs);
      OnesTyped(lang, {}, fs, "_length");
      DefaultTyped(lang, p);
      assert HasType(lang, t, v);
      MessageLoaded(lang, p, fs, u, v, []);
      assert Encode(t, v) + [] == Encode(t, v);
      DefaultFieldsBlank(lang, fs);
      MembersSeen(lang, {}, fs, "_length", DefaultFields(lang, fs));
      OnesNotKept(lang, BindFields(fs, u.values), {}, fs);
    } else {
      forall v | HasType(lang, t, v)
        ensures LoadInto(lang, t, u, Encode(t, v)) == Done(Loaded(v, |Encode(t, v)|, 0))
      {
        MessageLoaded(lang, p, fs, u, v, []);
        assert Encode(t, v) + [] == Encode(t, v);
        CountTyped(lang, fs, v.values);
        OwnKept(BindFields(fs, u.values), {}, fs, v.values);
      }
    }
  }

  lemma DefaultMessage(lang: Lang, p: Type, fs: Fields)
    ensures Default(lang, Message(p, fs)) == Record(Default(lang, p), DefaultFields(lang, fs))
  {
  }

  // ---------------------------------------------------------------- negative lengths

  /** C# reads lengths as signed numbers: a negative one in front of a text is refused, and one in
      front of a list counts as none. */
  lemma NegativeText(x: string, n: nat, buf: seq<Byte>, st: State)
    requires 0x8000_0000 <= n < 0x1_0000_0000 && InStep(buf, st) && At(buf, st.pos, LE(n, LENGTH_SIZE))
    ensures Run(buf, GenLoad(CSharp, Text, x), st) == Refused
  {
    hide LE, UnLE, At, LoadLength;
    RunLength(buf, x, n, st);
    var l := x + "_length";
    var st1 := Moved(st, Bind(l, Num(n), st.env), LENGTH_SIZE);
    RunSeq(buf, LoadLength(x), Seq(NeedLength(l, true), ReadText(x, l, true)), st, st1);
    RunSeq(buf, NeedLength(l, true), ReadText(x, l, true), st1, st1);
  }

  lemma NegativeList(e: Type, x: string, n: nat, buf: seq<Byte>, st: State)
    requires 0x8000_0000 <= n < 0x1_0000_0000 && InStep(buf, st) && At(buf, st.pos, LE(n, LENGTH_SIZE))
    ensures Run(buf, GenLoad(CSharp, List(e), x), st) == Done(Moved(st, Bind(x + "_length", Num(n), st.env), LENGTH_SIZE))
  {
    hide LE, UnLE, At, LoadLength, ListBody;
    RunLength(buf, x, n, st);
    var l := x + "_length";
    var st1 := Moved(st, Bind(l, Num(n), st.env), LENGTH_SIZE);
    RunSeq(buf, LoadLength(x), Repeat(l, true, ListBody(CSharp, e, x)), st, st1);
  }
}
