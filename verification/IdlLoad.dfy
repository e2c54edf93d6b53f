/** Load reads what the wire holds: a value of the type, or one whose maps list their entries in
    any order and repeat keys. */
module IdlLoad {
  import opened Bytes
  import opened Idl
  import opened IdlCode
  import opened IdlCompiler
  import opened IdlTaken
  import opened IdlScopes
  import opened IdlSize
  import opened IdlStore

  /** The buffer holds these bytes at the cursor. */
  predicate At(buf: seq<Byte>, pos: nat, bs: seq<Byte>) {
    pos + |bs| <= |buf| && buf[pos..pos + |bs|] == bs
  }

  predicate InStep(buf: seq<Byte>, st: State) {
    st.pos + st.nSize == |buf|
  }

  lemma AtSplit(buf: seq<Byte>, pos: nat, a: seq<Byte>, b: seq<Byte>)
    requires At(buf, pos, a + b)
    ensures At(buf, pos, a) && At(buf, pos + |a|, b)
  {
    var w := buf[pos..pos + |a + b|];
    assert w[..|a|] == a && w[|a|..] == b;
    assert buf[pos..pos + |a|] == w[..|a|];
    assert buf[pos + |a|..pos + |a| + |b|] == w[|a|..];
  }

  /** The cursor moved past n bytes. */
  function Moved(st: State, env: Env, n: nat): State {
    State(env, st.pos + n, Minus(st.nSize, n))
  }

  lemma MovedInStep(buf: seq<Byte>, st: State, env: Env, bs: seq<Byte>)
    requires InStep(buf, st) && At(buf, st.pos, bs)
    ensures InStep(buf, Moved(st, env, |bs|))
  {}

  lemma MovedTwice(st: State, env1: Env, n: nat, env2: Env, m: nat)
    requires n + m <= st.nSize
    ensures Moved(Moved(st, env1, n), env2, m) == Moved(st, env2, n + m)
  {}

  lemma RoomTwo(buf: seq<Byte>, st: State, a: seq<Byte>, b: seq<Byte>)
    requires InStep(buf, st) && At(buf, st.pos, a) && At(buf, st.pos + |a|, b)
    ensures |a| + |b| <= st.nSize
  {}

  lemma Room(buf: seq<Byte>, st: State, bs: seq<Byte>)
    requires InStep(buf, st) && At(buf, st.pos, bs)
    ensures |bs| <= st.nSize
  {}

  // ---------------------------------------------------------------- one statement at a time

  lemma RunSeq(buf: seq<Byte>, a: Load, b: Load, st: State, st1: State)
    requires Run(buf, a, st) == Done(st1)
    ensures Run(buf, Seq(a, b), st) == Run(buf, b, st1)
  {}

  lemma RunNumber(buf: seq<Byte>, x: string, w: nat, n: nat, st: State)
    requires InStep(buf, st) && At(buf, st.pos, LE(n, w)) && n < Pow256(w)
    ensures Run(buf, Seq(Need(w), ReadNum(x, w)), st) == Done(Moved(st, Set(st.env, x, Num(n)), w))
  {
    LERoundTrip(n, w);
  }

  lemma RunLength(buf: seq<Byte>, x: string, n: nat, st: State)
    requires InStep(buf, st) && At(buf, st.pos, LE(n, LENGTH_SIZE)) && n < MaxLength(Cpp)
    ensures Run(buf, LoadLength(x), st) == Done(Moved(st, Bind(x + "_length", Num(n), st.env), LENGTH_SIZE))
  {
    PowersOf256();
    var l := x + "_length";
    var st1 := st.(env := Bind(l, Num(0), st.env));
    RunSeq(buf, Need(LENGTH_SIZE), Seq(Declare(l, Num(0)), ReadNum(l, LENGTH_SIZE)), st, st);
    RunSeq(buf, Declare(l, Num(0)), ReadNum(l, LENGTH_SIZE), st, st1);
    LERoundTrip(n, LENGTH_SIZE);
  }

  lemma RunDeclare(buf: seq<Byte>, x: string, v: Value, st: State)
    ensures Run(buf, Declare(x, v), st) == Done(st.(env := Bind(x, v, st.env)))
  {}

  lemma RunRepeat(buf: seq<Byte>, l: string, signed: bool, body: Load, st: State, n: nat)
    requires NumOf(Get(st.env, l)) == n && AsLength(n, signed) == n
    ensures Run(buf, Repeat(l, signed, body), st) == Times(buf, body, n, st)
  {
    hide Times;
  }

  lemma TimesStep(buf: seq<Byte>, body: Load, n: nat, st: State, st1: State)
    requires n > 0 && Run(buf, body, st) == Done(st1)
    ensures Times(buf, body, n, st) == Times(buf, body, n - 1, st1.(env := Pop(st1.env, Depth(st.env))))
  {
    hide Run;
  }

  lemma RunCall(buf: seq<Byte>, x: string, code: LoadCode, st: State, r: Loaded)
    requires RunCode(buf, code, Get(st.env, x), st.pos, st.nSize) == Done(r)
    ensures Run(buf, CallLoad(x, code), st) == Done(State(Set(st.env, x, r.value), r.pos, r.nSize))
  {
    hide RunCode;
  }

  // ---------------------------------------------------------------- the claim

  /** What the code of x leaves: the length local, and x set. */
  function AfterLoad(t: Type, x: string, v: Value, env: Env): Env {
    AfterTaking(t, x, v, v, env)
  }

  /** The same where v was on the wire and w was taken. */
  function AfterTaking(t: Type, x: string, v: Value, w: Value, env: Env): Env {
    if Sized(t) then Bind(x + "_length", Num(LengthOf(v)), Set(env, x, w)) else Set(env, x, w)
  }

  predicate Loads(lang: Lang, t: Type, x: string, v: Value, buf: seq<Byte>, st: State) {
    Run(buf, GenLoad(lang, t, x), st) == Done(Moved(st, AfterTaking(t, x, v, Taken(lang, t, v), st.env), |Encode(t, v)|))
  }

  predicate Loadable(lang: Lang, t: Type, x: string, v: Value, buf: seq<Byte>, st: State) {
    && WellFormed(lang, t) && t != Nothing && OnWire(lang, t, v)
    && Bound(st.env, x) && Blank(t, Get(st.env, x))
    && InStep(buf, st) && At(buf, st.pos, Encode(t, v))
  }

  lemma {:induction false} LoadValue(lang: Lang, t: Type, x: string, v: Value, buf: seq<Byte>, st: State)
    requires Loadable(lang, t, x, v, buf, st)
    ensures Loads(lang, t, x, v, buf, st)
    decreases t, 3
  {
    hide Loads, GenLoad, Run, Encode, WellFormed, OnWire, Blank, At, InStep;
    match t
    case Primitive(p) => LoadNumber(lang, p, x, v, buf, st);
    case Text => LoadText(lang, x, v, buf, st);
    case List(e) => LoadList(lang, t, e, x, v, buf, st);
    case Array(e) => LoadList(lang, t, e, x, v, buf, st);
    case StaticArray(e, n) => LoadStatic(lang, e, n, x, v, buf, st);
    case Map(k, e) => LoadMap(lang, k, e, x, v, buf, st);
    case Message(_, _) => LoadCalled(lang, t, x, v, buf, st);
    case Enum(_) => LoadCalled(lang, t, x, v, buf, st);
    case Alias(_) => LoadCalled(lang, t, x, v, buf, st);
  }

  lemma LoadNumber(lang: Lang, p: Prim, x: string, v: Value, buf: seq<Byte>, st: State)
    requires Loadable(lang, Primitive(p), x, v, buf, st)
    ensures Loads(lang, Primitive(p), x, v, buf, st)
  {
    hide Run;
    RunNumber(buf, x, Width(p), v.n, st);
  }

  lemma LocalName(x: string)
    ensures x + "_length" != x
  {
    assert |x + "_length"| == |x| + 7;
  }

  lemma LoadText(lang: Lang, x: string, v: Value, buf: seq<Byte>, st: State)
    requires Loadable(lang, Text, x, v, buf, st)
    ensures Loads(lang, Text, x, v, buf, st)
  {
    hide Loadable;
    TextParts(lang, x, v, buf, st);
    var n, l, signed := |v.bytes|, x + "_length", lang.CSharp?;
    AtSplit(buf, st.pos, LE(n, LENGTH_SIZE), v.bytes);
    RunLength(buf, x, n, st);
    var st1 := Moved(st, Bind(l, Num(n), st.env), LENGTH_SIZE);
    LocalName(x);
    RunText(buf, x, l, signed, n, st1);
    RunSeq(buf, LoadLength(x), Seq(NeedLength(l, signed), ReadText(x, l, signed)), st, st1);
  }

  lemma TextParts(lang: Lang, x: string, v: Value, buf: seq<Byte>, st: State)
    requires Loadable(lang, Text, x, v, buf, st)
    ensures v.Str? && |v.bytes| < MaxLength(lang) && InStep(buf, st) && At(buf, st.pos, LE(|v.bytes|, LENGTH_SIZE) + v.bytes)
  {
    hide At, InStep, Utf8;
  }

  lemma RunText(buf: seq<Byte>, x: string, l: string, signed: bool, n: nat, st: State)
    requires l != x && Get(st.env, l) == Num(n) && AsLength(n, signed) == n && InStep(buf, st) && n <= st.nSize
    ensures Run(buf, Seq(NeedLength(l, signed), ReadText(x, l, signed)), st) ==
      Done(Moved(st, Set(st.env, x, Str(buf[st.pos..st.pos + n])), n))
  {}

  // ---------------------------------------------------------------- lists

  lemma ListParts(lang: Lang, t: Type, e: Type, x: string, v: Value, buf: seq<Byte>, st: State)
    requires (t == List(e) || t == Array(e)) && Loadable(lang, t, x, v, buf, st)
    ensures v.Items? && |v.items| < MaxLength(lang) && ItemsOnWire(lang, e, v.items)
    ensures WellFormed(lang, e) && e != Nothing && Bound(st.env, x) && Get(st.env, x) == Items([]) && InStep(buf, st)
    ensures Encode(t, v) == LE(|v.items|, LENGTH_SIZE) + EncodeItems(e, v.items) && At(buf, st.pos, Encode(t, v))
    ensures Taken(lang, t, v) == Items(TakenItems(lang, e, v.items))
    ensures GenLoad(lang, t, x) == Seq(LoadLength(x), Repeat(x + "_length", lang.CSharp?, ListBody(lang, e, x)))
  {
    hide At, InStep, ListBody, EncodeItems, LoadLength;
  }

  lemma {:induction false} LoadList(lang: Lang, t: Type, e: Type, x: string, v: Value, buf: seq<Byte>, st: State)
    requires (t == List(e) || t == Array(e)) && Loadable(lang, t, x, v, buf, st)
    ensures Loads(lang, t, x, v, buf, st)
    decreases t, 2
  {
    hide Run, Times, GenLoad, ListBody, LoadLength, Loadable, At, InStep, Encode, EncodeItems, ItemsOnWire, WellFormed;
    hide Taken, TakenItems;
    ListParts(lang, t, e, x, v, buf, st);
    var vs, l, signed := v.items, x + "_length", lang.CSharp?;
    AtSplit(buf, st.pos, LE(|vs|, LENGTH_SIZE), EncodeItems(e, vs));
    RunLength(buf, x, |vs|, st);
    var env1 := Bind(l, Num(|vs|), st.env);
    var st1 := Moved(st, env1, LENGTH_SIZE);
    MovedInStep(buf, st, env1, LE(|vs|, LENGTH_SIZE));
    RoomTwo(buf, st, LE(|vs|, LENGTH_SIZE), EncodeItems(e, vs));
    MovedTwice(st, env1, LENGTH_SIZE, Set(env1, x, Taken(lang, t, v)), |EncodeItems(e, vs)|);
    LocalName(x);
    RunSeq(buf, LoadLength(x), Repeat(l, signed, ListBody(lang, e, x)), st, st1);
    RunRepeat(buf, l, signed, ListBody(lang, e, x), st1, |vs|);
    LoadItems(lang, e, x, [], vs, buf, st1);
    assert [] + TakenItems(lang, e, vs) == TakenItems(lang, e, vs);
  }

  lemma NoRounds(e: Type, buf: seq<Byte>, body: Load, st: State)
    ensures Times(buf, body, 0, st) == Done(Moved(st, st.env, 0)) && EncodeItems(e, []) == []
  {
    hide Run;
  }

  lemma WireItems(lang: Lang, e: Type, vs: seq<Value>)
    requires vs != [] && ItemsOnWire(lang, e, vs)
    ensures OnWire(lang, e, vs[0]) && ItemsOnWire(lang, e, vs[1..])
    ensures EncodeItems(e, vs) == Encode(e, vs[0]) + EncodeItems(e, vs[1..])
    ensures TakenItems(lang, e, vs) == [Taken(lang, e, vs[0])] + TakenItems(lang, e, vs[1..])
  {
    hide OnWire, Encode, Taken;
  }

  /** The rest of a list's rounds append the rest of its items. */
  lemma {:induction false} LoadItems(lang: Lang, e: Type, x: string, done: seq<Value>, vs: seq<Value>, buf: seq<Byte>, st: State)
    requires WellFormed(lang, e) && e != Nothing && ItemsOnWire(lang, e, vs)
    requires Bound(st.env, x) && Get(st.env, x) == Items(done)
    requires InStep(buf, st) && At(buf, st.pos, EncodeItems(e, vs))
    ensures Times(buf, ListBody(lang, e, x), |vs|, st) ==
      Done(Moved(st, Set(st.env, x, Items(done + TakenItems(lang, e, vs))), |EncodeItems(e, vs)|))
    decreases e, 6, |vs|
  {
    hide Run, ListBody, WellFormed, OnWire, Encode, Over, Get, Set, Pop, Times, ItemsOnWire, EncodeItems, At, InStep, Taken;
    hide TakenItems;
    if vs == [] {
      assert done + TakenItems(lang, e, vs) == done;
      SetSame(st.env, x);
      NoRounds(e, buf, ListBody(lang, e, x), st);
    } else {
      WireItems(lang, e, vs);
      var w, more := Taken(lang, e, vs[0]), TakenItems(lang, e, vs[1..]);
      AtSplit(buf, st.pos, Encode(e, vs[0]), EncodeItems(e, vs[1..]));
      MovedInStep(buf, st, Set(st.env, x, Items(done + [w])), Encode(e, vs[0]));
      RoomTwo(buf, st, Encode(e, vs[0]), EncodeItems(e, vs[1..]));
      var inner := ListRound(lang, e, x, done, vs[0], buf, st);
      var env1 := Set(st.env, x, Items(done + [w]));
      TimesStep(buf, ListBody(lang, e, x), |vs|, st, Moved(st, inner, |Encode(e, vs[0])|));
      OverPop(inner, env1, x);
      SetThenGet(st.env, x, Items(done + [w]), x);
      MovedTwice(st, env1, |Encode(e, vs[0])|, Set(st.env, x, Items(done + [w] + more)), |EncodeItems(e, vs[1..])|);
      LoadItems(lang, e, x, done + [w], vs[1..], buf, Moved(st, env1, |Encode(e, vs[0])|));
      SetAgain(st.env, x, Items(done + [w]), Items(done + [w] + more));
      assert done + [w] + more == done + TakenItems(lang, e, vs);
    }
  }

  /** A declared element, loaded, above the scope it was declared in. */
  lemma {:induction false} LoadDeclared(lang: Lang, e: Type, y: string, v: Value, buf: seq<Byte>, st: State)
    returns (inner: Env)
    requires WellFormed(lang, e) && e != Nothing && OnWire(lang, e, v) && InStep(buf, st) && At(buf, st.pos, Encode(e, v))
    ensures Run(buf, LoadNew(lang, e, y), st) == Done(Moved(st, inner, |Encode(e, v)|))
    ensures var w := Taken(lang, e, v); inner == AfterTaking(e, y, v, w, Bind(y, w, st.env)) && Get(inner, y) == w
    decreases e, 4
  {
    hide Run, WellFormed, OnWire, Encode, At, InStep, Blank, GenLoad, Taken;
    var st1 := st.(env := Bind(y, Default(lang, e), st.env));
    RunDeclare(buf, y, Default(lang, e), st);
    DefaultIsBlank(lang, e);
    assert InStep(buf, st1) by { SameCursor(buf, st, st1); }
    LoadValue(lang, e, y, v, buf, st1);
    RunSeq(buf, Declare(y, Default(lang, e)), GenLoad(lang, e, y), st, st1);
    LocalName(y);
    inner := AfterTaking(e, y, v, Taken(lang, e, v), Bind(y, Taken(lang, e, v), st.env));
  }

  lemma DeclaredOver(e: Type, y: string, v: Value, w: Value, env: Env, x: string)
    requires x != y && x != y + "_length"
    ensures Over(AfterTaking(e, y, v, w, Bind(y, w, env)), env, x)
  {
    assert Over(Bind(y, w, env), env, x);
  }

  lemma SameCursor(buf: seq<Byte>, st: State, st1: State)
    requires InStep(buf, st) && st1.pos == st.pos && st1.nSize == st.nSize
    ensures InStep(buf, st1)
  {}

  lemma ElementNames(x: string)
    ensures x + "_val" != x && x + "_val" + "_length" != x
  {
    assert |x + "_val"| == |x| + 4 && |x + "_val" + "_length"| == |x| + 11;
  }

  lemma {:induction false} ListRound(lang: Lang, e: Type, x: string, done: seq<Value>, v: Value, buf: seq<Byte>, st: State)
    returns (inner: Env)
    requires WellFormed(lang, e) && e != Nothing && OnWire(lang, e, v)
    requires Bound(st.env, x) && Get(st.env, x) == Items(done)
    requires InStep(buf, st) && At(buf, st.pos, Encode(e, v))
    ensures Run(buf, ListBody(lang, e, x), st) == Done(Moved(st, inner, |Encode(e, v)|))
    ensures Over(inner, Set(st.env, x, Items(done + [Taken(lang, e, v)])), x)
    decreases e, 5
  {
    hide Run, WellFormed, OnWire, Encode, At, InStep, LoadNew, Taken;
    var w := Taken(lang, e, v);
    ElementNames(x);
    var env1 := LoadDeclared(lang, e, x + "_val", v, buf, st);
    var st1 := Moved(st, env1, |Encode(e, v)|);
    DeclaredOver(e, x + "_val", v, w, st.env, x);
    OverGet(env1, st.env, x);
    OverSet(env1, st.env, x, Items(done + [w]));
    inner := Set(env1, x, Items(done + [w]));
    RunSeq(buf, LoadNew(lang, e, x + "_val"), PushBack(x, x + "_val"), st, st1);
    RunPushBack(buf, x, x + "_val", st1);
  }

  lemma RunPushBack(buf: seq<Byte>, x: string, item: string, st: State)
    ensures Run(buf, PushBack(x, item), st) ==
      Done(st.(env := Set(st.env, x, Items(ItemsOf(Get(st.env, x)) + [Get(st.env, item)]))))
  {}

  // ---------------------------------------------------------------- static arrays

  lemma {:induction false} LoadStatic(lang: Lang, e: Type, n: nat, x: string, v: Value, buf: seq<Byte>, st: State)
    requires Loadable(lang, StaticArray(e, n), x, v, buf, st)
    ensures Loads(lang, StaticArray(e, n), x, v, buf, st)
    decreases StaticArray(e, n), 2
  {
    var vs := v.items;
    if lang.Cpp? && e.Primitive? {
      LoadRaw(e, n, x, v, buf, st);
    } else {
      hide Run, FillFrom, WellFormed, LoadNew, GenLoad, EncodeItems, At, InStep, OnWire;
      ElementWellFormed(lang, e, n);
      StaticCode(lang, e, n, x);
      var us := Get(st.env, x).items;
      RunFill(buf, x, n, x + "_val", LoadNew(lang, e, x + "_val"), st);
      assert vs[0..] == vs && us[..0] == TakenItems(lang, e, vs)[..0];
      LoadElements(lang, e, x, us, vs, 0, buf, st);
    }
  }

  lemma LoadRaw(e: Type, n: nat, x: string, v: Value, buf: seq<Byte>, st: State)
    requires e.Primitive? && Loadable(Cpp, StaticArray(e, n), x, v, buf, st)
    ensures Loads(Cpp, StaticArray(e, n), x, v, buf, st)
  {
    hide Numbers, EncodeItems, WellFormed, Run;
    RawAsIs(Cpp, e, v.items);
    SameWidth(Cpp, e, v.items);
    NumbersRead(Cpp, e, v.items);
    Room(buf, st, EncodeItems(e, v.items));
    RunItems(buf, x, Width(e.prim), n, EncodeItems(e, v.items), st);
  }

  lemma RawAsIs(lang: Lang, e: Type, vs: seq<Value>)
    requires e.Primitive? && ItemsOnWire(lang, e, vs)
    ensures ItemsTyped(lang, e, vs) && TakenItems(lang, e, vs) == vs
  {
    assert forall i :: 0 <= i < |vs| ==> OnWire(lang, e, vs[i]);
    assert forall i :: 0 <= i < |vs| ==> TakenItems(lang, e, vs)[i] == vs[i];
  }

  lemma RunItems(buf: seq<Byte>, x: string, w: nat, n: nat, bs: seq<Byte>, st: State)
    requires |bs| == w * n && At(buf, st.pos, bs)
    ensures Run(buf, ReadItems(x, w, n), st) == Done(Moved(st, Set(st.env, x, Items(Numbers(bs, w, n))), |bs|))
  {
    hide Numbers;
  }

  lemma StaticCode(lang: Lang, e: Type, n: nat, x: string)
    requires !(lang.Cpp? && e.Primitive?)
    ensures GenLoad(lang, StaticArray(e, n), x) == Fill(x, n, x + "_val", LoadNew(lang, e, x + "_val"))
  {
    hide LoadNew;
  }

  lemma ElementWellFormed(lang: Lang, e: Type, n: nat)
    requires WellFormed(lang, StaticArray(e, n))
    ensures WellFormed(lang, e) && e != Nothing
  {}

  /** Numbers copied in one block are the numbers that were stored one by one. */
  lemma {:induction false} NumbersRead(lang: Lang, e: Type, vs: seq<Value>)
    requires e.Primitive? && ItemsTyped(lang, e, vs)
    requires |EncodeItems(e, vs)| == Width(e.prim) * |vs|
    ensures Numbers(EncodeItems(e, vs), Width(e.prim), |vs|) == vs
  {
    hide LE, UnLE, Pow256, Width;
    if vs != [] {
      var w, bs := Width(e.prim), EncodeItems(e, vs);
      ItemsStep(lang, e, vs);
      LERoundTrip(vs[0].n, w);
      SameWidth(lang, e, vs[1..]);
      assert bs[..w] == LE(vs[0].n, w) && bs[w..] == EncodeItems(e, vs[1..]);
      NumbersRead(lang, e, vs[1..]);
    }
  }

  lemma RunFill(buf: seq<Byte>, x: string, n: nat, item: string, body: Load, st: State)
    ensures Run(buf, Fill(x, n, item, body), st) == FillFrom(buf, x, 0, n, item, body, st)
  {
    hide FillFrom;
  }

  lemma FillStep(buf: seq<Byte>, x: string, i: nat, n: nat, item: string, body: Load, st: State, st1: State)
    requires i < n && Run(buf, body, st) == Done(st1)
    ensures
      var env := Set(st1.env, x, Items(PutAt(ItemsOf(Get(st1.env, x)), i, Get(st1.env, item))));
      FillFrom(buf, x, i, n, item, body, st) ==
        FillFrom(buf, x, i + 1, n, item, body, st1.(env := Pop(env, Depth(st.env))))
  {
    hide Run;
  }

  lemma NoneToFill(e: Type, buf: seq<Byte>, x: string, n: nat, item: string, body: Load, st: State)
    ensures FillFrom(buf, x, n, n, item, body, st) == Done(Moved(st, st.env, 0)) && EncodeItems(e, []) == []
  {
    hide Run;
  }

  /** The rest of a static array's rounds overwrite the rest of its elements. */
  lemma {:induction false} LoadElements(
    lang: Lang, e: Type, x: string, us: seq<Value>, vs: seq<Value>, i: nat, buf: seq<Byte>, st: State)
    requires WellFormed(lang, e) && e != Nothing && ItemsOnWire(lang, e, vs)
    requires i <= |vs| && |us| == |vs| && us[..i] == TakenItems(lang, e, vs)[..i]
    requires Bound(st.env, x) && Get(st.env, x) == Items(us)
    requires InStep(buf, st) && At(buf, st.pos, EncodeItems(e, vs[i..]))
    ensures FillFrom(buf, x, i, |vs|, x + "_val", LoadNew(lang, e, x + "_val"), st) ==
      Done(Moved(st, Set(st.env, x, Items(TakenItems(lang, e, vs))), |EncodeItems(e, vs[i..])|))
    decreases e, 6, |vs| - i
  {
    hide Run, LoadNew, WellFormed, OnWire, Encode, Over, Get, Set, Pop, FillFrom, ItemsOnWire, EncodeItems, At, InStep, Taken;
    hide TakenItems;
    var ws := TakenItems(lang, e, vs);
    if i == |vs| {
      assert us == ws;
      SetSame(st.env, x);
      NoneToFill(e, buf, x, i, x + "_val", LoadNew(lang, e, x + "_val"), st);
    } else {
      var v, item, rest := vs[i], x + "_val", vs[i..];
      var w := Taken(lang, e, v);
      assert rest[1..] == vs[i + 1..];
      TypedTail(lang, e, vs, i);
      WireItems(lang, e, rest);
      AtSplit(buf, st.pos, Encode(e, v), EncodeItems(e, rest[1..]));
      ElementNames(x);
      var env1 := LoadDeclared(lang, e, item, v, buf, st);
      var us1 := us[i := w];
      var env2 := Set(st.env, x, Items(us1));
      DeclaredOver(e, item, v, w, st.env, x);
      OverGet(env1, st.env, x);
      OverSet(env1, st.env, x, Items(us1));
      OverPop(Set(env1, x, Items(us1)), env2, x);
      MovedInStep(buf, st, env2, Encode(e, v));
      RoomTwo(buf, st, Encode(e, v), EncodeItems(e, rest[1..]));
      MovedTwice(st, env2, |Encode(e, v)|, Set(st.env, x, Items(ws)), |EncodeItems(e, rest[1..])|);
      FillStep(buf, x, i, |vs|, item, LoadNew(lang, e, item), st, Moved(st, env1, |Encode(e, v)|));
      SetThenGet(st.env, x, Items(us1), x);
      assert us1[..i + 1] == ws[..i + 1];
      LoadElements(lang, e, x, us1, vs, i + 1, buf, Moved(st, env2, |Encode(e, v)|));
      SetAgain(st.env, x, Items(us1), Items(ws));
    }
  }

  lemma TypedTail(lang: Lang, e: Type, vs: seq<Value>, i: nat)
    requires i <= |vs| && ItemsOnWire(lang, e, vs)
    ensures ItemsOnWire(lang, e, vs[i..])
  {
    hide OnWire;
  }

  // ---------------------------------------------------------------- maps

  lemma MapParts(lang: Lang, k: Type, e: Type, x: string, v: Value, buf: seq<Byte>, st: State)
    requires Loadable(lang, Map(k, e), x, v, buf, st)
    ensures v.Entries? && |v.entries| < MaxLength(lang) && EntriesOnWire(lang, k, e, v.entries)
    ensures WellFormed(lang, Map(k, e))
    ensures Taken(lang, Map(k, e), v) == Entries(PutAll(lang, k, [], TakenEntries(lang, k, e, v.entries)))
    ensures Bound(st.env, x) && Get(st.env, x) == Entries([]) && InStep(buf, st)
    ensures Encode(Map(k, e), v) == LE(|v.entries|, LENGTH_SIZE) + EncodeEntries(k, e, v.entries)
    ensures At(buf, st.pos, Encode(Map(k, e), v))
    ensures GenLoad(lang, Map(k, e), x) == Seq(LoadLength(x), Repeat(x + "_length", lang.CSharp?, MapBody(lang, k, e, x)))
  {
    hide At, InStep, MapBody, EncodeEntries, LoadLength, PutAll;
  }

  lemma {:induction false} LoadMap(lang: Lang, k: Type, e: Type, x: string, v: Value, buf: seq<Byte>, st: State)
    requires Loadable(lang, Map(k, e), x, v, buf, st)
    ensures Loads(lang, Map(k, e), x, v, buf, st)
    decreases Map(k, e), 2
  {
    hide Run, Times, GenLoad, MapBody, LoadLength, Loadable, At, InStep, Encode, EncodeEntries, EntriesOnWire, WellFormed;
    hide Taken, PutAll;
    MapParts(lang, k, e, x, v, buf, st);
    var es, l, signed := v.entries, x + "_length", lang.CSharp?;
    AtSplit(buf, st.pos, LE(|es|, LENGTH_SIZE), EncodeEntries(k, e, es));
    RunLength(buf, x, |es|, st);
    var env1 := Bind(l, Num(|es|), st.env);
    var st1 := Moved(st, env1, LENGTH_SIZE);
    MovedInStep(buf, st, env1, LE(|es|, LENGTH_SIZE));
    RoomTwo(buf, st, LE(|es|, LENGTH_SIZE), EncodeEntries(k, e, es));
    MovedTwice(st, env1, LENGTH_SIZE, Set(env1, x, Taken(lang, Map(k, e), v)), |EncodeEntries(k, e, es)|);
    LocalName(x);
    RunSeq(buf, LoadLength(x), Repeat(l, signed, MapBody(lang, k, e, x)), st, st1);
    RunRepeat(buf, l, signed, MapBody(lang, k, e, x), st1, |es|);
    LoadEntries(lang, k, e, x, [], es, buf, st1);
  }

  lemma NoEntryRounds(k: Type, e: Type, buf: seq<Byte>, body: Load, st: State)
    ensures Times(buf, body, 0, st) == Done(Moved(st, st.env, 0)) && EncodeEntries(k, e, []) == []
  {
    hide Run;
  }

  lemma WireEntries(lang: Lang, k: Type, e: Type, es: seq<Entry>)
    requires es != [] && EntriesOnWire(lang, k, e, es)
    ensures OnWire(lang, k, es[0].key) && OnWire(lang, e, es[0].value) && EntriesOnWire(lang, k, e, es[1..])
    ensures EncodeEntries(k, e, es) == Encode(k, es[0].key) + Encode(e, es[0].value) + EncodeEntries(k, e, es[1..])
  {
    hide OnWire, Encode;
  }

  lemma FirstTaken(lang: Lang, k: Type, e: Type, es: seq<Entry>)
    requires es != []
    ensures TakenEntries(lang, k, e, es) == [TakenEntry(lang, k, e, es[0])] + TakenEntries(lang, k, e, es[1..])
  {
    hide Taken;
  }

  function TakenEntry(lang: Lang, k: Type, e: Type, en: Entry): Entry {
    Entry(Taken(lang, k, en.key), Taken(lang, e, en.value))
  }

  lemma NothingPut(lang: Lang, k: Type, e: Type, done: seq<Entry>)
    ensures PutAll(lang, k, done, TakenEntries(lang, k, e, [])) == done
  {
  }

  lemma FirstPut(lang: Lang, k: Type, done: seq<Entry>, en: Entry, es: seq<Entry>)
    ensures PutAll(lang, k, done, [en] + es) == PutAll(lang, k, Put(lang, k, done, en), es)
  {
    hide Put;
    assert ([en] + es)[1..] == es;
  }

  /** The rest of a map's rounds put in the rest of its entries, among those already there. */
  lemma {:induction false} LoadEntries(
    lang: Lang, k: Type, e: Type, x: string, done: seq<Entry>, es: seq<Entry>, buf: seq<Byte>, st: State)
    requires WellFormed(lang, Map(k, e)) && EntriesOnWire(lang, k, e, es)
    requires Bound(st.env, x) && Get(st.env, x) == Entries(done)
    requires InStep(buf, st) && At(buf, st.pos, EncodeEntries(k, e, es))
    ensures Times(buf, MapBody(lang, k, e, x), |es|, st) ==
      Done(Moved(st, Set(st.env, x, Entries(PutAll(lang, k, done, TakenEntries(lang, k, e, es)))), |EncodeEntries(k, e, es)|))
    decreases Map(k, e), 1, |es|
  {
    hide Run, MapBody, WellFormed, OnWire, Encode, Over, Get, Set, Pop, Times, EntriesOnWire, EncodeEntries, At, InStep;
    hide Taken, TakenEntries, TakenEntry, Put, PutAll;
    if es == [] {
      NothingPut(lang, k, e, done);
      SetSame(st.env, x);
      NoEntryRounds(k, e, buf, MapBody(lang, k, e, x), st);
    } else {
      WireEntries(lang, k, e, es);
      FirstTaken(lang, k, e, es);
      var en, next := es[0], Put(lang, k, done, TakenEntry(lang, k, e, es[0]));
      var all := PutAll(lang, k, done, TakenEntries(lang, k, e, es));
      FirstPut(lang, k, done, TakenEntry(lang, k, e, en), TakenEntries(lang, k, e, es[1..]));
      var bs, env1 := Encode(k, en.key) + Encode(e, en.value), Set(st.env, x, Entries(next));
      AtSplit(buf, st.pos, bs, EncodeEntries(k, e, es[1..]));
      MovedInStep(buf, st, env1, bs);
      RoomTwo(buf, st, bs, EncodeEntries(k, e, es[1..]));
      MovedTwice(st, env1, |bs|, Set(st.env, x, Entries(all)), |EncodeEntries(k, e, es[1..])|);
      var inner := MapRound(lang, k, e, x, done, en, buf, st);
      TimesStep(buf, MapBody(lang, k, e, x), |es|, st, Moved(st, inner, |bs|));
      OverPop(inner, env1, x);
      SetThenGet(st.env, x, Entries(next), x);
      LoadEntries(lang, k, e, x, next, es[1..], buf, Moved(st, env1, |bs|));
      SetAgain(st.env, x, Entries(next), Entries(all));
    }
  }

  lemma {:induction false} MapRound(
    lang: Lang, k: Type, e: Type, x: string, done: seq<Entry>, en: Entry, buf: seq<Byte>, st: State)
    returns (inner: Env)
    requires WellFormed(lang, Map(k, e)) && OnWire(lang, k, en.key) && OnWire(lang, e, en.value)
    requires Bound(st.env, x) && Get(st.env, x) == Entries(done)
    requires InStep(buf, st) && At(buf, st.pos, Encode(k, en.key) + Encode(e, en.value))
    ensures Run(buf, MapBody(lang, k, e, x), st) == Done(Moved(st, inner, |Encode(k, en.key) + Encode(e, en.value)|))
    ensures Over(inner, Set(st.env, x, Entries(Put(lang, k, done, TakenEntry(lang, k, e, en)))), x)
    decreases Map(k, e), 0, 2
  {
    hide Taken, OnWire, WellFormed, Encode, Run;
    if lang.Cpp? {
      inner := MapRoundCpp(k, e, x, done, en, buf, st);
    } else {
      inner := MapRoundCSharp(k, e, x, done, en, buf, st);
    }
  }

  lemma MapNames(x: string)
    ensures var key, val, elmt := x + "_key", x + "_val", x + "_elmt";
      && key != x && val != x && elmt != x && key != val && key != elmt
      && key + "_length" != x && val + "_length" != x && elmt + "_length" != x
      && val + "_length" != key && elmt + "_length" != key && key + "_length" != elmt
  {
    var key, val, elmt := x + "_key", x + "_val", x + "_elmt";
    assert |key| == |x| + 4 && |val| == |x| + 4 && |elmt| == |x| + 5;
    assert key[|x| + 1] == 'k' && val[|x| + 1] == 'v';
    assert |key + "_length"| == |x| + 11 && |val + "_length"| == |x| + 11 && |elmt + "_length"| == |x| + 12;
  }

  lemma KeysWellFormed(lang: Lang, k: Type, e: Type)
    requires WellFormed(lang, Map(k, e))
    ensures WellFormed(lang, k) && k != Nothing && WellFormed(lang, e) && e != Nothing
  {}

  /** C++ loads the key before it declares the element. */
  lemma {:induction false} LoadPairCpp(k: Type, e: Type, x: string, en: Entry, last: Load, buf: seq<Byte>, st: State)
    returns (env2: Env)
    requires WellFormed(Cpp, Map(k, e)) && OnWire(Cpp, k, en.key) && OnWire(Cpp, e, en.value)
    requires InStep(buf, st) && At(buf, st.pos, Encode(k, en.key) + Encode(e, en.value))
    ensures
      var st2 := Moved(st, env2, |Encode(k, en.key) + Encode(e, en.value)|);
      Run(buf, Seq(LoadNew(Cpp, k, x + "_key"), Seq(LoadNew(Cpp, e, x + "_val"), last)), st) == Run(buf, last, st2)
    ensures Get(env2, x + "_key") == Taken(Cpp, k, en.key) && Get(env2, x + "_val") == Taken(Cpp, e, en.value)
    ensures Over(env2, st.env, x)
    decreases Map(k, e), 0, 0
  {
    hide Run, WellFormed, OnWire, Encode, At, InStep, LoadNew, AfterTaking, Over, Get, Set, Default, Minus, Taken;
    KeysWellFormed(Cpp, k, e);
    var key, val := x + "_key", x + "_val";
    MapNames(x);
    AtSplit(buf, st.pos, Encode(k, en.key), Encode(e, en.value));
    var env1 := LoadDeclared(Cpp, k, key, en.key, buf, st);
    var st1 := Moved(st, env1, |Encode(k, en.key)|);
    MovedInStep(buf, st, env1, Encode(k, en.key));
    RoomTwo(buf, st, Encode(k, en.key), Encode(e, en.value));
    env2 := LoadDeclared(Cpp, e, val, en.value, buf, st1);
    var st2 := Moved(st1, env2, |Encode(e, en.value)|);
    MovedTwice(st, env1, |Encode(k, en.key)|, env2, |Encode(e, en.value)|);
    var u, w := Taken(Cpp, k, en.key), Taken(Cpp, e, en.value);
    DeclaredOver(e, val, en.value, w, env1, key);
    OverGet(env2, env1, key);
    DeclaredOver(e, val, en.value, w, env1, x);
    DeclaredOver(k, key, en.key, u, st.env, x);
    OverOver(env2, env1, st.env, x);
    RunSeq(buf, LoadNew(Cpp, e, val), last, st1, st2);
    RunSeq(buf, LoadNew(Cpp, k, key), Seq(LoadNew(Cpp, e, val), last), st, st1);
  }

  lemma {:induction false} MapRoundCpp(
    k: Type, e: Type, x: string, done: seq<Entry>, en: Entry, buf: seq<Byte>, st: State) returns (inner: Env)
    requires WellFormed(Cpp, Map(k, e)) && OnWire(Cpp, k, en.key) && OnWire(Cpp, e, en.value)
    requires Bound(st.env, x) && Get(st.env, x) == Entries(done)
    requires InStep(buf, st) && At(buf, st.pos, Encode(k, en.key) + Encode(e, en.value))
    ensures Run(buf, MapBody(Cpp, k, e, x), st) == Done(Moved(st, inner, |Encode(k, en.key) + Encode(e, en.value)|))
    ensures Over(inner, Set(st.env, x, Entries(Put(Cpp, k, done, TakenEntry(Cpp, k, e, en)))), x)
    decreases Map(k, e), 0, 1
  {
    hide Run, WellFormed, OnWire, Encode, At, InStep, LoadNew, InsertSorted, Taken;
    var key, val := x + "_key", x + "_val";
    var env2 := LoadPairCpp(k, e, x, en, Insert(x, key, val, k), buf, st);
    var st2 := Moved(st, env2, |Encode(k, en.key) + Encode(e, en.value)|);
    OverGet(env2, st.env, x);
    var next := Put(Cpp, k, done, TakenEntry(Cpp, k, e, en));
    OverSet(env2, st.env, x, Entries(next));
    inner := Set(env2, x, Entries(next));
    RunInsert(buf, x, key, val, k, st2);
  }

  lemma RunInsert(buf: seq<Byte>, x: string, key: string, item: string, k: Type, st: State)
    ensures Run(buf, Insert(x, key, item, k), st) == Done(st.(env :=
      Set(st.env, x, Entries(InsertSorted(k, EntriesOf(Get(st.env, x)), Entry(Get(st.env, key), Get(st.env, item)))))))
  {}

  lemma RunAssign(buf: seq<Byte>, x: string, key: string, item: string, st: State)
    ensures Run(buf, Assign(x, key, item), st) == Done(st.(env :=
      Set(st.env, x, Entries(AssignKey(EntriesOf(Get(st.env, x)), Entry(Get(st.env, key), Get(st.env, item)))))))
  {}

  lemma OverBind(inner: Env, env: Env, y: string, w: Value, x: string)
    requires Over(inner, env, x) && y != x
    ensures Over(Bind(y, w, inner), env, x)
  {}

  /** The scope after C#'s key was loaded: the element is still as declared. */
  lemma KeyLoaded(k: Type, e: Type, x: string, v: Value, u: Value, env: Env)
    ensures
      var key, elmt := x + "_key", x + "_elmt";
      var env0 := Bind(elmt, Default(CSharp, e), Bind(key, Default(CSharp, k), env));
      var env1 := Bind(elmt, Default(CSharp, e), Bind(key, u, env));
      && Bound(env0, key) && Get(env0, key) == Default(CSharp, k)
      && AfterTaking(k, key, v, u, env0) == (if Sized(k) then Bind(key + "_length", Num(LengthOf(v)), env1) else env1)
      && Bound(AfterTaking(k, key, v, u, env0), elmt) && Get(AfterTaking(k, key, v, u, env0), elmt) == Default(CSharp, e)
  {
    hide Default;
    MapNames(x);
    var key, elmt := x + "_key", x + "_elmt";
    assert Set(Bind(key, Default(CSharp, k), env), key, u) == Bind(key, u, env);
    LocalName(key);
  }

  /** The scope after the element was loaded too: through the length locals, the pair and
      the map are still seen. */
  lemma PairLoaded(k: Type, e: Type, x: string, en: Entry, to: Entry, env: Env)
    ensures
      var key, elmt := x + "_key", x + "_elmt";
      var env1 := Bind(elmt, Default(CSharp, e), Bind(key, to.key, env));
      var env2 := AfterTaking(e, elmt, en.value, to.value, if Sized(k) then Bind(key + "_length", Num(LengthOf(en.key)), env1) else env1);
      Get(env2, key) == to.key && Get(env2, elmt) == to.value && Over(env2, env, x)
  {
    hide Default;
    var key, elmt := x + "_key", x + "_elmt";
    MapNames(x);
    LocalName(key);
    LocalName(elmt);
    var env1 := Bind(elmt, Default(CSharp, e), Bind(key, to.key, env));
    var env3 := Bind(elmt, to.value, Bind(key, to.key, env));
    var env4 := if Sized(k) then Bind(key + "_length", Num(LengthOf(en.key)), env3) else env3;
    var env2 := if Sized(e) then Bind(elmt + "_length", Num(LengthOf(en.value)), env4) else env4;
    assert Set(env1, elmt, to.value) == env3;
    forall y | y == key || y == elmt || y == x
      ensures Over(env4, env3, y) && Over(env2, env4, y)
    {
      OverBind(env3, env3, key + "_length", Num(LengthOf(en.key)), y);
      OverBind(env4, env4, elmt + "_length", Num(LengthOf(en.value)), y);
    }
    OverGet(env4, env3, key);
    OverGet(env2, env4, key);
    OverGet(env4, env3, elmt);
    OverGet(env2, env4, elmt);
    OverBind(env, env, key, to.key, x);
    OverBind(env3.outer, env, elmt, to.value, x);
    OverOver(env4, env3, env, x);
    OverOver(env2, env4, env, x);
  }

  /** The state once C# has declared a key and an element, and once it has loaded the key. */
  function PairDeclared(k: Type, e: Type, x: string, st: State): State {
    st.(env := Bind(x + "_elmt", Default(CSharp, e), Bind(x + "_key", Default(CSharp, k), st.env)))
  }

  function KeyDone(k: Type, e: Type, x: string, v: Value, st: State): State {
    Moved(st, AfterTaking(k, x + "_key", v, Taken(CSharp, k, v), PairDeclared(k, e, x, st).env), |Encode(k, v)|)
  }

  lemma {:induction false} LoadKeyCSharp(k: Type, e: Type, x: string, v: Value, buf: seq<Byte>, st: State)
    requires WellFormed(CSharp, k) && k != Nothing && OnWire(CSharp, k, v)
    requires InStep(buf, st) && At(buf, st.pos, Encode(k, v))
    ensures Run(buf, GenLoad(CSharp, k, x + "_key"), PairDeclared(k, e, x, st)) == Done(KeyDone(k, e, x, v, st))
    ensures InStep(buf, KeyDone(k, e, x, v, st))
    decreases k, 4
  {
    hide Run, WellFormed, OnWire, Encode, At, InStep, GenLoad, Default, Blank, Get, Set, Bound, AfterTaking, Taken;
    DefaultIsBlank(CSharp, k);
    SameCursor(buf, st, PairDeclared(k, e, x, st));
    KeyLoaded(k, e, x, v, Taken(CSharp, k, v), st.env);
    LoadValue(CSharp, k, x + "_key", v, buf, PairDeclared(k, e, x, st));
    MovedInStep(buf, st, KeyDone(k, e, x, v, st).env, Encode(k, v));
  }

  lemma {:induction false} LoadElementCSharp(k: Type, e: Type, x: string, en: Entry, buf: seq<Byte>, st: State)
    returns (st2: State)
    requires WellFormed(CSharp, e) && e != Nothing && OnWire(CSharp, e, en.value)
    requires InStep(buf, KeyDone(k, e, x, en.key, st)) && At(buf, KeyDone(k, e, x, en.key, st).pos, Encode(e, en.value))
    ensures Run(buf, GenLoad(CSharp, e, x + "_elmt"), KeyDone(k, e, x, en.key, st)) == Done(st2)
    ensures st2 == Moved(KeyDone(k, e, x, en.key, st), st2.env, |Encode(e, en.value)|)
    ensures var to := TakenEntry(CSharp, k, e, en);
      Get(st2.env, x + "_key") == to.key && Get(st2.env, x + "_elmt") == to.value && Over(st2.env, st.env, x)
    decreases e, 4
  {
    hide Run, WellFormed, OnWire, Encode, At, InStep, GenLoad, Default, Blank, Over, Get, Set, Bound, AfterTaking, Taken;
    DefaultIsBlank(CSharp, e);
    var st1, to := KeyDone(k, e, x, en.key, st), TakenEntry(CSharp, k, e, en);
    KeyLoaded(k, e, x, en.key, to.key, st.env);
    LoadValue(CSharp, e, x + "_elmt", en.value, buf, st1);
    st2 := Moved(st1, AfterTaking(e, x + "_elmt", en.value, to.value, st1.env), |Encode(e, en.value)|);
    PairLoaded(k, e, x, en, to, st.env);
  }

  /** C# declares key and element before it loads either. */
  lemma {:induction false} LoadPairCSharp(k: Type, e: Type, x: string, en: Entry, last: Load, buf: seq<Byte>, st: State)
    returns (env2: Env)
    requires WellFormed(CSharp, Map(k, e)) && OnWire(CSharp, k, en.key) && OnWire(CSharp, e, en.value)
    requires InStep(buf, st) && At(buf, st.pos, Encode(k, en.key) + Encode(e, en.value))
    ensures
      var st2 := Moved(st, env2, |Encode(k, en.key) + Encode(e, en.value)|);
      Run(buf, Seq(GenLoad(CSharp, k, x + "_key"), Seq(GenLoad(CSharp, e, x + "_elmt"), last)), PairDeclared(k, e, x, st)) ==
        Run(buf, last, st2)
    ensures var to := TakenEntry(CSharp, k, e, en);
      Get(env2, x + "_key") == to.key && Get(env2, x + "_elmt") == to.value && Over(env2, st.env, x)
    decreases Map(k, e), 0, 0
  {
    hide Run, WellFormed, OnWire, Encode, At, InStep, GenLoad, Default, Over, Get, Set, AfterTaking, Taken;
    KeysWellFormed(CSharp, k, e);
    var key, elmt := x + "_key", x + "_elmt";
    AtSplit(buf, st.pos, Encode(k, en.key), Encode(e, en.value));
    RoomTwo(buf, st, Encode(k, en.key), Encode(e, en.value));
    LoadKeyCSharp(k, e, x, en.key, buf, st);
    var st1 := KeyDone(k, e, x, en.key, st);
    var st2 := LoadElementCSharp(k, e, x, en, buf, st);
    env2 := st2.env;
    MovedTwice(st, st1.env, |Encode(k, en.key)|, env2, |Encode(e, en.value)|);
    RunSeq(buf, GenLoad(CSharp, e, elmt), last, st1, st2);
    RunSeq(buf, GenLoad(CSharp, k, key), Seq(GenLoad(CSharp, e, elmt), last), PairDeclared(k, e, x, st), st1);
  }

  lemma {:induction false} MapRoundCSharp(
    k: Type, e: Type, x: string, done: seq<Entry>, en: Entry, buf: seq<Byte>, st: State) returns (inner: Env)
    requires WellFormed(CSharp, Map(k, e)) && OnWire(CSharp, k, en.key) && OnWire(CSharp, e, en.value)
    requires Bound(st.env, x) && Get(st.env, x) == Entries(done)
    requires InStep(buf, st) && At(buf, st.pos, Encode(k, en.key) + Encode(e, en.value))
    ensures Run(buf, MapBody(CSharp, k, e, x), st) == Done(Moved(st, inner, |Encode(k, en.key) + Encode(e, en.value)|))
    ensures Over(inner, Set(st.env, x, Entries(Put(CSharp, k, done, TakenEntry(CSharp, k, e, en)))), x)
    decreases Map(k, e), 0, 1
  {
    hide Run, WellFormed, OnWire, Encode, At, GenLoad, AssignKey, Default, Taken;
    var key, elmt := x + "_key", x + "_elmt";
    var last := Assign(x, key, elmt);
    var env2 := LoadPairCSharp(k, e, x, en, last, buf, st);
    var st2 := Moved(st, env2, |Encode(k, en.key) + Encode(e, en.value)|);
    OverGet(env2, st.env, x);
    var next := Put(CSharp, k, done, TakenEntry(CSharp, k, e, en));
    OverSet(env2, st.env, x, Entries(next));
    inner := Set(env2, x, Entries(next));
    RunAssign(buf, x, key, elmt, st2);
    var stA := st.(env := Bind(key, Default(CSharp, k), st.env));
    var stB := stA.(env := Bind(elmt, Default(CSharp, e), stA.env));
    var loads := Seq(GenLoad(CSharp, k, key), Seq(GenLoad(CSharp, e, elmt), last));
    RunDeclare(buf, elmt, Default(CSharp, e), stA);
    RunSeq(buf, Declare(elmt, Default(CSharp, e)), loads, stA, stB);
    RunDeclare(buf, key, Default(CSharp, k), st);
    RunSeq(buf, Declare(key, Default(CSharp, k)), Seq(Declare(elmt, Default(CSharp, e)), loads), st, stA);
  }

  // ---------------------------------------------------------------- objects

  lemma {:induction false} LoadCalled(lang: Lang, t: Type, x: string, v: Value, buf: seq<Byte>, st: State)
    requires UserDefined(t) && Loadable(lang, t, x, v, buf, st)
    ensures Loads(lang, t, x, v, buf, st)
    decreases t, 2
  {
    hide Run, RunCode, WellFormed, OnWire, Encode, Blank, At, Taken;
    LoadObject(lang, t, Get(st.env, x), v, buf, st.pos, st.nSize);
    RunCall(buf, x, LoadCodeOf(lang, t), st, Loaded(Taken(lang, t, v), st.pos + |Encode(t, v)|, Minus(st.nSize, |Encode(t, v)|)));
  }

  /** A serializer's Load reads exactly the value stored at the cursor into a blank target. */
  lemma {:induction false} LoadObject(lang: Lang, t: Type, u: Value, v: Value, buf: seq<Byte>, pos: nat, nSize: nat)
    requires UserDefined(t) || t.Nothing?
    requires WellFormed(lang, t) && OnWire(lang, t, v) && Blank(t, u) && pos + nSize == |buf| && At(buf, pos, Encode(t, v))
    ensures RunCode(buf, LoadCodeOf(lang, t), u, pos, nSize) ==
      Done(Loaded(Taken(lang, t, v), pos + |Encode(t, v)|, Minus(nSize, |Encode(t, v)|)))
    decreases t, 1
  {
    hide Run, RunCode, WellFormed, OnWire, Blank, Encode, LoadCodeOf, At;
    match t
    case Nothing => LoadNothing(lang, u, v, buf, pos, nSize);
    case Enum(first) => LoadEnum(lang, first, u, v, buf, pos, nSize);
    case Alias(w) => LoadAlias(lang, w, u, v, buf, pos, nSize);
    case Message(p, fs) => LoadMessage(lang, p, fs, u, v, buf, pos, nSize);
  }

  lemma RunClass(
    buf: seq<Byte>, parent: LoadCode, fs: Fields, body: Load, u: Value, pos: nat, nSize: nat, r: Loaded, st: State)
    requires u.Record? && RunCode(buf, parent, u.base, pos, nSize) == Done(r)
    requires Run(buf, body, State(BindFields(fs, u.values), r.pos, r.nSize)) == Done(st)
    ensures RunCode(buf, LoadClass(parent, fs, body), u, pos, nSize) ==
      Done(Loaded(Record(r.value, Collect(Pop(st.env, Depth(BindFields(fs, u.values))), fs)), st.pos, st.nSize))
  {
    hide Run;
  }

  lemma RunObj(buf: seq<Byte>, body: Load, u: Value, pos: nat, nSize: nat, st: State)
    requires Run(buf, body, State(Bind("obj", u, Empty), pos, nSize)) == Done(st)
    ensures RunCode(buf, LoadObj(body), u, pos, nSize) == Done(Loaded(Get(Pop(st.env, 1), "obj"), st.pos, st.nSize))
  {
    hide Run;
  }

  lemma LoadEnum(lang: Lang, first: nat, u: Value, v: Value, buf: seq<Byte>, pos: nat, nSize: nat)
    requires OnWire(lang, Enum(first), v) && pos + nSize == |buf| && At(buf, pos, Encode(Enum(first), v))
    ensures RunCode(buf, LoadCodeOf(lang, Enum(first)), u, pos, nSize) ==
      Done(Loaded(v, pos + |Encode(Enum(first), v)|, Minus(nSize, |Encode(Enum(first), v)|)))
  {
    hide Run;
    var st := State(Bind("obj", u, Empty), pos, nSize);
    RunNumber(buf, "obj", ENUM_SIZE, v.n, st);
    assert Set(st.env, "obj", v) == Bind("obj", v, Empty);
    assert Pop(Bind("obj", v, Empty), 1) == Bind("obj", v, Empty);
  }

  lemma LoadNothing(lang: Lang, u: Value, v: Value, buf: seq<Byte>, pos: nat, nSize: nat)
    requires OnWire(lang, Nothing, v) && Blank(Nothing, u)
    ensures RunCode(buf, LoadCodeOf(lang, Nothing), u, pos, nSize) ==
      Done(Loaded(v, pos + |Encode(Nothing, v)|, Minus(nSize, |Encode(Nothing, v)|)))
  {}

  lemma AliasParts(lang: Lang, w: Type, u: Value, v: Value)
    requires WellFormed(lang, Alias(w)) && OnWire(lang, Alias(w), v) && Blank(Alias(w), u)
    ensures WellFormed(lang, w) && w != Nothing && OnWire(lang, w, v) && Blank(w, u)
    ensures Encode(Alias(w), v) == Encode(w, v) && Taken(lang, Alias(w), v) == Taken(lang, w, v)
    ensures LoadCodeOf(lang, Alias(w)) == LoadObj(GenLoad(lang, w, "obj"))
  {}

  lemma MessageParts(lang: Lang, p: Type, fs: Fields, u: Value, v: Value)
    requires WellFormed(lang, Message(p, fs)) && OnWire(lang, Message(p, fs), v) && Blank(Message(p, fs), u)
    ensures WellFormed(lang, p) && (p.Message? || p.Nothing?) && FieldsWellFormed(lang, fs)
    ensures v.Record? && OnWire(lang, p, v.base) && FieldsOnWire(lang, fs, v.values)
    ensures u.Record? && Blank(p, u.base) && BlankFields(fs, u.values)
    ensures Encode(Message(p, fs), v) == Encode(p, v.base) + EncodeFields(fs, v.values)
    ensures Taken(lang, Message(p, fs), v) == Record(Taken(lang, p, v.base), TakenFields(lang, fs, v.values))
    ensures LoadCodeOf(lang, Message(p, fs)) == LoadClass(LoadCodeOf(lang, p), fs, LoadMembers(lang, fs))
  {}

  lemma {:induction false} LoadAlias(lang: Lang, w: Type, u: Value, v: Value, buf: seq<Byte>, pos: nat, nSize: nat)
    requires WellFormed(lang, Alias(w)) && OnWire(lang, Alias(w), v) && Blank(Alias(w), u)
    requires pos + nSize == |buf| && At(buf, pos, Encode(Alias(w), v))
    ensures RunCode(buf, LoadCodeOf(lang, Alias(w)), u, pos, nSize) ==
      Done(Loaded(Taken(lang, w, v), pos + |Encode(Alias(w), v)|, Minus(nSize, |Encode(Alias(w), v)|)))
    decreases Alias(w), 0
  {
    hide Run, RunCode, GenLoad, At, OnWire, Blank, WellFormed, Encode, Taken;
    AliasParts(lang, w, u, v);
    var st := State(Bind("obj", u, Empty), pos, nSize);
    LoadValue(lang, w, "obj", v, buf, st);
    var to := Taken(lang, w, v);
    var after := AfterTaking(w, "obj", v, to, st.env);
    RunObj(buf, GenLoad(lang, w, "obj"), u, pos, nSize, Moved(st, after, |Encode(w, v)|));
    LocalName("obj");
    OverPop(after, Bind("obj", to, Empty), "obj");
  }

  lemma {:induction false} LoadMessage(
    lang: Lang, p: Type, fs: Fields, u: Value, v: Value, buf: seq<Byte>, pos: nat, nSize: nat)
    requires WellFormed(lang, Message(p, fs)) && OnWire(lang, Message(p, fs), v) && Blank(Message(p, fs), u)
    requires pos + nSize == |buf| && At(buf, pos, Encode(Message(p, fs), v))
    ensures RunCode(buf, LoadCodeOf(lang, Message(p, fs)), u, pos, nSize) ==
      Done(Loaded(Taken(lang, Message(p, fs), v), pos + |Encode(Message(p, fs), v)|, Minus(nSize, |Encode(Message(p, fs), v)|)))
    decreases Message(p, fs), 0
  {
    hide Run, RunCode, Encode, EncodeFields, LoadMembers, LoadCodeOf, WellFormed, FieldsWellFormed, OnWire, FieldsOnWire;
    hide Blank, BlankFields, SetFields, BindFields, FieldsReady, At, Taken, TakenFields;
    MessageParts(lang, p, fs, u, v);
    var bs, n := EncodeFields(fs, v.values), |Encode(p, v.base)|;
    AtSplit(buf, pos, Encode(p, v.base), bs);
    LoadObject(lang, p, u.base, v.base, buf, pos, nSize);
    var env := BindFields(fs, u.values);
    BindFieldsReady(lang, fs, u.values);
    CountWire(lang, fs, v.values);
    var st0 := State(env, pos, nSize);
    var st := Moved(st0, env, n);
    RoomTwo(buf, st0, Encode(p, v.base), bs);
    var inner := LoadFields(lang, fs, v.values, buf, st);
    MovedTwice(st0, env, n, inner, |bs|);
    RunClass(buf, LoadCodeOf(lang, p), fs, LoadMembers(lang, fs), u, pos, nSize, Loaded(Taken(lang, p, v.base), st.pos, st.nSize), Moved(st, inner, |bs|));
    OverPop(inner, SetFields(env, fs, TakenFields(lang, fs, v.values)), "");
    CollectSet(lang, env, fs, TakenFields(lang, fs, v.values));
  }

  lemma CountWire(lang: Lang, fs: Fields, vs: seq<Value>)
    requires FieldsOnWire(lang, fs, vs)
    ensures |vs| == FieldsCount(fs) && |TakenFields(lang, fs, vs)| == FieldsCount(fs)
  {}

  lemma CountTyped(lang: Lang, fs: Fields, vs: seq<Value>)
    requires FieldsHaveType(lang, fs, vs)
    ensures |vs| == FieldsCount(fs)
  {}

  lemma FieldParts(lang: Lang, f: string, t: Type, rest: Fields, vs: seq<Value>, env: Env)
    requires FieldsWellFormed(lang, Field(f, t, rest)) && FieldsOnWire(lang, Field(f, t, rest), vs)
    requires FieldsReady(env, Field(f, t, rest))
    ensures WellFormed(lang, t) && t != Nothing && f !in Names(rest) && Locals(lang, t, f) !! Names(rest)
    ensures FieldsWellFormed(lang, rest)
    ensures vs != [] && OnWire(lang, t, vs[0]) && FieldsOnWire(lang, rest, vs[1..]) && |vs[1..]| == FieldsCount(rest)
    ensures Bound(env, f) && Blank(t, Get(env, f)) && FieldsReady(env, rest)
    ensures EncodeFields(Field(f, t, rest), vs) == Encode(t, vs[0]) + EncodeFields(rest, vs[1..])
    ensures LoadMembers(lang, Field(f, t, rest)) == Seq(GenLoad(lang, t, f), LoadMembers(lang, rest))
    ensures TakenFields(lang, Field(f, t, rest), vs) == [Taken(lang, t, vs[0])] + TakenFields(lang, rest, vs[1..])
    ensures |TakenFields(lang, rest, vs[1..])| == FieldsCount(rest)
  {
    hide WellFormed, OnWire, Blank, GenLoad, Encode;
  }

  lemma NoFieldsLoaded(lang: Lang, vs: seq<Value>, buf: seq<Byte>, st: State)
    requires FieldsOnWire(lang, End, vs)
    ensures Run(buf, LoadMembers(lang, End), st) == Done(Moved(st, st.env, |EncodeFields(End, vs)|))
    ensures SetFields(st.env, End, TakenFields(lang, End, vs)) == st.env
  {}

  lemma {:induction false} LoadFields(lang: Lang, fs: Fields, vs: seq<Value>, buf: seq<Byte>, st: State)
    returns (inner: Env)
    requires FieldsWellFormed(lang, fs) && FieldsOnWire(lang, fs, vs) && FieldsReady(st.env, fs)
    requires InStep(buf, st) && At(buf, st.pos, EncodeFields(fs, vs))
    ensures Run(buf, LoadMembers(lang, fs), st) == Done(Moved(st, inner, |EncodeFields(fs, vs)|))
    ensures |TakenFields(lang, fs, vs)| == FieldsCount(fs) && Over(inner, SetFields(st.env, fs, TakenFields(lang, fs, vs)), "")
    decreases fs
  {
    hide GenLoad, WellFormed, OnWire, Encode, Blank, Run, At, InStep, Get, Set, Bound, LoadMembers, EncodeFields;
    hide FieldsWellFormed, FieldsOnWire, FieldsReady, SetFields, Names, Locals, Taken, TakenFields;
    CountWire(lang, fs, vs);
    match fs
    case End =>
      NoFieldsLoaded(lang, vs, buf, st);
      inner := st.env;
    case Field(f, t, rest) =>
      FieldParts(lang, f, t, rest, vs, st.env);
      AtSplit(buf, st.pos, Encode(t, vs[0]), EncodeFields(rest, vs[1..]));
      LoadValue(lang, t, f, vs[0], buf, st);
      var w, ws := Taken(lang, t, vs[0]), TakenFields(lang, rest, vs[1..]);
      var set1 := Set(st.env, f, w);
      var st1 := Moved(st, AfterTaking(t, f, vs[0], w, st.env), |Encode(t, vs[0])|);
      MovedInStep(buf, st, st1.env, Encode(t, vs[0]));
      RoomTwo(buf, st, Encode(t, vs[0]), EncodeFields(rest, vs[1..]));
      RestReady(lang, f, t, rest, vs[0], w, ws, st.env);
      inner := LoadFields(lang, rest, vs[1..], buf, st1);
      MovedTwice(st, st1.env, |Encode(t, vs[0])|, inner, |EncodeFields(rest, vs[1..])|);
      RunSeq(buf, GenLoad(lang, t, f), LoadMembers(lang, rest), st, st1);
      OverOver(inner, SetFields(st1.env, rest, ws), SetFields(set1, rest, ws), "");
      SetFirst(st.env, f, t, rest, w, ws);
  }

  /** The length local of one field does not get in the way of the fields behind it. */
  lemma RestReady(lang: Lang, f: string, t: Type, rest: Fields, v: Value, w: Value, ws: seq<Value>, env: Env)
    requires f !in Names(rest) && Locals(lang, t, f) !! Names(rest)
    requires FieldsReady(env, rest) && |ws| == FieldsCount(rest)
    ensures FieldsReady(AfterTaking(t, f, v, w, env), rest)
    ensures Over(SetFields(AfterTaking(t, f, v, w, env), rest, ws), SetFields(Set(env, f, w), rest, ws), "")
  {
    hide Set, SetFields, FieldsReady, Over, Names, Locals;
    var set1 := Set(env, f, w);
    ReadySet(env, f, w, rest);
    if Sized(t) {
      LengthLocal(lang, t, f);
      BehindLocal(f + "_length", Num(LengthOf(v)), set1, rest, ws);
    } else {
      OverItself(SetFields(set1, rest, ws));
    }
  }

  lemma LengthLocal(lang: Lang, t: Type, f: string)
    requires Sized(t)
    ensures f + "_length" in Locals(lang, t, f) && f + "_length" != ""
  {
    assert |f + "_length"| == |f| + 7;
  }

  lemma BehindLocal(local: string, n: Value, env: Env, rest: Fields, ws: seq<Value>)
    requires local != "" && local !in Names(rest) && FieldsReady(env, rest) && |ws| == FieldsCount(rest)
    ensures FieldsReady(Bind(local, n, env), rest)
    ensures Over(SetFields(Bind(local, n, env), rest, ws), SetFields(env, rest, ws), "")
  {
    hide SetFields, FieldsReady;
    ReadyUnder(local, n, env, rest);
    SetFieldsUnder(local, n, env, rest, ws);
    OverItself(SetFields(env, rest, ws));
    assert Over(Bind(local, n, SetFields(env, rest, ws)), SetFields(env, rest, ws), "");
  }

  lemma OverItself(env: Env)
    ensures Over(env, env, "")
  {
  }

  lemma SetFirst(env: Env, f: string, t: Type, rest: Fields, w: Value, ws: seq<Value>)
    requires |ws| == FieldsCount(rest)
    ensures SetFields(env, Field(f, t, rest), [w] + ws) == SetFields(Set(env, f, w), rest, ws)
  {
    assert ([w] + ws)[1..] == ws;
  }

  // ---------------------------------------------------------------- values of the type

  /** A value of the type itself is read back as it is. */
  lemma LoadTyped(lang: Lang, t: Type, x: string, v: Value, buf: seq<Byte>, st: State)
    requires WellFormed(lang, t) && t != Nothing && HasType(lang, t, v)
    requires Bound(st.env, x) && Blank(t, Get(st.env, x)) && InStep(buf, st) && At(buf, st.pos, Encode(t, v))
    ensures Run(buf, GenLoad(lang, t, x), st) == Done(Moved(st, AfterLoad(t, x, v, st.env), |Encode(t, v)|))
  {
    hide WellFormed, OnWire, HasType, Run, GenLoad, Encode, Blank, At, InStep;
    TakenAsIs(lang, t, v);
    LoadValue(lang, t, x, v, buf, st);
  }

  lemma LoadTypedObject(lang: Lang, t: Type, u: Value, v: Value, buf: seq<Byte>, pos: nat, nSize: nat)
    requires UserDefined(t) || t.Nothing?
    requires WellFormed(lang, t) && HasType(lang, t, v) && Blank(t, u) && pos + nSize == |buf| && At(buf, pos, Encode(t, v))
    ensures RunCode(buf, LoadCodeOf(lang, t), u, pos, nSize) ==
      Done(Loaded(v, pos + |Encode(t, v)|, Minus(nSize, |Encode(t, v)|)))
  {
    hide WellFormed, OnWire, HasType, RunCode, LoadCodeOf, Encode, Blank, At;
    TakenAsIs(lang, t, v);
    LoadObject(lang, t, u, v, buf, pos, nSize);
  }

  lemma LoadTypedNew(lang: Lang, e: Type, y: string, v: Value, buf: seq<Byte>, st: State) returns (inner: Env)
    requires WellFormed(lang, e) && e != Nothing && HasType(lang, e, v) && InStep(buf, st) && At(buf, st.pos, Encode(e, v))
    ensures Run(buf, LoadNew(lang, e, y), st) == Done(Moved(st, inner, |Encode(e, v)|))
  {
    hide WellFormed, OnWire, HasType, Run, LoadNew, Encode, At, InStep;
    TakenAsIs(lang, e, v);
    inner := LoadDeclared(lang, e, y, v, buf, st);
  }
}
