/** Store writes the wire format and Size its length. */
module IdlStore {
  import opened Bytes
  import opened Idl
  import opened IdlCode
  import opened IdlCompiler

  // ---------------------------------------------------------------- one statement at a time

  lemma ExecThen(a: Walk, b: Walk, tr: Trace)
    ensures Exec(Then(a, b), tr) == Exec(b, Exec(a, tr))
  {}

  lemma ExecForEach(x: string, item: string, body: Walk, tr: Trace)
    ensures Exec(ForEach(x, item, body), tr) == Each(body, item, ItemsOf(Get(tr.env, x)), tr)
  {
    hide Each;
  }

  lemma ExecForEntry(x: string, key: string, item: string, body: Walk, tr: Trace)
    ensures Exec(ForEntry(x, key, item, body), tr) == EachEntry(body, key, item, EntriesOf(Get(tr.env, x)), tr)
  {
    hide EachEntry;
  }

  lemma EachStep(body: Walk, item: string, vs: seq<Value>, tr: Trace)
    requires vs != []
    ensures Each(body, item, vs, tr) ==
      Each(body, item, vs[1..], Exec(body, tr.(env := Bind(item, vs[0], tr.env))).(env := tr.env))
  {
    hide Exec;
  }

  lemma EachEntryStep(body: Walk, key: string, item: string, es: seq<Entry>, tr: Trace)
    requires es != []
    ensures EachEntry(body, key, item, es, tr) ==
      EachEntry(body, key, item, es[1..],
        Exec(body, tr.(env := Bind(item, es[0].value, Bind(key, es[0].key, tr.env)))).(env := tr.env))
  {
    hide Exec;
  }

  lemma ExecCall(x: string, code: WalkCode, tr: Trace)
    ensures Exec(CallWalk(x, code), tr) == ExecCode(code, Get(tr.env, x), tr.out, tr.size).(env := tr.env)
  {}

  lemma ExecCount(lang: Lang, local: string, x: string, tr: Trace)
    requires local != x
    ensures Exec(StoreCount(lang, local, x), tr) ==
      tr.(env := if lang.Cpp? then Bind(local, Num(LengthOf(Get(tr.env, x))), tr.env) else tr.env,
          out := tr.out + LE(LengthOf(Get(tr.env, x)), LENGTH_SIZE))
  {}

  lemma Joined(a: seq<Byte>, b: seq<Byte>, c: seq<Byte>)
    ensures (a + b) + c == a + (b + c)
  {}

  // ---------------------------------------------------------------- Store

  /** The name a C++ store gives the length of x. */
  function SizeLocal(t: Type, x: string): string {
    (if t.Text? then ReplaceSpecialChar(x) else x) + "_size"
  }

  /** What the code of a field leaves declared. */
  function AfterStore(lang: Lang, t: Type, x: string, v: Value, env: Env): Env {
    if lang.Cpp? && Sized(t) then Bind(SizeLocal(t, x), Num(LengthOf(v)), env) else env
  }

  /** The store of x appends the encoding of its value, and nothing else. */
  predicate Stores(lang: Lang, t: Type, x: string, tr: Trace) {
    var v := Get(tr.env, x);
    Exec(GenStore(lang, t, x), tr) == Trace(AfterStore(lang, t, x, v, tr.env), tr.out + Encode(t, v), tr.size)
  }

  predicate ItemsTyped(lang: Lang, e: Type, vs: seq<Value>) {
    forall i :: 0 <= i < |vs| ==> HasType(lang, e, vs[i])
  }

  predicate EntriesTyped(lang: Lang, k: Type, e: Type, es: seq<Entry>) {
    forall i :: 0 <= i < |es| ==> HasType(lang, k, es[i].key) && HasType(lang, e, es[i].value)
  }

  lemma ItemsStep(lang: Lang, e: Type, vs: seq<Value>)
    requires vs != [] && ItemsTyped(lang, e, vs)
    ensures HasType(lang, e, vs[0]) && ItemsTyped(lang, e, vs[1..])
    ensures EncodeItems(e, vs) == Encode(e, vs[0]) + EncodeItems(e, vs[1..])
  {
    hide HasType, Encode;
  }

  lemma EntriesStep(lang: Lang, k: Type, e: Type, es: seq<Entry>)
    requires es != [] && EntriesTyped(lang, k, e, es)
    ensures HasType(lang, k, es[0].key) && HasType(lang, e, es[0].value) && EntriesTyped(lang, k, e, es[1..])
    ensures EncodeEntries(k, e, es) ==
      Encode(k, es[0].key) + Encode(e, es[0].value) + EncodeEntries(k, e, es[1..])
  {
    hide HasType, Encode;
  }

  lemma {:induction false} StoreValue(lang: Lang, t: Type, x: string, tr: Trace)
    requires WellFormed(lang, t) && HasType(lang, t, Get(tr.env, x))
    ensures Stores(lang, t, x, tr)
    decreases t, 3
  {
    hide WellFormed, Stores, HasType, GenStore, Exec, Encode;
    match t
    case Primitive(p) => StoreLeaf(lang, t, x, tr);
    case Nothing => StoreLeaf(lang, t, x, tr);
    case Text => StoreText(lang, x, tr);
    case List(e) => StoreList(lang, t, e, x, tr);
    case Array(e) => StoreList(lang, t, e, x, tr);
    case StaticArray(e, n) => StoreStatic(lang, e, n, x, tr);
    case Map(k, e) => StoreMap(lang, k, e, x, tr);
    case Message(_, _) => StoreCall(lang, t, x, tr);
    case Enum(_) => StoreCall(lang, t, x, tr);
    case Alias(_) => StoreCall(lang, t, x, tr);
  }

  lemma StoreLeaf(lang: Lang, t: Type, x: string, tr: Trace)
    requires (t.Primitive? || t.Nothing?) && HasType(lang, t, Get(tr.env, x))
    ensures Stores(lang, t, x, tr)
  {
    assert tr.out + [] == tr.out;
  }

  lemma StoreText(lang: Lang, x: string, tr: Trace)
    requires HasType(lang, Text, Get(tr.env, x))
    ensures Stores(lang, Text, x, tr)
  {
    var v := Get(tr.env, x);
    assert SizeLocal(Text, x) != x by { assert |SizeLocal(Text, x)| == |x| + 5; }
    ExecCount(lang, SizeLocal(Text, x), x, tr);
    ExecThen(StoreCount(lang, SizeLocal(Text, x), x), PutBytes(x), tr);
    Joined(tr.out, LE(|v.bytes|, LENGTH_SIZE), v.bytes);
  }

  lemma {:induction false} StoreList(lang: Lang, t: Type, e: Type, x: string, tr: Trace)
    requires (t == List(e) || t == Array(e)) && WellFormed(lang, t) && HasType(lang, t, Get(tr.env, x))
    ensures Stores(lang, t, x, tr)
    decreases t, 2
  {
    hide Exec, Each;
    var v, loop := Get(tr.env, x), ForEach(x, x + "_elmt", GenStore(lang, e, x + "_elmt"));
    var tr1 := Exec(StoreCount(lang, x + "_size", x), tr);
    ExecCount(lang, x + "_size", x, tr);
    ExecThen(StoreCount(lang, x + "_size", x), loop, tr);
    ExecForEach(x, x + "_elmt", GenStore(lang, e, x + "_elmt"), tr1);
    StoreItems(lang, e, x + "_elmt", v.items, tr1);
    Joined(tr.out, LE(|v.items|, LENGTH_SIZE), EncodeItems(e, v.items));
  }

  lemma {:induction false} StoreStatic(lang: Lang, e: Type, n: nat, x: string, tr: Trace)
    requires WellFormed(lang, StaticArray(e, n)) && HasType(lang, StaticArray(e, n), Get(tr.env, x))
    ensures Stores(lang, StaticArray(e, n), x, tr)
    decreases StaticArray(e, n), 2
  {
    var v := Get(tr.env, x);
    if lang.Cpp? && e.Primitive? {
      RawItems(lang, e, v.items);
    } else {
      hide Exec, Each;
      ExecForEach(x, ElementName(lang, x), GenStore(lang, e, ElementName(lang, x)), tr);
      StoreItems(lang, e, ElementName(lang, x), v.items, tr);
    }
  }

  lemma {:induction false} RawItems(lang: Lang, e: Type, vs: seq<Value>)
    requires e.Primitive? && ItemsTyped(lang, e, vs)
    ensures Raw(vs, Width(e.prim)) == EncodeItems(e, vs)
  {
    if vs != [] {
      RawItems(lang, e, vs[1..]);
    }
  }

  lemma {:induction false} StoreItems(lang: Lang, e: Type, item: string, vs: seq<Value>, tr: Trace)
    requires WellFormed(lang, e) && ItemsTyped(lang, e, vs)
    ensures Each(GenStore(lang, e, item), item, vs, tr) == tr.(out := tr.out + EncodeItems(e, vs))
    decreases e, 4, |vs|
  {
    hide Exec, GenStore, HasType;
    if vs == [] {
      assert tr.out + [] == tr.out;
    } else {
      hide Each, Encode, EncodeItems, ItemsTyped, WellFormed;
      ItemsStep(lang, e, vs);
      EachStep(GenStore(lang, e, item), item, vs, tr);
      StoreValue(lang, e, item, tr.(env := Bind(item, vs[0], tr.env)));
      var tr1 := tr.(out := tr.out + Encode(e, vs[0]));
      StoreItems(lang, e, item, vs[1..], tr1);
      Joined(tr.out, Encode(e, vs[0]), EncodeItems(e, vs[1..]));
    }
  }

  lemma {:induction false} StoreMap(lang: Lang, k: Type, e: Type, x: string, tr: Trace)
    requires WellFormed(lang, Map(k, e)) && HasType(lang, Map(k, e), Get(tr.env, x))
    ensures Stores(lang, Map(k, e), x, tr)
    decreases Map(k, e), 2
  {
    hide Exec, EachEntry;
    var v := Get(tr.env, x);
    var body := Then(GenStore(lang, k, x + "_key"), GenStore(lang, e, x + "_elmt"));
    var tr1 := Exec(StoreCount(lang, x + "_size", x), tr);
    ExecCount(lang, x + "_size", x, tr);
    ExecThen(StoreCount(lang, x + "_size", x), ForEntry(x, x + "_key", x + "_elmt", body), tr);
    ExecForEntry(x, x + "_key", x + "_elmt", body, tr1);
    StoreEntries(lang, k, e, x, v.entries, tr1);
    Joined(tr.out, LE(|v.entries|, LENGTH_SIZE), EncodeEntries(k, e, v.entries));
  }

  lemma {:induction false} StoreEntries(lang: Lang, k: Type, e: Type, x: string, es: seq<Entry>, tr: Trace)
    requires WellFormed(lang, Map(k, e)) && EntriesTyped(lang, k, e, es)
    ensures
      var body := Then(GenStore(lang, k, x + "_key"), GenStore(lang, e, x + "_elmt"));
      EachEntry(body, x + "_key", x + "_elmt", es, tr) == tr.(out := tr.out + EncodeEntries(k, e, es))
    decreases Map(k, e), 1, |es|
  {
    hide Exec, GenStore, HasType;
    if es == [] {
      assert tr.out + [] == tr.out;
    } else {
      hide EachEntry, Encode, EncodeEntries, EntriesTyped, WellFormed;
      EntriesStep(lang, k, e, es);
      EachEntryStep(Then(GenStore(lang, k, x + "_key"), GenStore(lang, e, x + "_elmt")), x + "_key", x + "_elmt", es, tr);
      StoreEntry(lang, k, e, x, es[0], tr);
      var tr1 := tr.(out := tr.out + Encode(k, es[0].key) + Encode(e, es[0].value));
      StoreEntries(lang, k, e, x, es[1..], tr1);
      Joined(tr.out, Encode(k, es[0].key), Encode(e, es[0].value));
      Joined(tr.out, Encode(k, es[0].key) + Encode(e, es[0].value), EncodeEntries(k, e, es[1..]));
    }
  }

  lemma {:induction false} StoreEntry(lang: Lang, k: Type, e: Type, x: string, en: Entry, tr: Trace)
    requires WellFormed(lang, Map(k, e)) && HasType(lang, k, en.key) && HasType(lang, e, en.value)
    ensures
      var body := Then(GenStore(lang, k, x + "_key"), GenStore(lang, e, x + "_elmt"));
      var inner := Bind(x + "_elmt", en.value, Bind(x + "_key", en.key, tr.env));
      Exec(body, tr.(env := inner)).(env := tr.env) == tr.(out := tr.out + Encode(k, en.key) + Encode(e, en.value))
    decreases Map(k, e), 0, 0
  {
    hide Exec, GenStore, HasType, Encode;
    var tr1 := tr.(env := Bind(x + "_elmt", en.value, Bind(x + "_key", en.key, tr.env)));
    KeyLocal(k, x);
    StoreValue(lang, k, x + "_key", tr1);
    var tr2 := Exec(GenStore(lang, k, x + "_key"), tr1);
    StoreValue(lang, e, x + "_elmt", tr2);
    ExecThen(GenStore(lang, k, x + "_key"), GenStore(lang, e, x + "_elmt"), tr1);
  }

  /** The length local of a key is neither the key nor the element. */
  lemma KeyLocal(k: Type, x: string)
    ensures SizeLocal(k, x + "_key") != x + "_elmt" && x + "_key" != x + "_elmt"
  {
    assert |SizeLocal(k, x + "_key")| == |x| + 9 && |x + "_elmt"| == |x| + 5;
    assert (x + "_key")[|x| + 1] == 'k' && (x + "_elmt")[|x| + 1] == 'e';
  }

  lemma {:induction false} StoreCall(lang: Lang, t: Type, x: string, tr: Trace)
    requires UserDefined(t) && WellFormed(lang, t) && HasType(lang, t, Get(tr.env, x))
    ensures Stores(lang, t, x, tr)
    decreases t, 2
  {
    hide Exec, ExecCode, HasType, Encode;
    ExecCall(x, StoreCode(lang, t), tr);
    StoreObject(lang, t, Get(tr.env, x), tr.out, tr.size);
  }

  lemma {:induction false} StoreObject(lang: Lang, t: Type, v: Value, out: seq<Byte>, size: nat)
    requires WellFormed(lang, t) && HasType(lang, t, v) && (UserDefined(t) || t.Nothing?)
    ensures var tr := ExecCode(StoreCode(lang, t), v, out, size); tr.out == out + Encode(t, v) && tr.size == size
    decreases t, 1
  {
    match t
    case Enum(_) =>
    case Nothing => assert out + [] == out;
    case Alias(u) =>
      hide Exec, GenStore;
      StoreValue(lang, u, "obj", Trace(Bind("obj", v, Empty), out, size));
    case Message(p, fs) => StoreMessage(lang, p, fs, v, out, size);
  }

  lemma {:induction false} StoreMessage(lang: Lang, p: Type, fs: Fields, v: Value, out: seq<Byte>, size: nat)
    requires WellFormed(lang, Message(p, fs)) && HasType(lang, Message(p, fs), v)
    ensures var tr := ExecCode(StoreCode(lang, Message(p, fs)), v, out, size);
      tr.out == out + Encode(Message(p, fs), v) && tr.size == size
    decreases Message(p, fs), 0
  {
    hide Exec, EncodeFields, StoreMembers, GenStore;
    StoreObject(lang, p, v.base, out, size);
    var base := ExecCode(StoreCode(lang, p), v.base, out, size);
    BindFieldsIn(lang, fs, v.values);
    StoreFields(lang, fs, v.values, Trace(BindFields(fs, v.values), base.out, size));
    Joined(out, Encode(p, v.base), EncodeFields(fs, v.values));
  }

  /** Every field is in scope with its value. */
  predicate FieldsIn(env: Env, fs: Fields, vs: seq<Value>) {
    match fs
    case End => vs == []
    case Field(f, _, rest) => vs != [] && Bound(env, f) && Get(env, f) == vs[0] && FieldsIn(env, rest, vs[1..])
  }

  lemma {:induction false} FieldsInUnder(env: Env, x: string, w: Value, fs: Fields, vs: seq<Value>)
    requires FieldsIn(env, fs, vs) && x !in Names(fs)
    ensures FieldsIn(Bind(x, w, env), fs, vs)
  {
    match fs
    case End =>
    case Field(f, _, rest) => FieldsInUnder(env, x, w, rest, vs[1..]);
  }

  lemma {:induction false} BindFieldsIn(lang: Lang, fs: Fields, vs: seq<Value>)
    requires FieldsWellFormed(lang, fs) && FieldsCount(fs) == |vs|
    ensures FieldsIn(BindFields(fs, vs), fs, vs)
  {
    match fs
    case End =>
    case Field(f, _, rest) =>
      BindFieldsIn(lang, rest, vs[1..]);
      FieldsInUnder(BindFields(rest, vs[1..]), f, vs[0], rest, vs[1..]);
  }

  lemma {:induction false} NothingReplaced(s: string, c: char)
    requires c !in s
    ensures ReplaceFirst(s, c) == s
  {
    if s != [] {
      NothingReplaced(s[1..], c);
    }
  }

  lemma {:induction false} StoreFields(lang: Lang, fs: Fields, vs: seq<Value>, tr: Trace)
    requires FieldsWellFormed(lang, fs) && FieldsHaveType(lang, fs, vs) && FieldsIn(tr.env, fs, vs)
    ensures var r := Exec(StoreMembers(lang, fs), tr); r.out == tr.out + EncodeFields(fs, vs) && r.size == tr.size
    decreases fs, 0
  {
    hide GenStore, HasType, Encode, WellFormed;
    match fs
    case End => assert tr.out + [] == tr.out;
    case Field(f, t, rest) =>
      hide Exec;
      StoreValue(lang, t, f, tr);
      var tr1 := Exec(GenStore(lang, t, f), tr);
      NothingReplaced(f, '[');
      NothingReplaced(f, ']');
      assert lang.Cpp? && Sized(t) ==> f + "_size" in Locals(lang, t, f);
      if lang.Cpp? && Sized(t) {
        FieldsInUnder(tr.env, f + "_size", Num(LengthOf(vs[0])), rest, vs[1..]);
      }
      StoreFields(lang, rest, vs[1..], tr1);
      ExecThen(GenStore(lang, t, f), StoreMembers(lang, rest), tr);
      Joined(tr.out, Encode(t, vs[0]), EncodeFields(rest, vs[1..]));
  }
}
