/** Size is the length of what Store writes. */
module IdlSize {
  import opened Bytes
  import opened Idl
  import opened IdlCode
  import opened IdlCompiler
  import opened IdlStore

  predicate Sizes(lang: Lang, t: Type, x: string, tr: Trace) {
    Exec(GenSize(lang, t, x), tr) == tr.(size := tr.size + |Encode(t, Get(tr.env, x))|)
  }

  lemma {:induction false} SizeValue(lang: Lang, t: Type, x: string, tr: Trace)
    requires WellFormed(lang, t) && HasType(lang, t, Get(tr.env, x))
    ensures Sizes(lang, t, x, tr)
    decreases t, 3
  {
    hide WellFormed, Sizes, HasType, GenSize, Exec, Encode;
    match t
    case Primitive(p) => SizeLeaf(lang, t, x, tr);
    case Text => SizeLeaf(lang, t, x, tr);
    case Nothing => SizeLeaf(lang, t, x, tr);
    case List(e) => SizeList(lang, t, e, x, tr);
    case Array(e) => SizeList(lang, t, e, x, tr);
    case StaticArray(e, n) => SizeStatic(lang, e, n, x, tr);
    case Map(k, e) => SizeMap(lang, k, e, x, tr);
    case Message(_, _) => SizeCall(lang, t, x, tr);
    case Enum(_) => SizeCall(lang, t, x, tr);
    case Alias(_) => SizeCall(lang, t, x, tr);
  }

  lemma SizeLeaf(lang: Lang, t: Type, x: string, tr: Trace)
    requires (t.Primitive? || t.Text? || t.Nothing?) && HasType(lang, t, Get(tr.env, x))
    ensures Sizes(lang, t, x, tr)
  {}

  lemma {:induction false} SizeList(lang: Lang, t: Type, e: Type, x: string, tr: Trace)
    requires (t == List(e) || t == Array(e)) && WellFormed(lang, t) && HasType(lang, t, Get(tr.env, x))
    ensures Sizes(lang, t, x, tr)
    decreases t, 2
  {
    hide Exec, Each;
    var loop := ForEach(x, x + "_elmt", GenSize(lang, e, x + "_elmt"));
    var tr1 := tr.(size := tr.size + LENGTH_SIZE);
    ExecThen(AddSize(LENGTH_SIZE), loop, tr);
    ExecAdd(LENGTH_SIZE, tr);
    ExecForEach(x, x + "_elmt", GenSize(lang, e, x + "_elmt"), tr1);
    SizeItems(lang, e, x + "_elmt", Get(tr.env, x).items, tr1);
  }

  lemma ExecAdd(n: nat, tr: Trace)
    ensures Exec(AddSize(n), tr) == tr.(size := tr.size + n)
  {}

  lemma {:induction false} SizeStatic(lang: Lang, e: Type, n: nat, x: string, tr: Trace)
    requires WellFormed(lang, StaticArray(e, n)) && HasType(lang, StaticArray(e, n), Get(tr.env, x))
    ensures Sizes(lang, StaticArray(e, n), x, tr)
    decreases StaticArray(e, n), 2
  {
    var vs := Get(tr.env, x).items;
    if e.Primitive? {
      SameWidth(lang, e, vs);
    } else {
      hide Exec, Each;
      ExecForEach(x, ElementName(lang, x), GenSize(lang, e, ElementName(lang, x)), tr);
      SizeItems(lang, e, ElementName(lang, x), vs, tr);
    }
  }

  /** Numbers of one type take their width each. */
  lemma {:induction false} SameWidth(lang: Lang, e: Type, vs: seq<Value>)
    requires e.Primitive? && ItemsTyped(lang, e, vs)
    ensures |EncodeItems(e, vs)| == Width(e.prim) * |vs|
  {
    if vs != [] {
      SameWidth(lang, e, vs[1..]);
      assert Width(e.prim) * |vs| == Width(e.prim) + Width(e.prim) * (|vs| - 1);
    }
  }

  lemma {:induction false} SizeItems(lang: Lang, e: Type, item: string, vs: seq<Value>, tr: Trace)
    requires WellFormed(lang, e) && ItemsTyped(lang, e, vs)
    ensures Each(GenSize(lang, e, item), item, vs, tr) == tr.(size := tr.size + |EncodeItems(e, vs)|)
    decreases e, 4, |vs|
  {
    hide Exec, GenSize, HasType;
    if vs != [] {
      hide Each, Encode, EncodeItems, ItemsTyped, WellFormed;
      ItemsStep(lang, e, vs);
      EachStep(GenSize(lang, e, item), item, vs, tr);
      SizeValue(lang, e, item, tr.(env := Bind(item, vs[0], tr.env)));
      SizeItems(lang, e, item, vs[1..], tr.(size := tr.size + |Encode(e, vs[0])|));
    }
  }

  lemma {:induction false} SizeMap(lang: Lang, k: Type, e: Type, x: string, tr: Trace)
    requires WellFormed(lang, Map(k, e)) && HasType(lang, Map(k, e), Get(tr.env, x))
    ensures Sizes(lang, Map(k, e), x, tr)
    decreases Map(k, e), 2
  {
    hide Exec, EachEntry;
    var body := Then(GenSize(lang, k, x + "_key"), GenSize(lang, e, x + "_elmt"));
    var tr1 := tr.(size := tr.size + LENGTH_SIZE);
    ExecThen(AddSize(LENGTH_SIZE), ForEntry(x, x + "_key", x + "_elmt", body), tr);
    ExecAdd(LENGTH_SIZE, tr);
    ExecForEntry(x, x + "_key", x + "_elmt", body, tr1);
    SizeEntries(lang, k, e, x, Get(tr.env, x).entries, tr1);
  }

  lemma {:induction false} SizeEntries(lang: Lang, k: Type, e: Type, x: string, es: seq<Entry>, tr: Trace)
    requires WellFormed(lang, Map(k, e)) && EntriesTyped(lang, k, e, es)
    ensures
      var body := Then(GenSize(lang, k, x + "_key"), GenSize(lang, e, x + "_elmt"));
      EachEntry(body, x + "_key", x + "_elmt", es, tr) == tr.(size := tr.size + |EncodeEntries(k, e, es)|)
    decreases Map(k, e), 1, |es|
  {
    hide Exec, GenSize, HasType;
    if es != [] {
      hide EachEntry, Encode, EncodeEntries, EntriesTyped, WellFormed;
      EntriesStep(lang, k, e, es);
      EachEntryStep(Then(GenSize(lang, k, x + "_key"), GenSize(lang, e, x + "_elmt")), x + "_key", x + "_elmt", es, tr);
      SizeEntry(lang, k, e, x, es[0], tr);
      SizeEntries(lang, k, e, x, es[1..], tr.(size := tr.size + |Encode(k, es[0].key)| + |Encode(e, es[0].value)|));
    }
  }

  lemma {:induction false} SizeEntry(lang: Lang, k: Type, e: Type, x: string, en: Entry, tr: Trace)
    requires WellFormed(lang, Map(k, e)) && HasType(lang, k, en.key) && HasType(lang, e, en.value)
    ensures
      var body := Then(GenSize(lang, k, x + "_key"), GenSize(lang, e, x + "_elmt"));
      var inner := Bind(x + "_elmt", en.value, Bind(x + "_key", en.key, tr.env));
      Exec(body, tr.(env := inner)).(env := tr.env) ==
        tr.(size := tr.size + |Encode(k, en.key)| + |Encode(e, en.value)|)
    decreases Map(k, e), 0, 0
  {
    hide Exec, GenSize, HasType, Encode;
    var tr1 := tr.(env := Bind(x + "_elmt", en.value, Bind(x + "_key", en.key, tr.env)));
    KeyLocal(k, x);
    SizeValue(lang, k, x + "_key", tr1);
    SizeValue(lang, e, x + "_elmt", Exec(GenSize(lang, k, x + "_key"), tr1));
    ExecThen(GenSize(lang, k, x + "_key"), GenSize(lang, e, x + "_elmt"), tr1);
  }

  lemma {:induction false} SizeCall(lang: Lang, t: Type, x: string, tr: Trace)
    requires UserDefined(t) && WellFormed(lang, t) && HasType(lang, t, Get(tr.env, x))
    ensures Sizes(lang, t, x, tr)
    decreases t, 2
  {
    hide Exec, ExecCode, HasType, Encode;
    ExecCall(x, SizeCode(lang, t), tr);
    SizeObject(lang, t, Get(tr.env, x), tr.out, tr.size);
  }

  lemma {:induction false} SizeObject(lang: Lang, t: Type, v: Value, out: seq<Byte>, size: nat)
    requires WellFormed(lang, t) && HasType(lang, t, v) && (UserDefined(t) || t.Nothing?)
    ensures var tr := ExecCode(SizeCode(lang, t), v, out, size); tr.out == out && tr.size == size + |Encode(t, v)|
    decreases t, 1
  {
    match t
    case Enum(_) =>
    case Nothing =>
    case Alias(u) =>
      hide Exec, GenSize;
      SizeValue(lang, u, "obj", Trace(Bind("obj", v, Empty), out, size));
    case Message(p, fs) => SizeMessage(lang, p, fs, v, out, size);
  }

  lemma {:induction false} SizeMessage(lang: Lang, p: Type, fs: Fields, v: Value, out: seq<Byte>, size: nat)
    requires WellFormed(lang, Message(p, fs)) && HasType(lang, Message(p, fs), v)
    ensures var tr := ExecCode(SizeCode(lang, Message(p, fs)), v, out, size);
      tr.out == out && tr.size == size + |Encode(Message(p, fs), v)|
    decreases Message(p, fs), 0
  {
    hide Exec, EncodeFields, SizeMembers, GenSize;
    SizeObject(lang, p, v.base, out, size);
    var base := ExecCode(SizeCode(lang, p), v.base, out, size);
    BindFieldsIn(lang, fs, v.values);
    SizeFields(lang, fs, v.values, Trace(BindFields(fs, v.values), out, base.size));
  }

  lemma {:induction false} SizeFields(lang: Lang, fs: Fields, vs: seq<Value>, tr: Trace)
    requires FieldsWellFormed(lang, fs) && FieldsHaveType(lang, fs, vs) && FieldsIn(tr.env, fs, vs)
    ensures Exec(SizeMembers(lang, fs), tr) == tr.(size := tr.size + |EncodeFields(fs, vs)|)
    decreases fs, 0
  {
    hide GenSize, HasType, Encode, WellFormed;
    match fs
    case End =>
    case Field(f, t, rest) =>
      hide Exec;
      SizeValue(lang, t, f, tr);
      SizeFields(lang, rest, vs[1..], tr.(size := tr.size + |Encode(t, vs[0])|));
      ExecThen(GenSize(lang, t, f), SizeMembers(lang, rest), tr);
  }
}
