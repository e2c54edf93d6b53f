/** What a Load makes of any entries on the wire: a map takes them in the order they come, with
    repeated keys or without. */
module IdlTaken {
  import opened Wrappers
  import opened Bytes
  import opened Idl
  import opened IdlCode

  // ---------------------------------------------------------------- what may be on the wire

  /** Like HasType, but that the entries of a map are in any order and may repeat a key. */
  predicate OnWire(lang: Lang, t: Type, v: Value)
    decreases t
  {
    match (t, v)
    case (List(e), Items(vs)) => |vs| < MaxLength(lang) && forall i :: 0 <= i < |vs| ==> OnWire(lang, e, vs[i])
    case (Array(e), Items(vs)) => |vs| < MaxLength(lang) && forall i :: 0 <= i < |vs| ==> OnWire(lang, e, vs[i])
    case (StaticArray(e, n), Items(vs)) => |vs| == n && forall i :: 0 <= i < |vs| ==> OnWire(lang, e, vs[i])
    case (Map(k, e), Entries(es)) =>
      |es| < MaxLength(lang) && forall i :: 0 <= i < |es| ==> OnWire(lang, k, es[i].key) && OnWire(lang, e, es[i].value)
    case (Message(p, fs), Record(b, vs)) => OnWire(lang, p, b) && FieldsOnWire(lang, fs, vs)
    case (Alias(u), _) => OnWire(lang, u, v)
    case _ => HasType(lang, t, v)
  }

  predicate FieldsOnWire(lang: Lang, fs: Fields, vs: seq<Value>)
    ensures FieldsOnWire(lang, fs, vs) ==> |vs| == FieldsCount(fs)
    decreases fs
  {
    match fs
    case End => vs == []
    case Field(_, t, rest) => vs != [] && OnWire(lang, t, vs[0]) && FieldsOnWire(lang, rest, vs[1..])
  }

  predicate ItemsOnWire(lang: Lang, e: Type, vs: seq<Value>) {
    forall i :: 0 <= i < |vs| ==> OnWire(lang, e, vs[i])
  }

  predicate EntriesOnWire(lang: Lang, k: Type, e: Type, es: seq<Entry>) {
    forall i :: 0 <= i < |es| ==> OnWire(lang, k, es[i].key) && OnWire(lang, e, es[i].value)
  }

  // ---------------------------------------------------------------- what is taken from it

  /** std::map::insert keeps the first of two equal keys, the C# indexer the last. */
  function Put(lang: Lang, k: Type, es: seq<Entry>, en: Entry): seq<Entry> {
    if lang.Cpp? then InsertSorted(k, es, en) else AssignKey(es, en)
  }

  function PutAll(lang: Lang, k: Type, done: seq<Entry>, es: seq<Entry>): seq<Entry>
    decreases |es|
  {
    if es == [] then done else PutAll(lang, k, Put(lang, k, done, es[0]), es[1..])
  }

  function Taken(lang: Lang, t: Type, v: Value): Value
    decreases t, 0
  {
    match (t, v)
    case (List(e), Items(vs)) => Items(TakenItems(lang, e, vs))
    case (Array(e), Items(vs)) => Items(TakenItems(lang, e, vs))
    case (StaticArray(e, _), Items(vs)) => Items(TakenItems(lang, e, vs))
    case (Map(k, e), Entries(es)) => Entries(PutAll(lang, k, [], TakenEntries(lang, k, e, es)))
    case (Message(p, fs), Record(b, vs)) => Record(Taken(lang, p, b), TakenFields(lang, fs, vs))
    case (Alias(u), _) => Taken(lang, u, v)
    case _ => v
  }

  function TakenItems(lang: Lang, e: Type, vs: seq<Value>): (ws: seq<Value>)
    ensures |ws| == |vs| && forall i :: 0 <= i < |vs| ==> ws[i] == Taken(lang, e, vs[i])
    decreases e, 1 + |vs|
  {
    if vs == [] then [] else [Taken(lang, e, vs[0])] + TakenItems(lang, e, vs[1..])
  }

  function TakenEntries(lang: Lang, k: Type, e: Type, es: seq<Entry>): (fs: seq<Entry>)
    ensures |fs| == |es|
    ensures forall i :: 0 <= i < |es| ==> fs[i] == Entry(Taken(lang, k, es[i].key), Taken(lang, e, es[i].value))
    decreases Map(k, e), 0, |es|
  {
    if es == [] then []
    else [Entry(Taken(lang, k, es[0].key), Taken(lang, e, es[0].value))] + TakenEntries(lang, k, e, es[1..])
  }

  function TakenFields(lang: Lang, fs: Fields, vs: seq<Value>): (ws: seq<Value>)
    ensures |ws| <= |vs| && (|vs| == FieldsCount(fs) ==> |ws| == |vs|)
    decreases fs, 0
  {
    match fs
    case End => []
    case Field(_, t, rest) => if vs == [] then [] else [Taken(lang, t, vs[0])] + TakenFields(lang, rest, vs[1..])
  }

  // ---------------------------------------------------------------- the order of keys

  /** Values of a key type are compared by < in one way or the other, unless they are equal. */
  lemma {:induction false} KeysTotal(lang: Lang, k: Type, a: Value, b: Value)
    requires KeyType(k) && OnWire(lang, k, a) && OnWire(lang, k, b)
    ensures a == b || KeyLess(k, a, b) || KeyLess(k, b, a)
    ensures !KeyLess(k, a, a) && !(KeyLess(k, a, b) && KeyLess(k, b, a))
  {
    match k
    case Primitive(_) =>
    case Text => BytesTotal(a.bytes, b.bytes);
    case Alias(u) => KeysTotal(lang, u, a, b);
  }

  lemma {:induction false} BytesTotal(a: seq<Byte>, b: seq<Byte>)
    ensures a == b || BytesLess(a, b) || BytesLess(b, a)
    ensures !BytesLess(a, a) && !(BytesLess(a, b) && BytesLess(b, a))
    decreases |a|
  {
    if a != [] {
      BytesTotal(a[1..], a[1..]);
      if b != [] {
        BytesTotal(a[1..], b[1..]);
        if a[0] == b[0] && a[1..] == b[1..] {
          assert a == [a[0]] + a[1..] && b == [b[0]] + b[1..];
        }
      }
    }
  }

  lemma {:induction false} KeysTransitive(k: Type, a: Value, b: Value, c: Value)
    requires KeyLess(k, a, b) && KeyLess(k, b, c)
    ensures KeyLess(k, a, c)
  {
    match k
    case Primitive(_) =>
    case Text => BytesTransitive(a.bytes, b.bytes, c.bytes);
    case Alias(u) => KeysTransitive(u, a, b, c);
  }

  lemma {:induction false} BytesTransitive(a: seq<Byte>, b: seq<Byte>, c: seq<Byte>)
    requires BytesLess(a, b) && BytesLess(b, c)
    ensures BytesLess(a, c)
    decreases |a|
  {
    if a != [] && a[0] == b[0] && b[0] == c[0] {
      BytesTransitive(a[1..], b[1..], c[1..]);
    }
  }

  // ---------------------------------------------------------------- one entry put into a map

  predicate KeysTyped(lang: Lang, k: Type, es: seq<Entry>) {
    forall i :: 0 <= i < |es| ==> OnWire(lang, k, es[i].key)
  }

  /** The value of the first entry with this key. */
  function Lookup(es: seq<Entry>, x: Value): Option<Value> {
    if es == [] then None else if es[0].key == x then Some(es[0].value) else Lookup(es[1..], x)
  }

  /** The value of the last entry with this key. */
  function Last(es: seq<Entry>, x: Value): Option<Value> {
    if es == [] then None
    else if Last(es[1..], x).Some? then Last(es[1..], x)
    else if es[0].key == x then Some(es[0].value)
    else None
  }

  lemma {:induction false} LookupFinds(es: seq<Entry>, x: Value)
    ensures Lookup(es, x).Some? <==> exists i :: 0 <= i < |es| && es[i].key == x
  {
    if es != [] {
      LookupFinds(es[1..], x);
      assert forall i :: 0 <= i < |es| - 1 ==> es[1..][i] == es[i + 1];
      if Lookup(es[1..], x).Some? {
        var i :| 0 <= i < |es| - 1 && es[1..][i].key == x;
        assert es[i + 1].key == x;
      }
    }
  }

  /** With no key twice, taking the head off leaves every other key behind it. */
  lemma OrderedTail(lang: Lang, k: Type, es: seq<Entry>)
    requires es != [] && Ordered(lang, k, es)
    ensures Ordered(lang, k, es[1..])
    ensures forall f :: f in es[1..] ==> if lang.Cpp? then KeyLess(k, es[0].key, f.key) else es[0].key != f.key
  {
    hide KeyLess;
    forall i, j | 0 <= i < j < |es| - 1
      ensures if lang.Cpp? then KeyLess(k, es[1..][i].key, es[1..][j].key) else es[1..][i].key != es[1..][j].key
    {
      assert es[1..][i] == es[i + 1] && es[1..][j] == es[j + 1];
    }
  }

  lemma OrderedFront(lang: Lang, k: Type, f: Entry, es: seq<Entry>)
    requires Ordered(lang, k, es)
    requires forall g :: g in es ==> if lang.Cpp? then KeyLess(k, f.key, g.key) else f.key != g.key
    ensures Ordered(lang, k, [f] + es)
  {
    hide KeyLess;
    var fs := [f] + es;
    forall i, j | 0 <= i < j < |fs|
      ensures if lang.Cpp? then KeyLess(k, fs[i].key, fs[j].key) else fs[i].key != fs[j].key
    {
      assert fs[j] == es[j - 1];
      assert i > 0 ==> fs[i] == es[i - 1];
      assert fs[j] in es;
    }
  }

  /** r is es with en put into it, unless its key is there. */
  ghost predicate Inserted(k: Type, es: seq<Entry>, en: Entry, r: seq<Entry>) {
    && Ordered(Cpp, k, r)
    && multiset(r) == (if Lookup(es, en.key).Some? then multiset(es) else multiset(es) + multiset{en})
    && (forall x :: Lookup(r, x) == if x == en.key && Lookup(es, x).None? then Some(en.value) else Lookup(es, x))
  }

  /** What an insertion into a std::map does: a key that is there keeps its entry, any other
      entry joins, and the keys ascend as before. */
  lemma {:induction false} InsertedIs(lang: Lang, k: Type, es: seq<Entry>, en: Entry)
    requires KeyType(k) && KeysTyped(lang, k, es) && OnWire(lang, k, en.key) && Ordered(Cpp, k, es)
    ensures Inserted(k, es, en, InsertSorted(k, es, en))
  {
    hide KeyLess, OnWire, Inserted, Ordered;
    if es == [] {
      InsertedFirst(k, en);
    } else {
      var h, tail := es[0], es[1..];
      OrderedTail(Cpp, k, es);
      KeysTotal(lang, k, h.key, en.key);
      if KeyLess(k, h.key, en.key) {
        assert KeysTyped(lang, k, tail);
        InsertedIs(lang, k, tail, en);
        InsertedBehind(lang, k, es, en, InsertSorted(k, tail, en));
      } else if KeyLess(k, en.key, h.key) {
        InsertedInFront(lang, k, es, en);
      } else {
        assert Inserted(k, es, en, es) by { KeyThere(k, es, en); }
      }
    }
  }

  lemma InsertedFirst(k: Type, en: Entry)
    ensures Inserted(k, [], en, [en])
  {
    assert [en][1..] == [];
  }

  lemma KeyThere(k: Type, es: seq<Entry>, en: Entry)
    requires es != [] && es[0].key == en.key && Ordered(Cpp, k, es)
    ensures Inserted(k, es, en, es)
  {
    hide KeyLess;
  }

  lemma InsertedBehind(lang: Lang, k: Type, es: seq<Entry>, en: Entry, more: seq<Entry>)
    requires es != [] && KeyLess(k, es[0].key, en.key) && es[0].key != en.key
    requires forall f :: f in es[1..] ==> KeyLess(k, es[0].key, f.key)
    requires Inserted(k, es[1..], en, more)
    ensures Inserted(k, es, en, [es[0]] + more)
  {
    hide KeyLess, Ordered;
    var h, r := es[0], [es[0]] + more;
    forall f | f in more
      ensures KeyLess(k, h.key, f.key)
    {
      assert f in multiset(more);
    }
    OrderedFront(Cpp, k, h, more);
    JoinedBehind(es, en, more);
  }

  lemma JoinedBehind(es: seq<Entry>, en: Entry, more: seq<Entry>)
    requires es != [] && es[0].key != en.key
    requires multiset(more) == (if Lookup(es[1..], en.key).Some? then multiset(es[1..]) else multiset(es[1..]) + multiset{en})
    requires forall x :: Lookup(more, x) == if x == en.key && Lookup(es[1..], x).None? then Some(en.value) else Lookup(es[1..], x)
    ensures var r := [es[0]] + more;
      && multiset(r) == (if Lookup(es, en.key).Some? then multiset(es) else multiset(es) + multiset{en})
      && (forall x :: Lookup(r, x) == if x == en.key && Lookup(es, x).None? then Some(en.value) else Lookup(es, x))
  {
    hide Lookup;
    var h, tail := es[0], es[1..];
    LookupFront(h, more);
    LookupFront(h, tail);
    assert es == [h] + tail;
    assert multiset([h] + more) == multiset{h} + multiset(more) && multiset(es) == multiset{h} + multiset(tail);
  }

  lemma LookupFront(h: Entry, es: seq<Entry>)
    ensures forall x :: Lookup([h] + es, x) == if h.key == x then Some(h.value) else Lookup(es, x)
  {
    assert ([h] + es)[1..] == es;
  }

  lemma InsertedInFront(lang: Lang, k: Type, es: seq<Entry>, en: Entry)
    requires es != [] && KeyLess(k, en.key, es[0].key) && Ordered(Cpp, k, es)
    requires forall f :: f in es[1..] ==> KeyLess(k, es[0].key, f.key)
    requires KeyType(k) && KeysTyped(lang, k, es) && OnWire(lang, k, en.key)
    ensures Inserted(k, es, en, [en] + es)
  {
    hide KeyLess, OnWire;
    forall i | 0 <= i < |es|
      ensures KeyLess(k, en.key, es[i].key) && es[i].key != en.key
    {
      if i > 0 {
        assert es[i] in es[1..];
        KeysTransitive(k, en.key, es[0].key, es[i].key);
      }
      KeysTotal(lang, k, en.key, en.key);
    }
    OrderedFront(Cpp, k, en, es);
    LookupFinds(es, en.key);
    assert ([en] + es)[1..] == es;
  }

  /** What an assignment through the C# indexer does: a key that is there takes the new value in
      its place, any other entry joins. */
  lemma {:induction false} AssignedIs(k: Type, es: seq<Entry>, en: Entry)
    requires Ordered(CSharp, k, es)
    ensures var r := AssignKey(es, en);
      && Ordered(CSharp, k, r)
      && (Lookup(es, en.key).None? ==> r == es + [en])
      && |r| == (if Lookup(es, en.key).None? then |es| + 1 else |es|)
      && (forall f :: f in r ==> f == en || f in es)
      && (forall x :: Lookup(r, x) == if x == en.key then Some(en.value) else Lookup(es, x))
  {
    var r := AssignKey(es, en);
    if es == [] {
      assert [en][1..] == [];
    } else {
      var h, tail := es[0], es[1..];
      assert es == [h] + tail;
      OrderedTail(CSharp, k, es);
      if h.key == en.key {
        OrderedFront(CSharp, k, en, tail);
        assert r[1..] == tail;
      } else {
        AssignedIs(k, tail, en);
        OrderedFront(CSharp, k, h, AssignKey(tail, en));
        assert r[1..] == AssignKey(tail, en);
      }
    }
  }

  // ---------------------------------------------------------------- all entries of a map

  lemma PutIs(lang: Lang, k: Type, es: seq<Entry>, en: Entry)
    requires KeyType(k) && KeysTyped(lang, k, es) && OnWire(lang, k, en.key) && Ordered(lang, k, es)
    ensures var r := Put(lang, k, es, en);
      && Ordered(lang, k, r) && |r| <= |es| + 1
      && (Lookup(es, en.key).None? ==> multiset(r) == multiset(es) + multiset{en})
      && (forall f :: f in r ==> f == en || f in es)
      && (forall x :: Lookup(r, x) == if x == en.key && (lang.CSharp? || Lookup(es, x).None?) then Some(en.value) else Lookup(es, x))
  {
    hide KeyLess, OnWire, Ordered;
    if lang.Cpp? {
      InsertedIs(lang, k, es, en);
      var r := Put(lang, k, es, en);
      assert |multiset(r)| == |r| && |multiset(es)| == |es|;
      assert forall f :: f in r ==> f in multiset(r);
    } else {
      AssignedIs(k, es, en);
    }
  }

  /** Whatever comes, the entries end up in the language's order.  Of equal keys C++ has kept the
      first one's value, C# the last one's. */
  lemma {:induction false} PutAllIs(lang: Lang, k: Type, done: seq<Entry>, es: seq<Entry>)
    requires KeyType(k) && KeysTyped(lang, k, done) && KeysTyped(lang, k, es) && Ordered(lang, k, done)
    ensures var r := PutAll(lang, k, done, es);
      && Ordered(lang, k, r) && |r| <= |done| + |es|
      && (forall f :: f in r ==> f in done || f in es)
      && (lang.Cpp? ==> forall x :: Lookup(r, x) == if Lookup(done, x).Some? then Lookup(done, x) else Lookup(es, x))
      && (lang.CSharp? ==> forall x :: Lookup(r, x) == if Last(es, x).Some? then Last(es, x) else Lookup(done, x))
    decreases |es|
  {
    hide KeyLess, OnWire, Ordered, Put;
    if es != [] {
      var next := Put(lang, k, done, es[0]);
      PutIs(lang, k, done, es[0]);
      forall i | 0 <= i < |next|
        ensures OnWire(lang, k, next[i].key)
      {
        assert next[i] in next;
      }
      PutAllIs(lang, k, next, es[1..]);
    }
  }

  /** With no key twice nothing is dropped. */
  lemma {:induction false} PutAllKeeps(lang: Lang, k: Type, done: seq<Entry>, es: seq<Entry>)
    requires KeyType(k) && KeysTyped(lang, k, done) && KeysTyped(lang, k, es) && Ordered(lang, k, done)
    requires Ordered(CSharp, k, es) && forall i :: 0 <= i < |es| ==> Lookup(done, es[i].key).None?
    ensures multiset(PutAll(lang, k, done, es)) == multiset(done) + multiset(es)
    decreases |es|
  {
    hide KeyLess, OnWire, Put;
    if es != [] {
      assert es == [es[0]] + es[1..];
      var next := Put(lang, k, done, es[0]);
      PutIs(lang, k, done, es[0]);
      forall i | 0 <= i < |next|
        ensures OnWire(lang, k, next[i].key)
      {
        assert next[i] in next;
      }
      OrderedTail(CSharp, k, es);
      PutAllKeeps(lang, k, next, es[1..]);
    }
  }

  lemma {:induction false} InsertLast(k: Type, es: seq<Entry>, en: Entry)
    requires Ordered(Cpp, k, es + [en])
    ensures InsertSorted(k, es, en) == es + [en]
  {
    if es != [] {
      assert KeyLess(k, (es + [en])[0].key, (es + [en])[|es|].key);
      assert (es + [en])[1..] == es[1..] + [en];
      InsertLast(k, es[1..], en);
    }
  }

  lemma {:induction false} AssignLast(k: Type, es: seq<Entry>, en: Entry)
    requires Ordered(CSharp, k, es + [en])
    ensures AssignKey(es, en) == es + [en]
  {
    if es != [] {
      assert (es + [en])[0].key != (es + [en])[|es|].key;
      assert (es + [en])[1..] == es[1..] + [en];
      AssignLast(k, es[1..], en);
    }
  }

  lemma OrderedPrefix(lang: Lang, k: Type, a: seq<Entry>, b: seq<Entry>)
    requires Ordered(lang, k, a + b)
    ensures Ordered(lang, k, a)
  {
    hide KeyLess;
    forall i, j | 0 <= i < j < |a|
      ensures if lang.Cpp? then KeyLess(k, a[i].key, a[j].key) else a[i].key != a[j].key
    {
      assert (a + b)[i] == a[i] && (a + b)[j] == a[j];
    }
  }

  /** Entries that come in the language's order stay as they are. */
  lemma {:induction false} PutInOrder(lang: Lang, k: Type, done: seq<Entry>, es: seq<Entry>)
    requires Ordered(lang, k, done + es)
    ensures PutAll(lang, k, done, es) == done + es
    decreases |es|
  {
    hide Ordered;
    if es == [] {
      assert done + es == done;
    } else {
      assert done + es == (done + [es[0]]) + es[1..];
      OrderedPrefix(lang, k, done + [es[0]], es[1..]);
      if lang.Cpp? {
        InsertLast(k, done, es[0]);
      } else {
        AssignLast(k, done, es[0]);
      }
      PutInOrder(lang, k, done + [es[0]], es[1..]);
    }
  }

  // ---------------------------------------------------------------- whole values

  /** A value of the language's own type is taken as it is. */
  lemma {:induction false} TakenAsIs(lang: Lang, t: Type, v: Value)
    requires HasType(lang, t, v)
    ensures OnWire(lang, t, v) && Taken(lang, t, v) == v
    decreases t, 2
  {
    hide Ordered, PutAll;
    match t
    case List(e) => ItemsAsIs(lang, e, v.items);
    case Array(e) => ItemsAsIs(lang, e, v.items);
    case StaticArray(e, _) => ItemsAsIs(lang, e, v.items);
    case Map(k, e) => MapAsIs(lang, k, e, v);
    case Message(p, fs) => MessageAsIs(lang, p, fs, v);
    case Alias(u) => TakenAsIs(lang, u, v);
    case _ =>
  }

  lemma {:induction false} MapAsIs(lang: Lang, k: Type, e: Type, v: Value)
    requires HasType(lang, Map(k, e), v)
    ensures OnWire(lang, Map(k, e), v) && Taken(lang, Map(k, e), v) == v
    decreases Map(k, e), 1
  {
    hide Ordered, PutAll;
    EntriesAsIs(lang, k, e, v.entries);
    assert [] + v.entries == v.entries;
    PutInOrder(lang, k, [], v.entries);
  }

  lemma {:induction false} MessageAsIs(lang: Lang, p: Type, fs: Fields, v: Value)
    requires HasType(lang, Message(p, fs), v)
    ensures OnWire(lang, Message(p, fs), v) && Taken(lang, Message(p, fs), v) == v
    decreases Message(p, fs), 1
  {
    TakenAsIs(lang, p, v.base);
    FieldsAsIs(lang, fs, v.values);
  }

  lemma {:induction false} ItemsAsIs(lang: Lang, e: Type, vs: seq<Value>)
    requires forall i :: 0 <= i < |vs| ==> HasType(lang, e, vs[i])
    ensures ItemsOnWire(lang, e, vs) && TakenItems(lang, e, vs) == vs
    decreases e, 3
  {
    hide HasType, OnWire;
    forall i | 0 <= i < |vs|
      ensures OnWire(lang, e, vs[i]) && TakenItems(lang, e, vs)[i] == vs[i]
    {
      TakenAsIs(lang, e, vs[i]);
    }
  }

  lemma {:induction false} EntriesAsIs(lang: Lang, k: Type, e: Type, es: seq<Entry>)
    requires forall i :: 0 <= i < |es| ==> HasType(lang, k, es[i].key) && HasType(lang, e, es[i].value)
    ensures EntriesOnWire(lang, k, e, es) && TakenEntries(lang, k, e, es) == es
    decreases Map(k, e), 0
  {
    hide HasType, OnWire;
    forall i | 0 <= i < |es|
      ensures OnWire(lang, k, es[i].key) && OnWire(lang, e, es[i].value) && TakenEntries(lang, k, e, es)[i] == es[i]
    {
      TakenAsIs(lang, k, es[i].key);
      TakenAsIs(lang, e, es[i].value);
    }
  }

  lemma {:induction false} FieldsAsIs(lang: Lang, fs: Fields, vs: seq<Value>)
    requires FieldsHaveType(lang, fs, vs)
    ensures FieldsOnWire(lang, fs, vs) && TakenFields(lang, fs, vs) == vs
    decreases fs, 0
  {
    hide HasType, OnWire;
    match fs
    case End =>
    case Field(_, t, rest) =>
      TakenAsIs(lang, t, vs[0]);
      FieldsAsIs(lang, rest, vs[1..]);
  }

  /** Whatever is taken from the wire is a value of the type. */
  lemma {:induction false} TakenTyped(lang: Lang, t: Type, v: Value)
    requires WellFormed(lang, t) && OnWire(lang, t, v)
    ensures HasType(lang, t, Taken(lang, t, v))
    decreases t, 2
  {
    hide Ordered, PutAll;
    match t
    case List(e) => ItemsTaken(lang, e, v.items);
    case Array(e) => ItemsTaken(lang, e, v.items);
    case StaticArray(e, _) => ItemsTaken(lang, e, v.items);
    case Map(k, e) =>
      MapTaken(lang, k, e, v);
    case Message(p, fs) => MessageTaken(lang, p, fs, v);
    case Alias(u) => TakenTyped(lang, u, v);
    case _ =>
  }

  lemma {:induction false} MessageTaken(lang: Lang, p: Type, fs: Fields, v: Value)
    requires WellFormed(lang, Message(p, fs)) && OnWire(lang, Message(p, fs), v)
    ensures HasType(lang, Message(p, fs), Taken(lang, Message(p, fs), v))
    decreases Message(p, fs), 1
  {
    TakenTyped(lang, p, v.base);
    FieldsTaken(lang, fs, v.values);
  }

  lemma {:induction false} ItemsTaken(lang: Lang, e: Type, vs: seq<Value>)
    requires WellFormed(lang, e) && ItemsOnWire(lang, e, vs)
    ensures forall i :: 0 <= i < |vs| ==> HasType(lang, e, TakenItems(lang, e, vs)[i])
    decreases e, 3
  {
    hide HasType, OnWire, WellFormed;
    forall i | 0 <= i < |vs|
      ensures HasType(lang, e, TakenItems(lang, e, vs)[i])
    {
      TakenTyped(lang, e, vs[i]);
    }
  }

  lemma {:induction false} FieldsTaken(lang: Lang, fs: Fields, vs: seq<Value>)
    requires FieldsWellFormed(lang, fs) && FieldsOnWire(lang, fs, vs)
    ensures FieldsHaveType(lang, fs, TakenFields(lang, fs, vs))
    decreases fs, 0
  {
    hide HasType, OnWire, WellFormed, NameOk;
    match fs
    case End =>
    case Field(_, t, rest) =>
      TakenTyped(lang, t, vs[0]);
      FieldsTaken(lang, rest, vs[1..]);
  }

  /** The keys of a map are taken as they are. */
  lemma {:induction false} KeyTaken(lang: Lang, k: Type, v: Value)
    requires KeyType(k)
    ensures Taken(lang, k, v) == v && (OnWire(lang, k, v) ==> HasType(lang, k, v))
  {
    match k
    case Alias(u) => KeyTaken(lang, u, v);
    case _ =>
  }

  lemma EntriesTaken(lang: Lang, k: Type, e: Type, es: seq<Entry>)
    requires KeyType(k) && EntriesOnWire(lang, k, e, es)
    ensures KeysTyped(lang, k, TakenEntries(lang, k, e, es))
    ensures forall i :: 0 <= i < |es| ==> TakenEntries(lang, k, e, es)[i].key == es[i].key
  {
    hide OnWire;
    forall i | 0 <= i < |es|
      ensures TakenEntries(lang, k, e, es)[i].key == es[i].key
    {
      KeyTaken(lang, k, es[i].key);
    }
  }

  lemma {:induction false} MapTaken(lang: Lang, k: Type, e: Type, v: Value)
    requires WellFormed(lang, Map(k, e)) && OnWire(lang, Map(k, e), v)
    ensures HasType(lang, Map(k, e), Taken(lang, Map(k, e), v))
    decreases Map(k, e), 1
  {
    hide HasType, OnWire, WellFormed, Ordered, PutAll, Taken, KeyType;
    MapWire(lang, k, e, v);
    var es := v.entries;
    var fs := TakenEntries(lang, k, e, es);
    forall i | 0 <= i < |es|
      ensures HasType(lang, k, fs[i].key) && HasType(lang, e, fs[i].value)
    {
      KeyTaken(lang, k, es[i].key);
      TakenTyped(lang, e, es[i].value);
    }
    EntriesPut(lang, k, e, es);
    var r := PutAll(lang, k, [], fs);
    MapTyped(lang, k, e, r);
  }

  lemma MapWire(lang: Lang, k: Type, e: Type, v: Value)
    requires WellFormed(lang, Map(k, e)) && OnWire(lang, Map(k, e), v)
    ensures v.Entries? && |v.entries| < MaxLength(lang) && EntriesOnWire(lang, k, e, v.entries)
    ensures KeyType(k) && WellFormed(lang, e)
    ensures Taken(lang, Map(k, e), v) == Entries(PutAll(lang, k, [], TakenEntries(lang, k, e, v.entries)))
  {
    hide PutAll;
  }

  lemma MapTyped(lang: Lang, k: Type, e: Type, r: seq<Entry>)
    requires |r| < MaxLength(lang) && Ordered(lang, k, r)
    requires forall i :: 0 <= i < |r| ==> HasType(lang, k, r[i].key) && HasType(lang, e, r[i].value)
    ensures HasType(lang, Map(k, e), Entries(r))
  {
    hide Ordered;
  }

  lemma EntriesPut(lang: Lang, k: Type, e: Type, es: seq<Entry>)
    requires KeyType(k) && EntriesOnWire(lang, k, e, es)
    ensures var fs := TakenEntries(lang, k, e, es);
      var r := PutAll(lang, k, [], fs);
      |r| <= |es| && Ordered(lang, k, r) && forall i :: 0 <= i < |r| ==> r[i] in fs
  {
    hide OnWire, Ordered, PutAll, KeyType, Taken;
    var fs := TakenEntries(lang, k, e, es);
    EntriesTaken(lang, k, e, es);
    assert Ordered(lang, k, []) by { NothingOrdered(lang, k); }
    PutAllIs(lang, k, [], fs);
    assert forall i :: 0 <= i < |PutAll(lang, k, [], fs)| ==> PutAll(lang, k, [], fs)[i] in PutAll(lang, k, [], fs);
  }

  lemma NothingOrdered(lang: Lang, k: Type)
    ensures Ordered(lang, k, [])
  {
  }

  /** Where a key is repeated on the wire, a C++ map has kept the first of its values and a C#
      map the last. */
  lemma RepeatedKey(lang: Lang, k: Type, e: Type, es: seq<Entry>, x: Value)
    requires KeyType(k) && EntriesOnWire(lang, k, e, es)
    ensures var r, fs := Taken(lang, Map(k, e), Entries(es)).entries, TakenEntries(lang, k, e, es);
      Lookup(r, x) == if lang.Cpp? then Lookup(fs, x) else Last(fs, x)
  {
    hide OnWire, Ordered, PutAll, KeyType, Lookup, Last;
    var fs := TakenEntries(lang, k, e, es);
    EntriesTaken(lang, k, e, es);
    NothingOrdered(lang, k);
    NothingFound();
    PutAllIs(lang, k, [], fs);
  }

  // ---------------------------------------------------------------- from C# to C++

  /** C++ can take every C# value. */
  lemma {:induction false} WireShared(t: Type, v: Value)
    requires OnWire(CSharp, t, v)
    ensures OnWire(Cpp, t, v)
    decreases t
  {
    match t
    case List(e) => forall i | 0 <= i < |v.items| ensures OnWire(Cpp, e, v.items[i]) { WireShared(e, v.items[i]); }
    case Array(e) => forall i | 0 <= i < |v.items| ensures OnWire(Cpp, e, v.items[i]) { WireShared(e, v.items[i]); }
    case StaticArray(e, _) =>
      forall i | 0 <= i < |v.items| ensures OnWire(Cpp, e, v.items[i]) { WireShared(e, v.items[i]); }
    case Map(k, e) =>
      forall i | 0 <= i < |v.entries|
        ensures OnWire(Cpp, k, v.entries[i].key) && OnWire(Cpp, e, v.entries[i].value)
      {
        WireShared(k, v.entries[i].key);
        WireShared(e, v.entries[i].value);
      }
    case Message(p, fs) =>
      WireShared(p, v.base);
      WireFieldsShared(fs, v.values);
    case Alias(u) => WireShared(u, v);
    case _ =>
  }

  lemma {:induction false} WireFieldsShared(fs: Fields, vs: seq<Value>)
    requires FieldsOnWire(CSharp, fs, vs)
    ensures FieldsOnWire(Cpp, fs, vs)
    decreases fs
  {
    match fs
    case End =>
    case Field(_, t, rest) =>
      WireShared(t, vs[0]);
      WireFieldsShared(rest, vs[1..]);
  }

  /** The same value, up to the order in which maps list their entries. */
  predicate SameValue(t: Type, v: Value, w: Value)
    decreases t
  {
    match (t, v, w)
    case (List(e), Items(vs), Items(ws)) => |ws| == |vs| && forall i :: 0 <= i < |vs| ==> SameValue(e, vs[i], ws[i])
    case (Array(e), Items(vs), Items(ws)) => |ws| == |vs| && forall i :: 0 <= i < |vs| ==> SameValue(e, vs[i], ws[i])
    case (StaticArray(e, _), Items(vs), Items(ws)) => |ws| == |vs| && forall i :: 0 <= i < |vs| ==> SameValue(e, vs[i], ws[i])
    case (Map(_, e), Entries(es), Entries(fs)) =>
      && |fs| == |es|
      && forall i :: 0 <= i < |es| ==>
           Lookup(fs, es[i].key).Some? && SameValue(e, es[i].value, Lookup(fs, es[i].key).value)
    case (Message(p, fs), Record(b, vs), Record(c, ws)) => SameValue(p, b, c) && FieldsSame(fs, vs, ws)
    case (Alias(u), _, _) => SameValue(u, v, w)
    case _ => v == w
  }

  predicate FieldsSame(fs: Fields, vs: seq<Value>, ws: seq<Value>)
    decreases fs
  {
    match fs
    case End => vs == ws
    case Field(_, t, rest) => vs != [] && ws != [] && SameValue(t, vs[0], ws[0]) && FieldsSame(rest, vs[1..], ws[1..])
  }

  lemma {:induction false} DistinctLookup(k: Type, es: seq<Entry>, i: nat)
    requires i < |es| && Ordered(CSharp, k, es)
    ensures Lookup(es, es[i].key) == Some(es[i].value)
  {
    if i > 0 {
      assert es[0].key != es[i].key;
      OrderedTail(CSharp, k, es);
      DistinctLookup(k, es[1..], i - 1);
    }
  }

  /** Nothing a C# value holds is lost in C++, and nothing is added. */
  lemma {:induction false} TakenSame(t: Type, v: Value)
    requires WellFormed(Cpp, t) && HasType(CSharp, t, v)
    ensures OnWire(Cpp, t, v) && SameValue(t, v, Taken(Cpp, t, v))
    decreases t, 2
  {
    TakenAsIs(CSharp, t, v);
    WireShared(t, v);
    hide Ordered, PutAll, OnWire;
    match t
    case List(e) => ItemsSame(e, v.items);
    case Array(e) => ItemsSame(e, v.items);
    case StaticArray(e, _) => ItemsSame(e, v.items);
    case Map(k, e) => EntriesSame(k, e, v.entries);
    case Message(p, fs) =>
      TakenSame(p, v.base);
      FieldsTakenSame(fs, v.values);
    case Alias(u) => TakenSame(u, v);
    case _ =>
  }

  lemma {:induction false} ItemsSame(e: Type, vs: seq<Value>)
    requires WellFormed(Cpp, e) && forall i :: 0 <= i < |vs| ==> HasType(CSharp, e, vs[i])
    ensures forall i :: 0 <= i < |vs| ==> SameValue(e, vs[i], TakenItems(Cpp, e, vs)[i])
    decreases e, 3
  {
    hide WellFormed, HasType, OnWire, SameValue;
    forall i | 0 <= i < |vs|
      ensures SameValue(e, vs[i], TakenItems(Cpp, e, vs)[i])
    {
      TakenSame(e, vs[i]);
    }
  }

  lemma {:induction false} FieldsTakenSame(fs: Fields, vs: seq<Value>)
    requires FieldsWellFormed(Cpp, fs) && FieldsHaveType(CSharp, fs, vs)
    ensures FieldsSame(fs, vs, TakenFields(Cpp, fs, vs))
    decreases fs, 0
  {
    hide WellFormed, HasType, OnWire, SameValue, NameOk;
    match fs
    case End =>
    case Field(_, t, rest) =>
      TakenSame(t, vs[0]);
      FieldsTakenSame(rest, vs[1..]);
  }

  /** The entries of a C# map, put into a C++ map in the order they come: the same entries, now
      ascending. */
  lemma {:induction false} EntriesSame(k: Type, e: Type, es: seq<Entry>)
    requires WellFormed(Cpp, Map(k, e)) && HasType(CSharp, Map(k, e), Entries(es))
    ensures var fs := TakenEntries(Cpp, k, e, es);
      && Ordered(Cpp, k, PutAll(Cpp, k, [], fs)) && multiset(PutAll(Cpp, k, [], fs)) == multiset(fs)
      && SameValue(Map(k, e), Entries(es), Entries(PutAll(Cpp, k, [], fs)))
    decreases Map(k, e), 1
  {
    hide HasType, OnWire, SameValue, WellFormed, Ordered, PutAll, KeyType;
    MapOnWire(k, e, es);
    EntriesKept(k, e, es);
    forall i | 0 <= i < |es|
      ensures SameValue(e, es[i].value, TakenEntries(Cpp, k, e, es)[i].value)
    {
      TakenSame(e, es[i].value);
    }
    MapSame(k, e, es, PutAll(Cpp, k, [], TakenEntries(Cpp, k, e, es)));
  }

  lemma EntriesKept(k: Type, e: Type, es: seq<Entry>)
    requires KeyType(k) && Ordered(CSharp, k, es) && EntriesOnWire(Cpp, k, e, es)
    ensures var fs := TakenEntries(Cpp, k, e, es);
      var r := PutAll(Cpp, k, [], fs);
      && Ordered(Cpp, k, r) && multiset(r) == multiset(fs) && |r| == |es|
      && forall i :: 0 <= i < |es| ==> Lookup(r, es[i].key) == Some(fs[i].value)
  {
    hide OnWire, PutAll, KeyLess, KeyType, Taken, Lookup;
    EntriesTaken(Cpp, k, e, es);
    DistinctKept(k, TakenEntries(Cpp, k, e, es));
  }

  /** Entries under different keys, in any order: a C++ map holds all of them, ascending. */
  lemma DistinctKept(k: Type, fs: seq<Entry>)
    requires KeyType(k) && KeysTyped(Cpp, k, fs) && Ordered(CSharp, k, fs)
    ensures var r := PutAll(Cpp, k, [], fs);
      && Ordered(Cpp, k, r) && multiset(r) == multiset(fs) && |r| == |fs|
      && forall i :: 0 <= i < |fs| ==> Lookup(r, fs[i].key) == Some(fs[i].value)
  {
    hide OnWire, PutAll, KeyLess, KeyType, Lookup, Ordered;
    var r := PutAll(Cpp, k, [], fs);
    NothingOrdered(Cpp, k);
    NothingFound();
    PutAllIs(Cpp, k, [], fs);
    PutAllKeeps(Cpp, k, [], fs);
    assert |multiset(r)| == |r| && |multiset(fs)| == |fs|;
    forall i | 0 <= i < |fs|
      ensures Lookup(r, fs[i].key) == Some(fs[i].value)
    {
      DistinctLookup(k, fs, i);
    }
  }

  lemma NothingFound()
    ensures forall x :: Lookup([], x) == None
  {
  }

  lemma MapOnWire(k: Type, e: Type, es: seq<Entry>)
    requires WellFormed(Cpp, Map(k, e)) && HasType(CSharp, Map(k, e), Entries(es))
    ensures KeyType(k) && WellFormed(Cpp, e) && Ordered(CSharp, k, es) && EntriesOnWire(Cpp, k, e, es)
    ensures forall i :: 0 <= i < |es| ==> HasType(CSharp, e, es[i].value)
  {
    hide Ordered;
    TakenAsIs(CSharp, Map(k, e), Entries(es));
    WireShared(Map(k, e), Entries(es));
  }

  lemma MapSame(k: Type, e: Type, es: seq<Entry>, r: seq<Entry>)
    requires |r| == |es|
    requires forall i :: 0 <= i < |es| ==> Lookup(r, es[i].key).Some? && SameValue(e, es[i].value, Lookup(r, es[i].key).value)
    ensures SameValue(Map(k, e), Entries(es), Entries(r))
  {
  }
}
