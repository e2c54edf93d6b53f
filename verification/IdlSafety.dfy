/** Bounds and truncation: what any load keeps, whatever the bytes. */
module IdlSafety {
  import opened Bytes
  import opened Idl
  import opened IdlCode
  import opened IdlCompiler
  import opened IdlLoad

  // ---------------------------------------------------------------- more bytes change nothing

  function Grow(st: State, more: seq<Byte>): State {
    st.(nSize := st.nSize + |more|)
  }

  /** A finished run kept the cursor and nSize in step (so it never left the buffer), and
      `longer`, the run with more bytes behind, finished the same. */
  predicate Same(buf: seq<Byte>, more: seq<Byte>, r: Outcome<State>, longer: Outcome<State>) {
    r.Done? ==> InStep(buf, r.value) && longer == Done(Grow(r.value, more))
  }

  predicate SameObject(buf: seq<Byte>, more: seq<Byte>, r: Outcome<Loaded>, longer: Outcome<Loaded>) {
    r.Done? ==>
      && r.value.pos + r.value.nSize == |buf|
      && longer == Done(r.value.(nSize := r.value.nSize + |more|))
  }

  /** Any statement at all, not only those the compiler emits. */
  lemma {:induction false} RunStable(buf: seq<Byte>, more: seq<Byte>, s: Load, st: State)
    requires InStep(buf, st)
    ensures Same(buf, more, Run(buf, s, st), Run(buf + more, s, Grow(st, more)))
    decreases s, 2
  {
    hide Same, Run, InStep, Grow;
    match s
    case Seq(a, b) => SeqStable(buf, more, a, b, st);
    case Repeat(l, signed, body) => RepeatStable(buf, more, l, signed, body, st);
    case Fill(x, count, item, body) => FillStable(buf, more, x, count, item, body, st);
    case CallLoad(x, code) => CallStable(buf, more, x, code, st);
    case ReadNum(x, w) => ReadNumStable(buf, more, x, w, st);
    case ReadText(x, l, signed) => ReadTextStable(buf, more, x, l, signed, st);
    case ReadItems(x, w, count) => ReadItemsStable(buf, more, x, w, count, st);
    case _ => LeafStable(buf, more, s, st);
  }

  lemma LeafStable(buf: seq<Byte>, more: seq<Byte>, s: Load, st: State)
    requires InStep(buf, st) && !s.Seq? && !s.Repeat? && !s.Fill? && !s.CallLoad?
    requires !s.ReadNum? && !s.ReadText? && !s.ReadItems?
    ensures Same(buf, more, Run(buf, s, st), Run(buf + more, s, Grow(st, more)))
  {
    hide Get, Set, InsertSorted, AssignKey;
  }

  lemma ReadNumStable(buf: seq<Byte>, more: seq<Byte>, x: string, w: nat, st: State)
    requires InStep(buf, st)
    ensures Same(buf, more, Run(buf, ReadNum(x, w), st), Run(buf + more, ReadNum(x, w), Grow(st, more)))
  {
    hide Set, UnLE;
    SameWindow(buf, more, st.pos, w);
  }

  lemma ReadTextStable(buf: seq<Byte>, more: seq<Byte>, x: string, l: string, signed: bool, st: State)
    requires InStep(buf, st)
    ensures Same(buf, more, Run(buf, ReadText(x, l, signed), st), Run(buf + more, ReadText(x, l, signed), Grow(st, more)))
  {
    hide Set, Get;
    SameWindow(buf, more, st.pos, AsLength(NumOf(Get(st.env, l)), signed));
  }

  lemma ReadItemsStable(buf: seq<Byte>, more: seq<Byte>, x: string, w: nat, count: nat, st: State)
    requires InStep(buf, st)
    ensures Same(buf, more, Run(buf, ReadItems(x, w, count), st), Run(buf + more, ReadItems(x, w, count), Grow(st, more)))
  {
    hide Set, Numbers, Run;
    var n := w * count;
    SameWindow(buf, more, st.pos, n);
    if st.pos + n <= |buf| {
      RunItems(buf, x, w, count, buf[st.pos..st.pos + n], st);
      RunItems(buf + more, x, w, count, buf[st.pos..st.pos + n], Grow(st, more));
    } else {
      ItemsOut(buf, x, w, count, st);
    }
  }

  lemma ItemsOut(buf: seq<Byte>, x: string, w: nat, count: nat, st: State)
    requires st.pos + w * count > |buf|
    ensures Run(buf, ReadItems(x, w, count), st) == OutOfBounds
  {
    hide Numbers, Set;
  }

  lemma SameWindow(buf: seq<Byte>, more: seq<Byte>, pos: nat, n: int)
    ensures 0 <= n && pos + n <= |buf| ==> (buf + more)[pos..pos + n] == buf[pos..pos + n]
  {}

  lemma {:induction false} SeqStable(buf: seq<Byte>, more: seq<Byte>, a: Load, b: Load, st: State)
    requires InStep(buf, st)
    ensures Same(buf, more, Run(buf, Seq(a, b), st), Run(buf + more, Seq(a, b), Grow(st, more)))
    decreases Seq(a, b), 0
  {
    RunStable(buf, more, a, st);
    if Run(buf, a, st).Done? {
      RunStable(buf, more, b, Run(buf, a, st).value);
    }
  }

  lemma {:induction false} RepeatStable(buf: seq<Byte>, more: seq<Byte>, l: string, signed: bool, body: Load, st: State)
    requires InStep(buf, st)
    ensures Same(buf, more, Run(buf, Repeat(l, signed, body), st), Run(buf + more, Repeat(l, signed, body), Grow(st, more)))
    decreases Repeat(l, signed, body), 0
  {
    hide Times, Same;
    var n := AsLength(NumOf(Get(st.env, l)), signed);
    TimesStable(buf, more, body, if n < 0 then 0 else n, st);
  }

  lemma {:induction false} TimesStable(buf: seq<Byte>, more: seq<Byte>, body: Load, n: nat, st: State)
    requires InStep(buf, st)
    ensures Same(buf, more, Times(buf, body, n, st), Times(buf + more, body, n, Grow(st, more)))
    decreases body, 3, n
  {
    hide Run;
    if n > 0 {
      RunStable(buf, more, body, st);
      match Run(buf, body, st)
      case Done(st1) => TimesStable(buf, more, body, n - 1, st1.(env := Pop(st1.env, Depth(st.env))));
      case _ =>
    }
  }

  lemma {:induction false} FillStable(
    buf: seq<Byte>, more: seq<Byte>, x: string, count: nat, item: string, body: Load, st: State)
    requires InStep(buf, st)
    ensures Same(buf, more, Run(buf, Fill(x, count, item, body), st), Run(buf + more, Fill(x, count, item, body), Grow(st, more)))
    decreases Fill(x, count, item, body), 0
  {
    hide FillFrom, Same;
    FillFromStable(buf, more, x, 0, count, item, body, st);
  }

  lemma {:induction false} FillFromStable(
    buf: seq<Byte>, more: seq<Byte>, x: string, i: nat, count: nat, item: string, body: Load, st: State)
    requires InStep(buf, st) && i <= count
    ensures Same(buf, more, FillFrom(buf, x, i, count, item, body, st), FillFrom(buf + more, x, i, count, item, body, Grow(st, more)))
    decreases body, 3, count - i
  {
    hide Run;
    if i < count {
      RunStable(buf, more, body, st);
      match Run(buf, body, st)
      case Done(st1) =>
        var env := Set(st1.env, x, Items(PutAt(ItemsOf(Get(st1.env, x)), i, Get(st1.env, item))));
        FillFromStable(buf, more, x, i + 1, count, item, body, st1.(env := Pop(env, Depth(st.env))));
      case _ =>
    }
  }

  lemma {:induction false} CallStable(buf: seq<Byte>, more: seq<Byte>, x: string, code: LoadCode, st: State)
    requires InStep(buf, st)
    ensures Same(buf, more, Run(buf, CallLoad(x, code), st), Run(buf + more, CallLoad(x, code), Grow(st, more)))
    decreases CallLoad(x, code), 0
  {
    hide RunCode;
    CodeStable(buf, more, code, Get(st.env, x), st.pos, st.nSize);
  }

  lemma {:induction false} CodeStable(buf: seq<Byte>, more: seq<Byte>, code: LoadCode, u: Value, pos: nat, nSize: nat)
    requires pos + nSize == |buf|
    ensures SameObject(buf, more, RunCode(buf, code, u, pos, nSize), RunCode(buf + more, code, u, pos, nSize + |more|))
    decreases code, 1
  {
    hide Run;
    match code
    case NoLoad =>
    case LoadObj(body) => RunStable(buf, more, body, State(Bind("obj", u, Empty), pos, nSize));
    case LoadClass(parent, fs, body) => ClassStable(buf, more, parent, fs, body, u, pos, nSize);
  }

  lemma {:induction false} ClassStable(
    buf: seq<Byte>, more: seq<Byte>, parent: LoadCode, fs: Fields, body: Load, u: Value, pos: nat, nSize: nat)
    requires pos + nSize == |buf|
    ensures var code := LoadClass(parent, fs, body);
      SameObject(buf, more, RunCode(buf, code, u, pos, nSize), RunCode(buf + more, code, u, pos, nSize + |more|))
    decreases LoadClass(parent, fs, body), 0
  {
    hide Run;
    var base, members := if u.Record? then u.base else Absent, if u.Record? then u.values else [];
    CodeStable(buf, more, parent, base, pos, nSize);
    match RunCode(buf, parent, base, pos, nSize)
    case Done(r) => RunStable(buf, more, body, State(BindFields(fs, members), r.pos, r.nSize));
    case _ =>
  }

  // ---------------------------------------------------------------- truncated input

  /** A prefix that does not hold all of a stored value is never accepted. */
  lemma TruncatedNeverLoads(lang: Lang, t: Type, u: Value, v: Value, cut: nat)
    requires UserDefined(t) && WellFormed(lang, t) && HasType(lang, t, v) && Blank(t, u) && cut < |Encode(t, v)|
    ensures !LoadInto(lang, t, u, Encode(t, v)[..cut]).Done?
  {
    hide WellFormed, HasType, Blank, Encode, RunCode, LoadCodeOf;
    var bs := Encode(t, v);
    var part, more := bs[..cut], bs[cut..];
    assert part + more == bs && bs[0..0 + |bs|] == bs;
    LoadTypedObject(lang, t, u, v, bs, 0, |bs|);
    CodeStable(part, more, LoadCodeOf(lang, t), u, 0, |part|);
  }

  // ---------------------------------------------------------------- reads outside the buffer

  /** Does the type hold a non-empty static array of numbers?  C++ copies those in one
      unchecked block. */
  predicate HasRaw(t: Type)
    decreases t
  {
    match t
    case StaticArray(e, n) => n > 0 && (e.Primitive? || HasRaw(e))
    case List(e) => HasRaw(e)
    case Array(e) => HasRaw(e)
    case Map(k, e) => HasRaw(k) || HasRaw(e)
    case Message(p, fs) => HasRaw(p) || FieldsHaveRaw(fs)
    case Alias(u) => HasRaw(u)
    case _ => false
  }

  predicate FieldsHaveRaw(fs: Fields)
    decreases fs
  {
    match fs
    case End => false
    case Field(_, t, rest) => HasRaw(t) || FieldsHaveRaw(rest)
  }

  /** Is a member, however deep, called like a parameter of the C++ Load that reads it?  Its
      code overwrites the parameter instead. */
  predicate HidesParameter(t: Type)
    decreases t
  {
    match t
    case StaticArray(e, n) => n > 0 && HidesParameter(e)
    case List(e) => HidesParameter(e)
    case Array(e) => HidesParameter(e)
    case Map(k, e) => HidesParameter(k) || HidesParameter(e)
    case Message(p, fs) => HidesParameter(p) || FieldsHideParameter(fs)
    case Alias(u) => HidesParameter(u)
    case _ => false
  }

  predicate FieldsHideParameter(fs: Fields)
    decreases fs
  {
    match fs
    case End => false
    case Field(f, t, rest) => f == "nSize" || f == "_buf_" || HidesParameter(t) || FieldsHideParameter(rest)
  }

  predicate Checked(lang: Lang, t: Type) {
    lang.CSharp? || (!HasRaw(t) && !HidesParameter(t))
  }

  /** Inside the buffer so far, and still in step when done. */
  predicate Safe(buf: seq<Byte>, r: Outcome<State>) {
    r != OutOfBounds && (r.Done? ==> InStep(buf, r.value))
  }

  lemma SafeSeq(buf: seq<Byte>, a: Load, b: Load, st: State)
    requires InStep(buf, st) && Safe(buf, Run(buf, a, st))
    requires Run(buf, a, st).Done? ==> Safe(buf, Run(buf, b, Run(buf, a, st).value))
    ensures Safe(buf, Run(buf, Seq(a, b), st))
  {}

  /** No load of checked code reads outside the buffer, whatever the bytes and the target. */
  lemma {:induction false} LoadSafe(lang: Lang, t: Type, x: string, buf: seq<Byte>, st: State)
    requires Checked(lang, t) && InStep(buf, st)
    ensures Safe(buf, Run(buf, GenLoad(lang, t, x), st))
    decreases t, 3
  {
    hide Run, Safe, InStep, LoadLength, LoadCodeOf, ListBody, MapBody, LoadNew;
    match t
    case Primitive(p) => NumberSafe(buf, x, Width(p), st);
    case Text =>
      LengthSafe(buf, x, st);
      if Run(buf, LoadLength(x), st).Done? {
        SafeDone(buf, Run(buf, LoadLength(x), st));
        TextSafe(buf, x, x + "_length", lang.CSharp?, Run(buf, LoadLength(x), st).value);
      }
      SafeSeq(buf, LoadLength(x), Seq(NeedLength(x + "_length", lang.CSharp?), ReadText(x, x + "_length", lang.CSharp?)), st);
    case List(e) => ListSafe(lang, e, x, buf, st);
    case Array(e) => ListSafe(lang, e, x, buf, st);
    case StaticArray(e, n) => StaticSafe(lang, e, n, x, buf, st);
    case Map(k, e) => MapSafe(lang, k, e, x, buf, st);
    case Message(_, _) => CallSafe(lang, t, x, buf, st);
    case Enum(_) => CallSafe(lang, t, x, buf, st);
    case Alias(_) => CallSafe(lang, t, x, buf, st);
    case Nothing => SkipSafe(buf, st);
  }

  lemma SkipSafe(buf: seq<Byte>, st: State)
    requires InStep(buf, st)
    ensures Safe(buf, Run(buf, Skip, st))
  {}

  lemma NumberSafe(buf: seq<Byte>, x: string, w: nat, st: State)
    requires InStep(buf, st)
    ensures Safe(buf, Run(buf, Seq(Need(w), ReadNum(x, w)), st))
  {
    hide Set, UnLE;
  }

  lemma LengthSafe(buf: seq<Byte>, x: string, st: State)
    requires InStep(buf, st)
    ensures Safe(buf, Run(buf, LoadLength(x), st))
  {
    var l := x + "_length";
    var st1 := st.(env := Bind(l, Num(0), st.env));
    hide Set, UnLE;
    if LENGTH_SIZE <= st.nSize {
      RunSeq(buf, Need(LENGTH_SIZE), Seq(Declare(l, Num(0)), ReadNum(l, LENGTH_SIZE)), st, st);
      RunSeq(buf, Declare(l, Num(0)), ReadNum(l, LENGTH_SIZE), st, st1);
    }
  }

  lemma TextSafe(buf: seq<Byte>, x: string, l: string, signed: bool, st: State)
    requires InStep(buf, st)
    ensures Safe(buf, Run(buf, Seq(NeedLength(l, signed), ReadText(x, l, signed)), st))
  {
    hide Set, Get;
  }

  lemma {:induction false} LoadNewSafe(lang: Lang, t: Type, y: string, buf: seq<Byte>, st: State)
    requires Checked(lang, t) && InStep(buf, st)
    ensures Safe(buf, Run(buf, LoadNew(lang, t, y), st))
    decreases t, 4
  {
    hide Run, Safe, InStep, Checked, GenLoad;
    var st1 := st.(env := Bind(y, Default(lang, t), st.env));
    RunDeclare(buf, y, Default(lang, t), st);
    SameCursor(buf, st, st1);
    LoadSafe(lang, t, y, buf, st1);
    RunSeq(buf, Declare(y, Default(lang, t)), GenLoad(lang, t, y), st, st1);
  }

  lemma {:induction false} ListSafe(lang: Lang, e: Type, x: string, buf: seq<Byte>, st: State)
    requires Checked(lang, e) && InStep(buf, st)
    ensures Safe(buf, Run(buf, Seq(LoadLength(x), Repeat(x + "_length", lang.CSharp?, ListBody(lang, e, x))), st))
    decreases e, 6
  {
    hide Run, Times, InStep, Checked, LoadLength, ListBody;
    LengthSafe(buf, x, st);
    var loop := Repeat(x + "_length", lang.CSharp?, ListBody(lang, e, x));
    if Run(buf, LoadLength(x), st).Done? {
      var st1 := Run(buf, LoadLength(x), st).value;
      var n := AsLength(NumOf(Get(st1.env, x + "_length")), lang.CSharp?);
      ItemsSafe(lang, e, x, if n < 0 then 0 else n, buf, st1);
      RunRepeatAny(buf, x + "_length", lang.CSharp?, ListBody(lang, e, x), st1);
    }
    SafeSeq(buf, LoadLength(x), loop, st);
  }

  lemma RunRepeatAny(buf: seq<Byte>, l: string, signed: bool, body: Load, st: State)
    ensures
      var n := AsLength(NumOf(Get(st.env, l)), signed);
      Run(buf, Repeat(l, signed, body), st) == Times(buf, body, if n < 0 then 0 else n, st)
  {
    hide Times;
  }

  lemma {:induction false} ItemsSafe(lang: Lang, e: Type, x: string, n: nat, buf: seq<Byte>, st: State)
    requires Checked(lang, e) && InStep(buf, st)
    ensures Safe(buf, Times(buf, ListBody(lang, e, x), n, st))
    decreases e, 5, n
  {
    hide Run, Checked, LoadNew;
    if n > 0 {
      LoadNewSafe(lang, e, x + "_val", buf, st);
      if Run(buf, LoadNew(lang, e, x + "_val"), st).Done? {
        RunPushBack(buf, x, x + "_val", Run(buf, LoadNew(lang, e, x + "_val"), st).value);
      }
      SafeSeq(buf, LoadNew(lang, e, x + "_val"), PushBack(x, x + "_val"), st);
      match Run(buf, ListBody(lang, e, x), st)
      case Done(st1) => ItemsSafe(lang, e, x, n - 1, buf, st1.(env := Pop(st1.env, Depth(st.env))));
      case _ =>
    }
  }

  lemma {:induction false} StaticSafe(lang: Lang, e: Type, n: nat, x: string, buf: seq<Byte>, st: State)
    requires Checked(lang, StaticArray(e, n)) && InStep(buf, st)
    ensures Safe(buf, Run(buf, GenLoad(lang, StaticArray(e, n), x), st))
    decreases StaticArray(e, n), 2
  {
    if lang.Cpp? && e.Primitive? {
      NoItemsSafe(buf, x, Width(e.prim), st);
    } else {
      StaticCode(lang, e, n, x);
      RunFill(buf, x, n, x + "_val", LoadNew(lang, e, x + "_val"), st);
      ElementsSafe(lang, e, x, 0, n, buf, st);
    }
  }

  lemma NoItemsSafe(buf: seq<Byte>, x: string, w: nat, st: State)
    requires InStep(buf, st)
    ensures Safe(buf, Run(buf, ReadItems(x, w, 0), st))
  {}

  lemma {:induction false} ElementsSafe(lang: Lang, e: Type, x: string, i: nat, n: nat, buf: seq<Byte>, st: State)
    requires (n > 0 ==> Checked(lang, e)) && InStep(buf, st) && i <= n
    ensures Safe(buf, FillFrom(buf, x, i, n, x + "_val", LoadNew(lang, e, x + "_val"), st))
    decreases e, 5, n - i
  {
    hide Run, Checked, LoadNew;
    if i < n {
      var body := LoadNew(lang, e, x + "_val");
      LoadNewSafe(lang, e, x + "_val", buf, st);
      match Run(buf, body, st)
      case Done(st1) =>
        var env := Set(st1.env, x, Items(PutAt(ItemsOf(Get(st1.env, x)), i, Get(st1.env, x + "_val"))));
        ElementsSafe(lang, e, x, i + 1, n, buf, st1.(env := Pop(env, Depth(st.env))));
      case _ =>
    }
  }

  lemma {:induction false} MapSafe(lang: Lang, k: Type, e: Type, x: string, buf: seq<Byte>, st: State)
    requires Checked(lang, k) && Checked(lang, e) && InStep(buf, st)
    ensures Safe(buf, Run(buf, Seq(LoadLength(x), Repeat(x + "_length", lang.CSharp?, MapBody(lang, k, e, x))), st))
    decreases Map(k, e), 2
  {
    hide Run, Times, InStep, Checked, LoadLength, MapBody;
    LengthSafe(buf, x, st);
    var loop := Repeat(x + "_length", lang.CSharp?, MapBody(lang, k, e, x));
    if Run(buf, LoadLength(x), st).Done? {
      var st1 := Run(buf, LoadLength(x), st).value;
      var n := AsLength(NumOf(Get(st1.env, x + "_length")), lang.CSharp?);
      EntriesSafe(lang, k, e, x, if n < 0 then 0 else n, buf, st1);
      RunRepeatAny(buf, x + "_length", lang.CSharp?, MapBody(lang, k, e, x), st1);
    }
    SafeSeq(buf, LoadLength(x), loop, st);
  }

  lemma {:induction false} EntriesSafe(lang: Lang, k: Type, e: Type, x: string, n: nat, buf: seq<Byte>, st: State)
    requires Checked(lang, k) && Checked(lang, e) && InStep(buf, st)
    ensures Safe(buf, Times(buf, MapBody(lang, k, e, x), n, st))
    decreases Map(k, e), 1, n
  {
    hide Run, Checked, MapBody;
    if n > 0 {
      if lang.Cpp? { EntrySafeCpp(k, e, x, buf, st); } else { EntrySafeCSharp(k, e, x, buf, st); }
      match Run(buf, MapBody(lang, k, e, x), st)
      case Done(st1) => EntriesSafe(lang, k, e, x, n - 1, buf, st1.(env := Pop(st1.env, Depth(st.env))));
      case _ =>
    }
  }

  lemma {:induction false} EntrySafeCpp(k: Type, e: Type, x: string, buf: seq<Byte>, st: State)
    requires Checked(Cpp, k) && Checked(Cpp, e) && InStep(buf, st)
    ensures Safe(buf, Run(buf, MapBody(Cpp, k, e, x), st))
    decreases Map(k, e), 0
  {
    hide Run, Checked, LoadNew;
    var a, b, c := LoadNew(Cpp, k, x + "_key"), LoadNew(Cpp, e, x + "_val"), Insert(x, x + "_key", x + "_val", k);
    LoadNewSafe(Cpp, k, x + "_key", buf, st);
    if Run(buf, a, st).Done? {
      var st1 := Run(buf, a, st).value;
      LoadNewSafe(Cpp, e, x + "_val", buf, st1);
      if Run(buf, b, st1).Done? {
        RunInsert(buf, x, x + "_key", x + "_val", k, Run(buf, b, st1).value);
      }
      SafeSeq(buf, b, c, st1);
    }
    SafeSeq(buf, a, Seq(b, c), st);
  }

  lemma {:induction false} EntrySafeCSharp(k: Type, e: Type, x: string, buf: seq<Byte>, st: State)
    requires Checked(CSharp, k) && Checked(CSharp, e) && InStep(buf, st)
    ensures Safe(buf, Run(buf, MapBody(CSharp, k, e, x), st))
    decreases Map(k, e), 0
  {
    hide Run, Checked, GenLoad, Default;
    var key, elmt := x + "_key", x + "_elmt";
    var a, b, c := GenLoad(CSharp, k, key), GenLoad(CSharp, e, elmt), Assign(x, key, elmt);
    var stA := st.(env := Bind(key, Default(CSharp, k), st.env));
    var stB := stA.(env := Bind(elmt, Default(CSharp, e), stA.env));
    LoadSafe(CSharp, k, key, buf, stB);
    if Run(buf, a, stB).Done? {
      var st1 := Run(buf, a, stB).value;
      LoadSafe(CSharp, e, elmt, buf, st1);
      if Run(buf, b, st1).Done? {
        RunAssign(buf, x, key, elmt, Run(buf, b, st1).value);
      }
      SafeSeq(buf, b, c, st1);
    }
    SafeSeq(buf, a, Seq(b, c), stB);
    RunDeclare(buf, elmt, Default(CSharp, e), stA);
    RunSeq(buf, Declare(elmt, Default(CSharp, e)), Seq(a, Seq(b, c)), stA, stB);
    RunDeclare(buf, key, Default(CSharp, k), st);
    RunSeq(buf, Declare(key, Default(CSharp, k)), Seq(Declare(elmt, Default(CSharp, e)), Seq(a, Seq(b, c))), st, stA);
  }

  predicate ObjectSafe(buf: seq<Byte>, r: Outcome<Loaded>) {
    r != OutOfBounds && (r.Done? ==> r.value.pos + r.value.nSize == |buf|)
  }

  lemma {:induction false} CallSafe(lang: Lang, t: Type, x: string, buf: seq<Byte>, st: State)
    requires Checked(lang, t) && InStep(buf, st)
    ensures Safe(buf, Run(buf, CallLoad(x, LoadCodeOf(lang, t)), st))
    decreases t, 2
  {
    hide RunCode, Checked, LoadCodeOf;
    ObjectLoadSafe(lang, t, Get(st.env, x), buf, st.pos, st.nSize);
  }

  lemma {:induction false} ObjectLoadSafe(lang: Lang, t: Type, u: Value, buf: seq<Byte>, pos: nat, nSize: nat)
    requires Checked(lang, t) && pos + nSize == |buf|
    ensures ObjectSafe(buf, RunCode(buf, LoadCodeOf(lang, t), u, pos, nSize))
    decreases t, 1
  {
    hide Run, GenLoad;
    match t
    case Message(p, fs) => MessageSafe(lang, p, fs, u, buf, pos, nSize);
    case Enum(_) => NumberSafe(buf, "obj", ENUM_SIZE, State(Bind("obj", u, Empty), pos, nSize));
    case Alias(w) => LoadSafe(lang, w, "obj", buf, State(Bind("obj", u, Empty), pos, nSize));
    case _ =>
  }

  lemma {:induction false} MessageSafe(lang: Lang, p: Type, fs: Fields, u: Value, buf: seq<Byte>, pos: nat, nSize: nat)
    requires Checked(lang, Message(p, fs)) && pos + nSize == |buf|
    ensures ObjectSafe(buf, RunCode(buf, LoadCodeOf(lang, Message(p, fs)), u, pos, nSize))
    decreases Message(p, fs), 0
  {
    hide Run, LoadMembers, BindFields;
    var base, members := if u.Record? then u.base else Absent, if u.Record? then u.values else [];
    ObjectLoadSafe(lang, p, base, buf, pos, nSize);
    match RunCode(buf, LoadCodeOf(lang, p), base, pos, nSize)
    case Done(r) => MembersSafe(lang, fs, buf, State(BindFields(fs, members), r.pos, r.nSize));
    case _ =>
  }

  lemma {:induction false} MembersSafe(lang: Lang, fs: Fields, buf: seq<Byte>, st: State)
    requires (lang.CSharp? || (!FieldsHaveRaw(fs) && !FieldsHideParameter(fs))) && InStep(buf, st)
    ensures Safe(buf, Run(buf, LoadMembers(lang, fs), st))
    decreases fs
  {
    hide Run, GenLoad, Safe, InStep;
    match fs
    case End => SkipSafe(buf, st);
    case Field(f, t, rest) =>
      LoadSafe(lang, t, f, buf, st);
      if Run(buf, GenLoad(lang, t, f), st).Done? {
        SafeDone(buf, Run(buf, GenLoad(lang, t, f), st));
        MembersSafe(lang, rest, buf, Run(buf, GenLoad(lang, t, f), st).value);
      }
      SafeSeq(buf, GenLoad(lang, t, f), LoadMembers(lang, rest), st);
  }

  lemma SafeDone(buf: seq<Byte>, r: Outcome<State>)
    requires Safe(buf, r) && r.Done?
    ensures InStep(buf, r.value)
  {}
}
