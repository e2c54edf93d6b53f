/** What a generated C++ Load does to a number called nSize: it is read over the parameter that
    counts the remaining size. */
module IdlSizeMember {
  import opened Bytes
  import opened Idl
  import opened IdlCode
  import opened IdlCompiler
  import opened IdlScopes
  import opened IdlLoad
  import opened IdlSafety
  import opened IdlTheorems

  // ---------------------------------------------------------------- a field called nSize

  function RoundDown(n: nat, p: nat): nat
    requires p > 0
  {
    n - n % p
  }

  /** The remaining size once a number of width w has been copied over its low bytes and w was
      taken off. */
  function Believed(nSize: nat, w: nat, n: nat): nat {
    Minus(RoundDown(nSize, Pow256(w)) + n, w)
  }

  /** The checked read that goes into the parameter. */
  function ReadOver(buf: seq<Byte>, w: nat, st: State): Outcome<State> {
    if w > st.nSize then Refused
    else if st.pos + w > |buf| then OutOfBounds
    else Done(State(st.env, st.pos + w, Believed(st.nSize, w, UnLE(buf[st.pos..st.pos + w]))))
  }

  /** C++ as it reads these members when one of them is a number called nSize: that read
      overwrites the parameter, and the member is left alone.  Anything else is read as always. */
  function RunMembers(buf: seq<Byte>, fs: Fields, st: State): Outcome<State>
    decreases fs
  {
    match fs
    case End => Done(st)
    case Field(f, t, rest) =>
      var r := if f == "nSize" && t.Primitive? then ReadOver(buf, Width(t.prim), st) else Run(buf, GenLoad(Cpp, t, f), st);
      match r
      case Done(st1) => RunMembers(buf, rest, st1)
      case _ => r
  }

  /** Without such a member this is the load of module IdlCompiler. */
  lemma {:induction false} NoSizeMember(buf: seq<Byte>, fs: Fields, st: State)
    requires "nSize" !in Names(fs)
    ensures RunMembers(buf, fs, st) == Run(buf, LoadMembers(Cpp, fs), st)
    decreases fs
  {
    hide GenLoad, Run;
    match fs
    case End => RunSkip(buf, st);
    case Field(f, t, rest) =>
      RunFirst(buf, GenLoad(Cpp, t, f), LoadMembers(Cpp, rest), st);
      if Run(buf, GenLoad(Cpp, t, f), st).Done? {
        NoSizeMember(buf, rest, Run(buf, GenLoad(Cpp, t, f), st).value);
      }
  }

  lemma RunSkip(buf: seq<Byte>, st: State)
    ensures Run(buf, Skip, st) == Done(st)
  {
  }

  lemma RunFirst(buf: seq<Byte>, a: Load, b: Load, st: State)
    ensures Run(buf, Seq(a, b), st) ==
      match Run(buf, a, st)
      case Done(st1) => Run(buf, b, st1)
      case r => r
  {
  }

  // ---------------------------------------------------------------- when that reads too far

  /** A well-formed field list, but that a number may be called nSize. */
  predicate SizeList(fs: Fields)
    decreases fs
  {
    match fs
    case End => true
    case Field(f, t, rest) =>
      && WellFormed(Cpp, t) && t != Nothing
      && (NameOk(Cpp, f, t) || (f == "nSize" && t.Primitive?))
      && f !in Names(rest) && Locals(Cpp, t, f) !! Names(rest)
      && SizeList(rest)
  }

  lemma {:induction false} RestWellFormed(fs: Fields)
    requires SizeList(fs) && "nSize" !in Names(fs)
    ensures FieldsWellFormed(Cpp, fs)
  {
    hide WellFormed, NameOk;
    match fs
    case End =>
    case Field(_, _, rest) => RestWellFormed(rest);
  }

  /** Whether loading a value of this type takes anything from the buffer. */
  predicate Reads(t: Type)
    decreases t
  {
    match t
    case StaticArray(e, n) => n > 0 && Reads(e)
    case Message(p, fs) => Reads(p) || FieldsRead(fs)
    case Alias(u) => Reads(u)
    case Nothing => false
    case _ => true
  }

  predicate FieldsRead(fs: Fields)
    decreases fs
  {
    match fs
    case End => false
    case Field(_, t, rest) => Reads(t) || FieldsRead(rest)
  }

  /** Whether anything is read behind the number called nSize. */
  predicate ReadsBehind(fs: Fields) {
    match fs
    case End => false
    case Field(f, t, rest) => if f == "nSize" && t.Primitive? then FieldsRead(rest) else ReadsBehind(rest)
  }

  /** The outcome of code for a type that reads nothing, and at the end of the buffer, where the
      remaining size is believed to be at least 8, of code for one that does. */
  predicate Ends(buf: seq<Byte>, some: bool, st: State, r: Outcome<State>) {
    if some then st.pos == |buf| && st.nSize >= 8 ==> r == OutOfBounds
    else r.Done? && r.value.pos == st.pos && r.value.nSize == st.nSize
  }

  lemma EndsSeq(buf: seq<Byte>, r: bool, q: bool, a: Load, b: Load, st: State)
    requires Ends(buf, r, st, Run(buf, a, st))
    requires !r ==> Ends(buf, q, Run(buf, a, st).value, Run(buf, b, Run(buf, a, st).value))
    ensures Ends(buf, r || q, st, Run(buf, Seq(a, b), st))
  {
    RunFirst(buf, a, b, st);
  }

  lemma {:induction false} LoadEnds(t: Type, x: string, buf: seq<Byte>, st: State)
    requires WellFormed(Cpp, t) && st.pos <= |buf|
    ensures Ends(buf, Reads(t), st, Run(buf, GenLoad(Cpp, t, x), st))
    decreases t, 2
  {
    hide Run, LoadLength, LoadNew, LoadCodeOf, ListBody, MapBody;
    match t
    case Primitive(p) => NumberEnds(buf, x, Width(p), st);
    case Text => LengthEnds(buf, x, Seq(NeedLength(x + "_length", false), ReadText(x, x + "_length", false)), st);
    case List(e) => LengthEnds(buf, x, Repeat(x + "_length", false, ListBody(Cpp, e, x)), st);
    case Array(e) => LengthEnds(buf, x, Repeat(x + "_length", false, ListBody(Cpp, e, x)), st);
    case Map(k, e) => LengthEnds(buf, x, Repeat(x + "_length", false, MapBody(Cpp, k, e, x)), st);
    case StaticArray(e, n) =>
      if e.Primitive? {
        BlockEnds(buf, x, Width(e.prim), n, st);
      } else {
        RunFill(buf, x, n, x + "_val", LoadNew(Cpp, e, x + "_val"), st);
        FillEnds(e, x, 0, n, buf, st);
      }
    case Message(_, _) => CallEnds(t, x, buf, st);
    case Enum(_) => CallEnds(t, x, buf, st);
    case Alias(_) => CallEnds(t, x, buf, st);
    case Nothing => RunSkip(buf, st);
  }

  lemma NumberEnds(buf: seq<Byte>, x: string, w: nat, st: State)
    requires 0 < w <= 8
    ensures Ends(buf, true, st, Run(buf, Seq(Need(w), ReadNum(x, w)), st))
  {
    hide Set, UnLE;
  }

  lemma LengthEnds(buf: seq<Byte>, x: string, more: Load, st: State)
    ensures Ends(buf, true, st, Run(buf, Seq(LoadLength(x), more), st))
  {
    hide Set, UnLE;
    var l := x + "_length";
    if st.pos == |buf| && st.nSize >= 8 {
      var st1 := st.(env := Bind(l, Num(0), st.env));
      RunSeq(buf, Need(LENGTH_SIZE), Seq(Declare(l, Num(0)), ReadNum(l, LENGTH_SIZE)), st, st);
      RunSeq(buf, Declare(l, Num(0)), ReadNum(l, LENGTH_SIZE), st, st1);
      assert Run(buf, ReadNum(l, LENGTH_SIZE), st1) == OutOfBounds;
      SeqOut(buf, LoadLength(x), more, st);
    }
  }

  lemma BlockEnds(buf: seq<Byte>, x: string, w: nat, n: nat, st: State)
    requires w > 0 && st.pos <= |buf|
    ensures Ends(buf, n > 0, st, Run(buf, ReadItems(x, w, n), st))
  {
    hide Set, Numbers;
    assert n == 0 ==> w * n == 0;
    assert n > 0 ==> w * n > 0;
  }

  lemma {:induction false} FillEnds(e: Type, x: string, i: nat, n: nat, buf: seq<Byte>, st: State)
    requires WellFormed(Cpp, e) && st.pos <= |buf|
    ensures Ends(buf, i < n && Reads(e), st, FillFrom(buf, x, i, n, x + "_val", LoadNew(Cpp, e, x + "_val"), st))
    decreases e, 3, if i < n then n - i else 0
  {
    hide Run, Reads, GenLoad, Set, Get, WellFormed;
    if i < n {
      var y := x + "_val";
      var st1 := st.(env := Bind(y, Default(Cpp, e), st.env));
      LoadEnds(e, y, buf, st1);
      RunDeclare(buf, y, Default(Cpp, e), st);
      EndsSeq(buf, false, Reads(e), Declare(y, Default(Cpp, e)), GenLoad(Cpp, e, y), st);
      if !Reads(e) {
        var st2 := Run(buf, LoadNew(Cpp, e, y), st).value;
        var env := Set(st2.env, x, Items(PutAt(ItemsOf(Get(st2.env, x)), i, Get(st2.env, y))));
        FillEnds(e, x, i + 1, n, buf, st2.(env := Pop(env, Depth(st.env))));
      }
    }
  }

  lemma {:induction false} CallEnds(t: Type, x: string, buf: seq<Byte>, st: State)
    requires UserDefined(t) && WellFormed(Cpp, t) && st.pos <= |buf|
    ensures Ends(buf, Reads(t), st, Run(buf, CallLoad(x, LoadCodeOf(Cpp, t)), st))
    decreases t, 1
  {
    hide RunCode, LoadCodeOf, Reads, Set, WellFormed;
    CodeEnds(t, Get(st.env, x), buf, st);
  }

  /** The same of a serializer. */
  predicate CodeEnding(buf: seq<Byte>, some: bool, pos: nat, nSize: nat, r: Outcome<Loaded>) {
    if some then pos == |buf| && nSize >= 8 ==> r == OutOfBounds
    else r.Done? && r.value.pos == pos && r.value.nSize == nSize
  }

  lemma {:induction false} CodeEnds(t: Type, u: Value, buf: seq<Byte>, st: State)
    requires (UserDefined(t) || t == Nothing) && WellFormed(Cpp, t) && st.pos <= |buf|
    ensures CodeEnding(buf, Reads(t), st.pos, st.nSize, RunCode(buf, LoadCodeOf(Cpp, t), u, st.pos, st.nSize))
    decreases t, 0
  {
    hide Run, GenLoad, LoadMembers;
    match t
    case Nothing =>
    case Enum(_) => NumberEnds(buf, "obj", ENUM_SIZE, st.(env := Bind("obj", u, Empty)));
    case Alias(w) => LoadEnds(w, "obj", buf, st.(env := Bind("obj", u, Empty)));
    case Message(p, fs) =>
      var base, members := if u.Record? then u.base else Absent, if u.Record? then u.values else [];
      CodeEnds(p, base, buf, st);
      MembersEnd(fs, buf, st.(env := BindFields(fs, members)));
  }

  lemma {:induction false} MembersEnd(fs: Fields, buf: seq<Byte>, st: State)
    requires FieldsWellFormed(Cpp, fs) && st.pos <= |buf|
    ensures Ends(buf, FieldsRead(fs), st, Run(buf, LoadMembers(Cpp, fs), st))
    decreases fs, 3
  {
    hide Run, GenLoad, Reads, WellFormed, NameOk;
    match fs
    case End => RunSkip(buf, st);
    case Field(f, t, rest) =>
      LoadEnds(t, f, buf, st);
      if !Reads(t) {
        MembersEnd(rest, buf, Run(buf, GenLoad(Cpp, t, f), st).value);
      }
      EndsSeq(buf, Reads(t), FieldsRead(rest), GenLoad(Cpp, t, f), LoadMembers(Cpp, rest), st);
  }

  /** The input: every field's default, but that the number called nSize claims another 200
      bytes and is the last thing there. */
  function Claim(fs: Fields): seq<Byte> {
    match fs
    case End => []
    case Field(f, t, rest) =>
      if f == "nSize" && t.Primitive? then LE(200, Width(t.prim)) else Encode(t, Default(Cpp, t)) + Claim(rest)
  }

  lemma ClaimBelieved(n: nat, w: nat)
    requires 1 <= w <= 8
    ensures 200 < Pow256(w) && Believed(n, w, 200) >= 8
  {
    hide Pow256, RoundDown;
    Pow256AtLeast(w);
  }

  /** A zero leaves the remaining size wrapped around: everything behind it counts as there. */
  lemma ZeroWraps(n: nat, w: nat)
    requires 1 <= w <= 8 && n < Pow256(w)
    ensures Believed(n, w, 0) == 0x1_0000_0000_0000_0000 - w
  {
    hide Pow256;
    assert RoundDown(n, Pow256(w)) == 0;
    Below(w);
  }

  lemma Below(w: nat)
    requires 1 <= w <= 8
    ensures (0 - w) % 0x1_0000_0000_0000_0000 == 0x1_0000_0000_0000_0000 - w
  {
  }

  lemma Pow256AtLeast(w: nat)
    requires w >= 1
    ensures Pow256(w) >= 256
  {
  }

  lemma ClaimMade(w: nat, buf: seq<Byte>, st: State)
    requires 1 <= w <= 8 && Left(buf, st, LE(200, w))
    ensures ReadOver(buf, w, st).Done?
    ensures var st1 := ReadOver(buf, w, st).value; st1.pos == |buf| && st1.nSize >= 8
  {
    hide Pow256, Believed, LE, UnLE;
    ClaimBelieved(st.nSize, w);
    LERoundTrip(200, w);
  }

  lemma {:induction false} ClaimOverreads(fs: Fields, buf: seq<Byte>, st: State)
    requires SizeList(fs) && ReadsBehind(fs) && FieldsReady(st.env, fs) && Left(buf, st, Claim(fs))
    ensures RunMembers(buf, fs, st) == OutOfBounds
    decreases fs
  {
    hide Run, ReadOver, GenLoad, HasType, Encode, Default, WellFormed, Blank, Get, Bound, NameOk, LE;
    match fs
    case Field(f, t, rest) =>
      if f == "nSize" && t.Primitive? {
        var w := Width(t.prim);
        ClaimMade(w, buf, st);
        var st1 := ReadOver(buf, w, st).value;
        RestWellFormed(rest);
        MembersEnd(rest, buf, st1);
        NoSizeMember(buf, rest, st1);
      } else {
        hide Left;
        var v, set1, local := Default(Cpp, t), Set(st.env, f, Default(Cpp, t)), f + "_length";
        var st1 := Moved(st, AfterLoad(t, f, v, st.env), |Encode(t, v)|);
        DefaultTyped(Cpp, t);
        LeftSplit(buf, st, st1.env, Encode(t, v), Claim(rest));
        LoadTyped(Cpp, t, f, v, buf, st);
        ReadySet(st.env, f, v, rest);
        assert Sized(t) ==> local in Locals(Cpp, t, f);
        if Sized(t) {
          ReadyUnder(local, Num(LengthOf(v)), set1, rest);
        }
        ClaimOverreads(rest, buf, st1);
      }
  }

  lemma ReadOverSafe(buf: seq<Byte>, w: nat, st: State)
    requires InStep(buf, st)
    ensures if w <= st.nSize then ReadOver(buf, w, st).Done? && ReadOver(buf, w, st).value.pos <= |buf| else ReadOver(buf, w, st) == Refused
  {
    hide Believed, UnLE;
  }

  /** Nothing read behind the number: the remaining size is believed only up to it. */
  lemma {:induction false} NothingBehind(fs: Fields, buf: seq<Byte>, st: State)
    requires SizeList(fs) && !FieldsHaveRaw(fs) && !ReadsBehind(fs) && InStep(buf, st)
    ensures RunMembers(buf, fs, st) != OutOfBounds
    decreases fs
  {
    hide Run, ReadOver, GenLoad, HasRaw, WellFormed, NameOk;
    match fs
    case End =>
    case Field(f, t, rest) =>
      if f == "nSize" && t.Primitive? {
        var w := Width(t.prim);
        ReadOverSafe(buf, w, st);
        if w <= st.nSize {
          var st1 := ReadOver(buf, w, st).value;
          RestWellFormed(rest);
          MembersEnd(rest, buf, st1);
          NoSizeMember(buf, rest, st1);
        }
      } else {
        NoneHidden(t);
        LoadSafe(Cpp, t, f, buf, st);
        if Run(buf, GenLoad(Cpp, t, f), st).Done? {
          NothingBehind(rest, buf, Run(buf, GenLoad(Cpp, t, f), st).value);
        }
      }
  }

  lemma {:induction false} SizeListReady(fs: Fields, us: seq<Value>)
    requires SizeList(fs) && BlankFields(fs, us)
    ensures FieldsReady(BindFields(fs, us), fs)
  {
    hide WellFormed, NameOk;
    match fs
    case End =>
    case Field(f, _, rest) =>
      SizeListReady(rest, us[1..]);
      ReadyUnder(f, us[0], BindFields(rest, us[1..]), rest);
  }

  /** Checked code with a number called nSize reads outside its buffer on some input exactly when
      anything at all is read behind that number. */
  lemma SizeMemberOverreads(fs: Fields, us: seq<Value>)
    requires SizeList(fs) && !FieldsHaveRaw(fs) && BlankFields(fs, us)
    ensures (exists buf :: RunMembers(buf, fs, State(BindFields(fs, us), 0, |buf|)) == OutOfBounds) <==> ReadsBehind(fs)
  {
    hide SizeList, RunMembers, FieldsHaveRaw, ReadsBehind, BindFields, FieldsReady;
    var env := BindFields(fs, us);
    if ReadsBehind(fs) {
      SizeListReady(fs, us);
      var buf := Claim(fs);
      assert buf[0..0 + |buf|] == buf;
      ClaimOverreads(fs, buf, State(env, 0, |buf|));
    } else {
      forall buf ensures RunMembers(buf, fs, State(env, 0, |buf|)) != OutOfBounds {
        NothingBehind(fs, buf, State(env, 0, |buf|));
      }
    }
  }
}
