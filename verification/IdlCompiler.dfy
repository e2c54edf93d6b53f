/** The two code generators, as functions from a type and a variable name to statements. */
module IdlCompiler {
  import opened Bytes
  import opened Idl
  import opened IdlCode

  // ---------------------------------------------------------------- names

  function ReplaceFirst(s: string, c: char): (r: string)
    ensures |r| == |s|
  {
    if s == [] then [] else if s[0] == c then ['_'] + s[1..] else [s[0]] + ReplaceFirst(s[1..], c)
  }

  function ReplaceSpecialChar(s: string): (r: string)
    ensures |r| == |s|
  {
    ReplaceFirst(ReplaceFirst(s, '['), ']')
  }

  /** How the code of a static array names its current element. */
  function ElementName(lang: Lang, x: string): string {
    if lang.Cpp? then x + "[i]" else x + "[" + x + "_itr]"
  }

  // ---------------------------------------------------------------- Store

  /** C++ copies the low 32 bits of a size_t local; C# writes the count itself. */
  function StoreCount(lang: Lang, local: string, x: string): Walk {
    if lang.Cpp? then Then(LetCount(local, x), PutNum(local, LENGTH_SIZE)) else PutCount(x)
  }

  function GenStore(lang: Lang, t: Type, x: string): Walk
    decreases t, 1
  {
    match t
    case Primitive(p) => PutNum(x, Width(p))
    case Text => Then(StoreCount(lang, ReplaceSpecialChar(x) + "_size", x), PutBytes(x))
    case List(e) => Then(StoreCount(lang, x + "_size", x), ForEach(x, x + "_elmt", GenStore(lang, e, x + "_elmt")))
    case Array(e) => Then(StoreCount(lang, x + "_size", x), ForEach(x, x + "_elmt", GenStore(lang, e, x + "_elmt")))
    case StaticArray(e, _) =>
      if lang.Cpp? && e.Primitive? then PutItems(x, Width(e.prim))
      else ForEach(x, ElementName(lang, x), GenStore(lang, e, ElementName(lang, x)))
    case Map(k, e) =>
      Then(StoreCount(lang, x + "_size", x),
        ForEntry(x, x + "_key", x + "_elmt", Then(GenStore(lang, k, x + "_key"), GenStore(lang, e, x + "_elmt"))))
    case Message(_, _) => CallWalk(x, StoreCode(lang, t))
    case Enum(_) => CallWalk(x, StoreCode(lang, t))
    case Alias(_) => CallWalk(x, StoreCode(lang, t))
    case Nothing => Nop
  }

  /** The Store of a type's serializer. */
  function StoreCode(lang: Lang, t: Type): WalkCode
    decreases t, 0
  {
    match t
    case Message(p, fs) => WalkClass(StoreCode(lang, p), fs, StoreMembers(lang, fs))
    case Enum(_) => WalkObj(PutNum("obj", ENUM_SIZE))
    case Alias(u) => WalkObj(GenStore(lang, u, "obj"))
    case _ => NoWalk
  }

  function StoreMembers(lang: Lang, fs: Fields): Walk
    decreases fs
  {
    match fs
    case End => Nop
    case Field(f, t, rest) => Then(GenStore(lang, t, f), StoreMembers(lang, rest))
  }

  // ---------------------------------------------------------------- Size

  function GenSize(lang: Lang, t: Type, x: string): Walk
    decreases t, 1
  {
    match t
    case Primitive(p) => AddSize(Width(p))
    case Text => Then(AddSize(LENGTH_SIZE), AddLength(x))
    case List(e) => Then(AddSize(LENGTH_SIZE), ForEach(x, x + "_elmt", GenSize(lang, e, x + "_elmt")))
    case Array(e) => Then(AddSize(LENGTH_SIZE), ForEach(x, x + "_elmt", GenSize(lang, e, x + "_elmt")))
    case StaticArray(e, n) =>
      if e.Primitive? then AddSize(Width(e.prim) * n)
      else ForEach(x, ElementName(lang, x), GenSize(lang, e, ElementName(lang, x)))
    case Map(k, e) =>
      Then(AddSize(LENGTH_SIZE),
        ForEntry(x, x + "_key", x + "_elmt", Then(GenSize(lang, k, x + "_key"), GenSize(lang, e, x + "_elmt"))))
    case Message(_, _) => CallWalk(x, SizeCode(lang, t))
    case Enum(_) => CallWalk(x, SizeCode(lang, t))
    case Alias(_) => CallWalk(x, SizeCode(lang, t))
    case Nothing => Nop
  }

  function SizeCode(lang: Lang, t: Type): WalkCode
    decreases t, 0
  {
    match t
    case Message(p, fs) => WalkClass(SizeCode(lang, p), fs, SizeMembers(lang, fs))
    case Enum(_) => WalkObj(AddSize(ENUM_SIZE))
    case Alias(u) => WalkObj(GenSize(lang, u, "obj"))
    case _ => NoWalk
  }

  function SizeMembers(lang: Lang, fs: Fields): Walk
    decreases fs
  {
    match fs
    case End => Nop
    case Field(f, t, rest) => Then(GenSize(lang, t, f), SizeMembers(lang, rest))
  }

  // ---------------------------------------------------------------- Load

  /** The checked read of a length into a new local. */
  function LoadLength(x: string): Load {
    Seq(Need(LENGTH_SIZE), Seq(Declare(x + "_length", Num(0)), ReadNum(x + "_length", LENGTH_SIZE)))
  }

  /** A new variable for an element, loaded. */
  function LoadNew(lang: Lang, t: Type, x: string): Load
    decreases t, 2
  {
    Seq(Declare(x, Default(lang, t)), GenLoad(lang, t, x))
  }

  /** One round of a list's loop. */
  function ListBody(lang: Lang, e: Type, x: string): Load
    decreases e, 3
  {
    Seq(LoadNew(lang, e, x + "_val"), PushBack(x, x + "_val"))
  }

  /** One round of a map's loop: C++ declares the element after loading the key and keeps the
      first of two equal keys, C# declares both first and keeps the last. */
  function MapBody(lang: Lang, k: Type, e: Type, x: string): Load
    decreases Map(k, e), 0
  {
    if lang.Cpp? then
      Seq(LoadNew(lang, k, x + "_key"), Seq(LoadNew(lang, e, x + "_val"), Insert(x, x + "_key", x + "_val", k)))
    else
      Seq(Declare(x + "_key", Default(lang, k)), Seq(Declare(x + "_elmt", Default(lang, e)),
        Seq(GenLoad(lang, k, x + "_key"), Seq(GenLoad(lang, e, x + "_elmt"), Assign(x, x + "_key", x + "_elmt")))))
  }

  function GenLoad(lang: Lang, t: Type, x: string): Load
    decreases t, 1
  {
    match t
    case Primitive(p) => Seq(Need(Width(p)), ReadNum(x, Width(p)))
    case Text =>
      Seq(LoadLength(x), Seq(NeedLength(x + "_length", lang.CSharp?), ReadText(x, x + "_length", lang.CSharp?)))
    case List(e) => Seq(LoadLength(x), Repeat(x + "_length", lang.CSharp?, ListBody(lang, e, x)))
    case Array(e) => Seq(LoadLength(x), Repeat(x + "_length", lang.CSharp?, ListBody(lang, e, x)))
    case StaticArray(e, n) =>
      if lang.Cpp? && e.Primitive? then ReadItems(x, Width(e.prim), n)
      else Fill(x, n, x + "_val", LoadNew(lang, e, x + "_val"))
    case Map(k, e) => Seq(LoadLength(x), Repeat(x + "_length", lang.CSharp?, MapBody(lang, k, e, x)))
    case Message(_, _) => CallLoad(x, LoadCodeOf(lang, t))
    case Enum(_) => CallLoad(x, LoadCodeOf(lang, t))
    case Alias(_) => CallLoad(x, LoadCodeOf(lang, t))
    case Nothing => Skip
  }

  /** The Load of a type's serializer. */
  function LoadCodeOf(lang: Lang, t: Type): LoadCode
    decreases t, 0
  {
    match t
    case Message(p, fs) => LoadClass(LoadCodeOf(lang, p), fs, LoadMembers(lang, fs))
    case Enum(_) => LoadObj(Seq(Need(ENUM_SIZE), ReadNum("obj", ENUM_SIZE)))
    case Alias(u) => LoadObj(GenLoad(lang, u, "obj"))
    case _ => NoLoad
  }

  function LoadMembers(lang: Lang, fs: Fields): Load
    decreases fs
  {
    match fs
    case End => Skip
    case Field(f, t, rest) => Seq(GenLoad(lang, t, f), LoadMembers(lang, rest))
  }

  // ---------------------------------------------------------------- the generated interface

  function StoreBytes(lang: Lang, t: Type, v: Value): seq<Byte> {
    ExecCode(StoreCode(lang, t), v, [], 0).out
  }

  function SizeOf(lang: Lang, t: Type, v: Value): nat {
    ExecCode(SizeCode(lang, t), v, [], 0).size
  }

  /** Pointer-form Load into a target object. */
  function LoadInto(lang: Lang, t: Type, u: Value, buf: seq<Byte>): Outcome<Loaded> {
    RunCode(buf, LoadCodeOf(lang, t), u, 0, |buf|)
  }
}
