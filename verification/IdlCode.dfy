/** The statements the IDL compiler emits, with the meaning they have in the generated C++
    and C#: block scopes and shadowing, a cursor into the bytes, and the remaining size. */
module IdlCode {
  import opened Bytes
  import opened Idl

  // ---------------------------------------------------------------- scopes

  /** Variables in scope, innermost declaration first. */
  datatype Env = Empty | Bind(name: string, value: Value, outer: Env)

  function Get(env: Env, x: string): Value {
    match env
    case Empty => Absent
    case Bind(y, v, outer) => if x == y then v else Get(outer, x)
  }

  predicate Bound(env: Env, x: string) {
    env.Bind? && (env.name == x || Bound(env.outer, x))
  }

  /** Assignment reaches the innermost declaration. */
  function Set(env: Env, x: string, v: Value): (r: Env)
    ensures Depth(r) == Depth(env)
  {
    match env
    case Empty => Empty
    case Bind(y, w, outer) => if x == y then Bind(y, v, outer) else Bind(y, w, Set(outer, x, v))
  }

  function Depth(env: Env): nat {
    match env
    case Empty => 0
    case Bind(_, _, outer) => 1 + Depth(outer)
  }

  /** Leaving a block drops what it declared. */
  function Pop(env: Env, depth: nat): Env {
    if Depth(env) <= depth then env else Pop(env.outer, depth)
  }

  function BindFields(fs: Fields, vs: seq<Value>): Env {
    match fs
    case End => Empty
    case Field(f, _, rest) =>
      if vs == [] then Bind(f, Absent, BindFields(rest, [])) else Bind(f, vs[0], BindFields(rest, vs[1..]))
  }

  function Collect(env: Env, fs: Fields): seq<Value> {
    match fs
    case End => []
    case Field(f, _, rest) => [Get(env, f)] + Collect(env, rest)
  }

  // ---------------------------------------------------------------- reading a value

  function NumOf(v: Value): nat { if v.Num? then v.n else 0 }

  function BytesOf(v: Value): seq<Byte> { if v.Str? then v.bytes else [] }

  function ItemsOf(v: Value): seq<Value> { if v.Items? then v.items else [] }

  function EntriesOf(v: Value): seq<Entry> { if v.Entries? then v.entries else [] }

  function LengthOf(v: Value): nat {
    match v
    case Str(bs) => |bs|
    case Items(vs) => |vs|
    case Entries(es) => |es|
    case _ => 0
  }

  // ---------------------------------------------------------------- Store and Size

  /** Statements of Store (they append to the buffer) and of Size (they add to nSize). */
  datatype Walk =
    | Nop
    | Then(first: Walk, second: Walk)
    | LetCount(local: string, x: string)
    | PutNum(x: string, width: nat)
    | PutCount(x: string)
    | PutBytes(x: string)
    | PutItems(x: string, width: nat)
    | AddSize(n: nat)
    | AddLength(x: string)
    | ForEach(x: string, item: string, body: Walk)
    | ForEntry(x: string, key: string, item: string, body: Walk)
    | CallWalk(x: string, code: WalkCode)

  /** What a serializer runs: nothing, a body over its parameter `obj`, or the member
      function of a class after that of its parent. */
  datatype WalkCode = NoWalk | WalkObj(body: Walk) | WalkClass(parent: WalkCode, fields: Fields, body: Walk)

  datatype Trace = Trace(env: Env, out: seq<Byte>, size: nat)

  /** A copy of n elements of the given width straight from memory. */
  function Raw(vs: seq<Value>, w: nat): seq<Byte> {
    if vs == [] then [] else LE(NumOf(vs[0]), w) + Raw(vs[1..], w)
  }

  function Exec(s: Walk, tr: Trace): Trace
    decreases s, 0
  {
    match s
    case Nop => tr
    case Then(a, b) => Exec(b, Exec(a, tr))
    case LetCount(l, x) => tr.(env := Bind(l, Num(LengthOf(Get(tr.env, x))), tr.env))
    case PutNum(x, w) => tr.(out := tr.out + LE(NumOf(Get(tr.env, x)), w))
    case PutCount(x) => tr.(out := tr.out + LE(LengthOf(Get(tr.env, x)), LENGTH_SIZE))
    case PutBytes(x) => tr.(out := tr.out + BytesOf(Get(tr.env, x)))
    case PutItems(x, w) => tr.(out := tr.out + Raw(ItemsOf(Get(tr.env, x)), w))
    case AddSize(n) => tr.(size := tr.size + n)
    case AddLength(x) => tr.(size := tr.size + LengthOf(Get(tr.env, x)))
    case ForEach(x, item, body) => Each(body, item, ItemsOf(Get(tr.env, x)), tr)
    case ForEntry(x, key, item, body) => EachEntry(body, key, item, EntriesOf(Get(tr.env, x)), tr)
    case CallWalk(x, code) => ExecCode(code, Get(tr.env, x), tr.out, tr.size).(env := tr.env)
  }

  function Each(body: Walk, item: string, vs: seq<Value>, tr: Trace): Trace
    decreases body, 1 + |vs|
  {
    if vs == [] then tr
    else Each(body, item, vs[1..], Exec(body, tr.(env := Bind(item, vs[0], tr.env))).(env := tr.env))
  }

  function EachEntry(body: Walk, key: string, item: string, es: seq<Entry>, tr: Trace): Trace
    decreases body, 1 + |es|
  {
    if es == [] then tr
    else
      var inner := Bind(item, es[0].value, Bind(key, es[0].key, tr.env));
      EachEntry(body, key, item, es[1..], Exec(body, tr.(env := inner)).(env := tr.env))
  }

  function ExecCode(code: WalkCode, v: Value, out: seq<Byte>, size: nat): Trace
    decreases code, 0
  {
    match code
    case NoWalk => Trace(Empty, out, size)
    case WalkObj(body) => Exec(body, Trace(Bind("obj", v, Empty), out, size))
    case WalkClass(parent, fs, body) =>
      if !v.Record? then Trace(Empty, out, size)
      else
        var base := ExecCode(parent, v.base, out, size);
        Exec(body, base.(env := BindFields(fs, v.values)))
  }

  // ---------------------------------------------------------------- Load

  datatype Load =
    | Skip
    | Seq(first: Load, second: Load)
    | Need(width: nat)
    | Declare(x: string, initial: Value)
    | ReadNum(x: string, width: nat)
    | NeedLength(local: string, signed: bool)
    | ReadText(x: string, local: string, signed: bool)
    | Repeat(local: string, signed: bool, body: Load)
    | Fill(x: string, count: nat, item: string, body: Load)
    | PushBack(x: string, item: string)
    | Insert(x: string, key: string, item: string, keyType: Type)
    | Assign(x: string, key: string, item: string)
    | ReadItems(x: string, width: nat, count: nat)
    | CallLoad(x: string, code: LoadCode)

  datatype LoadCode = NoLoad | LoadObj(body: Load) | LoadClass(parent: LoadCode, fields: Fields, body: Load)

  /** Refused: `return false`, also where C# catches an exception to do so.
      OutOfBounds: memory beyond the buffer was read. */
  datatype Outcome<T> = Done(value: T) | Refused | OutOfBounds

  /** The buffer pointer as an offset, and nSize; in C# nSize is Length - Position. */
  datatype State = State(env: Env, pos: nat, nSize: nat)

  datatype Loaded = Loaded(value: Value, pos: nat, nSize: nat)

  const SIZE_MODULUS: nat := 0x1_0000_0000_0000_0000

  /** Subtraction on size_t. */
  function Minus(n: nat, k: nat): nat {
    if k <= n then n - k else (n - k) % SIZE_MODULUS
  }

  /** A 32-bit length as the language reads it. */
  function AsLength(n: nat, signed: bool): int {
    if signed && n >= 0x8000_0000 then n - 0x1_0000_0000 else n
  }

  function InsertSorted(k: Type, es: seq<Entry>, e: Entry): seq<Entry> {
    if es == [] then [e]
    else if KeyLess(k, es[0].key, e.key) then [es[0]] + InsertSorted(k, es[1..], e)
    else if KeyLess(k, e.key, es[0].key) then [e] + es
    else es
  }

  function AssignKey(es: seq<Entry>, e: Entry): seq<Entry> {
    if es == [] then [e]
    else if es[0].key == e.key then [e] + es[1..]
    else [es[0]] + AssignKey(es[1..], e)
  }

  /** The numbers of n fields of width w. */
  function Numbers(bs: seq<Byte>, w: nat, n: nat): seq<Value>
    requires |bs| == w * n
  {
    if n == 0 then []
    else
      assert w * n == w + w * (n - 1) && w * (n - 1) >= 0;
      [Num(UnLE(bs[..w]))] + Numbers(bs[w..], w, n - 1)
  }

  /** Member arrays have their declared size, so the index is always inside. */
  function PutAt(vs: seq<Value>, i: nat, v: Value): seq<Value> {
    if i < |vs| then vs[i := v] else vs
  }

  function Run(buf: seq<Byte>, s: Load, st: State): Outcome<State>
    decreases s, 0
  {
    match s
    case Skip => Done(st)
    case Seq(a, b) => (match Run(buf, a, st) case Done(st1) => Run(buf, b, st1) case Refused => Refused case OutOfBounds => OutOfBounds)
    case Need(w) => if w > st.nSize then Refused else Done(st)
    case Declare(x, v) => Done(st.(env := Bind(x, v, st.env)))
    case ReadNum(x, w) =>
      if st.pos + w > |buf| then OutOfBounds
      else Done(State(Set(st.env, x, Num(UnLE(buf[st.pos..st.pos + w]))), st.pos + w, Minus(st.nSize, w)))
    case NeedLength(l, signed) => if AsLength(NumOf(Get(st.env, l)), signed) > st.nSize then Refused else Done(st)
    case ReadText(x, l, signed) =>
      var n := AsLength(NumOf(Get(st.env, l)), signed);
      if n < 0 then Refused
      else if st.pos + n > |buf| then OutOfBounds
      else Done(State(Set(st.env, x, Str(buf[st.pos..st.pos + n])), st.pos + n, Minus(st.nSize, n)))
    case Repeat(l, signed, body) =>
      var n := AsLength(NumOf(Get(st.env, l)), signed);
      Times(buf, body, if n < 0 then 0 else n, st)
    case Fill(x, count, item, body) => FillFrom(buf, x, 0, count, item, body, st)
    case PushBack(x, item) =>
      Done(st.(env := Set(st.env, x, Items(ItemsOf(Get(st.env, x)) + [Get(st.env, item)]))))
    case Insert(x, key, item, k) =>
      Done(st.(env := Set(st.env, x, Entries(InsertSorted(k, EntriesOf(Get(st.env, x)), Entry(Get(st.env, key), Get(st.env, item)))))))
    case Assign(x, key, item) =>
      Done(st.(env := Set(st.env, x, Entries(AssignKey(EntriesOf(Get(st.env, x)), Entry(Get(st.env, key), Get(st.env, item)))))))
    case ReadItems(x, w, count) =>
      if st.pos + w * count > |buf| then OutOfBounds
      else Done(State(Set(st.env, x, Items(Numbers(buf[st.pos..st.pos + w * count], w, count))), st.pos + w * count, Minus(st.nSize, w * count)))
    case CallLoad(x, code) =>
      (match RunCode(buf, code, Get(st.env, x), st.pos, st.nSize)
      case Done(r) => Done(State(Set(st.env, x, r.value), r.pos, r.nSize))
      case Refused => Refused
      case OutOfBounds => OutOfBounds)
  }

  /** n rounds of a loop body, each in a scope of its own. */
  function Times(buf: seq<Byte>, body: Load, n: nat, st: State): Outcome<State>
    decreases body, 1 + n
  {
    if n == 0 then Done(st)
    else
      match Run(buf, body, st)
      case Done(st1) => Times(buf, body, n - 1, st1.(env := Pop(st1.env, Depth(st.env))))
      case Refused => Refused
      case OutOfBounds => OutOfBounds
  }

  /** for i < count: run the body, then x[i] = item. */
  function FillFrom(buf: seq<Byte>, x: string, i: nat, count: nat, item: string, body: Load, st: State): Outcome<State>
    decreases body, 1 + if i < count then count - i else 0
  {
    if i >= count then Done(st)
    else
      match Run(buf, body, st)
      case Done(st1) =>
        var env := Set(st1.env, x, Items(PutAt(ItemsOf(Get(st1.env, x)), i, Get(st1.env, item))));
        FillFrom(buf, x, i + 1, count, item, body, st1.(env := Pop(env, Depth(st.env))))
      case Refused => Refused
      case OutOfBounds => OutOfBounds
  }

  function RunCode(buf: seq<Byte>, code: LoadCode, u: Value, pos: nat, nSize: nat): Outcome<Loaded>
    decreases code, 0
  {
    match code
    case NoLoad => Done(Loaded(u, pos, nSize))
    case LoadObj(body) =>
      (match Run(buf, body, State(Bind("obj", u, Empty), pos, nSize))
      case Done(st) => Done(Loaded(Get(Pop(st.env, 1), "obj"), st.pos, st.nSize))
      case Refused => Refused
      case OutOfBounds => OutOfBounds)
    case LoadClass(parent, fs, body) =>
      var base, members := if u.Record? then u.base else Absent, if u.Record? then u.values else [];
      match RunCode(buf, parent, base, pos, nSize)
      case Refused => Refused
      case OutOfBounds => OutOfBounds
      case Done(r) =>
        var env := BindFields(fs, members);
        match Run(buf, body, State(env, r.pos, r.nSize))
        case Done(st) => Done(Loaded(Record(r.value, Collect(Pop(st.env, Depth(env)), fs)), st.pos, st.nSize))
        case Refused => Refused
        case OutOfBounds => OutOfBounds
  }
}
