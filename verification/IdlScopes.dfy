/** Scopes: what assignments and lookups see through the locals of generated code. */
module IdlScopes {
  import opened Idl
  import opened IdlCode

  lemma {:induction false} SetThenGet(env: Env, x: string, v: Value, y: string)
    ensures Bound(Set(env, x, v), y) == Bound(env, y)
    ensures Get(Set(env, x, v), y) == if x == y && Bound(env, x) then v else Get(env, y)
  {
    match env
    case Empty =>
    case Bind(_, _, outer) => SetThenGet(outer, x, v, y);
  }

  lemma {:induction false} SetAgain(env: Env, x: string, v: Value, w: Value)
    ensures Set(Set(env, x, v), x, w) == Set(env, x, w)
  {
    match env
    case Empty =>
    case Bind(_, _, outer) => SetAgain(outer, x, v, w);
  }

  lemma {:induction false} SetSame(env: Env, x: string)
    ensures Set(env, x, Get(env, x)) == env
  {
    match env
    case Empty =>
    case Bind(_, _, outer) => SetSame(outer, x);
  }

  /** `inner` is `env` with further declarations, none of them called x. */
  predicate Over(inner: Env, env: Env, x: string) {
    inner == env || (inner.Bind? && inner.name != x && Over(inner.outer, env, x))
  }

  lemma {:induction false} OverDepth(inner: Env, env: Env, x: string)
    requires Over(inner, env, x)
    ensures Depth(inner) >= Depth(env) && (inner != env ==> Depth(inner) > Depth(env))
  {
    if inner != env {
      OverDepth(inner.outer, env, x);
    }
  }

  lemma {:induction false} OverGet(inner: Env, env: Env, x: string)
    requires Over(inner, env, x)
    ensures Get(inner, x) == Get(env, x) && Bound(inner, x) == Bound(env, x)
  {
    if inner != env {
      OverGet(inner.outer, env, x);
    }
  }

  lemma {:induction false} OverSet(inner: Env, env: Env, x: string, v: Value)
    requires Over(inner, env, x)
    ensures Over(Set(inner, x, v), Set(env, x, v), x)
  {
    if inner != env {
      OverSet(inner.outer, env, x, v);
    }
  }

  lemma {:induction false} OverPop(inner: Env, env: Env, x: string)
    requires Over(inner, env, x)
    ensures Pop(inner, Depth(env)) == env
  {
    OverDepth(inner, env, x);
    if inner != env {
      OverPop(inner.outer, env, x);
    }
  }

  lemma {:induction false} OverOver(a: Env, b: Env, c: Env, x: string)
    requires Over(a, b, x) && Over(b, c, x)
    ensures Over(a, c, x)
  {
    if a != b {
      OverOver(a.outer, b, c, x);
    }
  }

  // ---------------------------------------------------------------- all fields of a class

  function SetFields(env: Env, fs: Fields, vs: seq<Value>): (r: Env)
    requires |vs| == FieldsCount(fs)
    ensures Depth(r) == Depth(env)
    decreases fs
  {
    match fs
    case End => env
    case Field(f, _, rest) => SetFields(Set(env, f, vs[0]), rest, vs[1..])
  }

  lemma {:induction false} SetFieldsUnder(x: string, w: Value, env: Env, fs: Fields, vs: seq<Value>)
    requires |vs| == FieldsCount(fs) && x !in Names(fs)
    ensures SetFields(Bind(x, w, env), fs, vs) == Bind(x, w, SetFields(env, fs, vs))
    decreases fs
  {
    match fs
    case End =>
    case Field(f, _, rest) => SetFieldsUnder(x, w, Set(env, f, vs[0]), rest, vs[1..]);
  }

  lemma {:induction false} SetFieldsKeeps(env: Env, fs: Fields, vs: seq<Value>, x: string)
    requires |vs| == FieldsCount(fs) && x !in Names(fs)
    ensures Get(SetFields(env, fs, vs), x) == Get(env, x)
    decreases fs
  {
    match fs
    case End =>
    case Field(f, _, rest) =>
      SetFieldsKeeps(Set(env, f, vs[0]), rest, vs[1..], x);
      SetThenGet(env, f, vs[0], x);
  }

  /** Every field is in scope, holding something that can be loaded into. */
  predicate FieldsReady(env: Env, fs: Fields) {
    match fs
    case End => true
    case Field(f, t, rest) => Bound(env, f) && Blank(t, Get(env, f)) && FieldsReady(env, rest)
  }

  lemma {:induction false} ReadyUnder(x: string, w: Value, env: Env, fs: Fields)
    requires FieldsReady(env, fs) && x !in Names(fs)
    ensures FieldsReady(Bind(x, w, env), fs)
  {
    match fs
    case End =>
    case Field(_, _, rest) => ReadyUnder(x, w, env, rest);
  }

  lemma {:induction false} ReadySet(env: Env, x: string, w: Value, fs: Fields)
    requires FieldsReady(env, fs) && x !in Names(fs)
    ensures FieldsReady(Set(env, x, w), fs)
  {
    match fs
    case End =>
    case Field(f, _, rest) =>
      SetThenGet(env, x, w, f);
      ReadySet(env, x, w, rest);
  }

  lemma {:induction false} BindFieldsReady(lang: Lang, fs: Fields, us: seq<Value>)
    requires FieldsWellFormed(lang, fs) && BlankFields(fs, us)
    ensures FieldsReady(BindFields(fs, us), fs)
  {
    match fs
    case End =>
    case Field(f, _, rest) =>
      BindFieldsReady(lang, rest, us[1..]);
      ReadyUnder(f, us[0], BindFields(rest, us[1..]), rest);
  }

  /** The members read back are the values that were set. */
  lemma {:induction false} CollectSet(lang: Lang, env: Env, fs: Fields, vs: seq<Value>)
    requires FieldsWellFormed(lang, fs) && FieldsReady(env, fs) && |vs| == FieldsCount(fs)
    ensures Collect(SetFields(env, fs, vs), fs) == vs
    decreases fs
  {
    match fs
    case End =>
    case Field(f, _, rest) =>
      var env1 := Set(env, f, vs[0]);
      ReadySet(env, f, vs[0], rest);
      CollectSet(lang, env1, rest, vs[1..]);
      SetFieldsKeeps(env1, rest, vs[1..], f);
      SetThenGet(env, f, vs[0], f);
  }
}
