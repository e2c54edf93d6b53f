/** Server-to-server routing: the order of addresses, and three routing tables kept in step
    by registering and unregistering. */
module Router {
  import opened Bytes
  import opened Wrappers
  import Strings

  datatype CastType = UniCast | MultiCast | AnyCast

  datatype Address = Address(serviceName: string, castType: CastType, id: nat, msgSeq: nat)

  function CastNumber(c: CastType): nat {
    match c
    case UniCast => 0
    case MultiCast => 1
    case AnyCast => 2
  }

  /** operator<, by which std::map keys addresses. */
  predicate Less(a: Address, b: Address) {
    || a.id < b.id
    || (a.id == b.id && Strings.Less(a.serviceName, b.serviceName))
    || (a.id == b.id && a.serviceName == b.serviceName && CastNumber(a.castType) < CastNumber(b.castType))
  }

  /** operator==, which leaves the sequence number out. */
  predicate Same(a: Address, b: Address) {
    a.serviceName == b.serviceName && a.castType == b.castType && a.id == b.id
  }

  function Key(a: Address): Address {
    a.(msgSeq := 0)
  }

  /** The order is a strict weak one, and its equivalence is operator==: a map keyed by it
      finds exactly the addresses that compare equal. */
  lemma OrderAgreesWithEquality(a: Address, b: Address, c: Address)
    ensures !Less(a, a)
    ensures Less(a, b) && Less(b, c) ==> Less(a, c)
    ensures !Less(a, b) && !Less(b, a) <==> Same(a, b)
    ensures Same(a, b) <==> Key(a) == Key(b)
  {
    Strings.LessIsStrict(a.serviceName);
    Strings.LessIsTotal(a.serviceName, b.serviceName);
    if Strings.Less(a.serviceName, b.serviceName) && Strings.Less(b.serviceName, c.serviceName) {
      Strings.LessIsTransitive(a.serviceName, b.serviceName, c.serviceName);
    }
    if Less(a, b) && Less(b, a) {
      Strings.LessIsTransitive(a.serviceName, b.serviceName, a.serviceName);
    }
  }

  // ---------------------------------------------------------------- the tables

  /** A router session under the address it is registered with. */
  datatype Session = Session(key: nat, address: Address)

  type Lists = map<string, seq<Session>>

  /** Every route is filed under its own address. */
  predicate Filed(uni: map<Address, Session>) {
    forall k :: k in uni ==> Key(uni[k].address) == k
  }

  /** The lists hold the sessions of the uni-cast table, each once, under its service. */
  ghost predicate InStep(uni: map<Address, Session>, lists: Lists) {
    && (forall n, i :: n in lists && 0 <= i < |lists[n]| ==> Listed(uni, n, lists[n][i]))
    && (forall n, i, j :: n in lists && 0 <= i < j < |lists[n]| ==> lists[n][i] != lists[n][j])
    && (forall k :: k in uni ==> k.serviceName in lists && uni[k] in lists[k.serviceName])
  }

  predicate Listed(uni: map<Address, Session>, n: string, s: Session) {
    s.address.serviceName == n && Key(s.address) in uni && uni[Key(s.address)] == s
  }

  lemma Registered(uni: map<Address, Session>, lists: Lists, s: Session)
    requires Filed(uni) && InStep(uni, lists) && Key(s.address) !in uni
    ensures
      var n := s.address.serviceName;
      var list := if n in lists then lists[n] else [];
      Filed(uni[Key(s.address) := s]) && InStep(uni[Key(s.address) := s], lists[n := list + [s]])
  {
    var n := s.address.serviceName;
    var list := if n in lists then lists[n] else [];
    var uni1, lists1 := uni[Key(s.address) := s], lists[n := list + [s]];
    forall m, i | m in lists1 && 0 <= i < |lists1[m]|
      ensures Listed(uni1, m, lists1[m][i])
    {
      assert m != n || i < |list| ==> m in lists && lists1[m][i] == lists[m][i];
    }
    forall k | k in uni1
      ensures k.serviceName in lists1 && uni1[k] in lists1[k.serviceName]
    {
      if k == Key(s.address) {
        assert lists1[n][|list|] == s;
      } else {
        var i :| 0 <= i < |lists[k.serviceName]| && lists[k.serviceName][i] == uni[k];
        assert lists1[k.serviceName][i] == uni[k];
      }
    }
  }

  /** Nobody else is registered under the address's service and id, as happens where the same
      router registers for another way of casting. */
  predicate Alone(uni: map<Address, Session>, a: Address) {
    forall k :: k in uni && k.serviceName == a.serviceName && k.id == a.id ==> k == Key(a)
  }

  lemma UniCastAlone(uni: map<Address, Session>, a: Address)
    requires Filed(uni) && a.castType == UniCast && forall k :: k in uni ==> k.castType == UniCast
    ensures Alone(uni, a)
  {
    assert forall k :: k in uni ==> k.msgSeq == 0;
  }

  /** Where the one session stands that an unregistered address names. */
  lemma OnlyMatch(uni: map<Address, Session>, lists: Lists, a: Address) returns (at: nat)
    requires Filed(uni) && InStep(uni, lists) && Key(a) in uni && Alone(uni, a)
    ensures a.serviceName in lists && OneMatch(lists[a.serviceName], a.id, at)
    ensures lists[a.serviceName][at] == uni[Key(a)]
  {
    var list := lists[a.serviceName];
    at :| 0 <= at < |list| && list[at] == uni[Key(a)];
    forall i | 0 <= i < |list| && list[i].address.id == a.id
      ensures i == at
    {
      assert Listed(uni, a.serviceName, list[i]);
      assert Key(list[i].address) == Key(a);
    }
  }

  predicate OneMatch(list: seq<Session>, id: nat, at: nat) {
    at < |list| && forall i :: 0 <= i < |list| ==> (list[i].address.id == id <==> i == at)
  }

  /** What remove_if moves to the front. */
  function Kept(list: seq<Session>, id: nat): (r: seq<Session>)
    ensures |r| <= |list|
  {
    if list == [] then [] else (if list[0].address.id == id then [] else [list[0]]) + Kept(list[1..], id)
  }

  function Matches(list: seq<Session>, id: nat): nat {
    |list| - |Kept(list, id)|
  }

  /** remove_if leaves some sessions behind those it keeps, C++ does not say which; erase takes
      out the first of them. */
  function Erased(list: seq<Session>, id: nat, behind: seq<Session>): seq<Session>
    requires |behind| > 0
  {
    Kept(list, id) + behind[1..]
  }

  lemma {:induction false} KeptNone(list: seq<Session>, id: nat)
    requires forall i :: 0 <= i < |list| ==> list[i].address.id != id
    ensures Kept(list, id) == list
  {
    if list != [] {
      KeptNone(list[1..], id);
    }
  }

  lemma {:induction false} KeptJoin(a: seq<Session>, b: seq<Session>, id: nat)
    ensures Kept(a + b, id) == Kept(a, id) + Kept(b, id)
  {
    if a == [] {
      assert a + b == b;
    } else {
      var first := if a[0].address.id == id then [] else [a[0]];
      assert (a + b)[0] == a[0] && (a + b)[1..] == a[1..] + b;
      assert Kept(a + b, id) == first + Kept(a[1..] + b, id);
      KeptJoin(a[1..], b, id);
      JoinAgain(first, Kept(a[1..], id), Kept(b, id));
    }
  }

  lemma JoinAgain(a: seq<Session>, b: seq<Session>, c: seq<Session>)
    ensures a + (b + c) == (a + b) + c
  {
  }

  lemma KeptOthers(list: seq<Session>, id: nat, at: nat)
    requires OneMatch(list, id, at)
    ensures Kept(list, id) == list[..at] + list[at + 1..]
  {
    hide Kept;
    var tail := list[at..];
    assert Kept(tail, id) == Kept(tail[1..], id) by { KeptFirst(tail, id); }
    assert list == list[..at] + tail && tail[1..] == list[at + 1..];
    KeptJoin(list[..at], tail, id);
    KeptNone(list[..at], id);
    KeptNone(tail[1..], id);
  }

  lemma KeptFirst(list: seq<Session>, id: nat)
    requires list != [] && list[0].address.id == id
    ensures Kept(list, id) == Kept(list[1..], id)
  {
  }

  lemma {:induction false} TwoMatches(list: seq<Session>, id: nat, i: nat, j: nat)
    requires i < j < |list| && list[i].address.id == id && list[j].address.id == id
    ensures Matches(list, id) >= 2
  {
    var a, b := list[..j], list[j..];
    assert list == a + b;
    KeptJoin(a, b, id);
    assert a == a[..i] + a[i..];
    KeptJoin(a[..i], a[i..], id);
  }

  lemma Unregistered(uni: map<Address, Session>, lists: Lists, a: Address, at: nat)
    requires Filed(uni) && InStep(uni, lists) && Key(a) in uni && a.serviceName in lists
    requires OneMatch(lists[a.serviceName], a.id, at) && lists[a.serviceName][at] == uni[Key(a)]
    ensures
      var list := lists[a.serviceName];
      Filed(uni - {Key(a)}) && InStep(uni - {Key(a)}, lists[a.serviceName := list[..at] + list[at + 1..]])
  {
    var n, list := a.serviceName, lists[a.serviceName];
    var rest := list[..at] + list[at + 1..];
    var uni1, lists1 := uni - {Key(a)}, lists[n := rest];
    forall m, i | m in lists1 && 0 <= i < |lists1[m]|
      ensures Listed(uni1, m, lists1[m][i])
    {
      var j := if m == n && i >= at then i + 1 else i;
      assert lists1[m][i] == lists[m][j];
      assert Listed(uni, m, lists[m][j]);
      assert m == n ==> list[j].address.id != a.id;
    }
    forall m, i, j | m in lists1 && 0 <= i < j < |lists1[m]|
      ensures lists1[m][i] != lists1[m][j]
    {
      var i1, j1 := if m == n && i >= at then i + 1 else i, if m == n && j >= at then j + 1 else j;
      assert lists1[m][i] == lists[m][i1] && lists1[m][j] == lists[m][j1];
    }
    forall k | k in uni1
      ensures k.serviceName in lists1 && uni1[k] in lists1[k.serviceName]
    {
      var i :| 0 <= i < |lists[k.serviceName]| && lists[k.serviceName][i] == uni[k];
      if k.serviceName == n {
        assert i != at;
        assert rest[if i < at then i else i - 1] == uni[k];
      }
    }
  }

  /** When does unregistering keep table and lists in step, whatever remove_if leaves behind?
      Exactly when nobody else shares the address's service and id. */
  lemma UnregisteredExactly(uni: map<Address, Session>, lists: Lists, a: Address)
    requires Filed(uni) && InStep(uni, lists) && Key(a) in uni
    ensures a.serviceName in lists && Matches(lists[a.serviceName], a.id) > 0
    ensures var list := lists[a.serviceName];
      Alone(uni, a) <==>
      forall behind :: |behind| == Matches(list, a.id) ==>
        InStep(uni - {Key(a)}, lists[a.serviceName := Erased(list, a.id, behind)])
  {
    hide InStep, Matches, Erased, Alone;
    SomeMatch(uni, lists, a);
    if Alone(uni, a) {
      AloneKeeps(uni, lists, a);
    } else {
      Shared(uni, lists, a);
      StaysBehind(uni, lists, a);
    }
  }

  lemma AloneKeeps(uni: map<Address, Session>, lists: Lists, a: Address)
    requires Filed(uni) && InStep(uni, lists) && Key(a) in uni && a.serviceName in lists && Alone(uni, a)
    requires Matches(lists[a.serviceName], a.id) > 0
    ensures forall behind :: |behind| == Matches(lists[a.serviceName], a.id) ==>
      InStep(uni - {Key(a)}, lists[a.serviceName := Erased(lists[a.serviceName], a.id, behind)])
  {
    hide InStep, Kept, Filed, Alone;
    var list := lists[a.serviceName];
    var at := OnlyMatch(uni, lists, a);
    KeptOthers(list, a.id, at);
    Unregistered(uni, lists, a, at);
    forall behind: seq<Session> | |behind| == Matches(list, a.id)
      ensures InStep(uni - {Key(a)}, lists[a.serviceName := Erased(list, a.id, behind)])
    {
      assert Erased(list, a.id, behind) == list[..at] + list[at + 1..];
    }
  }

  /** The session of an unregistered address is in the list. */
  lemma SomeMatch(uni: map<Address, Session>, lists: Lists, a: Address)
    requires Filed(uni) && InStep(uni, lists) && Key(a) in uni
    ensures a.serviceName in lists && Matches(lists[a.serviceName], a.id) > 0
  {
    var list := lists[a.serviceName];
    var i :| 0 <= i < |list| && list[i] == uni[Key(a)];
    MatchAt(list, a.id, i);
  }

  lemma Shared(uni: map<Address, Session>, lists: Lists, a: Address)
    requires Filed(uni) && InStep(uni, lists) && Key(a) in uni && a.serviceName in lists && !Alone(uni, a)
    ensures Matches(lists[a.serviceName], a.id) >= 2
  {
    var list := lists[a.serviceName];
    var k :| k in uni && k.serviceName == a.serviceName && k.id == a.id && k != Key(a);
    var i :| 0 <= i < |list| && list[i] == uni[Key(a)];
    var j :| 0 <= j < |list| && list[j] == uni[k];
    assert i != j;
    TwoMatches(list, a.id, if i < j then i else j, if i < j then j else i);
  }

  lemma MatchAt(list: seq<Session>, id: nat, i: nat)
    requires i < |list| && list[i].address.id == id
    ensures Matches(list, id) > 0
  {
    assert list == list[..i] + list[i..];
    KeptJoin(list[..i], list[i..], id);
  }

  /** Of two matches the unregistered session itself may be left. */
  lemma StaysBehind(uni: map<Address, Session>, lists: Lists, a: Address)
    requires Filed(uni) && Key(a) in uni && a.serviceName in lists && Matches(lists[a.serviceName], a.id) >= 2
    ensures var list := lists[a.serviceName];
      exists behind :: |behind| == Matches(list, a.id) &&
        !InStep(uni - {Key(a)}, lists[a.serviceName := Erased(list, a.id, behind)])
  {
    var list, gone := lists[a.serviceName], uni[Key(a)];
    var n := Matches(list, a.id);
    var behind := seq(n, _ => gone);
    var out := Erased(list, a.id, behind);
    var lists' := lists[a.serviceName := out];
    assert out[|Kept(list, a.id)|] == gone;
    assert lists'[a.serviceName][|Kept(list, a.id)|] == gone;
    assert !Listed(uni - {Key(a)}, a.serviceName, gone);
  }

  // ---------------------------------------------------------------- the casters

  /** Is an equal address in the list? */
  method HasAddress(list: seq<Session>, a: Address) returns (found: bool)
    ensures found <==> exists i :: 0 <= i < |list| && Same(a, list[i].address)
  {
    var i := 0;
    while i < |list|
      invariant i <= |list| && forall j :: 0 <= j < i ==> !Same(a, list[j].address)
    {
      if Same(a, list[i].address) {
        return true;
      }
      i := i + 1;
    }
    found := false;
  }

  /** erase(remove_if(...)): the others move up, and one element behind them is erased.  What
      stands behind them then is not said. */
  method EraseMatch(list: seq<Session>, id: nat, behind: seq<Session>) returns (rest: seq<Session>)
    requires |behind| == Matches(list, id) > 0
    ensures rest == Erased(list, id, behind)
  {
    var kept := [];
    var i := 0;
    while i < |list|
      invariant i <= |list|
      invariant kept == Kept(list[..i], id)
    {
      KeptJoin(list[..i], [list[i]], id);
      assert list[..i + 1] == list[..i] + [list[i]];
      if list[i].address.id != id {
        kept := kept + [list[i]];
      }
      i := i + 1;
    }
    assert list[..|list|] == list;
    var moved := kept + behind;
    rest := moved[..|kept|] + moved[|kept| + 1..];
  }

  /** The newcomer stands last in its service's list. */
  function Joined(lists: Lists, service: string, s: Session): Lists {
    lists[service := (if service in lists then lists[service] else []) + [s]]
  }

  /** Of the address's service the sessions with its id are gone, but for what is left behind;
      the others keep their order. */
  ghost predicate Left(before: Lists, after: Lists, a: Address, behind: seq<Session>) {
    && a.serviceName in before && |behind| > 0
    && after == before[a.serviceName := Erased(before[a.serviceName], a.id, behind)]
  }

  class RouterCaster {
    var uni: map<Address, Session>
    var multi: Lists
    var any: Lists
    /** The any-cast table's next position, by service. */
    var anyNext: map<string, nat>

    ghost predicate Valid()
      reads this
    {
      Filed(uni) && InStep(uni, multi) && InStep(uni, any) && anyNext.Keys == any.Keys
    }

    constructor ()
      ensures Valid() && uni == map[]
    {
      uni, multi, any, anyNext := map[], map[], map[], map[];
    }

    method RegisterMulti(a: Address, s: Session) returns (ok: bool)
      modifies this`multi
      ensures
        var list := if a.serviceName in old(multi) then old(multi)[a.serviceName] else [];
        && (ok <==> forall i :: 0 <= i < |list| ==> !Same(a, list[i].address))
        && multi == old(multi)[a.serviceName := if ok then list + [s] else list]
    {
      var list := if a.serviceName in multi then multi[a.serviceName] else [];
      multi := multi[a.serviceName := list];
      var found := HasAddress(list, a);
      ok := !found;
      if ok {
        multi := multi[a.serviceName := list + [s]];
      }
    }

    method RegisterAny(a: Address, s: Session) returns (ok: bool)
      requires anyNext.Keys == any.Keys
      modifies this`any, this`anyNext
      ensures anyNext.Keys == any.Keys
      ensures
        var list := if a.serviceName in old(any) then old(any)[a.serviceName] else [];
        && (ok <==> forall i :: 0 <= i < |list| ==> !Same(a, list[i].address))
        && any == old(any)[a.serviceName := if ok then list + [s] else list]
        && anyNext == if ok then old(anyNext)[a.serviceName := |list|] else old(anyNext)
    {
      var list := if a.serviceName in any then any[a.serviceName] else [];
      var next := if a.serviceName in anyNext then anyNext[a.serviceName] else 0;
      any, anyNext := any[a.serviceName := list], anyNext[a.serviceName := next];
      var found := HasAddress(list, a);
      ok := !found;
      if ok {
        any, anyNext := any[a.serviceName := list + [s]], anyNext[a.serviceName := |list|];
      }
    }

    /** All three tables or none: an address is registered unless an equal one is there, and a
        failed call changes nothing. */
    method RegisterAddress(a: Address, sessionKey: nat) returns (ok: bool)
      requires Valid()
      modifies this
      ensures Valid() && (ok <==> Key(a) !in old(uni))
      ensures uni == if ok then old(uni)[Key(a) := Session(sessionKey, a)] else old(uni)
      ensures !ok ==> multi == old(multi) && any == old(any) && anyNext == old(anyNext)
      ensures ok ==>
        && multi == Joined(old(multi), a.serviceName, Session(sessionKey, a))
        && any == Joined(old(any), a.serviceName, Session(sessionKey, a))
        && anyNext == old(anyNext)[a.serviceName := |any[a.serviceName]| - 1]
    {
      hide InStep, Filed;
      var s := Session(sessionKey, a);
      if Key(a) in uni {
        return false;
      }
      Unlisted(uni, multi, a);
      Unlisted(uni, any, a);
      Registered(uni, multi, s);
      Registered(uni, any, s);
      uni := uni[Key(a) := s];
      ok := RegisterMulti(a, s);
      if !ok {
        return;
      }
      ok := RegisterAny(a, s);
    }

    /** Out of all three tables, or not there at all.  `multiBehind` and `anyBehind` are what
        remove_if leaves behind in the two lists. */
    method UnregisterAddress(a: Address, multiBehind: seq<Session>, anyBehind: seq<Session>) returns (ok: bool)
      requires Valid()
      requires Key(a) in uni ==>
        a.serviceName in multi && |multiBehind| == Matches(multi[a.serviceName], a.id) &&
        a.serviceName in any && |anyBehind| == Matches(any[a.serviceName], a.id)
      modifies this
      ensures (ok <==> Key(a) in old(uni)) && uni == old(uni) - {Key(a)}
      ensures ok ==> Left(old(multi), multi, a, multiBehind) && Left(old(any), any, a, anyBehind)
      ensures !ok ==> multi == old(multi) && any == old(any)
      ensures anyNext == old(anyNext)
      ensures !ok || Alone(old(uni), a) ==> Valid()
    {
      hide InStep, Filed, Alone, Matches, Erased;
      if Key(a) !in uni {
        assert uni - {Key(a)} == uni;
        return false;
      }
      assert Filed(uni - {Key(a)}) by { StillFiled(uni, a); }
      UnregisteredExactly(uni, multi, a);
      UnregisteredExactly(uni, any, a);
      uni := uni - {Key(a)};
      var list := EraseMatch(multi[a.serviceName], a.id, multiBehind);
      multi := multi[a.serviceName := list];
      list := EraseMatch(any[a.serviceName], a.id, anyBehind);
      any := any[a.serviceName := list];
      ok := true;
    }

    method FindSession(a: Address) returns (s: Option<Session>)
      requires Valid()
      ensures s.Some? <==> Key(a) in uni
      ensures s.Some? ==> s.value == uni[Key(a)] && Same(s.value.address, a)
    {
      s := if Key(a) in uni then Some(uni[Key(a)]) else None;
    }

    /** Any-cast: one of the service's sessions in turn. */
    method PickAny(service: string) returns (s: Option<Session>)
      requires Valid()
      modifies this`anyNext
      ensures Valid()
      ensures s.Some? <==> service in any && any[service] != []
      ensures s.Some? ==>
        && s.value == any[service][Turn(old(anyNext)[service], |any[service]|, 0)]
        && anyNext == old(anyNext)[service := old(anyNext)[service] + 1]
      ensures s.None? ==> anyNext == old(anyNext)
    {
      if service !in any || any[service] == [] {
        return None;
      }
      var first := anyNext[service];
      s := Some(any[service][first % |any[service]|]);
      anyNext := anyNext[service := first + 1];
    }
  }

  /** A newcomer gets its service's next any-cast message, and is found under any address that
      compares equal to its own. */
  method RegisterThenPick(caster: RouterCaster, a: Address, key: nat, b: Address)
    returns (ok: bool, picked: Option<Session>, found: Option<Session>)
    requires caster.Valid() && Same(a, b)
    modifies caster
    ensures caster.Valid()
    ensures ok ==> picked == Some(Session(key, a)) && found == Some(Session(key, a))
    ensures !ok ==> found.Some? && Same(found.value.address, b)
  {
    hide InStep, Filed;
    SameKey(a, b);
    ok := caster.RegisterAddress(a, key);
    if ok {
      ghost var list := caster.any[a.serviceName];
      assert list[|list| - 1] == Session(key, a);
      LastTurn(|list|);
    }
    picked := caster.PickAny(a.serviceName);
    found := caster.FindSession(b);
  }

  lemma SameKey(a: Address, b: Address)
    requires Same(a, b)
    ensures Key(a) == Key(b)
  {
  }

  lemma LastTurn(n: nat)
    requires n > 0
    ensures Turn(n - 1, n, 0) == n - 1
  {
  }

  lemma StillFiled(uni: map<Address, Session>, a: Address)
    requires Filed(uni)
    ensures Filed(uni - {Key(a)})
  {
  }

  lemma Unlisted(uni: map<Address, Session>, lists: Lists, a: Address)
    requires Filed(uni) && InStep(uni, lists) && Key(a) !in uni
    ensures a.serviceName in lists ==> forall i :: 0 <= i < |lists[a.serviceName]| ==> !Same(a, lists[a.serviceName][i].address)
  {
    if a.serviceName in lists {
      forall i | 0 <= i < |lists[a.serviceName]|
        ensures !Same(a, lists[a.serviceName][i].address)
      {
        assert Listed(uni, a.serviceName, lists[a.serviceName][i]);
      }
    }
  }

  // ---------------------------------------------------------------- any-cast takes turns

  /** Who is served by the k-th of the messages that start at position `first`. */
  function Turn(first: nat, n: nat, k: nat): nat
    requires n > 0
  {
    (first + k) % n
  }

  /** From wherever the turn is, n consecutive any-cast messages to n sessions reach every
      session exactly once. */
  lemma TakesTurns(first: nat, n: nat, i: nat) returns (turn: nat)
    requires i < n
    ensures turn < n && Turn(first, n, turn) == i
    ensures forall k :: 0 <= k < n && Turn(first, n, k) == i ==> k == turn
  {
    var r := first % n;
    turn := if i >= r then i - r else i - r + n;
    hide Turn;
    Wraps(first, n, turn);
    forall k | 0 <= k < n && Turn(first, n, k) == i
      ensures k == turn
    {
      Wraps(first, n, k);
    }
  }

  lemma Wraps(first: nat, n: nat, k: nat)
    requires k < n
    ensures Turn(first, n, k) == (if first % n + k < n then first % n + k else first % n + k - n)
  {
    var q, r := first / n, first % n;
    if r + k < n {
      ModUnique(first + k, n, q, r + k);
    } else {
      assert n * (q + 1) == n * q + n;
      ModUnique(first + k, n, q + 1, r + k - n);
    }
  }
}
