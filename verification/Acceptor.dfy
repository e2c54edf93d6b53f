/** The link pool and the acceptor that is re-armed when links close. */
module Acceptor {
  import opened Wrappers

  /** A pool of at most `max` objects, numbered in the order they were made. */
  class Pool {
    const max: nat
    var created: nat
    /** Objects waiting to be used again; the last one returned is the next one given out. */
    var free: seq<nat>
    /** Objects somebody still refers to. */
    ghost var live: set<nat>

    ghost predicate Valid()
      reads this
    {
      && created <= max && |free| + |live| == created
      && (forall i, j :: 0 <= i < j < |free| ==> free[i] != free[j])
      && (forall x :: x in live ==> x < created && x !in free)
      && (forall x :: x in free ==> x < created)
    }

    constructor (max: nat)
      ensures Valid() && this.max == max && created == 0 && live == {}
    {
      this.max := max;
      created := 0;
      free := [];
      live := {};
    }

    /** Refused exactly when all objects are in use; never an object somebody still has. */
    method Create() returns (item: Option<nat>)
      requires Valid()
      modifies this
      ensures Valid()
      ensures item.None? <==> old(|live|) == max
      ensures item.None? ==> live == old(live) && free == old(free) && created == old(created)
      ensures item.Some? ==> item.value !in old(live) && live == old(live) + {item.value}
    {
      if |free| == 0 && created >= max {
        return None;
      }
      if |free| == 0 {
        item := Some(created);
        created := created + 1;
      } else {
        item := Some(free[0]);
        ghost var before := free;
        free := free[1..];
        assert before == [item.value] + free && before[0] in before;
        assert forall x :: x in free ==> x in before;
      }
      live := live + {item.value};
    }

    /** The last reference went away. */
    method Restitute(item: nat)
      requires Valid() && item in live
      modifies this
      ensures Valid() && live == old(live) - {item} && free == [item] + old(free)
    {
      free := [item] + free;
      live := live - {item};
    }

    method Available() returns (n: nat)
      requires Valid()
      ensures n == max - |live|
    {
      n := |free| + (max - created);
    }
  }

  // ---------------------------------------------------------------- the acceptor

  /** Counts of links: `accepting`, one in an outstanding accept or its callback; `open`;
      `closing`, closed but still referred to.  The rest of `max` is available. */
  datatype State = State(max: nat, acceptable: bool, accepting: bool, open: nat, closing: nat)

  function Available(s: State): int {
    s.max - s.open - s.closing - if s.accepting then 1 else 0
  }

  /** Accept: take a link from the pool, or stop accepting. */
  function Accept(s: State): State {
    if Available(s) > 0 then s.(accepting := true) else s.(acceptable := false, accepting := false)
  }

  /** A connection came in; the accept failed; a link closed; a closed link was returned to
      the pool. */
  datatype Event = Accepted | AcceptFailed | Closed | Returned

  predicate Enabled(s: State, e: Event) {
    match e
    case Accepted => s.accepting
    case AcceptFailed => s.accepting
    case Closed => s.open > 0
    case Returned => s.closing > 0
  }

  function Step(s: State, e: Event): State {
    match e
    case Accepted => Accept(s.(accepting := false, open := s.open + 1))
    case AcceptFailed => Accept(s.(accepting := false, closing := s.closing + 1))
    case Closed =>
      var t := if s.open > 0 then s.(open := s.open - 1, closing := s.closing + 1) else s;
      if !t.acceptable && Available(t) > 0 then Accept(t.(acceptable := true)) else t
    case Returned => if s.closing > 0 then s.(closing := s.closing - 1) else s
  }

  ghost predicate Run(s: State, es: seq<Event>, end: State)
    decreases |es|
  {
    if es == [] then s == end else Enabled(s, es[0]) && Run(Step(s, es[0]), es[1..], end)
  }

  /** Listening starts with an accept. */
  function Listen(max: nat): State {
    Accept(State(max, true, false, 0, 0))
  }

  predicate Inv(s: State) {
    Available(s) >= 0 && (s.acceptable <==> s.accepting)
  }

  /** In every run no more links are in use than the pool may make, and an accept is
      outstanding, or in its callback, exactly while links are acceptable. */
  lemma {:induction false} RunKeeps(s: State, es: seq<Event>, end: State)
    requires Inv(s) && Run(s, es, end)
    ensures Inv(end) && end.max == s.max
    decreases |es|
  {
    if es != [] {
      RunKeeps(Step(s, es[0]), es[1..], end);
    }
  }

  lemma AcceptorInvariant(max: nat, es: seq<Event>, end: State)
    requires Run(Listen(max), es, end)
    ensures Inv(end) && end.max == max
  {
    RunKeeps(Listen(max), es, end);
  }

  /** Closing a link re-arms a stopped acceptor exactly when something was available already:
      the closing link itself is still referred to and does not count. */
  lemma RearmedExactly(s: State)
    requires Inv(s) && !s.acceptable && s.open > 0
    ensures Step(s, Closed).accepting <==> Available(s) > 0
  {}

  /** An outstanding accept, successful or not, is followed by another one exactly while a link is
      available; nothing else ends accepting. */
  lemma StopsExactly(s: State, e: Event)
    requires Inv(s) && s.accepting && Enabled(s, e)
    ensures Step(s, e).accepting <==> Available(s) > 0 || e.Closed? || e.Returned?
  {}

  /** Every link in use is accepting, open or closing, and moves on in that order. */
  lemma LinksMove(s: State, e: Event)
    requires Inv(s) && Enabled(s, e)
    ensures Step(s, e).open == s.open + (if e.Accepted? then 1 else if e.Closed? then -1 else 0)
    ensures Step(s, e).closing == s.closing + (if e.Closed? || e.AcceptFailed? then 1 else if e.Returned? then -1 else 0)
  {}

  ghost predicate CanAccept(s: State) {
    exists es, end :: Run(s, es, end) && end.accepting
  }

  lemma RunOne(s: State, e: Event)
    requires Enabled(s, e)
    ensures Run(s, [e], Step(s, e))
  {
    assert [e][1..] == [];
    assert Run(Step(s, e), [], Step(s, e));
  }

  lemma ThenAccepts(s: State, e: Event)
    requires Enabled(s, e) && CanAccept(Step(s, e))
    ensures CanAccept(s)
  {
    var es, end :| Run(Step(s, e), es, end) && end.accepting;
    RunOne(s, e);
    RunThen(s, [e], Step(s, e), es, end);
  }

  lemma AcceptsNow(s: State)
    requires s.accepting
    ensures CanAccept(s)
  {
    assert Run(s, [], s);
  }

  /** A stopped acceptor with an open link and one available is armed by the next close. */
  lemma CloseArms(s: State)
    requires Inv(s) && !s.accepting && s.open > 0 && Available(s) > 0
    ensures CanAccept(s)
  {
    RearmedExactly(s);
    AcceptsNow(Step(s, Closed));
    ThenAccepts(s, Closed);
  }

  /** Nothing is open: no close will come. */
  lemma {:induction false} NoneOpen(s: State, es: seq<Event>, end: State)
    requires Inv(s) && !s.accepting && s.open == 0 && Run(s, es, end)
    ensures !end.accepting
    decreases |es|
  {
    if es != [] {
      NoneOpen(Step(s, es[0]), es[1..], end);
    }
  }

  /** Which reachable states can never accept again?  Those that have stopped with no link
      open, or with the one link of a pool of one. */
  lemma StoppedExactly(s: State)
    requires Inv(s)
    ensures !CanAccept(s) <==> !s.accepting && (s.open == 0 || (s.open == 1 && s.max == 1))
  {
    if s.accepting {
      AcceptsNow(s);
    } else if s.open == 0 || (s.open == 1 && s.max == 1) {
      forall es, end | Run(s, es, end)
        ensures !end.accepting
      {
        if s.open == 0 {
          NoneOpen(s, es, end);
        } else if es != [] {
          NoneOpen(Step(s, es[0]), es[1..], end);
        }
      }
    } else if Available(s) > 0 {
      CloseArms(s);
    } else if s.closing > 0 {
      CloseArms(Step(s, Returned));
      ThenAccepts(s, Returned);
    } else {
      var t := Step(s, Closed);
      CloseArms(Step(t, Returned));
      ThenAccepts(t, Returned);
      ThenAccepts(s, Closed);
    }
  }

  function Repeat(e: Event, n: nat): seq<Event> {
    if n == 0 then [] else [e] + Repeat(e, n - 1)
  }

  lemma {:induction false} RunThen(s: State, a: seq<Event>, mid: State, b: seq<Event>, end: State)
    requires Run(s, a, mid) && Run(mid, b, end)
    ensures Run(s, a + b, end)
    decreases |a|
  {
    if a == [] {
      assert a + b == b;
    } else {
      RunThen(Step(s, a[0]), a[1..], mid, b, end);
      assert (a + b)[1..] == a[1..] + b;
    }
  }

  lemma {:induction false} AcceptAll(max: nat, k: nat)
    requires 0 < k <= max
    ensures Run(State(max, true, true, max - k, 0), Repeat(Accepted, k), State(max, false, false, max, 0))
    decreases k
  {
    var s := State(max, true, true, max - k, 0);
    var rest := Repeat(Accepted, k)[1..];
    assert rest == Repeat(Accepted, k - 1);
    if k > 1 {
      AcceptAll(max, k - 1);
      assert Step(s, Accepted) == State(max, true, true, max - (k - 1), 0);
    } else {
      assert Step(s, Accepted) == State(max, false, false, max, 0);
    }
  }

  lemma {:induction false} CloseAll(max: nat, k: nat)
    requires k <= max
    ensures Run(State(max, false, false, k, max - k), Repeat(Closed, k), State(max, false, false, 0, max))
    decreases k
  {
    if k > 0 {
      assert Repeat(Closed, k)[1..] == Repeat(Closed, k - 1);
      CloseAll(max, k - 1);
    }
  }

  lemma {:induction false} ReturnAll(max: nat, k: nat)
    ensures Run(State(max, false, false, 0, k), Repeat(Returned, k), State(max, false, false, 0, 0))
    decreases k
  {
    if k > 0 {
      assert Repeat(Returned, k)[1..] == Repeat(Returned, k - 1);
      ReturnAll(max, k - 1);
    }
  }

  /** Whatever the capacity: once it has been exhausted, and all links close before the first
      of them is returned, nothing accepts any more although every link is available. */
  lemma StopsForGood(max: nat) returns (es: seq<Event>, end: State)
    requires max > 0
    ensures Run(Listen(max), es, end) && Available(end) == max && !end.accepting
    ensures forall e :: !Enabled(end, e)
  {
    AcceptAll(max, max);
    CloseAll(max, max);
    ReturnAll(max, max);
    var full, closed := State(max, false, false, max, 0), State(max, false, false, 0, max);
    end := State(max, false, false, 0, 0);
    RunThen(Listen(max), Repeat(Accepted, max), full, Repeat(Closed, max), closed);
    RunThen(Listen(max), Repeat(Accepted, max) + Repeat(Closed, max), closed, Repeat(Returned, max), end);
    es := Repeat(Accepted, max) + Repeat(Closed, max) + Repeat(Returned, max);
  }
}
