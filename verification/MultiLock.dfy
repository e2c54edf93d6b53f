/** MultiLock: a set of locks taken in ascending order.  Any number of threads that take one
    each always have a step to make, and all of them finish. */
module MultiLock {

  // ---------------------------------------------------------------- the ordered set

  predicate Ascending(ls: seq<nat>) {
    forall i, j :: 0 <= i < j < |ls| ==> ls[i] < ls[j]
  }

  /** The constructor's argument list, in any order and with repetitions, as a std::set holds
      it: ascending, each lock once.  Locks are compared by address. */
  class MultiLockImpl {
    var setLocks: seq<nat>

    constructor (locks: seq<nat>)
      ensures Ascending(setLocks) && forall x :: x in setLocks <==> x in locks
    {
      setLocks := [];
      new;
      var k := 0;
      while k < |locks|
        invariant k <= |locks| && Ascending(setLocks)
        invariant forall x :: x in setLocks <==> x in locks[..k]
      {
        Insert(locks[k]);
        k := k + 1;
      }
    }

    method Insert(lock: nat)
      requires Ascending(setLocks)
      modifies this
      ensures Ascending(setLocks)
      ensures forall x :: x in setLocks <==> x == lock || x in old(setLocks)
    {
      var i := 0;
      while i < |setLocks| && setLocks[i] < lock
        invariant i <= |setLocks| && forall j :: 0 <= j < i ==> setLocks[j] < lock
      {
        i := i + 1;
      }
      if i == |setLocks| || setLocks[i] != lock {
        setLocks := setLocks[..i] + [lock] + setLocks[i..];
      }
    }
  }

  // ---------------------------------------------------------------- threads taking locks

  /** A thread that takes its locks from first to last and then gives them up from first to
      last; it has taken `taken` of them and released `released`. */
  datatype Thread = Thread(locks: seq<nat>, taken: nat, released: nat)

  datatype Action = Take | Release

  predicate Started(t: Thread) {
    Ascending(t.locks) && t.taken == 0 && t.released == 0
  }

  predicate Sound(t: Thread) {
    Ascending(t.locks) && t.released <= t.taken <= |t.locks| && (t.taken < |t.locks| ==> t.released == 0)
  }

  predicate Finished(t: Thread) {
    t.released == |t.locks|
  }

  predicate Holds(t: Thread, lock: nat) {
    t.released <= t.taken <= |t.locks| && lock in t.locks[t.released..t.taken]
  }

  predicate Free(ts: seq<Thread>, lock: nat) {
    forall t :: t in ts ==> !Holds(t, lock)
  }

  predicate Enabled(ts: seq<Thread>, i: nat, a: Action) {
    i < |ts| &&
    match a
    case Take => ts[i].taken < |ts[i].locks| && Free(ts, ts[i].locks[ts[i].taken])
    case Release => ts[i].taken == |ts[i].locks| && ts[i].released < ts[i].taken
  }

  function Next(ts: seq<Thread>, i: nat, a: Action): seq<Thread>
    requires i < |ts|
  {
    match a
    case Take => ts[i := ts[i].(taken := ts[i].taken + 1)]
    case Release => ts[i := ts[i].(released := ts[i].released + 1)]
  }

  datatype Step = Step(thread: nat, action: Action)

  ghost predicate Run(ts: seq<Thread>, steps: seq<Step>, end: seq<Thread>)
    decreases |steps|
  {
    if steps == [] then ts == end
    else
      && Enabled(ts, steps[0].thread, steps[0].action)
      && Run(Next(ts, steps[0].thread, steps[0].action), steps[1..], end)
  }

  ghost predicate Inv(ts: seq<Thread>) {
    && (forall t :: t in ts ==> Sound(t))
    && (forall i, j, lock :: 0 <= i < j < |ts| && Holds(ts[i], lock) ==> !Holds(ts[j], lock))
  }

  // ---------------------------------------------------------------- mutual exclusion

  lemma TakenAtMostOnce(t: Thread, lock: nat)
    requires Sound(t) && t.taken < |t.locks|
    ensures Holds(t.(taken := t.taken + 1), lock) <==> Holds(t, lock) || lock == t.locks[t.taken]
  {
    var a, b := t.locks[t.released..t.taken], t.locks[t.released..t.taken + 1];
    assert b == a + [t.locks[t.taken]];
  }

  lemma ReleasedKeepsRest(t: Thread, lock: nat)
    requires Sound(t) && t.released < t.taken && Holds(t.(released := t.released + 1), lock)
    ensures Holds(t, lock)
  {
    var a, b := t.locks[t.released..t.taken], t.locks[t.released + 1..t.taken];
    assert a == [t.locks[t.released]] + b;
  }

  /** At every step no lock is held by two threads. */
  lemma StepKeeps(ts: seq<Thread>, i: nat, a: Action)
    requires Inv(ts) && Enabled(ts, i, a)
    ensures Inv(Next(ts, i, a))
  {
    var us := Next(ts, i, a);
    assert ts[i] in ts;
    forall lock | Holds(us[i], lock)
      ensures Holds(ts[i], lock) || (a.Take? && lock == ts[i].locks[ts[i].taken])
    {
      match a
      case Take => TakenAtMostOnce(ts[i], lock);
      case Release => ReleasedKeepsRest(ts[i], lock);
    }
    forall p, q, lock | 0 <= p < q < |us| && Holds(us[p], lock)
      ensures !Holds(us[q], lock)
    {
      assert ts[p] in ts && ts[q] in ts;
    }
    forall t | t in us
      ensures Sound(t)
    {
      var k :| 0 <= k < |us| && us[k] == t;
      assert ts[k] in ts;
    }
  }

  lemma {:induction false} RunKeeps(ts: seq<Thread>, steps: seq<Step>, end: seq<Thread>)
    requires Inv(ts) && Run(ts, steps, end)
    ensures Inv(end)
    decreases |steps|
  {
    if steps != [] {
      StepKeeps(ts, steps[0].thread, steps[0].action);
      RunKeeps(Next(ts, steps[0].thread, steps[0].action), steps[1..], end);
    }
  }

  // ---------------------------------------------------------------- progress

  function Highest(ts: seq<Thread>): nat {
    if ts == [] then 0 else Max(HighestOf(ts[0].locks), Highest(ts[1..]))
  }

  function HighestOf(ls: seq<nat>): nat {
    if ls == [] then 0 else Max(ls[0], HighestOf(ls[1..]))
  }

  function Max(a: nat, b: nat): nat { if a < b then b else a }

  lemma {:induction false} HighestBounds(ls: seq<nat>, lock: nat)
    requires lock in ls
    ensures lock <= HighestOf(ls)
  {
    if lock != ls[0] {
      HighestBounds(ls[1..], lock);
    }
  }

  lemma {:induction false} HighestBoundsAll(ts: seq<Thread>, t: Thread, lock: nat)
    requires t in ts && lock in t.locks
    ensures lock <= Highest(ts)
  {
    if t == ts[0] {
      HighestBounds(t.locks, lock);
    } else {
      HighestBoundsAll(ts[1..], t, lock);
    }
  }

  /** A thread that cannot go on waits for a lock whose holder either can, or waits for a
      higher lock; so the chain of waiting ends at a thread that can go on. */
  lemma {:induction false} SomeoneMoves(ts: seq<Thread>, i: nat) returns (k: nat, a: Action)
    requires Inv(ts) && i < |ts| && !Finished(ts[i])
    ensures Enabled(ts, k, a)
    decreases Highest(ts) - if ts[i].taken < |ts[i].locks| then ts[i].locks[ts[i].taken] else 0
  {
    assert ts[i] in ts && Sound(ts[i]);
    if ts[i].taken == |ts[i].locks| {
      return i, Release;
    }
    var wanted := ts[i].locks[ts[i].taken];
    HighestBoundsAll(ts, ts[i], wanted);
    if Free(ts, wanted) {
      return i, Take;
    }
    var holder :| holder in ts && Holds(holder, wanted);
    var j :| 0 <= j < |ts| && ts[j] == holder;
    var slot :| holder.released <= slot < holder.taken && holder.locks[slot] == wanted;
    if holder.taken < |holder.locks| {
      assert Sound(holder);
      assert holder.locks[holder.taken] > wanted;
      HighestBoundsAll(ts, holder, holder.locks[holder.taken]);
      k, a := SomeoneMoves(ts, j);
    } else {
      return j, Release;
    }
  }

  /** No reachable state is a deadlock: while some thread is not finished, some thread can
      take a step. */
  lemma NoDeadlock(ts: seq<Thread>, steps: seq<Step>, end: seq<Thread>)
    requires (forall t :: t in ts ==> Started(t)) && Run(ts, steps, end)
    requires exists t :: t in end && !Finished(t)
    ensures exists k: nat, a: Action :: Enabled(end, k, a)
  {
    StartIsSound(ts);
    RunKeeps(ts, steps, end);
    var t :| t in end && !Finished(t);
    var i :| 0 <= i < |end| && end[i] == t;
    var k, a := SomeoneMoves(end, i);
  }

  lemma StartIsSound(ts: seq<Thread>)
    requires forall t :: t in ts ==> Started(t)
    ensures Inv(ts)
  {
    forall i, lock | 0 <= i < |ts|
      ensures !Holds(ts[i], lock)
    {
      assert ts[i] in ts;
    }
  }

  // ---------------------------------------------------------------- every run ends

  /** Lock operations still to come. */
  function Left(ts: seq<Thread>): int {
    if ts == [] then 0 else 2 * |ts[0].locks| - ts[0].taken - ts[0].released + Left(ts[1..])
  }

  lemma {:induction false} LeftUpdate(ts: seq<Thread>, i: nat, t: Thread)
    requires i < |ts| && t.locks == ts[i].locks
    ensures Left(ts[i := t]) == Left(ts) + ts[i].taken + ts[i].released - t.taken - t.released
  {
    if i == 0 {
      assert ts[i := t][1..] == ts[1..];
    } else {
      LeftUpdate(ts[1..], i - 1, t);
      assert ts[i := t][1..] == ts[1..][i - 1 := t];
    }
  }

  lemma {:induction false} LeftNonNegative(ts: seq<Thread>)
    requires forall t :: t in ts ==> Sound(t)
    ensures Left(ts) >= 0 && (Left(ts) == 0 <==> forall t :: t in ts ==> Finished(t))
  {
    if ts != [] {
      LeftNonNegative(ts[1..]);
      assert Sound(ts[0]);
      hide Sound, Finished;
      LeftOfOne(ts[0]);
      assert forall t :: t in ts <==> t == ts[0] || t in ts[1..];
    }
  }

  lemma LeftOfOne(t: Thread)
    requires Sound(t)
    ensures 2 * |t.locks| - t.taken - t.released >= 0
    ensures 2 * |t.locks| - t.taken - t.released == 0 <==> Finished(t)
  {
  }

  lemma {:induction false} RunCounts(ts: seq<Thread>, steps: seq<Step>, end: seq<Thread>)
    requires Run(ts, steps, end)
    ensures Left(end) == Left(ts) - |steps|
    decreases |steps|
  {
    if steps != [] {
      var i := steps[0].thread;
      LeftUpdate(ts, i, Next(ts, i, steps[0].action)[i]);
      RunCounts(Next(ts, i, steps[0].action), steps[1..], end);
    }
  }

  /** Every run takes at most two operations per lock asked for, and a run that cannot go on
      is one in which every thread has finished. */
  lemma EveryoneFinishes(ts: seq<Thread>, steps: seq<Step>, end: seq<Thread>)
    requires (forall t :: t in ts ==> Started(t)) && Run(ts, steps, end)
    ensures |steps| <= Left(ts)
    ensures (forall t :: t in end ==> Finished(t)) <==> !exists k: nat, a: Action :: Enabled(end, k, a)
    ensures (forall t :: t in end ==> Finished(t)) <==> |steps| == Left(ts)
  {
    StartIsSound(ts);
    RunKeeps(ts, steps, end);
    RunCounts(ts, steps, end);
    LeftNonNegative(end);
    if exists t :: t in end && !Finished(t) {
      NoDeadlock(ts, steps, end);
    } else {
      forall k: nat, a: Action
        ensures !Enabled(end, k, a)
      {
        if k < |end| {
          assert end[k] in end && Sound(end[k]);
        }
      }
    }
  }

  /** Without the ascending order two threads can block each other for good. */
  lemma UnorderedDeadlocks()
    ensures
      var ts := [Thread([1, 2], 1, 0), Thread([2, 1], 1, 0)];
      && Run([Thread([1, 2], 0, 0), Thread([2, 1], 0, 0)], [Step(0, Take), Step(1, Take)], ts)
      && forall k: nat, a: Action :: !Enabled(ts, k, a)
  {
    var s0 := [Thread([1, 2], 0, 0), Thread([2, 1], 0, 0)];
    var s1 := [Thread([1, 2], 1, 0), Thread([2, 1], 0, 0)];
    var ts := [Thread([1, 2], 1, 0), Thread([2, 1], 1, 0)];
    assert Next(s0, 0, Take) == s1 && Next(s1, 1, Take) == ts;
    var steps := [Step(0, Take), Step(1, Take)];
    assert steps[1..] == [Step(1, Take)] && steps[1..][1..] == [];
    assert Run(ts, [], ts);
    assert Run(s1, [Step(1, Take)], ts);
    assert [1, 2][0..1] == [1] && [2, 1][0..1] == [2];
    assert Holds(ts[0], 1) && Holds(ts[1], 2) && ts[0] in ts && ts[1] in ts;
  }
}
