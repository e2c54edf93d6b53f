/** Requests sent through the router and the answers that come back: each answer goes to the
    session that asked, at most once, whatever else happens in between. */
module RouterAnswers {
  import opened Wrappers

  /** The sessions of a router link that wait for an answer: when each asked, and who. */
  datatype Waiting = Waiting(since: nat, session: nat)

  type Table = map<nat, Waiting>

  const ANSWER_TIMEOUT: nat := 5

  predicate Expired(w: Waiting, now: nat) {
    w.since + ANSWER_TIMEOUT < now
  }

  function Swept(t: Table, now: nat): Table {
    map q | q in t && !Expired(t[q], now) :: t[q]
  }

  class AnswerWaitingSessionManager {
    var sessions: Table

    constructor ()
      ensures sessions == map[]
    {
      sessions := map[];
    }

    /** An entry that is already there stays. */
    method AddSession(msgSeq: nat, session: nat, now: nat) returns (added: bool)
      modifies this
      ensures added <==> msgSeq !in old(sessions)
      ensures sessions == if added then old(sessions)[msgSeq := Waiting(now, session)] else old(sessions)
    {
      added := msgSeq !in sessions;
      if added {
        sessions := sessions[msgSeq := Waiting(now, session)];
      }
    }

    /** Finding is taking out. */
    method FindSession(msgSeq: nat) returns (session: Option<nat>)
      modifies this
      ensures session == (if msgSeq in old(sessions) then Some(old(sessions)[msgSeq].session) else None)
      ensures sessions == old(sessions) - {msgSeq}
    {
      if msgSeq !in sessions {
        assert sessions - {msgSeq} == sessions;
        return None;
      }
      session := Some(sessions[msgSeq].session);
      sessions := sessions - {msgSeq};
    }

    /** The timer: erase what has waited too long, while going over the table. */
    method Sweep(now: nat)
      modifies this
      ensures sessions == Swept(old(sessions), now)
    {
      ghost var before := sessions;
      var keys := sessions.Keys;
      while keys != {}
        invariant keys <= before.Keys
        invariant forall q :: q in sessions <==> q in before && (q in keys || !Expired(before[q], now))
        invariant forall q :: q in sessions ==> sessions[q] == before[q]
        decreases |keys|
      {
        var q :| q in keys;
        if Expired(sessions[q], now) {
          sessions := sessions - {q};
        }
        keys := keys - {q};
      }
    }

    method Clear()
      modifies this
      ensures sessions == map[]
    {
      sessions := map[];
    }
  }

  // ---------------------------------------------------------------- runs

  /** A request as it was sent on one link, and an answer as it was handed on. */
  datatype Request = Request(link: nat, msgSeq: nat, session: nat)

  /** The caster's counter, the waiting tables of the router links, and what has happened. */
  datatype Router = Router(next: nat, tables: map<nat, Table>, requests: set<Request>, answered: seq<Request>)

  /** Send: a session asks on the links the cast picks (one, or several for multi-cast), all
      under one new number.  Answer: an answer message with this number arrives on a link.
      Sweep, Clear: a link's timer, and its connect or close. */
  datatype Event =
    | Send(session: nat, links: set<nat>, now: nat)
    | Answer(link: nat, msgSeq: nat)
    | Sweep(link: nat, now: nat)
    | Clear(link: nat)

  function TableOf(r: Router, link: nat): Table {
    if link in r.tables then r.tables[link] else map[]
  }

  function Added(t: Table, q: nat, w: Waiting): Table {
    if q in t then t else t[q := w]
  }

  function Step(r: Router, e: Event): Router {
    match e
    case Send(session, links, now) =>
      r.(next := r.next + 1,
         tables := map l | l in r.tables.Keys + links ::
           if l in links then Added(TableOf(r, l), r.next, Waiting(now, session)) else r.tables[l],
         requests := r.requests + set l | l in links :: Request(l, r.next, session))
    case Answer(link, q) =>
      var t := TableOf(r, link);
      if q in t then
        r.(tables := r.tables[link := t - {q}], answered := r.answered + [Request(link, q, t[q].session)])
      else r
    case Sweep(link, now) => r.(tables := r.tables[link := Swept(TableOf(r, link), now)])
    case Clear(link) => r.(tables := r.tables[link := map[]])
  }

  function Run(r: Router, es: seq<Event>): Router
    decreases |es|
  {
    if es == [] then r else Run(Step(r, es[0]), es[1..])
  }

  const START: Router := Router(1, map[], {}, [])

  ghost predicate Inv(r: Router) {
    && (forall x :: x in r.requests ==> x.msgSeq < r.next)
    && (forall x, y :: x in r.requests && y in r.requests && x.msgSeq == y.msgSeq ==> x.session == y.session)
    && (forall x :: x in r.answered ==> x in r.requests)
    && (forall i, j :: 0 <= i < j < |r.answered| ==> Distinct(r.answered[i], r.answered[j]))
    && (forall l, q :: l in r.tables && q in r.tables[l] ==> Asked(r, l, q))
  }

  predicate Distinct(x: Request, y: Request) {
    x.link != y.link || x.msgSeq != y.msgSeq
  }

  /** A waiting entry stands for a request not yet answered. */
  ghost predicate Asked(r: Router, l: nat, q: nat)
    requires l in r.tables && q in r.tables[l]
  {
    && Request(l, q, r.tables[l][q].session) in r.requests
    && forall x :: x in r.answered ==> x.link != l || x.msgSeq != q
  }

  lemma SendKeeps(r: Router, session: nat, links: set<nat>, now: nat)
    requires Inv(r)
    ensures Inv(Step(r, Send(session, links, now)))
  {
    var s := Step(r, Send(session, links, now));
    forall l, q | l in s.tables && q in s.tables[l]
      ensures Asked(s, l, q)
    {
      if l in r.tables && q in r.tables[l] {
        assert Asked(r, l, q);
        assert s.tables[l][q] == r.tables[l][q];
      } else {
        assert q == r.next && l in links;
      }
    }
  }

  lemma AnswerKeeps(r: Router, link: nat, q: nat)
    requires Inv(r)
    ensures Inv(Step(r, Answer(link, q)))
  {
    var s := Step(r, Answer(link, q));
    if link in r.tables && q in r.tables[link] {
      assert Asked(r, link, q);
      forall l, p | l in s.tables && p in s.tables[l]
        ensures Asked(s, l, p)
      {
        assert Asked(r, l, p);
      }
    }
  }

  lemma RemovalKeeps(r: Router, link: nat, t: Table)
    requires Inv(r) && forall q :: q in t ==> q in TableOf(r, link) && t[q] == TableOf(r, link)[q]
    ensures Inv(r.(tables := r.tables[link := t]))
  {
    var s := r.(tables := r.tables[link := t]);
    forall l, q | l in s.tables && q in s.tables[l]
      ensures Asked(s, l, q)
    {
      assert l in r.tables && Asked(r, l, q);
    }
  }

  lemma StepKeeps(r: Router, e: Event)
    requires Inv(r)
    ensures Inv(Step(r, e))
  {
    hide Inv;
    match e
    case Send(session, links, now) => SendKeeps(r, session, links, now);
    case Answer(link, q) => AnswerKeeps(r, link, q);
    case Sweep(link, now) => RemovalKeeps(r, link, Swept(TableOf(r, link), now));
    case Clear(link) => RemovalKeeps(r, link, map[]);
  }

  lemma {:induction false} RunKeeps(r: Router, es: seq<Event>)
    requires Inv(r)
    ensures Inv(Run(r, es))
    decreases |es|
  {
    hide Inv, Step;
    if es != [] {
      StepKeeps(r, es[0]);
      RunKeeps(Step(r, es[0]), es[1..]);
    }
  }

  /** In every run, with any interleaving of sends, answers, sweeps and clears, an answer is
      handed to the session that sent the request with that number on that link, and no
      request is answered twice on one link. */
  lemma AnswersReachTheAsker(es: seq<Event>)
    ensures var r := Run(START, es);
      && (forall x :: x in r.answered ==> x in r.requests)
      && (forall x, y :: x in r.answered && y in r.requests && x.msgSeq == y.msgSeq ==> x.session == y.session)
      && (forall i, j :: 0 <= i < j < |r.answered| ==> Distinct(r.answered[i], r.answered[j]))
  {
    RunKeeps(START, es);
  }

  /** Does the event leave an entry waiting: is it not its answer, no sweep that finds it
      expired, and no clearing of its link? */
  predicate Spares(e: Event, link: nat, q: nat, since: nat) {
    match e
    case Send(_, _, _) => true
    case Answer(l, p) => l != link || p != q
    case Sweep(l, now) => l != link || now <= since + ANSWER_TIMEOUT
    case Clear(l) => l != link
  }

  /** An entry waits exactly as long as every event spares it, and never comes back. */
  lemma {:induction false} WaitsExactly(r: Router, more: seq<Event>, link: nat, q: nat, w: Waiting)
    requires q < r.next && (q in TableOf(r, link) ==> TableOf(r, link)[q] == w)
    ensures var t := TableOf(Run(r, more), link);
      && (q in t <==> q in TableOf(r, link) && forall e :: e in more ==> Spares(e, link, q, w.since))
      && (q in t ==> t[q] == w)
    decreases |more|
  {
    if more != [] {
      var s := Step(r, more[0]);
      OneEvent(r, more[0], link, q, w);
      WaitsExactly(s, more[1..], link, q, w);
      assert forall e :: e in more <==> e == more[0] || e in more[1..];
    }
  }

  lemma OneEvent(r: Router, e: Event, link: nat, q: nat, w: Waiting)
    requires q < r.next && (q in TableOf(r, link) ==> TableOf(r, link)[q] == w)
    ensures var s, t := Step(r, e), TableOf(Step(r, e), link);
      && q < s.next
      && (q in t <==> q in TableOf(r, link) && Spares(e, link, q, w.since))
      && (q in t ==> t[q] == w)
  {
  }

  /** After any run a request under a fresh number waits on every link it went to.  Whatever
      happens then, its answer is handed on exactly if nothing took it away before. */
  lemma WaitingIsAnswered(es: seq<Event>, session: nat, links: set<nat>, now: nat, link: nat, more: seq<Event>)
    requires link in links
    ensures
      var q := Run(START, es).next;
      var s := Run(Step(Run(START, es), Send(session, links, now)), more);
      Step(s, Answer(link, q)).answered ==
        s.answered + if forall e :: e in more ==> Spares(e, link, q, now) then [Request(link, q, session)] else []
  {
    RunKeeps(START, es);
    var r := Run(START, es);
    FreshNumber(r);
    var sent := Step(r, Send(session, links, now));
    assert TableOf(sent, link)[r.next] == Waiting(now, session);
    WaitsExactly(sent, more, link, r.next, Waiting(now, session));
    var s := Run(sent, more);
    assert s.answered + [] == s.answered;
  }

  lemma FreshNumber(r: Router)
    requires Inv(r)
    ensures forall l :: l in r.tables ==> r.next !in r.tables[l]
  {
    forall l, q | l in r.tables && q in r.tables[l]
      ensures q < r.next
    {
      assert Asked(r, l, q);
    }
  }
}
