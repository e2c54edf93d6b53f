/** Session tokens.  The server hands out a new one with every connect and every granted
    reconnect; the client may come back while it has heard the last one, or still can. */
module SessionTokens {
  import opened Wrappers
  import opened ClientSession
  import opened SessionProtocol
  import opened SessionInvariant
  import opened SessionServerSteps
  import opened SessionTheorems

  // ---------------------------------------------------------------- tokens on their way

  /** The token an answer hands out. */
  function TokenIn(a: Answer): Option<nat> {
    match a
    case ConnectAns(t) => Some(t)
    case ReconnectAns(granted, t) => if granted then Some(t) else None
    case HeartBeatAns(_) => None
  }

  /** The tokens in these answers, in order. */
  function TokensIn(answers: seq<Answer>): seq<nat> {
    if answers == [] then []
    else (if TokenIn(answers[0]).Some? then [TokenIn(answers[0]).value] else []) + TokensIn(answers[1..])
  }

  lemma {:induction false} TokensJoin(a: seq<Answer>, b: seq<Answer>)
    ensures TokensIn(a + b) == TokensIn(a) + TokensIn(b)
  {
    if a == [] {
      assert a + b == b;
    } else {
      hide TokenIn;
      TokensJoin(a[1..], b);
      assert (a + b)[0] == a[0] && (a + b)[1..] == a[1..] + b;
      var first := if TokenIn(a[0]).Some? then [TokenIn(a[0]).value] else [];
      assert first + (TokensIn(a[1..]) + TokensIn(b)) == (first + TokensIn(a[1..])) + TokensIn(b);
    }
  }

  lemma OneToken(a: Answer)
    ensures TokensIn([a]) == if TokenIn(a).Some? then [TokenIn(a).value] else []
  {
    assert [a][1..] == [];
  }

  /** The tokens in the answers of a link that the client has not handled. */
  function Unheard(link: Link): seq<nat> {
    TokensIn(link.answers)
  }

  ghost predicate SomeUnheard(links: seq<Link>, t: nat) {
    exists l :: 0 <= l < |links| && t in Unheard(links[l])
  }

  predicate Ascends(ts: seq<nat>) {
    forall i, j :: 0 <= i < j < |ts| ==> ts[i] < ts[j]
  }

  predicate Within(ts: seq<nat>, last: nat) {
    forall i :: 0 <= i < |ts| ==> 1 <= ts[i] <= last
  }

  predicate AllAbove(ts: seq<nat>, t: nat) {
    forall i :: 0 <= i < |ts| ==> ts[i] > t
  }

  predicate Apart(ts: seq<nat>, us: seq<nat>) {
    forall i, j :: 0 <= i < |ts| && 0 <= j < |us| ==> ts[i] != us[j]
  }

  /** Every token was handed out once and is either unheard or was heard; on the current link
      they come in order, after the one the client has.  The last one is not gone. */
  ghost predicate HandedOut(token: Option<nat>, links: seq<Link>, last: nat) {
    && |links| > 0
    && (token.Some? ==> 1 <= token.value <= last)
    && (forall l :: 0 <= l < |links| ==> Within(Unheard(links[l]), last))
    && (forall l :: 0 <= l < |links| && token.Some? ==> token.value !in Unheard(links[l]))
    && (forall k, l :: 0 <= k < l < |links| ==> Apart(Unheard(links[k]), Unheard(links[l])))
    && Ascends(Unheard(links[|links| - 1]))
    && (token.Some? ==> AllAbove(Unheard(links[|links| - 1]), token.value))
    && (last > 0 ==> token == Some(last) || SomeUnheard(links, last))
  }

  /** Requests to reconnect carry a token the client had heard, and the connect request is the
      first packet. */
  ghost predicate RequestsOk(issued: seq<Packet>, links: seq<Link>, last: nat) {
    forall i :: 0 <= i < |issued| ==>
      match issued[i].kind
      case ConnectReq => i == 0
      case ReconnectReq(t) => t.Some? ==> t.value <= last && !SomeUnheard(links, t.value)
      case _ => true
  }

  /** Before the first token there is only the first link. */
  predicate PhaseOk(w: World) {
    && (w.server.token == 0 ==>
          !w.server.registered &&
          forall l :: 0 <= l < |w.links| ==>
            !w.links[l].session.Superseded? && (w.links[l].session.Main? ==> l == 0 && w.server.link == Some(0)))
    && (w.server.token > 0 ==> w.server.msgSeq >= 1)
    && (forall p :: p in w.taken ==> !p.kind.ConnectReq? && !p.kind.ReconnectReq?)
  }

  ghost predicate TokenInv(w: World) {
    && HandedOut(w.client.token, w.links, w.server.token)
    && RequestsOk(w.issued, w.links, w.server.token)
    && PhaseOk(w)
  }

  lemma StartTokens()
    ensures TokenInv(Start)
  {
    assert Start.links[0].answers == [];
  }

  // ---------------------------------------------------------------- steps that hand out none

  predicate SameTokens(links: seq<Link>, links': seq<Link>) {
    |links'| == |links| && forall l :: 0 <= l < |links| ==> Unheard(links'[l]) == Unheard(links[l])
  }

  lemma SameHandedOut(token: Option<nat>, links: seq<Link>, links': seq<Link>, last: nat)
    requires HandedOut(token, links, last) && SameTokens(links, links')
    ensures HandedOut(token, links', last)
  {
    hide Unheard;
    if SomeUnheard(links, last) {
      var l :| 0 <= l < |links| && last in Unheard(links[l]);
      assert last in Unheard(links'[l]);
    }
  }

  lemma SameUnheard(links: seq<Link>, links': seq<Link>, t: nat)
    requires SameTokens(links, links')
    ensures SomeUnheard(links', t) <==> SomeUnheard(links, t)
  {
    hide Unheard;
    if SomeUnheard(links, t) {
      var l :| 0 <= l < |links| && t in Unheard(links[l]);
      assert t in Unheard(links'[l]);
    }
  }

  lemma SameRequests(issued: seq<Packet>, links: seq<Link>, links': seq<Link>, last: nat)
    requires RequestsOk(issued, links, last) && SameTokens(links, links')
    ensures RequestsOk(issued, links', last)
  {
    hide SameTokens, SomeUnheard;
    forall i | 0 <= i < |issued| && issued[i].kind.ReconnectReq? && issued[i].kind.token.Some?
      ensures !SomeUnheard(links', issued[i].kind.token.value)
    {
      SameUnheard(links, links', issued[i].kind.token.value);
    }
  }

  /** No token is handed out or heard. */
  lemma QuietKeeps(w: World, w': World)
    requires TokenInv(w) && SameTokens(w.links, w'.links) && w'.issued == w.issued && w'.client.token == w.client.token
    requires w'.server.token == w.server.token && PhaseOk(w')
    ensures TokenInv(w')
  {
    hide HandedOut, RequestsOk, PhaseOk, SameTokens;
    SameHandedOut(w.client.token, w.links, w'.links, w.server.token);
    SameRequests(w.issued, w.links, w'.links, w.server.token);
  }

  // ---------------------------------------------------------------- a token handed out

  /** Link l is answered with the next token. */
  lemma HandOut(token: Option<nat>, links: seq<Link>, links': seq<Link>, l: nat, last: nat)
    requires HandedOut(token, links, last) && l < |links| && |links'| == |links|
    requires Unheard(links'[l]) == Unheard(links[l]) + [last + 1]
    requires forall k :: 0 <= k < |links| && k != l ==> Unheard(links'[k]) == Unheard(links[k])
    ensures HandedOut(token, links', last + 1) && SomeUnheard(links', last + 1)
  {
    hide Unheard, Within, Apart, Ascends, AllAbove;
    var next := last + 1;
    assert next in Unheard(links'[l]);
    forall k | 0 <= k < |links|
      ensures Within(Unheard(links'[k]), next) && (token.Some? ==> token.value !in Unheard(links'[k]))
    {
      WithinMore(Unheard(links[k]), last);
    }
    forall k, m | 0 <= k < m < |links|
      ensures Apart(Unheard(links'[k]), Unheard(links'[m]))
    {
      ApartMore(Unheard(links[k]), Unheard(links[m]), last);
    }
    WithinMore(Unheard(links[|links| - 1]), last);
    if token.Some? {
      AboveMore(Unheard(links[|links| - 1]), token.value, last);
    }
  }

  lemma WithinMore(ts: seq<nat>, last: nat)
    requires Within(ts, last)
    ensures Within(ts, last + 1) && Within(ts + [last + 1], last + 1)
    ensures Ascends(ts) ==> Ascends(ts + [last + 1])
  {
  }

  lemma ApartMore(ts: seq<nat>, us: seq<nat>, last: nat)
    requires Within(ts, last) && Within(us, last) && Apart(ts, us)
    ensures Apart(ts + [last + 1], us) && Apart(ts, us + [last + 1])
  {
  }

  lemma AboveMore(ts: seq<nat>, t: nat, last: nat)
    requires AllAbove(ts, t) && t <= last
    ensures AllAbove(ts + [last + 1], t)
  {
  }

  lemma HandOutRequests(token: Option<nat>, issued: seq<Packet>, links: seq<Link>, links': seq<Link>, l: nat, last: nat)
    requires RequestsOk(issued, links, last) && l < |links| && |links'| == |links|
    requires Unheard(links'[l]) == Unheard(links[l]) + [last + 1]
    requires forall k :: 0 <= k < |links| && k != l ==> Unheard(links'[k]) == Unheard(links[k])
    ensures RequestsOk(issued, links', last + 1)
  {
    hide Unheard, SomeUnheard;
    forall i | 0 <= i < |issued| && issued[i].kind.ReconnectReq? && issued[i].kind.token.Some?
      ensures !SomeUnheard(links', issued[i].kind.token.value)
    {
      NotHandedOut(links, links', l, last, issued[i].kind.token.value);
    }
  }

  lemma NotHandedOut(links: seq<Link>, links': seq<Link>, l: nat, last: nat, t: nat)
    requires l < |links| && |links'| == |links| && t <= last
    requires Unheard(links'[l]) == Unheard(links[l]) + [last + 1]
    requires forall k :: 0 <= k < |links| && k != l ==> Unheard(links'[k]) == Unheard(links[k])
    ensures SomeUnheard(links', t) ==> SomeUnheard(links, t)
  {
    hide Unheard;
    if SomeUnheard(links', t) {
      var k :| 0 <= k < |links'| && t in Unheard(links'[k]);
      assert t in Unheard(links[k]);
    }
  }

  // ---------------------------------------------------------------- the server

  lemma AnsweredTokens(link: Link, a: Answer)
    ensures Unheard(Answered(link, a)) == Unheard(link) + if TokenIn(a).Some? then [TokenIn(a).value] else []
  {
    TokensJoin(link.answers, [a]);
    OneToken(a);
  }

  /** The main session reads one frame of its link. */
  lemma MainReadsTokens(w: World, l: nat)
    requires Inv(w) && TokenInv(w) && l < |w.links| && w.links[l].session.Main? && |w.links[l].wire| > 0
    ensures TokenInv(HandleMain(Popped(w, l), w.links[l].wire[0].packet))
  {
    hide Inv, TokenInv, DispatchMain, PhaseOk, SameTokens;
    var p := MainPacket(w, l);
    var w0 := Popped(w, l);
    PoppedTokens(w, l);
    if p.seqNo > w.server.msgSeq {
      if p.kind.ConnectReq? {
        ConnectTokens(w, w0, l, p);
      } else {
        OtherTokens(w, w0, l, p);
      }
    }
  }

  lemma MainPacket(w: World, l: nat) returns (p: Packet)
    requires Inv(w) && l < |w.links| && w.links[l].session.Main? && |w.links[l].wire| > 0
    ensures p == w.links[l].wire[0].packet && Known(w.issued, p) && !IsReconnect(p)
    ensures w.server.link == None || w.server.link == Some(l)
  {
    hide IssuedOk, DeliveredOk, QueueOk, PumpOk, CurrentOk, AnswersOk;
    p := w.links[l].wire[0].packet;
    assert LinkOk(w.links[l], w.issued, w.server.msgSeq);
    MainFrame(w.links[l], w.issued, w.server.msgSeq);
    AnswersHere(w, l);
  }

  lemma PoppedTokens(w: World, l: nat)
    requires TokenInv(w) && l < |w.links| && |w.links[l].wire| > 0
    ensures TokenInv(Popped(w, l))
  {
    assert SameTokens(w.links, Popped(w, l).links);
    QuietKeeps(w, Popped(w, l));
  }

  /** A connect request that is dispatched is the first packet the server sees. */
  lemma ConnectTokens(w: World, w0: World, l: nat, p: Packet)
    requires TokenInv(w0) && w0 == w.(links := w0.links) && l < |w0.links| && w0.links[l].session.Main?
    requires Known(w0.issued, p) && p.kind.ConnectReq? && p.seqNo > w0.server.msgSeq
    ensures TokenInv(DispatchMain(w0, p))
  {
    hide HandedOut, RequestsOk, SameTokens;
    assert p.seqNo == 1 by { FirstOnly(w0.issued, w0.links, w0.server.token, p); }
    assert w0.server.token == 0 && l == 0 && w0.server.link == Some(0);
    var w1 := DispatchMain(w0, p);
    AnsweredTokens(w0.links[0], ConnectAns(1));
    assert w1.links == w0.links[0 := Answered(w0.links[0], ConnectAns(1))];
    HandOut(w0.client.token, w0.links, w1.links, 0, 0);
    HandOutRequests(w0.client.token, w0.issued, w0.links, w1.links, 0, 0);
  }

  lemma FirstOnly(issued: seq<Packet>, links: seq<Link>, last: nat, p: Packet)
    requires RequestsOk(issued, links, last) && Known(issued, p) && p.kind.ConnectReq?
    ensures p.seqNo == 1
  {
  }

  lemma OtherTokens(w: World, w0: World, l: nat, p: Packet)
    requires TokenInv(w0) && !p.kind.ConnectReq? && !IsReconnect(p) && p.seqNo > w0.server.msgSeq
    ensures TokenInv(DispatchMain(w0, p))
  {
    var w1 := DispatchMain(w0, p);
    var at := w0.server.link;
    if p.kind.HeartBeatReq? && at.Some? && at.value < |w0.links| {
      AnsweredTokens(w0.links[at.value], HeartBeatAns(w0.server.msgSeq));
      assert w1.links == w0.links[at.value := Answered(w0.links[at.value], HeartBeatAns(w0.server.msgSeq))];
    } else {
      assert w1.links == w0.links;
    }
    hide HandedOut, RequestsOk, Unheard;
    assert SameTokens(w0.links, w1.links);
    QuietKeeps(w0, w1);
  }

  lemma {:induction false} MainChunkTokens(w: World, l: nat, count: nat)
    requires Inv(w) && TokenInv(w) && l < |w.links| && w.links[l].session.Main? && count <= |w.links[l].wire|
    ensures TokenInv(MainChunk(w, l, count))
    decreases count
  {
    hide Inv, TokenInv, HandleMain;
    if count > 0 {
      MainReads(w, l);
      MainReadsTokens(w, l);
      MainChunkTokens(HandleMain(Popped(w, l), w.links[l].wire[0].packet), l, count - 1);
    }
  }

  /** A session detached or a link closed: no token is lost. */
  lemma DeadTokens(w: World, l: nat, link: Link)
    requires TokenInv(w) && l < |w.links| && !Live(link) && !link.session.Superseded? && Unheard(link) == Unheard(w.links[l])
    ensures TokenInv(SetLink(DetachLink(w, l), l, link))
  {
    var w1 := SetLink(DetachLink(w, l), l, link);
    hide HandedOut, RequestsOk, Unheard;
    assert SameTokens(w.links, w1.links);
    QuietKeeps(w, w1);
  }

  lemma RefuseTokens(w: World, l: nat)
    requires TokenInv(w) && l < |w.links| && w.links[l].session.Fresh? && |w.links[l].wire| > 0 && w.server.link != Some(l)
    ensures TokenInv(Refuse(Popped(w, l), l))
  {
    var link := w.links[l];
    var link' := Answered(link.(wire := link.wire[1..], session := Nobody), ReconnectAns(false, 0));
    AnsweredTokens(link.(wire := link.wire[1..], session := Nobody), ReconnectAns(false, 0));
    DeadTokens(w, l, link');
    assert Refuse(Popped(w, l), l) == SetLink(DetachLink(w, l), l, link');
  }

  /** A grant hands the next token to the link it is granted on. */
  lemma GrantTokens(w: World, l: nat, busy: bool)
    requires Inv(w) && TokenInv(w) && GrantedNext(w, l)
    ensures TokenInv(Resume(Popped(w, l), l, busy, Aligned))
    ensures SomeUnheard(Resume(Popped(w, l), l, busy, Aligned).links, w.server.token + 1)
  {
    hide HandedOut, RequestsOk, SupersedeAll;
    var w1 := Resume(Popped(w, l), l, busy, Aligned);
    ResumedTokens(w, l, busy);
    HandOut(w.client.token, w.links, w1.links, l, w.server.token);
    HandOutRequests(w.client.token, w.issued, w.links, w1.links, l, w.server.token);
    assert w1.server.msgSeq == w.server.msgSeq && w1.taken == w.taken;
  }

  lemma ResumedTokens(w: World, l: nat, busy: bool)
    requires Inv(w) && GrantedNext(w, l)
    ensures var links := Resume(Popped(w, l), l, busy, Aligned).links;
      && |links| == |w.links| && Unheard(links[l]) == Unheard(w.links[l]) + [w.server.token + 1]
      && forall k :: 0 <= k < |links| && k != l ==> Unheard(links[k]) == Unheard(w.links[k])
  {
    hide IssuedOk, DeliveredOk, QueueOk, PumpOk, CurrentOk, AnswersOk;
    ResumedLinks(w, l, busy);
    AnsweredTokens(w.links[l], ReconnectAns(true, w.server.token + 1));
  }

  lemma FreshTokens(w: World, l: nat, count: nat, tail: nat, busy: bool)
    requires Inv(w) && TokenInv(w) && l < |w.links| && w.links[l].session.Fresh? && count <= |w.links[l].wire|
    requires GrantedNext(w, l) && count > 0 ==> count == 1 && tail == 0
    ensures TokenInv(FreshChunk(w, l, w.links[l].session.msgSeq, count, tail, busy))
  {
    hide Inv, TokenInv, Resume, Refuse;
    if count > 0 {
      OpeningFrame(w, l);
      var p := w.links[l].wire[0].packet;
      var w0 := Popped(w, l);
      if Grants(w.server, p.kind.token) {
        GrantTokens(w, l, busy);
        PendingTokens(Resume(w0, l, busy, Aligned), 0);
      } else {
        RefuseTokens(w, l);
        RefuseShape(w0, l);
        var w1 := Refuse(w0, l);
        FreshSkips(w1, l, p.seqNo, count - 1, tail, busy);
        WireTokens(w1, l, w1.links[l].(wire := w1.links[l].wire[count - 1..]));
      }
    }
  }

  lemma PendingTokens(w: World, n: nat)
    requires TokenInv(w)
    ensures TokenInv(w.(server := w.server.(pending := n)))
  {
    hide HandedOut, RequestsOk;
  }

  /** Only the wire of a link changes. */
  lemma WireTokens(w: World, l: nat, link: Link)
    requires TokenInv(w) && l < |w.links| && link == w.links[l].(wire := link.wire)
    ensures TokenInv(SetLink(w, l, link))
  {
    var w1 := SetLink(w, l, link);
    hide HandedOut, RequestsOk;
    assert SameTokens(w.links, w1.links);
    QuietKeeps(w, w1);
  }

  lemma DetachTokens(w: World, l: nat)
    requires TokenInv(w) && l < |w.links|
    ensures TokenInv(DetachLink(w, l)) && TokenInv(CloseLink(w, l))
  {
    hide HandedOut, RequestsOk;
    var link := w.links[l].(session := Nobody);
    DeadTokens(w, l, link);
    assert SetLink(DetachLink(w, l), l, link) == DetachLink(w, l);
    DeadTokens(w, l, link.(wire := []));
    assert SetLink(DetachLink(w, l), l, link.(wire := [])) == CloseLink(w, l);
  }

  lemma ReceiveTokens(w: World, l: nat, count: nat, tail: nat, busy: bool, body: Misread)
    requires Inv(w) && TokenInv(w) && l < |w.links| && count <= |w.links[l].wire|
    requires !w.links[l].session.Superseded?
    requires GrantedNext(w, l) && count > 0 ==> count == 1 && tail == 0
    ensures TokenInv(ReceiveChunk(w, l, count, tail, busy, body))
  {
    hide Inv, TokenInv, FreshChunk, MainChunk, ReadAgain, GrantedNext, CloseLink;
    match w.links[l].session
    case Nobody => DetachTokens(w, l);
    case Fresh(_) =>
      if AllWhole(w.links[l].wire[..count]) {
        FreshTokens(w, l, count, tail, busy);
      } else {
        DetachTokens(w, l);
      }
    case Main =>
      MainWire(w, l);
      PendingKeeps(w, tail);
      PendingTokens(w, tail);
      MainChunkTokens(w.(server := w.server.(pending := tail)), l, count);
  }

  // ---------------------------------------------------------------- the client

  predicate NoRequest(p: Packet) {
    !p.kind.ConnectReq? && !p.kind.ReconnectReq?
  }

  /** Packets that ask for nothing are issued, in front of nothing. */
  lemma IssuedTokens(w: World, w': World)
    requires TokenInv(w) && SameTokens(w.links, w'.links) && w'.server == w.server && w'.client.token == w.client.token
    requires |w.issued| <= |w'.issued| && PhaseOk(w')
    requires forall i :: 0 <= i < |w'.issued| ==> (i < |w.issued| && w'.issued[i] == w.issued[i]) || NoRequest(w'.issued[i])
    ensures TokenInv(w')
  {
    hide HandedOut, PhaseOk, SameTokens, SomeUnheard;
    SameHandedOut(w.client.token, w.links, w'.links, w.server.token);
    SameRequests(w.issued, w.links, w'.links, w.server.token);
    assert RequestsOk(w'.issued, w'.links, w.server.token);
  }

  lemma NothingMoved(w: World, w': World)
    requires PhaseOk(w) && w'.links == w.links && w'.server == w.server
    requires forall p :: p in w'.taken ==> p in w.taken || NoRequest(p)
    ensures PhaseOk(w') && SameTokens(w.links, w'.links)
  {
  }

  lemma SendToken(c: Client, n: nat, r: bool)
    ensures SendMsg(c, n, r).token == c.token
    ensures forall p :: p in IssuedBySend(c, n, r) ==> NoRequest(p)
  {
  }

  lemma ClientTokens(w: World, s: Step)
    requires TokenInv(w) && Enabled(w, s)
    requires s.UserSend? || s.HeartBeat? || s.Attempt? || s.Number? || s.Queue? || s.Open? || s.SendCallback? || s.Drop?
    ensures TokenInv(Next(w, s))
  {
    hide HandedOut, RequestsOk, PhaseOk, SameTokens, SendMsg, IssuedBySend, Push;
    var w' := Next(w, s);
    match s
    case UserSend(n, r) =>
      SendToken(w.client, n, r);
      NothingMoved(w, w');
      AddedAsk(w.issued, IssuedBySend(w.client, n, r));
      IssuedTokens(w, w');
    case HeartBeat =>
      NothingMoved(w, w');
      AddedAsk(w.issued, [Packet(w.client.msgSeq + 1, HeartBeatReq, true, HEADER_SIZE)]);
      IssuedTokens(w, w') by { PushToken(w.client.(msgSeq := w.client.msgSeq + 1), w'.issued[|w.issued|]); }
    case Number(kind, r, size) =>
      NothingMoved(w, w');
      AddedAsk(w.issued, [Blank(w.client.msgSeq + 1)]);
      IssuedTokens(w, w');
    case Queue(p) =>
      PushToken(w.client, p);
      TakenAsks(w, p);
      NothingMoved(w, w');
      IssuedTokens(w, w');
    case _ =>
      NothingMoved(w, w');
      IssuedTokens(w, w');
  }

  lemma PushToken(c: Client, p: Packet)
    ensures Push(c, p).token == c.token
  {
  }

  lemma TakenAsks(w: World, p: Packet)
    requires PhaseOk(w) && p in w.taken
    ensures NoRequest(p)
  {
  }

  lemma AddedAsk(issued: seq<Packet>, added: seq<Packet>)
    requires forall p :: p in added ==> NoRequest(p)
    ensures var all := issued + added;
      forall i :: 0 <= i < |all| ==> (i < |issued| && all[i] == issued[i]) || NoRequest(all[i])
  {
    hide NoRequest;
    var all := issued + added;
    assert forall i :: |issued| <= i < |all| ==> all[i] == added[i - |issued|] && all[i] in added;
  }

  lemma TransmitTokens(w: World)
    requires TokenInv(w) && Enabled(w, Transmit)
    ensures TokenInv(Next(w, Transmit))
  {
    hide HandedOut, RequestsOk;
    var w' := Next(w, Transmit);
    assert SameTokens(w.links, w'.links);
    QuietKeeps(w, w');
  }

  /** A new link, on which the request carries the token the client has heard. */
  lemma ReconnectTokens(w: World, size: nat)
    requires TokenInv(w) && Enabled(w, Reconnect(size))
    ensures TokenInv(Next(w, Reconnect(size)))
  {
    var w' := Next(w, Reconnect(size));
    var c, last := w.client, w.server.token;
    var p := Packet(c.msgSeq + 1, ReconnectReq(c.token), false, size);
    assert w'.client.token == c.token;
    assert w'.links == w.links + [Link([], [], Fresh(0))];
    NewLink(c.token, w.links, last);
    assert HandedOut(c.token, w'.links, last);
    NewLinkRequests(c.token, w.issued, w.links, last, p);
  }

  lemma NewLink(token: Option<nat>, links: seq<Link>, last: nat)
    requires HandedOut(token, links, last)
    ensures HandedOut(token, links + [Link([], [], Fresh(0))], last)
    ensures forall t :: SomeUnheard(links + [Link([], [], Fresh(0))], t) <==> SomeUnheard(links, t)
  {
    var added := Link([], [], Fresh(0));
    assert Unheard(added) == [];
    hide Unheard;
    var links' := links + [added];
    forall t
      ensures SomeUnheard(links', t) <==> SomeUnheard(links, t)
    {
      if SomeUnheard(links, t) {
        var l :| 0 <= l < |links| && t in Unheard(links[l]);
        assert t in Unheard(links'[l]);
      }
    }
  }

  lemma NewLinkRequests(token: Option<nat>, issued: seq<Packet>, links: seq<Link>, last: nat, p: Packet)
    requires HandedOut(token, links, last) && RequestsOk(issued, links, last) && p.kind == ReconnectReq(token)
    ensures RequestsOk(issued + [p], links + [Link([], [], Fresh(0))], last)
  {
    hide Unheard;
    NewLink(token, links, last);
    assert token.Some? ==> !SomeUnheard(links, token.value);
    hide SomeUnheard, HandedOut;
  }

  /** The client hears the next answer of its current link, and keeps the token in it. */
  lemma DeliverTokens(w: World)
    requires TokenInv(w) && Enabled(w, Deliver)
    ensures TokenInv(Next(w, Deliver))
  {
    hide RequestsOk, TokensIn, TokenIn, Hear;
    var w' := Next(w, Deliver);
    var cur := w.links[Current(w)];
    HeardFirst(w.client, cur.answers);
    var ts := Unheard(cur);
    if TokenIn(cur.answers[0]).Some? {
      Heard(w.client.token, w.links, w.server.token, w'.links, ts[0]);
      HeardRequests(w.issued, w.links, w'.links, w.server.token);
    } else {
      assert SameTokens(w.links, w'.links);
      QuietKeeps(w, w');
    }
  }

  lemma HeardFirst(c: Client, answers: seq<Answer>)
    requires answers != []
    ensures var t := TokenIn(answers[0]);
      && (t.None? ==> TokensIn(answers) == TokensIn(answers[1..]) && Hear(c, answers[0]).token == c.token)
      && (t.Some? ==> TokensIn(answers) == [t.value] + TokensIn(answers[1..]) && Hear(c, answers[0]).token == t)
    ensures Hear(c, answers[0]).state == c.state
  {
    if answers[0].HeartBeatAns? {
      AcknowledgedCutsPrefix(c, answers[0].msgSeq);
    }
  }

  lemma Heard(token: Option<nat>, links: seq<Link>, last: nat, links': seq<Link>, t: nat)
    requires HandedOut(token, links, last) && |links'| == |links|
    requires Unheard(links[|links| - 1]) == [t] + Unheard(links'[|links| - 1])
    requires forall l :: 0 <= l < |links| - 1 ==> links'[l] == links[l]
    ensures HandedOut(Some(t), links', last)
  {
    hide Unheard, Within, Apart, Ascends, AllAbove;
    var cur := |links| - 1;
    var us := Unheard(links'[cur]);
    HeadGone(t, us, last);
    forall l | 0 <= l < cur
      ensures t !in Unheard(links'[l]) && Apart(Unheard(links'[l]), us)
    {
      ApartFromTail(Unheard(links[l]), t, us);
    }
    assert token.Some? && token.value == last ==> t == last by {
      if token.Some? {
        FirstAbove(t, us, token.value);
      }
    }
    if last != t && last > 0 {
      StillUnheard(links, links', last, t);
    }
  }

  lemma HeadGone(t: nat, us: seq<nat>, last: nat)
    requires Ascends([t] + us) && Within([t] + us, last)
    ensures Ascends(us) && Within(us, last) && AllAbove(us, t) && t !in us && 1 <= t <= last
  {
    var ts := [t] + us;
    assert forall i :: 0 <= i < |us| ==> us[i] == ts[i + 1];
    assert ts[0] == t;
  }

  lemma ApartFromTail(ts: seq<nat>, t: nat, us: seq<nat>)
    requires Apart(ts, [t] + us)
    ensures t !in ts && Apart(ts, us)
  {
    assert ([t] + us)[0] == t && forall i :: 0 <= i < |us| ==> ([t] + us)[i + 1] == us[i];
  }

  lemma FirstAbove(t: nat, us: seq<nat>, c: nat)
    requires AllAbove([t] + us, c)
    ensures t > c
  {
    assert ([t] + us)[0] == t;
  }

  lemma StillUnheard(links: seq<Link>, links': seq<Link>, last: nat, t: nat)
    requires SomeUnheard(links, last) && last != t && |links'| == |links| > 0
    requires Unheard(links[|links| - 1]) == [t] + Unheard(links'[|links| - 1])
    requires forall l :: 0 <= l < |links| - 1 ==> links'[l] == links[l]
    ensures SomeUnheard(links', last)
  {
    hide Unheard;
    var l :| 0 <= l < |links| && last in Unheard(links[l]);
    assert last in Unheard(links'[l]);
  }

  lemma HeardRequests(issued: seq<Packet>, links: seq<Link>, links': seq<Link>, last: nat)
    requires RequestsOk(issued, links, last) && |links'| == |links| && |links| > 0
    requires exists t :: Unheard(links[|links| - 1]) == [t] + Unheard(links'[|links| - 1])
    requires forall l :: 0 <= l < |links| - 1 ==> links'[l] == links[l]
    ensures RequestsOk(issued, links', last)
  {
    hide Unheard, SomeUnheard;
    forall i | 0 <= i < |issued| && issued[i].kind.ReconnectReq? && issued[i].kind.token.Some?
      ensures !SomeUnheard(links', issued[i].kind.token.value)
    {
      HeardLess(links, links', issued[i].kind.token.value);
    }
  }

  lemma HeardLess(links: seq<Link>, links': seq<Link>, t: nat)
    requires |links'| == |links| && |links| > 0
    requires exists x :: Unheard(links[|links| - 1]) == [x] + Unheard(links'[|links| - 1])
    requires forall l :: 0 <= l < |links| - 1 ==> links'[l] == links[l]
    ensures SomeUnheard(links', t) ==> SomeUnheard(links, t)
  {
    hide Unheard;
    if SomeUnheard(links', t) {
      var l :| 0 <= l < |links'| && t in Unheard(links'[l]);
      assert t in Unheard(links[l]);
    }
  }

  // ---------------------------------------------------------------- whole runs

  lemma StepTokens(w: World, s: Step)
    requires Inv(w) && TokenInv(w) && Enabled(w, s) && Guard(w, s)
    ensures TokenInv(Next(w, s))
  {
    match s
    case Transmit => TransmitTokens(w);
    case Reconnect(size) => ReconnectTokens(w, size);
    case Receive(l, n, tail, busy, body) =>
      hide Inv, TokenInv, ReceiveChunk;
      ReceiveTokens(w, l, n, tail, busy, body);
    case Detach(l) =>
      hide Inv, HandedOut, RequestsOk;
      DetachTokens(w, l);
      Forgotten(DetachLink(w, l), Next(w, s));
    case ServerClose(l) =>
      hide Inv, TokenInv, CloseLink;
      DetachTokens(w, l);
    case Deliver => DeliverTokens(w);
    case Sweep => Forgotten(w, Next(w, s));
    case _ =>
      hide Inv, TokenInv;
      ClientTokens(w, s);
  }

  lemma Forgotten(w: World, w': World)
    requires TokenInv(w) && w' == w.(detaching := w'.detaching, server := w.server.(registered := w'.server.registered))
    requires w'.server.registered ==> w.server.registered
    ensures TokenInv(w')
  {
    hide HandedOut, RequestsOk;
  }

  lemma {:induction false} RunTokens(w: World, steps: seq<Step>)
    requires Inv(w) && TokenInv(w) && Run(w, steps)
    ensures Inv(After(w, steps)) && TokenInv(After(w, steps))
    decreases |steps|
  {
    hide Inv, TokenInv, Next, Enabled, Guard;
    if steps != [] {
      StepKeeps(w, steps[0]);
      StepTokens(w, steps[0]);
      RunTokens(Next(w, steps[0]), steps[1..]);
    }
  }

  /** Would the server grant a request with the token the client has?  In every run: exactly
      while it still holds the session and the client has heard the last token. */
  lemma GrantedExactly(steps: seq<Step>)
    requires Run(Start, steps)
    ensures var w := After(Start, steps);
      Grants(w.server, w.client.token) <==> w.server.registered && !SomeUnheard(w.links, w.server.token)
  {
    hide Inv, Run, After;
    StartInv();
    StartTokens();
    RunTokens(Start, steps);
    Granted(After(Start, steps));
  }

  lemma Granted(w: World)
    requires TokenInv(w)
    ensures Grants(w.server, w.client.token) <==> w.server.registered && !SomeUnheard(w.links, w.server.token)
  {
    hide Unheard, RequestsOk;
  }
}
