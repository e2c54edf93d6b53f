/** Every step the server takes keeps the protocol invariant. */
module SessionServerSteps {
  import opened Wrappers
  import opened ClientSession
  import opened SessionProtocol
  import opened SessionInvariant

  // ---------------------------------------------------------------- a higher number

  /** Raising the server's number only leaves fewer packets missing. */
  lemma RaiseLinks(links: seq<Link>, issued: seq<Packet>, m: nat, m': nat)
    requires m <= m' && forall l :: 0 <= l < |links| ==> LinkOk(links[l], issued, m)
    ensures forall l :: 0 <= l < |links| ==> LinkOk(links[l], issued, m')
  {
    forall l | 0 <= l < |links|
      ensures LinkOk(links[l], issued, m')
    {
      assert LinkOk(links[l], issued, m);
      assert forall p :: Missing(issued, m', p) ==> Missing(issued, m, p);
    }
  }

  lemma RaiseQueue(c: Client, issued: seq<Packet>, m: nat, m': nat)
    requires m <= m' && QueueOk(c, issued, m)
    ensures QueueOk(c, issued, m')
  {
    assert forall p :: Missing(issued, m', p) ==> Missing(issued, m, p);
  }

  lemma RaiseCurrent(c: Client, cur: Link, onWire: bool, issued: seq<Packet>, m: nat, m': nat)
    requires m <= m' && CurrentOk(c, cur, onWire, issued, m)
    ensures CurrentOk(c, cur, onWire, issued, m')
  {
    assert forall p :: Missing(issued, m', p) ==> Missing(issued, m, p);
  }

  lemma RaiseAnswers(c: Client, answers: seq<Answer>, m: nat, m': nat)
    requires m <= m' && AnswersOk(c, answers, m)
    ensures AnswersOk(c, answers, m')
  {
  }

  // ---------------------------------------------------------------- the main session

  function Taken(link: Link, answers: seq<Answer>): Link
    requires |link.wire| > 0
  {
    link.(wire := link.wire[1..], answers := answers)
  }

  /** The first frame of the main session's link is gone, the number being at least its own. */
  lemma PopWire(link: Link, answers: seq<Answer>, issued: seq<Packet>, m: nat, m': nat)
    requires link.session.Main? && LinkOk(link, issued, m) && |link.wire| > 0
    requires m <= m' && link.wire[0].packet.seqNo <= m'
    ensures LinkOk(Taken(link, answers), issued, m')
  {
    var wire, rest := link.wire, link.wire[1..];
    assert forall i :: 0 <= i < |rest| ==> rest[i] == wire[i + 1];
    forall i, p | 0 <= i < |rest| && Missing(issued, m', p) && p.seqNo < rest[i].packet.seqNo
      ensures Whole(p) in rest
    {
      assert Missing(issued, m, p);
      assert wire[i + 1] == rest[i];
      var k :| 0 <= k < |wire| && wire[k] == Whole(p);
      assert rest[k - 1] == Whole(p);
    }
  }

  lemma PopCurrent(c: Client, cur: Link, answers: seq<Answer>, onWire: bool, issued: seq<Packet>, m: nat, m': nat)
    requires cur.session.Main? && |cur.wire| > 0 && CurrentOk(c, cur, onWire, issued, m)
    requires m <= m' && cur.wire[0].Whole? && cur.wire[0].packet.seqNo <= m'
    ensures CurrentOk(c, Taken(cur, answers), onWire, issued, m')
  {
    var cur' := Taken(cur, answers);
    assert Body(cur) == cur.wire && Body(cur') == cur'.wire;
    assert forall i :: 0 <= i < |cur'.wire| ==> cur'.wire[i] == cur.wire[i + 1];
    forall p | Missing(issued, m', p) && Whole(p) in cur.wire
      ensures Whole(p) in cur'.wire
    {
      var k :| 0 <= k < |cur.wire| && cur.wire[k] == Whole(p);
      assert cur'.wire[k - 1] == Whole(p);
    }
    assert forall p :: Missing(issued, m', p) ==> Missing(issued, m, p);
  }

  /** One frame read by the main session, with what the handlers did to its answers and to
      the server's fields. */
  lemma MainPop(w: World, l: nat, answers: seq<Answer>, s: Server)
    requires Inv(w) && l < |w.links| && w.links[l].session.Main? && |w.links[l].wire| > 0
    requires w.server.msgSeq <= s.msgSeq && w.links[l].wire[0].packet.seqNo <= s.msgSeq
    requires DeliveredOk(s, w.issued)
    requires l == Current(w) ==> AnswersOk(w.client, answers, s.msgSeq)
    requires s.link == w.server.link && s.received == w.server.received
    ensures Inv(w.(links := w.links[l := Taken(w.links[l], answers)], server := s))
  {
    hide IssuedOk, DeliveredOk, QueueOk, PumpOk, CurrentOk, AnswersOk, LinkOk;
    var m, m' := w.server.msgSeq, s.msgSeq;
    var links := w.links[l := Taken(w.links[l], answers)];
    RaiseLinks(w.links, w.issued, m, m');
    PopWire(w.links[l], answers, w.issued, m, m');
    assert LinksOk(links, w.issued, m');
    RaiseQueue(w.client, w.issued, m, m');
    if l == Current(w) {
      MainFrame(w.links[l], w.issued, m);
      PopCurrent(w.client, w.links[l], answers, w.onWire, w.issued, m, m');
    } else {
      RaiseCurrent(w.client, w.links[Current(w)], w.onWire, w.issued, m, m');
      RaiseAnswers(w.client, w.links[Current(w)].answers, m, m');
    }
  }

  lemma MainFrame(link: Link, issued: seq<Packet>, m: nat)
    requires LinkOk(link, issued, m) && link.session.Main? && |link.wire| > 0
    ensures link.wire[0].Whole? && Known(issued, link.wire[0].packet) && !IsReconnect(link.wire[0].packet)
    ensures forall p :: Missing(issued, m, p) ==> p.seqNo >= link.wire[0].packet.seqNo
  {
    assert forall p :: Whole(p) in link.wire ==> p.seqNo >= link.wire[0].packet.seqNo;
  }

  /** Dispatching the next packet: nothing reliable is skipped over. */
  lemma DispatchDelivers(s: Server, issued: seq<Packet>, p: Packet)
    requires DeliveredOk(s, issued) && Known(issued, p) && p.seqNo > s.msgSeq
    requires forall x :: Missing(issued, s.msgSeq, x) ==> x.seqNo >= p.seqNo
    ensures forall s': Server :: s'.log == s.log + [p] && s'.msgSeq == p.seqNo ==> DeliveredOk(s', issued)
  {
    forall s': Server | s'.log == s.log + [p] && s'.msgSeq == p.seqNo
      ensures DeliveredOk(s', issued)
    {
      forall x | Known(issued, x) && x.reliable && x.seqNo <= p.seqNo
        ensures x in s'.log
      {
        if x.seqNo <= s.msgSeq {
          assert x in s.log;
        } else {
          assert Missing(issued, s.msgSeq, x);
          assert s'.log[|s.log|] == x;
        }
      }
    }
  }

  /** A heartbeat's answer carries the number dispatched before it: everything at or behind
      the client's index is numbered higher. */
  lemma HeartBeatAnswer(c: Client, cur: Link, onWire: bool, issued: seq<Packet>, m: nat)
    requires QueueOk(c, issued, m) && CurrentOk(c, cur, onWire, issued, m) && AnswersOk(c, cur.answers, m)
    requires cur.session.Main? && |cur.wire| > 0 && cur.wire[0].packet.seqNo > m
    ensures AnswersOk(c, cur.answers + [HeartBeatAns(m)], cur.wire[0].packet.seqNo)
  {
    assert Body(cur)[0] == cur.wire[0];
    assert !HeadIsReconnect(c);
    assert forall j :: 0 <= j < |c.queue| && c.idx <= j ==> c.queue[j].packet.seqNo > m;
  }

  /** The main session answers nowhere or on the link it is read from. */
  lemma AnswersHere(w: World, l: nat)
    requires LinksOk(w.links, w.issued, w.server.msgSeq) && AttachedOk(w.server, w.links)
    requires l < |w.links| && w.links[l].session.Main?
    ensures w.server.link == None || w.server.link == Some(l)
  {
  }

  /** The main session reads one frame of its link. */
  lemma MainReads(w: World, l: nat)
    requires Inv(w) && l < |w.links| && w.links[l].session.Main? && |w.links[l].wire| > 0
    ensures var w1 := HandleMain(Popped(w, l), w.links[l].wire[0].packet);
      Inv(w1) && w1.links[l].session.Main?
  {
    hide DeliveredOk, IssuedOk, QueueOk, CurrentOk, PumpOk, LinkOk, AnswersOk, DispatchMain;
    var link, m := w.links[l], w.server.msgSeq;
    assert LinkOk(link, w.issued, m);
    MainFrame(link, w.issued, m);
    var p := link.wire[0].packet;
    if p.seqNo <= m {
      MainPop(w, l, link.answers, w.server);
      assert Popped(w, l) == w.(links := w.links[l := Taken(link, link.answers)], server := w.server);
    } else {
      DispatchDelivers(w.server, w.issued, p);
      AnswersHere(w, l);
      var answers, s := DispatchEffect(w, l, p);
      assert l == Current(w) ==> AnswersOk(w.client, answers, s.msgSeq) by {
        if l == Current(w) { DispatchAnswers(w, l, p, answers); }
      }
      MainPop(w, l, answers, s);
    }
  }

  /** The answers a dispatch adds: at most the one its kind asks for. */
  predicate AnswersTo(p: Packet, m: nat, before: seq<Answer>, after: seq<Answer>) {
    match p.kind
    case HeartBeatReq => after == before || after == before + [HeartBeatAns(m)]
    case ConnectReq => after == before || (|after| == |before| + 1 && after[..|before|] == before && after[|before|].ConnectAns?)
    case _ => after == before
  }

  /** What a dispatch on the main session changes. */
  lemma DispatchEffect(w: World, l: nat, p: Packet) returns (answers: seq<Answer>, s: Server)
    requires l < |w.links| && |w.links[l].wire| > 0 && !IsReconnect(p)
    requires w.server.link == None || w.server.link == Some(l)
    ensures s.msgSeq == p.seqNo && s.log == w.server.log + [p]
    ensures s.link == w.server.link && s.received == w.server.received
    ensures DispatchMain(Popped(w, l), p) == w.(links := w.links[l := Taken(w.links[l], answers)], server := s)
    ensures AnswersTo(p, w.server.msgSeq, w.links[l].answers, answers)
  {
    var w2 := DispatchMain(Popped(w, l), p);
    answers, s := w2.links[l].answers, w2.server;
    assert w2.links == w.links[l := Taken(w.links[l], answers)];
  }

  lemma DispatchAnswers(w: World, l: nat, p: Packet, answers: seq<Answer>)
    requires Inv(w) && l == Current(w) && w.links[l].session.Main? && |w.links[l].wire| > 0
    requires p == w.links[l].wire[0].packet && p.seqNo > w.server.msgSeq && !IsReconnect(p)
    requires AnswersTo(p, w.server.msgSeq, w.links[l].answers, answers)
    ensures AnswersOk(w.client, answers, p.seqNo)
  {
    hide DeliveredOk, IssuedOk, QueueOk, CurrentOk, PumpOk, LinksOk;
    var before := w.links[l].answers;
    if p.kind.HeartBeatReq? {
      HeartBeatAnswer(w.client, w.links[l], w.onWire, w.issued, w.server.msgSeq);
    } else if |answers| > |before| {
      assert answers == answers[..|before|] + [answers[|before|]];
    }
  }

  lemma PendingKeeps(w: World, n: nat)
    requires Inv(w)
    ensures Inv(w.(server := w.server.(pending := n)))
  {
    hide IssuedOk, QueueOk, PumpOk, LinksOk, CurrentOk, AnswersOk;
  }

  lemma {:induction false} MainChunkKeeps(w: World, l: nat, count: nat)
    requires Inv(w) && l < |w.links| && w.links[l].session.Main? && count <= |w.links[l].wire|
    ensures Inv(MainChunk(w, l, count))
    decreases count
  {
    hide Inv, HandleMain;
    if count > 0 {
      MainReads(w, l);
      MainChunkKeeps(HandleMain(Popped(w, l), w.links[l].wire[0].packet), l, count - 1);
    }
  }

  // ---------------------------------------------------------------- reconnect requests

  /** The link taken over carries what its fresh session left; every other link is as it
      was, detached or superseded. */
  lemma ResumedLinks(w: World, l: nat, busy: bool)
    requires LinksOk(w.links, w.issued, w.server.msgSeq) && GrantedNext(w, l)
    ensures var links := Resume(Popped(w, l), l, busy, Aligned).links;
      && LinksOk(links, w.issued, w.server.msgSeq)
      && |links| == |w.links|
      && links[l] == Link(w.links[l].wire[1..], w.links[l].answers + [ReconnectAns(true, w.server.token + 1)], Main)
      && forall i :: 0 <= i < |links| && i != l ==>
           links[i].answers == w.links[i].answers && (links[i] == w.links[i] || !Live(links[i]))
  {
    hide WireOk;
    var links := Resume(Popped(w, l), l, busy, Aligned).links;
    assert LinkOk(w.links[l], w.issued, w.server.msgSeq);
    forall i | 0 <= i < |links|
      ensures LinkOk(links[i], w.issued, w.server.msgSeq) && (i != l ==> !links[i].session.Main?)
    {
      assert LinkOk(w.links[i], w.issued, w.server.msgSeq);
      assert i != l ==> links[i] == Supersede(w.links[i], !busy && w.server.link == Some(i), w.server.pending);
    }
  }

  /** The request is granted and ends its chunk.  The link becomes the main session's;
      whatever follows the request on it is in order and complete, because the replay started
      from the whole queue. */
  lemma GrantKeeps(w: World, l: nat, busy: bool)
    requires Inv(w) && GrantedNext(w, l)
    ensures Inv(Resume(Popped(w, l), l, busy, Aligned))
  {
    hide IssuedOk, DeliveredOk, QueueOk, PumpOk, LinksOk, LinkOk, AheadOk, CoverOk, Body, SupersedeAll;
    var link, m := w.links[l], w.server.msgSeq;
    ResumedLinks(w, l, busy);
    var w2 := Resume(Popped(w, l), l, busy, Aligned);
    if l == Current(w) {
      assert OpensWith(link.wire[0], w.issued) by { OpeningFrame(w, l); }
      GrantCurrent(w.client, link, w2.links[l].answers, w.onWire, w.issued, m);
      assert AnswersOk(w.client, w2.links[l].answers, m);
    }
    assert DeliveredOk(w2.server, w.issued) by { TokenDelivered(w.server, w2.server, w.issued); }
  }

  lemma TokenDelivered(s: Server, s': Server, issued: seq<Packet>)
    requires DeliveredOk(s, issued) && s'.msgSeq == s.msgSeq && s'.log == s.log
    ensures DeliveredOk(s', issued)
  {
  }

  lemma GrantCurrent(c: Client, cur: Link, answers: seq<Answer>, onWire: bool, issued: seq<Packet>, m: nat)
    requires cur.session.Fresh? && |cur.wire| > 0 && OpensWith(cur.wire[0], issued)
    requires CurrentOk(c, cur, onWire, issued, m)
    ensures CurrentOk(c, Link(cur.wire[1..], answers, Main), onWire, issued, m)
  {
    var cur' := Link(cur.wire[1..], answers, Main);
    assert Body(cur') == Body(cur);
    forall p | Missing(issued, m, p) && Whole(p) in cur.wire
      ensures Whole(p) in cur'.wire
    {
      var k :| 0 <= k < |cur.wire| && cur.wire[k] == Whole(p);
      assert cur'.wire[k - 1] == Whole(p);
    }
  }

  // ---------------------------------------------------------------- losing links

  /** A link that is not read any more: nothing it still carries is ever dispatched. */
  lemma DeadKeeps(w: World, l: nat, link: Link, s: Server)
    requires Inv(w) && l < |w.links| && !Live(link)
    requires forall k :: 0 <= k < |link.answers| && link.answers[k].HeartBeatAns? ==>
      link.answers[k] in w.links[l].answers
    requires s == w.server.(link := s.link) && (s.link == None || (s.link == w.server.link && s.link != Some(l)))
    ensures Inv(SetLink(w, l, link).(server := s))
  {
    hide IssuedOk, QueueOk, PumpOk, WireOk, AheadOk, CoverOk;
    var w' := SetLink(w, l, link).(server := s);
    assert LinksOk(w'.links, w.issued, w.server.msgSeq);
    if l == Current(w) {
      assert AnswersOk(w.client, link.answers, w.server.msgSeq);
    }
  }

  /** A link whose session is neither fresh nor nobody is the main session's own, or one it
      has left. */
  lemma DetachedServer(w: World, l: nat)
    requires Inv(w) && l < |w.links|
    ensures var s := DetachLink(w, l).server;
      s == w.server.(link := s.link) && (s.link == None || (s.link == w.server.link && s.link != Some(l)))
  {
    hide IssuedOk, DeliveredOk, QueueOk, PumpOk, LinksOk, CurrentOk, AnswersOk;
  }

  lemma CloseKeeps(w: World, l: nat)
    requires Inv(w) && l < |w.links|
    ensures Inv(CloseLink(w, l))
  {
    hide Inv;
    var link := w.links[l].(wire := [], session := Nobody);
    DetachedServer(w, l);
    DeadKeeps(w, l, link, DetachLink(w, l).server);
    assert CloseLink(w, l) == SetLink(w, l, link).(server := DetachLink(w, l).server);
  }

  lemma DetachKeeps(w: World, l: nat)
    requires Inv(w) && l < |w.links|
    ensures Inv(DetachLink(w, l))
  {
    hide Inv;
    DetachedServer(w, l);
    DeadKeeps(w, l, w.links[l].(session := Nobody), DetachLink(w, l).server);
  }

  /** Forgetting that a detaching is to run, or that the manager holds the session. */
  lemma ForgetKeeps(w: World, w': World)
    requires Inv(w)
    requires w' == w.(detaching := w'.detaching, server := w.server.(registered := w'.server.registered))
    ensures Inv(w')
  {
    hide IssuedOk, QueueOk, PumpOk, LinksOk, CurrentOk, AnswersOk;
  }

  lemma RefuseKeeps(w: World, l: nat)
    requires Inv(w) && l < |w.links| && w.links[l].session.Fresh? && |w.links[l].wire| > 0
    ensures Inv(Refuse(Popped(w, l), l))
  {
    hide Inv;
    var link := w.links[l];
    var link' := Link(link.wire[1..], link.answers + [ReconnectAns(false, 0)], Nobody);
    DetachedServer(w, l);
    DeadKeeps(w, l, link', DetachLink(w, l).server);
    assert Refuse(Popped(w, l), l) == SetLink(w, l, link').(server := DetachLink(w, l).server);
  }

  // ---------------------------------------------------------------- chunks

  /** The fresh session reads on behind a request; nobody else sees these frames. */
  lemma {:induction false} FreshSkips(w: World, l: nat, n: nat, count: nat, tail: nat, busy: bool)
    requires l < |w.links| && count <= |w.links[l].wire|
    requires !w.links[l].session.Fresh? || forall i :: 0 <= i < count ==> !IsReconnect(w.links[l].wire[i].packet)
    ensures FreshChunk(w, l, n, count, tail, busy) == SetLink(w, l, w.links[l].(wire := w.links[l].wire[count..]))
    decreases count
  {
    if count == 0 {
      assert w.links[l].wire[0..] == w.links[l].wire;
      assert w.links[l := w.links[l]] == w.links;
    } else {
      var p := w.links[l].wire[0].packet;
      var w1 := Popped(w, l);
      FreshSkips(w1, l, if p.seqNo <= n then n else p.seqNo, count - 1, tail, busy);
      assert w1.links[l].wire[count - 1..] == w.links[l].wire[count..];
      assert w1.links[l := w1.links[l].(wire := w.links[l].wire[count..])] ==
        w.links[l := w.links[l].(wire := w.links[l].wire[count..])];
    }
  }

  /** A link that is not read any more may lose frames. */
  lemma DeadWireKeeps(w: World, l: nat, count: nat)
    requires Inv(w) && l < |w.links| && !Live(w.links[l]) && count <= |w.links[l].wire|
    requires w.server.link != Some(l)
    ensures Inv(SetLink(w, l, w.links[l].(wire := w.links[l].wire[count..])))
  {
    hide Inv;
    DeadKeeps(w, l, w.links[l].(wire := w.links[l].wire[count..]), w.server);
  }

  /** What stands at the head of a fresh session's link. */
  lemma OpeningFrame(w: World, l: nat)
    requires Inv(w) && l < |w.links| && w.links[l].session.Fresh? && |w.links[l].wire| > 0
    ensures w.links[l].session == Fresh(0) && OpensWith(w.links[l].wire[0], w.issued)
    ensures w.links[l].wire[0].packet.seqNo > 0
    ensures w.server.link != Some(l)
  {
    hide IssuedOk, DeliveredOk, QueueOk, PumpOk, CurrentOk, AnswersOk, WireOk;
    assert LinkOk(w.links[l], w.issued, w.server.msgSeq);
  }

  /** A fresh session reads a chunk: the opening request, alone if it is granted. */
  lemma FreshReads(w: World, l: nat, count: nat, tail: nat, busy: bool)
    requires Inv(w) && l < |w.links| && w.links[l].session.Fresh? && count <= |w.links[l].wire|
    requires GrantedNext(w, l) && count > 0 ==> count == 1 && tail == 0
    ensures Inv(FreshChunk(w, l, w.links[l].session.msgSeq, count, tail, busy))
  {
    hide Inv, Resume, Refuse;
    if count > 0 {
      OpeningFrame(w, l);
      var p := w.links[l].wire[0].packet;
      var w0 := Popped(w, l);
      if Grants(w.server, p.kind.token) {
        GrantKeeps(w, l, busy);
        PendingKeeps(Resume(w0, l, busy, Aligned), 0);
      } else {
        RefuseKeeps(w, l);
        RefuseShape(w0, l);
        var w1 := Refuse(w0, l);
        FreshSkips(w1, l, p.seqNo, count - 1, tail, busy);
        DeadWireKeeps(w1, l, count - 1);
      }
    }
  }

  lemma RefuseShape(w: World, l: nat)
    requires l < |w.links| && w.links[l].session.Fresh? && w.server.link != Some(l)
    ensures Refuse(w, l).links[l] == Answered(w.links[l].(session := Nobody), ReconnectAns(false, 0))
    ensures Refuse(w, l).server == w.server
  {
  }

  /** A chunk for any session but that of a superseded link. */
  lemma ReceiveKeeps(w: World, l: nat, count: nat, tail: nat, busy: bool, body: Misread)
    requires Inv(w) && l < |w.links| && count <= |w.links[l].wire|
    requires !w.links[l].session.Superseded?
    requires GrantedNext(w, l) && count > 0 ==> count == 1 && tail == 0
    ensures Inv(ReceiveChunk(w, l, count, tail, busy, body))
  {
    hide Inv, FreshChunk, MainChunk, ReadAgain, GrantedNext;
    match w.links[l].session
    case Nobody => CloseKeeps(w, l);
    case Fresh(_) =>
      if AllWhole(w.links[l].wire[..count]) {
        FreshReads(w, l, count, tail, busy);
      } else {
        CloseKeeps(w, l);
      }
    case Main =>
      MainWire(w, l);
      PendingKeeps(w, tail);
      MainChunkKeeps(w.(server := w.server.(pending := tail)), l, count);
    case Superseded =>
  }

  lemma MainWire(w: World, l: nat)
    requires Inv(w) && l < |w.links| && w.links[l].session.Main?
    ensures AllWhole(w.links[l].wire) && w.server.received.Aligned?
  {
    hide IssuedOk, DeliveredOk, QueueOk, PumpOk, CurrentOk, AnswersOk;
    assert LinkOk(w.links[l], w.issued, w.server.msgSeq);
  }
}
