/** Every step the client takes keeps the protocol invariant. */
module SessionClientSteps {
  import opened Wrappers
  import opened ClientSession
  import opened SessionProtocol
  import opened SessionInvariant

  lemma WireGrows(wire: seq<Frame>, issued: seq<Packet>, p': Packet, m: nat)
    requires WireOk(wire, issued, m) && p'.seqNo == |issued| + 1
    ensures WireOk(wire, issued + [p'], m)
  {
    var more := issued + [p'];
    forall i | 0 <= i < |wire|
      ensures Known(more, wire[i].packet)
    {
      assert Known(issued, wire[i].packet);
    }
    forall i, p | 0 <= i < |wire| && Missing(more, m, p) && p.seqNo < wire[i].packet.seqNo
      ensures Whole(p) in wire
    {
      assert Known(issued, wire[i].packet);
      assert Missing(issued, m, p);
    }
  }

  /** The invariants about links survive when the client only numbers another packet. */
  lemma LinksGrow(links: seq<Link>, issued: seq<Packet>, p: Packet, m: nat)
    requires LinksOk(links, issued, m) && p.seqNo == |issued| + 1
    ensures LinksOk(links, issued + [p], m)
  {
    forall l | 0 <= l < |links|
      ensures LinkOk(links[l], issued + [p], m)
    {
      var link := links[l];
      assert LinkOk(link, issued, m);
      if link.session.Main? {
        WireGrows(link.wire, issued, p, m);
      } else if link.session.Fresh? && link.wire != [] {
        assert Known(issued, link.wire[0].packet);
        WireGrows(link.wire[1..], issued, p, m);
      }
    }
  }

  // ---------------------------------------------------------------- numbering

  /** More numbers leave what was delivered, and the packets already known, alone. */
  lemma IssuedGrows(s: Server, issued: seq<Packet>, p: Packet)
    requires IssuedOk(issued, |issued|) && DeliveredOk(s, issued) && p.seqNo == |issued| + 1 && !p.reliable
    ensures IssuedOk(issued + [p], |issued| + 1) && DeliveredOk(s, issued + [p])
    ensures forall x :: Missing(issued + [p], s.msgSeq, x) && x != p ==> Missing(issued, s.msgSeq, x)
  {
    forall i | 0 <= i < |s.log|
      ensures Known(issued + [p], s.log[i])
    {
      assert Known(issued, s.log[i]);
    }
    forall x | Known(issued + [p], x) && x.reliable && x.seqNo <= s.msgSeq
      ensures x in s.log
    {
      assert Known(issued, x);
    }
  }

  /** Taking a number concerns only the number itself. */
  lemma Renumbered(w: World, c: Client)
    requires Inv(w) && c == w.client.(msgSeq := c.msgSeq)
    ensures |w.issued| == w.client.msgSeq && IssuedOk(w.issued, |w.issued|)
    ensures QueueOk(c, w.issued, w.server.msgSeq) && PumpOk(c, w.partial, w.onWire)
    ensures CurrentOk(c, w.links[Current(w)], w.onWire, w.issued, w.server.msgSeq)
    ensures AnswersOk(c, w.links[Current(w)].answers, w.server.msgSeq)
  {
  }

  /** A number under which nothing is queued. */
  lemma BlankKeepsRest(c: Client, cur: Link, onWire: bool, issued: seq<Packet>, p: Packet, m: nat)
    requires QueueOk(c, issued, m) && CurrentOk(c, cur, onWire, issued, m)
    requires p.seqNo == |issued| + 1 && !p.reliable
    requires forall x :: Missing(issued + [p], m, x) && x != p ==> Missing(issued, m, x)
    ensures QueueOk(c, issued + [p], m) && CurrentOk(c, cur, onWire, issued + [p], m)
  {
    assert forall j :: 0 <= j < |c.queue| ==> Known(issued, c.queue[j].packet);
  }

  lemma TakenGrows(taken: set<Packet>, issued: seq<Packet>, n: nat)
    requires TakenOk(taken, issued) && n == |issued| + 1
    ensures TakenOk(taken, issued + [Blank(n)])
    ensures forall p: Packet :: p.seqNo == n && p.size > 0 && !IsReconnect(p) ==>
      p !in taken && TakenOk(taken + {p}, issued + [Blank(n)])
  {
  }

  /** Numbering, with or without a packet to be queued under the number. */
  lemma NumberKeeps(w: World, taken: set<Packet>)
    requires Inv(w)
    requires taken == w.taken || exists p :: taken == w.taken + {p} && p.seqNo == w.client.msgSeq + 1 && p.size > 0 && !IsReconnect(p)
    ensures var n := w.client.msgSeq + 1;
      Inv(Numbered(w, w.client.(msgSeq := n), [Blank(n)]).(taken := taken))
  {
    hide DeliveredOk, QueueOk, PumpOk, LinksOk, CurrentOk, AnswersOk, IssuedOk, TakenOk;
    var p := Blank(w.client.msgSeq + 1);
    var c, m := w.client.(msgSeq := w.client.msgSeq + 1), w.server.msgSeq;
    Renumbered(w, c);
    LinksGrow(w.links, w.issued, p, m);
    IssuedGrows(w.server, w.issued, p);
    BlankKeepsRest(c, w.links[Current(w)], w.onWire, w.issued, p, m);
    TakenGrows(w.taken, w.issued, p.seqNo);
  }

  // ---------------------------------------------------------------- queueing

  /** A number gets its packet: nothing else known changes. */
  lemma Filled(s: Server, issued: seq<Packet>, p: Packet)
    requires IssuedOk(issued, |issued|) && DeliveredOk(s, issued)
    requires 1 <= p.seqNo <= |issued| && issued[p.seqNo - 1] == Blank(p.seqNo) && s.msgSeq < p.seqNo && p.size > 0
    ensures var more := issued[p.seqNo - 1 := p];
      && IssuedOk(more, |issued|) && DeliveredOk(s, more)
      && (forall x :: Known(issued, x) ==> Known(more, x) && x != p)
      && (forall x :: Missing(more, s.msgSeq, x) && x != p ==> Missing(issued, s.msgSeq, x))
  {
    var more := issued[p.seqNo - 1 := p];
    forall x | Known(issued, x)
      ensures Known(more, x) && x != p
    {
      assert x.seqNo != p.seqNo;
    }
    forall x | Known(more, x) && x.reliable && x.seqNo <= s.msgSeq
      ensures x in s.log
    {
      assert Known(issued, x);
    }
  }

  lemma WireFills(wire: seq<Frame>, issued: seq<Packet>, more: seq<Packet>, p: Packet, m: nat)
    requires WireOk(wire, issued, m) && Below(wire, p.seqNo)
    requires forall x :: Known(issued, x) ==> Known(more, x)
    requires forall x :: Missing(more, m, x) && x != p ==> Missing(issued, m, x)
    ensures WireOk(wire, more, m)
  {
    forall i, x | 0 <= i < |wire| && Missing(more, m, x) && x.seqNo < wire[i].packet.seqNo
      ensures Whole(x) in wire
    {
      assert Missing(issued, m, x);
    }
  }

  lemma LinksFill(links: seq<Link>, issued: seq<Packet>, more: seq<Packet>, p: Packet, m: nat)
    requires LinksOk(links, issued, m)
    requires forall l :: 0 <= l < |links| && Live(links[l]) ==> Below(links[l].wire, p.seqNo)
    requires forall x :: Known(issued, x) ==> Known(more, x)
    requires forall x :: Missing(more, m, x) && x != p ==> Missing(issued, m, x)
    ensures LinksOk(links, more, m)
  {
    hide WireOk;
    forall l | 0 <= l < |links|
      ensures LinkOk(links[l], more, m)
    {
      var link := links[l];
      assert LinkOk(link, issued, m);
      if link.session.Main? {
        WireFills(link.wire, issued, more, p, m);
      } else if link.session.Fresh? && link.wire != [] {
        assert Below(link.wire[1..], p.seqNo) by { BelowTail(link.wire, p.seqNo); }
        WireFills(link.wire[1..], issued, more, p, m);
      }
    }
  }

  lemma BelowTail(wire: seq<Frame>, n: nat)
    requires Below(wire, n) && wire != []
    ensures Below(wire[1..], n)
  {
    assert forall i :: 0 <= i < |wire[1..]| ==> wire[1..][i] == wire[i + 1];
  }

  lemma WaitingGrows(q: seq<Queued>, p: Packet, from: int)
    requires 0 <= from <= |q|
    ensures Waiting(q + [Queued(p, 0)], from, p)
    ensures forall x :: Waiting(q, from, x) ==> Waiting(q + [Queued(p, 0)], from, x)
  {
    var q' := q + [Queued(p, 0)];
    assert q'[|q|].packet == p;
    forall x | Waiting(q, from, x)
      ensures Waiting(q', from, x)
    {
      var j :| 0 <= j < |q| && from <= j && q[j].packet == x;
      assert q'[j].packet == x;
    }
  }

  predicate QueueBelow(q: seq<Queued>, n: nat) {
    forall j :: 0 <= j < |q| && !IsReconnect(q[j].packet) ==> q[j].packet.seqNo < n
  }

  /** A packet behind everything queued keeps the queue in order and complete. */
  lemma PushKeepsQueue(c: Client, issued: seq<Packet>, more: seq<Packet>, p: Packet, m: nat)
    requires QueueOk(c, issued, m) && QueueBelow(c.queue, p.seqNo) && Known(more, p) && !IsReconnect(p)
    requires forall x :: Known(issued, x) ==> Known(more, x)
    requires forall x :: Missing(more, m, x) && x != p ==> Missing(issued, m, x)
    ensures QueueOk(Push(c, p), more, m)
  {
    var c' := Push(c, p);
    assert forall j :: 0 <= j < |c.queue| ==> c'.queue[j] == c.queue[j];
    WaitingGrows(c.queue, p, 0);
    forall x | Missing(more, m, x)
      ensures Waiting(c'.queue, 0, x)
    {
      if x != p {
        assert Missing(issued, m, x);
      }
    }
  }

  lemma PushKeepsPump(c: Client, p: Packet, partial: nat, onWire: bool)
    requires IndexInQueue(c) && PumpOk(c, partial, onWire) && !Early(c)
    ensures PumpOk(Push(c, p), partial, onWire)
  {
    assert forall j :: 0 <= j < |c.queue| ==> Push(c, p).queue[j] == c.queue[j];
  }

  lemma PushKeepsAhead(c: Client, p: Packet, cur: Link, onWire: bool, issued: seq<Packet>, m: nat)
    requires QueueOk(c, issued, m) && AheadOk(c, cur, onWire) && LinkOk(cur, issued, m) && Live(cur)
    requires Below(cur.wire, p.seqNo) && !IsReconnect(p)
    requires onWire ==> c.idx < |c.queue|
    ensures AheadOk(Push(c, p), cur, onWire)
  {
    assert forall j :: 0 <= j < |c.queue| ==> Push(c, p).queue[j] == c.queue[j];
    assert cur.session.Fresh? && cur.wire != [] ==>
      forall i :: 0 <= i < |cur.wire[1..]| ==> cur.wire[1..][i] == cur.wire[i + 1] && !IsReconnect(cur.wire[1..][i].packet);
  }

  lemma PushKeepsCover(c: Client, p: Packet, cur: Link, onWire: bool, issued: seq<Packet>, more: seq<Packet>, m: nat)
    requires 0 <= Unsent(c, onWire) <= |c.queue| && CoverOk(c, cur, onWire, issued, m)
    requires forall x :: Missing(more, m, x) && x != p ==> Missing(issued, m, x)
    ensures CoverOk(Push(c, p), cur, onWire, more, m)
  {
    WaitingGrows(c.queue, p, Unsent(c, onWire));
  }

  lemma PushKeepsCurrent(c: Client, p: Packet, cur: Link, partial: nat, onWire: bool, issued: seq<Packet>, more: seq<Packet>, m: nat)
    requires QueueOk(c, issued, m) && PumpOk(c, partial, onWire) && LinkOk(cur, issued, m)
    requires CurrentOk(c, cur, onWire, issued, m) && (Live(cur) ==> Below(cur.wire, p.seqNo)) && !IsReconnect(p)
    requires forall x :: Missing(more, m, x) && x != p ==> Missing(issued, m, x)
    ensures CurrentOk(Push(c, p), cur, onWire, more, m)
  {
    if Live(cur) {
      PushKeepsAhead(c, p, cur, onWire, issued, m);
      PushKeepsCover(c, p, cur, onWire, issued, more, m);
    }
  }

  lemma PushKeepsAnswers(c: Client, p: Packet, answers: seq<Answer>, m: nat)
    requires AnswersOk(c, answers, m) && m < p.seqNo
    ensures AnswersOk(Push(c, p), answers, m)
  {
    assert forall j :: 0 <= j < |c.queue| ==> Push(c, p).queue[j] == c.queue[j];
  }

  lemma TakenShrinks(taken: set<Packet>, issued: seq<Packet>, p: Packet)
    requires TakenOk(taken, issued) && p in taken
    ensures TakenOk(taken - {p}, issued[p.seqNo - 1 := p])
    ensures 1 <= p.seqNo <= |issued| && issued[p.seqNo - 1] == Blank(p.seqNo) && p.size > 0 && !IsReconnect(p)
  {
  }

  /** A thread queues what it has numbered, and nothing numbered later went ahead of it. */
  lemma QueueKeeps(w: World, p: Packet)
    requires Inv(w) && Enabled(w, Queue(p)) && Unpassed(w, p) && !Early(w.client)
    ensures Inv(Next(w, Queue(p)))
  {
    hide DeliveredOk, QueueOk, PumpOk, CurrentOk, AnswersOk, IssuedOk, TakenOk, LinkOk, Push, Below, Early;
    var c, m, cur := w.client, w.server.msgSeq, w.links[Current(w)];
    Renumbered(w, c);
    TakenShrinks(w.taken, w.issued, p);
    var more := w.issued[p.seqNo - 1 := p];
    Filled(w.server, w.issued, p);
    PushShape(c, p);
    InQueue(c, w.issued, m);
    PushKeepsQueue(c, w.issued, more, p, m);
    LinksFill(w.links, w.issued, more, p, m);
    PushKeepsPump(c, p, w.partial, w.onWire);
    PushKeepsCurrent(c, p, cur, w.partial, w.onWire, w.issued, more, m);
    PushKeepsAnswers(c, p, cur.answers, m);
  }

  lemma InQueue(c: Client, issued: seq<Packet>, m: nat)
    requires QueueOk(c, issued, m)
    ensures IndexInQueue(c)
  {
  }

  /** Numbering a packet and queueing it at once. */
  lemma IssueKeeps(w: World, kind: Kind, reliable: bool, size: nat)
    requires Inv(w) && !kind.ReconnectReq? && size > 0 && !Early(w.client)
    ensures Inv(Numbered(w, Issue(w.client, kind, reliable, size),
                         [Packet(w.client.msgSeq + 1, kind, reliable, size)]))
  {
    hide Inv, Push, Early;
    var n := w.client.msgSeq + 1;
    var p := Packet(n, kind, reliable, size);
    NumberKeeps(w, w.taken + {p});
    var w1 := Numbered(w, w.client.(msgSeq := n), [Blank(n)]).(taken := w.taken + {p});
    NothingAbove(w, p);
    assert !Early(w1.client) by { StillOpen(w.client, w1.client); }
    QueueKeeps(w1, p);
    assert (w.issued + [Blank(n)])[n - 1 := p] == w.issued + [p];
    assert w.taken + {p} - {p} == w.taken;
  }

  lemma StillOpen(c: Client, d: Client)
    requires d == c.(msgSeq := d.msgSeq) && !Early(c)
    ensures !Early(d)
  {
  }

  /** A number just taken is above all others. */
  lemma NothingAbove(w: World, p: Packet)
    requires Inv(w) && p.seqNo == w.client.msgSeq + 1
    ensures |w.links| > 0 && |w.issued| == w.client.msgSeq && p !in w.taken && Unpassed(w, p)
  {
    hide PumpOk, CurrentOk, AnswersOk;
    forall l | 0 <= l < |w.links| && Live(w.links[l])
      ensures Below(w.links[l].wire, p.seqNo)
    {
      assert LinkOk(w.links[l], w.issued, w.server.msgSeq);
      KnownBelow(w.links[l], w.issued, w.server.msgSeq, p.seqNo);
    }
  }

  lemma KnownBelow(link: Link, issued: seq<Packet>, m: nat, n: nat)
    requires LinkOk(link, issued, m) && Live(link) && n > |issued|
    ensures Below(link.wire, n)
  {
    if link.session.Fresh? && link.wire != [] {
      assert forall i :: 0 < i < |link.wire| ==> link.wire[i] == link.wire[1..][i - 1];
    }
  }

  lemma StartReconnectKeeps(w: World)
    requires Inv(w)
    ensures Inv(w.(client := StartReconnect(w.client)))
  {
    hide IssuedOk, DeliveredOk, LinkOk, LinksOk, AnswersOk, TakenOk;
    assert IssuedOk(w.issued, StartReconnect(w.client).msgSeq);
    StartReconnectAnswers(w.client, w.links[Current(w)].answers, w.server.msgSeq);
  }

  lemma StartReconnectAnswers(c: Client, answers: seq<Answer>, m: nat)
    requires AnswersOk(c, answers, m)
    ensures AnswersOk(StartReconnect(c), answers, m)
  {
  }

  /** The new socket is connected; nothing was sent on it yet. */
  lemma OpenKeeps(w: World)
    requires Inv(w) && Enabled(w, Open)
    ensures Inv(Next(w, Open))
  {
    hide IssuedOk, DeliveredOk, LinkOk, LinksOk, AnswersOk, TakenOk;
    assert IssuedOk(w.issued, NewSocket(w.client).msgSeq);
    var answers := w.links[Current(w)].answers;
    assert AnswersOk(NewSocket(w.client), answers, w.server.msgSeq) by { OpenAnswers(w.client, answers, w.server.msgSeq); }
  }

  lemma OpenAnswers(c: Client, answers: seq<Answer>, m: nat)
    requires AnswersOk(c, answers, m)
    ensures AnswersOk(NewSocket(c), answers, m)
  {
  }

  lemma UserSendKeeps(w: World, n: nat, r: bool)
    requires Inv(w) && (Refused(n) || Spoiled(n) || !Early(w.client))
    ensures Inv(Numbered(w, SendMsg(w.client, n, r), IssuedBySend(w.client, n, r)))
  {
    hide Inv, Push, Acknowledged, Early;
    var w0 := w.(client := StartReconnect(w.client));
    StartReconnectKeeps(w);
    if Refused(n) {
      assert w.issued + [] == w.issued;
    } else if Spoiled(n) {
      NumberKeeps(w0, w0.taken);
    } else {
      assert !Early(w0.client) by { NotEarly(w.client); }
      var a := Packet(w.client.msgSeq + 1, User, r, HEADER_SIZE + n);
      IssueKeeps(w0, User, r, HEADER_SIZE + n);
      var w1 := Numbered(w0, Issue(w0.client, User, r, HEADER_SIZE + n), [a]);
      PushShape(w0.client.(msgSeq := a.seqNo), a);
      if w1.client.msgSeq % 10 == 0 && Up(w1.client.state) {
        StillOpen(w0.client, w0.client.(msgSeq := a.seqNo));
        PushNotEarly(w0.client.(msgSeq := a.seqNo), a);
        var b := Packet(a.seqNo + 1, HeartBeatReq, true, HEADER_SIZE);
        IssueKeeps(w1, HeartBeatReq, true, HEADER_SIZE);
        assert w.issued + ([a] + [b]) == w.issued + [a] + [b];
      } else {
        assert [a] + [] == [a];
      }
    }
  }

  lemma NotEarly(c: Client)
    requires !Early(c)
    ensures !Early(StartReconnect(c))
  {
  }

  lemma PushNotEarly(c: Client, p: Packet)
    ensures !Early(c) ==> !Early(Push(c, p))
  {
  }

  lemma PushShape(c: Client, p: Packet)
    ensures Push(c, p).msgSeq == c.msgSeq && Push(c, p).state == c.state
  {
  }

  // ---------------------------------------------------------------- the pump

  /** The packet at the index extends the current wire in order and without leaving a gap. */
  lemma TransmitWire(c: Client, cur: Link, partial: nat, issued: seq<Packet>, m: nat)
    requires QueueOk(c, issued, m) && PumpOk(c, partial, false) && LinkOk(cur, issued, m)
    requires AheadOk(c, cur, false) && CoverOk(c, cur, false, issued, m) && Live(cur)
    requires c.state.Connected? && c.idx < |c.queue| && !IsReconnect(c.queue[c.idx].packet)
    ensures WireOk(Body(cur) + [Whole(c.queue[c.idx].packet)], issued, m)
  {
    var p, body := c.queue[c.idx].packet, Body(cur);
    var wire := body + [Whole(p)];
    assert WireOk(body, issued, m);
    assert Known(issued, p);
    forall i, x | 0 <= i < |wire| && Missing(issued, m, x) && x.seqNo < wire[i].packet.seqNo
      ensures Whole(x) in wire
    {
      if i < |body| {
        assert body[i] == wire[i];
        assert Whole(x) in body;
      } else {
        SentBefore(c, cur, issued, m, x);
        OpeningIsUnreliable(c, cur, issued, m, x);
      }
    }
  }

  /** A missing packet numbered below the one at the index is on the wire. */
  lemma SentBefore(c: Client, cur: Link, issued: seq<Packet>, m: nat, x: Packet)
    requires QueueOk(c, issued, m) && CoverOk(c, cur, false, issued, m) && c.state.Connected?
    requires c.idx < |c.queue| && !IsReconnect(c.queue[c.idx].packet)
    requires Missing(issued, m, x) && x.seqNo < c.queue[c.idx].packet.seqNo
    ensures Whole(x) in cur.wire && !HeadIsReconnect(c)
  {
    var q := c.queue;
    assert forall j :: c.idx < j < |q| ==> q[c.idx].packet.seqNo < q[j].packet.seqNo;
  }

  /** A missing packet found on a wire is behind the opening request. */
  lemma OpeningIsUnreliable(c: Client, cur: Link, issued: seq<Packet>, m: nat, x: Packet)
    requires QueueOk(c, issued, m) && LinkOk(cur, issued, m) && Live(cur)
    requires Missing(issued, m, x) && Whole(x) in cur.wire && !HeadIsReconnect(c)
    ensures Whole(x) in Body(cur)
  {
    var k :| 0 <= k < |cur.wire| && cur.wire[k] == Whole(x);
    if cur.session.Fresh? {
      assert forall j :: 0 <= j < |c.queue| ==> !IsReconnect(c.queue[j].packet);
      assert Waiting(c.queue, 0, x);
      assert k > 0 && cur.wire[1..][k - 1] == cur.wire[k];
    }
  }

  lemma TransmitKeeps(w: World)
    requires Inv(w) && Enabled(w, Transmit)
    ensures Inv(Next(w, Transmit))
  {
    hide DeliveredOk, QueueOk, AnswersOk, IssuedOk, LinkOk, AheadOk, CoverOk, WireOk;
    var c, cur, m := w.client, w.links[Current(w)], w.server.msgSeq;
    TransmitWhole(c, w.partial, w.issued, m);
    var cur' := cur.(wire := cur.wire + [Whole(c.queue[c.idx].packet)]);
    assert Next(w, Transmit) == w.(links := w.links[Current(w) := cur'], onWire := true);
    assert LinkOk(cur, w.issued, m);
    if !Live(cur) {
      DeadOk(cur', w.issued, m);
    } else {
      TransmitOnLink(c, cur, w.partial, w.issued, m);
    }
  }

  lemma DeadOk(link: Link, issued: seq<Packet>, m: nat)
    requires !Live(link)
    ensures LinkOk(link, issued, m)
  {
  }

  lemma TransmitWhole(c: Client, partial: nat, issued: seq<Packet>, m: nat)
    requires QueueOk(c, issued, m) && PumpOk(c, partial, false) && c.sends == 1
    ensures c.state.Connected? && c.idx < |c.queue| && c.queue[c.idx].readIndex == partial
  {
  }

  lemma TransmitOnLink(c: Client, cur: Link, partial: nat, issued: seq<Packet>, m: nat)
    requires QueueOk(c, issued, m) && PumpOk(c, partial, false) && c.sends == 1 && LinkOk(cur, issued, m)
    requires Live(cur) && AheadOk(c, cur, false) && CoverOk(c, cur, false, issued, m)
    requires 0 <= c.idx < |c.queue|
    ensures var cur' := cur.(wire := cur.wire + [Whole(c.queue[c.idx].packet)]);
      LinkOk(cur', issued, m) && AheadOk(c, cur', true) && CoverOk(c, cur', true, issued, m)
  {
    hide CoverOk, WireOk;
    TransmitCovers(c, cur, issued, m);
    if IsReconnect(c.queue[c.idx].packet) {
      TransmitOpening(c, cur, issued, m);
    } else {
      TransmitWire(c, cur, partial, issued, m);
      TransmitBehind(c, cur, partial, issued, m);
    }
  }

  /** The reconnect request is the first thing on its link. */
  lemma TransmitOpening(c: Client, cur: Link, issued: seq<Packet>, m: nat)
    requires QueueOk(c, issued, m) && 0 <= c.idx < |c.queue| && IsReconnect(c.queue[c.idx].packet)
    requires AheadOk(c, cur, false) && LinkOk(cur, issued, m) && Live(cur)
    ensures var cur' := cur.(wire := cur.wire + [Whole(c.queue[c.idx].packet)]);
      LinkOk(cur', issued, m) && AheadOk(c, cur', true)
  {
    assert c.idx == 0;
    assert cur.wire == [] && [Whole(c.queue[0].packet)][1..] == [];
  }

  lemma TransmitBehind(c: Client, cur: Link, partial: nat, issued: seq<Packet>, m: nat)
    requires QueueOk(c, issued, m) && PumpOk(c, partial, false) && c.sends == 1 && LinkOk(cur, issued, m)
    requires Live(cur) && AheadOk(c, cur, false)
    requires 0 <= c.idx < |c.queue| && !IsReconnect(c.queue[c.idx].packet)
    requires WireOk(Body(cur) + [Whole(c.queue[c.idx].packet)], issued, m)
    ensures var cur' := cur.(wire := cur.wire + [Whole(c.queue[c.idx].packet)]);
      LinkOk(cur', issued, m) && AheadOk(c, cur', true)
  {
    hide WireOk;
    var p := c.queue[c.idx].packet;
    var cur' := cur.(wire := cur.wire + [Whole(p)]);
    assert HeadIsReconnect(c) ==> c.idx == 0;
    assert !HeadIsReconnect(c);
    if cur.session.Fresh? {
      assert cur.wire != [];
      assert cur'.wire[1..] == cur.wire[1..] + [Whole(p)];
    }
    assert Body(cur') == Body(cur) + [Whole(p)];
  }

  lemma TransmitCovers(c: Client, cur: Link, issued: seq<Packet>, m: nat)
    requires 0 <= c.idx < |c.queue| && CoverOk(c, cur, false, issued, m)
    ensures CoverOk(c, cur.(wire := cur.wire + [Whole(c.queue[c.idx].packet)]), true, issued, m)
  {
    var wire' := cur.wire + [Whole(c.queue[c.idx].packet)];
    assert wire'[|cur.wire|] == Whole(c.queue[c.idx].packet);
    forall p | Waiting(c.queue, c.idx, p)
      ensures Whole(p) in wire' || Waiting(c.queue, c.idx + 1, p)
    {
      var j :| 0 <= j < |c.queue| && c.idx <= j && c.queue[j].packet == p;
    }
  }

  /** The callback: either some bytes more of the packet at the index, or past it. */
  lemma SendCallbackKeeps(w: World, n: nat)
    requires Inv(w) && Enabled(w, SendCallback(n))
    ensures Inv(Next(w, SendCallback(n)))
  {
    hide DeliveredOk, QueueOk, AnswersOk, IssuedOk, LinksOk, AheadOk, CoverOk, PumpOk;
    var c, cur, m := w.client, w.links[Current(w)], w.server.msgSeq;
    var partial' := if w.onWire then 0 else w.partial + n;
    WrittenKeepsQueue(c, n, w.onWire, w.issued, m);
    WrittenKeepsPump(c, n, w.onWire, w.partial);
    if Live(cur) {
      WrittenKeepsAhead(c, n, cur, w.onWire, w.issued, m);
      WrittenKeepsCover(c, n, cur, w.onWire, w.issued, m);
    }
    WrittenKeepsAnswers(c, n, cur.answers, w.onWire, w.issued, m);
    assert Next(w, SendCallback(n)) == w.(client := Written(c, n), partial := partial', onWire := false);
  }

  /** Whether the callback reports the whole rest of the packet, as SendCallback allows. */
  predicate CallbackFits(c: Client, n: nat, onWire: bool) {
    0 <= c.idx < |c.queue| && c.sends == 1 &&
    var rest := c.queue[c.idx].packet.size - c.queue[c.idx].readIndex;
    if onWire then n == rest else 0 < n < rest
  }

  /** The queue after the callback, element by element: the packet at the index goes only
      if it was unreliable and completely sent. */
  lemma WrittenShape(c: Client, n: nat, onWire: bool)
    requires CallbackFits(c, n, onWire)
    ensures var c', q, i := Written(c, n), c.queue, c.idx;
      c'.(queue := q, idx := i, sends := c.sends) == c &&
      if onWire && !q[i].packet.reliable then
        c'.idx == i && |c'.queue| == |q| - 1 && c'.sends == (if i < |c'.queue| then 1 else 0) &&
        (forall j :: 0 <= j < |c'.queue| ==> c'.queue[j] == if j < i then q[j] else q[j + 1])
      else
        |c'.queue| == |q| &&
        (forall j :: 0 <= j < |q| ==> c'.queue[j].packet == q[j].packet && (j != i ==> c'.queue[j] == q[j])) &&
        (if onWire then c'.idx == i + 1 && c'.sends == (if i + 1 < |q| then 1 else 0)
         else c'.idx == i && c'.sends == 1 && c'.queue[i].readIndex == q[i].readIndex + n)
  {
  }

  /** A missing packet that waited from index `from` on still does, unless it is the one
      the callback was about. */
  lemma WrittenWaiting(c: Client, n: nat, onWire: bool, from: nat, p: Packet)
    requires CallbackFits(c, n, onWire) && p.reliable && Waiting(c.queue, from, p)
    requires from <= c.idx || (onWire && from == c.idx + 1)
    ensures Waiting(Written(c, n).queue, if from == c.idx + 1 then Written(c, n).idx else from, p)
  {
    WrittenShape(c, n, onWire);
    var q' := Written(c, n).queue;
    var j :| 0 <= j < |c.queue| && from <= j && c.queue[j].packet == p;
    if onWire && !c.queue[c.idx].packet.reliable && j > c.idx {
      assert q'[j - 1].packet == p;
    } else {
      assert q'[j].packet == p;
    }
  }

  lemma WrittenKeepsQueue(c: Client, n: nat, onWire: bool, issued: seq<Packet>, m: nat)
    requires QueueOk(c, issued, m) && CallbackFits(c, n, onWire)
    ensures QueueOk(Written(c, n), issued, m) && Written(c, n).msgSeq == c.msgSeq
  {
    hide Waiting;
    WrittenShape(c, n, onWire);
    var c' := Written(c, n);
    assert forall p :: IsReconnect(p) && Known(issued, p) && p.reliable ==> p.reliable;
    forall p | Missing(issued, m, p)
      ensures Waiting(c'.queue, 0, p)
    {
      WrittenWaiting(c, n, onWire, 0, p);
    }
  }

  lemma WrittenKeepsPump(c: Client, n: nat, onWire: bool, partial: nat)
    requires CallbackFits(c, n, onWire) && PumpOk(c, partial, onWire)
    ensures PumpOk(Written(c, n), if onWire then 0 else partial + n, false)
  {
    WrittenShape(c, n, onWire);
  }

  lemma WrittenKeepsAhead(c: Client, n: nat, cur: Link, onWire: bool, issued: seq<Packet>, m: nat)
    requires QueueOk(c, issued, m) && CallbackFits(c, n, onWire) && AheadOk(c, cur, onWire)
    ensures AheadOk(Written(c, n), cur, false)
  {
    WrittenShape(c, n, onWire);
  }

  lemma WrittenKeepsCover(c: Client, n: nat, cur: Link, onWire: bool, issued: seq<Packet>, m: nat)
    requires QueueOk(c, issued, m) && CallbackFits(c, n, onWire) && CoverOk(c, cur, onWire, issued, m)
    ensures CoverOk(Written(c, n), cur, false, issued, m)
  {
    hide Waiting;
    WrittenShape(c, n, onWire);
    var c' := Written(c, n);
    forall p | c.state.Connected? && Missing(issued, m, p) && Waiting(c.queue, Unsent(c, onWire), p)
      ensures Waiting(c'.queue, Unsent(c', false), p)
    {
      WrittenWaiting(c, n, onWire, Unsent(c, onWire), p);
    }
  }

  lemma WrittenKeepsAnswers(c: Client, n: nat, answers: seq<Answer>, onWire: bool, issued: seq<Packet>, m: nat)
    requires QueueOk(c, issued, m) && CallbackFits(c, n, onWire) && AnswersOk(c, answers, m)
    ensures AnswersOk(Written(c, n), answers, m)
  {
    WrittenShape(c, n, onWire);
  }

  // ---------------------------------------------------------------- connection events

  lemma DropKeeps(w: World)
    requires Inv(w) && Enabled(w, Drop)
    ensures Inv(Next(w, Drop))
  {
    hide IssuedOk, DeliveredOk, LinksOk, AnswersOk;
    assert IssuedOk(w.issued, Closed(w.client).msgSeq);
    var answers := w.links[Current(w)].answers;
    assert AnswersOk(Closed(w.client), answers, w.server.msgSeq) by { CloseAnswers(w.client, answers, w.server.msgSeq); }
  }

  lemma CloseAnswers(c: Client, answers: seq<Answer>, m: nat)
    requires AnswersOk(c, answers, m)
    ensures AnswersOk(Closed(c), answers, m)
  {
  }

  /** A reconnect from a clean queue: the request in front, everything queued behind it. */
  lemma ReconnectedQueue(c: Client, size: nat, issued: seq<Packet>, p: Packet, m: nat)
    requires QueueOk(c, issued, m) && IssuedOk(issued, c.msgSeq) && CleanQueue(c)
    requires p == Packet(c.msgSeq + 1, ReconnectReq(c.token), false, size) && 0 < size <= BUFFER_SIZE
    ensures QueueOk(Reconnected(c, size), issued + [p], m)
  {
    var c', more := Reconnected(c, size), issued + [p];
    assert c'.queue == [Queued(p, 0)] + Rewound(c.queue);
    forall j | 0 <= j < |c'.queue|
      ensures Known(more, c'.queue[j].packet)
    {
      if j > 0 { assert Known(issued, c.queue[j - 1].packet); }
    }
    forall x | Missing(more, m, x)
      ensures Waiting(c'.queue, 0, x)
    {
      assert Missing(issued, m, x);
      StillWaits(c.queue, p, x);
    }
  }

  lemma StillWaits(q: seq<Queued>, p: Packet, x: Packet)
    requires exists j :: 0 <= j < |q| && q[j].packet == x
    ensures Waiting([Queued(p, 0)] + Rewound(q), 0, x)
  {
    var j :| 0 <= j < |q| && q[j].packet == x;
    assert ([Queued(p, 0)] + Rewound(q))[j + 1].packet == x;
  }

  lemma ReconnectedLink(c: Client, size: nat, issued: seq<Packet>, m: nat)
    requires QueueOk(Reconnected(c, size), issued, m) && c.sends == 0
    ensures var c', link := Reconnected(c, size), Link([], [], Fresh(0));
      LinkOk(link, issued, m) && PumpOk(c', 0, false) &&
      CurrentOk(c', link, false, issued, m) && AnswersOk(c', link.answers, m)
  {
    var c' := Reconnected(c, size);
    assert c'.queue[0].packet.kind.ReconnectReq? && c'.idx == 0;
  }

  lemma NoneSent(w: World)
    requires Inv(w) && w.client.state.Opened?
    ensures w.client.sends == 0
  {
    hide IssuedOk, DeliveredOk, QueueOk, LinksOk, CurrentOk, AnswersOk, TakenOk;
  }

  lemma TakenMore(taken: set<Packet>, issued: seq<Packet>, p: Packet)
    requires TakenOk(taken, issued)
    ensures TakenOk(taken, issued + [p])
  {
  }

  lemma ReconnectKeeps(w: World, size: nat)
    requires Inv(w) && Enabled(w, Reconnect(size)) && CleanQueue(w.client)
    ensures Inv(Next(w, Reconnect(size)))
  {
    hide IssuedOk, DeliveredOk, LinkOk, AnswersOk, QueueOk, CurrentOk, PumpOk, TakenOk;
    var p := Packet(w.client.msgSeq + 1, ReconnectReq(w.client.token), false, size);
    assert |w.issued| == w.client.msgSeq && IssuedOk(w.issued, |w.issued|) by { Renumbered(w, w.client); }
    assert w.client.sends == 0 by { NoneSent(w); }
    IssuedGrows(w.server, w.issued, p);
    LinksGrow(w.links, w.issued, p, w.server.msgSeq);
    TakenMore(w.taken, w.issued, p);
    ReconnectedQueue(w.client, size, w.issued, p, w.server.msgSeq);
    ReconnectedLink(w.client, size, w.issued + [p], w.server.msgSeq);
    var w' := Next(w, Reconnect(size));
    assert w'.links == w.links + [Link([], [], Fresh(0))];
    assert w'.client.msgSeq == w.client.msgSeq + 1;
  }

  // ---------------------------------------------------------------- answers

  /** An acknowledgement on its way takes only packets in front of the index. */
  lemma AckStaysInFront(c: Client, ack: nat)
    requires 0 <= c.idx <= |c.queue|
    requires forall j :: 0 <= j < |c.queue| && c.idx <= j ==> c.queue[j].packet.seqNo > ack
    ensures Leading(c.queue, ack) <= c.idx
  {
    assert c.idx < |c.queue| ==> c.queue[c.idx].packet.seqNo > ack;
  }

  lemma CutFrontQueue(c: Client, k: nat, issued: seq<Packet>, m: nat)
    requires QueueOk(c, issued, m) && k <= c.idx
    requires forall j :: 0 <= j < k ==> c.queue[j].packet.seqNo <= m
    ensures QueueOk(c.(queue := c.queue[k..], idx := c.idx - k), issued, m)
  {
    var q' := c.queue[k..];
    assert forall j :: 0 <= j < |q'| ==> q'[j] == c.queue[j + k];
    forall p | Missing(issued, m, p)
      ensures Waiting(q', 0, p)
    {
      CutFrontWaiting(c.queue, k, p, m);
    }
  }

  lemma CutFrontWaiting(q: seq<Queued>, k: nat, p: Packet, m: nat)
    requires k <= |q| && Waiting(q, 0, p) && p.seqNo > m
    requires forall j :: 0 <= j < k ==> q[j].packet.seqNo <= m
    ensures Waiting(q[k..], 0, p)
  {
    var j :| 0 <= j < |q| && q[j].packet == p;
    assert q[k..][j - k].packet == p;
  }

  /** Cutting packets in front of the index leaves the pump and the current link alone. */
  lemma CutFront(c: Client, k: nat, cur: Link, partial: nat, onWire: bool, issued: seq<Packet>, m: nat)
    requires k <= c.idx <= |c.queue| && (onWire ==> c.idx < |c.queue|) && (k > 0 ==> !HeadIsReconnect(c))
    requires PumpOk(c, partial, onWire) && CurrentOk(c, cur, onWire, issued, m)
    requires forall j :: 1 <= j < |c.queue| ==> !IsReconnect(c.queue[j].packet)
    ensures var c' := c.(queue := c.queue[k..], idx := c.idx - k);
      PumpOk(c', partial, onWire) && CurrentOk(c', cur, onWire, issued, m)
  {
    hide AheadOk, CoverOk, SentOk, PumpOk;
    if k == 0 {
      assert c.queue[0..] == c.queue;
    } else {
      CutPump(c, k, partial, onWire);
      if Live(cur) {
        CutAhead(c, k, cur, onWire);
        CutCover(c, k, cur, onWire, issued, m);
      }
    }
  }

  lemma CutPump(c: Client, k: nat, partial: nat, onWire: bool)
    requires k <= c.idx <= |c.queue| && PumpOk(c, partial, onWire)
    ensures PumpOk(c.(queue := c.queue[k..], idx := c.idx - k), partial, onWire)
  {
    assert forall j :: 0 <= j < |c.queue[k..]| ==> c.queue[k..][j] == c.queue[j + k];
  }

  lemma CutAhead(c: Client, k: nat, cur: Link, onWire: bool)
    requires 0 < k <= c.idx <= |c.queue| && AheadOk(c, cur, onWire) && !HeadIsReconnect(c)
    requires forall j :: 1 <= j < |c.queue| ==> !IsReconnect(c.queue[j].packet)
    ensures AheadOk(c.(queue := c.queue[k..], idx := c.idx - k), cur, onWire)
  {
    assert forall j :: 0 <= j < |c.queue[k..]| ==> c.queue[k..][j] == c.queue[j + k];
  }

  lemma CutCover(c: Client, k: nat, cur: Link, onWire: bool, issued: seq<Packet>, m: nat)
    requires k <= c.idx <= |c.queue| && CoverOk(c, cur, onWire, issued, m) && SentOk(c, cur, onWire, m)
    ensures var c' := c.(queue := c.queue[k..], idx := c.idx - k);
      CoverOk(c', cur, onWire, issued, m) && SentOk(c', cur, onWire, m)
  {
    hide Waiting;
    var c' := c.(queue := c.queue[k..], idx := c.idx - k);
    assert forall j :: 0 <= j < |c'.queue| ==> c'.queue[j] == c.queue[j + k];
    forall p | Waiting(c.queue, Unsent(c, onWire), p)
      ensures Waiting(c'.queue, Unsent(c', onWire), p)
    {
      CutWaits(c.queue, k, Unsent(c, onWire), p);
    }
  }

  lemma CutWaits(q: seq<Queued>, k: nat, from: int, p: Packet)
    requires k <= |q| && k <= from && Waiting(q, from, p)
    ensures Waiting(q[k..], from - k, p)
  {
    var j :| 0 <= j < |q| && from <= j && q[j].packet == p;
    assert q[k..][j - k].packet == p;
  }

  lemma CutFrontAnswers(c: Client, k: nat, answers: seq<Answer>, m: nat)
    requires k <= c.idx <= |c.queue| && AnswersOk(c, answers, m)
    ensures AnswersOk(c.(queue := c.queue[k..], idx := c.idx - k), answers, m)
  {
    assert forall j :: 0 <= j < |c.queue[k..]| ==> c.queue[k..][j] == c.queue[j + k];
  }

  lemma DeliverKeeps(w: World)
    requires Inv(w) && Enabled(w, Deliver)
    ensures Inv(Next(w, Deliver))
  {
    hide DeliveredOk, AheadOk, CoverOk, LinkOk;
    var c, cur, m := w.client, w.links[Current(w)], w.server.msgSeq;
    var cur' := cur.(answers := cur.answers[1..]);
    assert LinkOk(cur', w.issued, m) by { RelabelLink(cur, cur', w.issued, m); }
    RelabelCurrent(c, cur, cur', w.onWire, w.issued, m);
    DeliverAnswers(c, cur.answers, m);
    HearKeeps(w, cur');
    assert Next(w, Deliver) == w.(client := Hear(c, cur.answers[0]), links := w.links[Current(w) := cur']);
  }

  lemma DeliverAnswers(c: Client, answers: seq<Answer>, m: nat)
    requires AnswersOk(c, answers, m) && |answers| > 0
    ensures AnswersOk(c, answers[1..], m)
  {
    assert forall k :: 0 <= k < |answers[1..]| ==> answers[1..][k] == answers[k + 1];
  }

  /** Only the answers differ. */
  lemma RelabelLink(a: Link, b: Link, issued: seq<Packet>, m: nat)
    requires LinkOk(a, issued, m) && a.wire == b.wire && a.session == b.session
    ensures LinkOk(b, issued, m)
  {
  }

  lemma RelabelCurrent(c: Client, a: Link, b: Link, onWire: bool, issued: seq<Packet>, m: nat)
    requires CurrentOk(c, a, onWire, issued, m) && a.wire == b.wire && a.session == b.session
    ensures CurrentOk(c, b, onWire, issued, m)
  {
    assert Body(a) == Body(b);
  }

  /** A new token leaves the send queue alone. */
  lemma TokenKeeps(c: Client, t: nat, cur: Link, partial: nat, onWire: bool, issued: seq<Packet>, m: nat)
    requires QueueOk(c, issued, m) && PumpOk(c, partial, onWire) && CurrentOk(c, cur, onWire, issued, m)
    requires AnswersOk(c, cur.answers, m)
    ensures var c' := c.(token := Some(t));
      QueueOk(c', issued, m) && PumpOk(c', partial, onWire) && CurrentOk(c', cur, onWire, issued, m) &&
      AnswersOk(c', cur.answers, m)
  {
  }

  lemma HearAckKeeps(c: Client, n: nat, cur: Link, partial: nat, onWire: bool, issued: seq<Packet>, m: nat)
    requires QueueOk(c, issued, m) && PumpOk(c, partial, onWire) && CurrentOk(c, cur, onWire, issued, m)
    requires AnswersOk(c, cur.answers, m) && n <= m
    requires forall j :: 0 <= j < |c.queue| && c.idx <= j ==> c.queue[j].packet.seqNo > n
    ensures var c' := Acknowledged(c, n);
      QueueOk(c', issued, m) && PumpOk(c', partial, onWire) && CurrentOk(c', cur, onWire, issued, m) &&
      AnswersOk(c', cur.answers, m) && c'.msgSeq == c.msgSeq
  {
    hide CurrentOk, PumpOk, AnswersOk, Waiting, Acknowledged;
    AckStaysInFront(c, n);
    AcknowledgedCutsPrefix(c, n);
    var k := Leading(c.queue, n);
    CutFrontQueue(c, k, issued, m);
    PumpRange(c, partial, onWire);
    CutFront(c, k, cur, partial, onWire, issued, m);
    CutFrontAnswers(c, k, cur.answers, m);
  }

  lemma HearKeeps(w: World, cur': Link)
    requires Inv(w) && Enabled(w, Deliver)
    requires CurrentOk(w.client, cur', w.onWire, w.issued, w.server.msgSeq)
    requires AnswersOk(w.client, cur'.answers, w.server.msgSeq)
    ensures var c' := Hear(w.client, w.links[Current(w)].answers[0]);
      QueueOk(c', w.issued, w.server.msgSeq) && PumpOk(c', w.partial, w.onWire) &&
      CurrentOk(c', cur', w.onWire, w.issued, w.server.msgSeq) &&
      AnswersOk(c', cur'.answers, w.server.msgSeq) && c'.msgSeq == w.client.msgSeq
  {
    hide DeliveredOk, CurrentOk, LinksOk, PumpOk, QueueOk, IssuedOk, Acknowledged;
    var c, a, m := w.client, w.links[Current(w)].answers[0], w.server.msgSeq;
    match a
    case ConnectAns(t) => TokenKeeps(c, t, cur', w.partial, w.onWire, w.issued, m);
    case ReconnectAns(granted, t) =>
      if granted { TokenKeeps(c, t, cur', w.partial, w.onWire, w.issued, m); }
    case HeartBeatAns(n) => HearAckKeeps(c, n, cur', w.partial, w.onWire, w.issued, m);
  }

  lemma PumpRange(c: Client, partial: nat, onWire: bool)
    requires PumpOk(c, partial, onWire)
    ensures onWire ==> c.idx < |c.queue|
  {
  }
}
