/** A superseded link that is read after all.  Its detaching is posted to its own strand, so a
    chunk that is already waiting there is still read by the main session, which answers on
    its new link. */
module SessionSuperseded {
  import opened Wrappers
  import opened ClientSession
  import opened SessionProtocol
  import opened SessionInvariant
  import opened SessionClientSteps
  import opened SessionServerSteps
  import opened SessionTheorems
  import opened SessionRuns
  import opened SessionPump
  import opened SessionHandover

  /** The main session has taken over the client's current link, and link o, which it was read
      from before, is not detached yet and has a frame waiting. */
  ghost predicate LateFrame(w: World, o: nat) {
    && o < |w.links| && w.links[o].session.Superseded?
    && |w.links[o].wire| > 0 && WireOk(w.links[o].wire, w.issued, w.server.msgSeq)
    && w.server.pending == 0 && w.server.link == Some(Current(w))
  }

  /** Reading it draws an acknowledgement of packets the client has not sent again yet. */
  predicate AcksAhead(w: World, p: Packet) {
    p.kind.HeartBeatReq? && p.seqNo > w.server.msgSeq &&
    exists j :: 0 <= j < |w.client.queue| && w.client.idx <= j && w.client.queue[j].packet.seqNo <= w.server.msgSeq
  }

  /** One late frame is taken like any other of the main session's. */
  lemma LateRead(w: World, o: nat, busy: bool, body: Misread) returns (w1: World)
    requires Inv(w) && LateFrame(w, o)
    ensures w1 == ReceiveChunk(w, o, 1, 0, busy, body)
    ensures w1 == HandleMain(Popped(w, o), w.links[o].wire[0].packet)
  {
    hide IssuedOk, DeliveredOk, QueueOk, PumpOk, LinksOk, CurrentOk, AnswersOk, HandleMain, WireOk;
    assert w.links[o].wire[0].Whole? by { LateWire(w, o); }
    w1 := ReceiveChunk(w, o, 1, 0, busy, body);
    assert w.(server := w.server.(pending := 0)) == w;
    assert MainChunk(w, o, 1) == w1;
  }

  lemma LateWire(w: World, o: nat)
    requires LateFrame(w, o)
    ensures var p := w.links[o].wire[0].packet;
      && w.links[o].wire[0].Whole? && Known(w.issued, p) && !IsReconnect(p)
      && forall x :: Missing(w.issued, w.server.msgSeq, x) ==> x.seqNo >= p.seqNo
  {
    var link := w.links[o].(session := Main);
    MainFrame(link, w.issued, w.server.msgSeq);
  }

  /** What it changes: the wire of its own link, the answers on the current one, the server. */
  lemma LateEffect(w: World, o: nat, p: Packet) returns (answers: seq<Answer>, s: Server)
    requires o < |w.links| && |w.links[o].wire| > 0 && w.server.link == Some(Current(w)) && o != Current(w)
    requires p.seqNo > w.server.msgSeq && !IsReconnect(p)
    ensures var cur := Current(w);
      HandleMain(Popped(w, o), p) ==
        w.(links := w.links[o := w.links[o].(wire := w.links[o].wire[1..])][cur := w.links[cur].(answers := answers)], server := s)
    ensures s.msgSeq == p.seqNo && s.log == w.server.log + [p] && s.link == w.server.link && s.received == w.server.received
    ensures AnswersTo(p, w.server.msgSeq, w.links[Current(w)].answers, answers)
    ensures p.kind.HeartBeatReq? ==> answers == w.links[Current(w)].answers + [HeartBeatAns(w.server.msgSeq)]
  {
    var w1 := HandleMain(Popped(w, o), p);
    var cur := Current(w);
    answers, s := w1.links[cur].answers, w1.server;
    assert w1.links == w.links[o := w.links[o].(wire := w.links[o].wire[1..])][cur := w.links[cur].(answers := answers)];
  }

  // ---------------------------------------------------------------- harmless late frames

  /** A higher number and more answers on the current link. */
  lemma RaiseKeeps(w: World, answers: seq<Answer>, s: Server)
    requires Inv(w) && w.server.msgSeq <= s.msgSeq && DeliveredOk(s, w.issued)
    requires s.link == w.server.link && s.received == w.server.received
    requires AnswersOk(w.client, answers, s.msgSeq)
    ensures Inv(w.(links := w.links[Current(w) := w.links[Current(w)].(answers := answers)], server := s))
  {
    hide IssuedOk, DeliveredOk, QueueOk, PumpOk, CurrentOk, AnswersOk, LinkOk;
    var cur, m, m' := w.links[Current(w)], w.server.msgSeq, s.msgSeq;
    var cur' := cur.(answers := answers);
    RaiseLinks(w.links, w.issued, m, m');
    RelabelLink(cur, cur', w.issued, m');
    RaiseQueue(w.client, w.issued, m, m');
    RaiseCurrent(w.client, cur, w.onWire, w.issued, m, m');
    RelabelCurrent(w.client, cur, cur', w.onWire, w.issued, m');
  }

  lemma LateAnswers(c: Client, before: seq<Answer>, answers: seq<Answer>, m: nat, p: Packet)
    requires AnswersOk(c, before, m) && AnswersTo(p, m, before, answers) && m < p.seqNo
    requires p.kind.HeartBeatReq? ==> forall j :: 0 <= j < |c.queue| && c.idx <= j ==> c.queue[j].packet.seqNo > m
    ensures AnswersOk(c, answers, p.seqNo)
  {
    if p.kind.ConnectReq? && |answers| > |before| {
      assert answers == answers[..|before|] + [answers[|before|]];
    }
  }

  lemma LateKeeps(w: World, o: nat)
    requires Inv(w) && LateFrame(w, o) && !AcksAhead(w, w.links[o].wire[0].packet)
    ensures Inv(HandleMain(Popped(w, o), w.links[o].wire[0].packet))
  {
    hide Inv, WireOk, HandleMain, AnswersTo, DeliveredOk, AnswersOk;
    var p, m, cur := w.links[o].wire[0].packet, w.server.msgSeq, Current(w);
    LateWire(w, o);
    NotCurrent(w, o);
    DeadWireKeeps(w, o, 1);
    var w0 := Popped(w, o);
    if p.seqNo <= m {
      assert HandleMain(w0, p) == w0 by { Discarded(w0, p); }
    } else {
      var answers, s := LateEffect(w, o, p);
      ServerSide(w);
      DispatchDelivers(w.server, w.issued, p);
      LateAnswers(w.client, w.links[cur].answers, answers, m, p);
      RaiseKeeps(w0, answers, s);
    }
  }

  lemma Discarded(w: World, p: Packet)
    requires p.seqNo <= w.server.msgSeq
    ensures HandleMain(w, p) == w
  {
  }

  lemma NotCurrent(w: World, o: nat)
    requires Inv(w) && LateFrame(w, o)
    ensures o != Current(w) && w.links[Current(w)].session.Main?
  {
    hide IssuedOk, DeliveredOk, QueueOk, PumpOk, LinksOk, CurrentOk, AnswersOk, WireOk;
  }

  lemma ServerSide(w: World)
    requires Inv(w)
    ensures DeliveredOk(w.server, w.issued) && AnswersOk(w.client, w.links[Current(w)].answers, w.server.msgSeq)
  {
  }

  // ---------------------------------------------------------------- harmful late frames

  /** An acknowledgement of m takes the packet at the index and everything in front of it. */
  predicate TakesIndex(c: Client, m: nat) {
    0 <= c.idx < |c.queue| && forall i :: 0 <= i <= c.idx ==> c.queue[i].packet.seqNo <= m
  }

  lemma IndexTaken(c: Client, m: nat)
    requires TakesIndex(c, m)
    ensures Acknowledged(c, m).idx < 0
  {
    AcknowledgedKeepsIndex(c, m);
  }

  lemma Unguarded(w: World)
    ensures Guard(w, Deliver)
  {
  }

  /** An answer that was safe keeps the rest safe and the index where it is. */
  lemma HearOne(c: Client, good: seq<Answer>, m: nat, n: nat)
    requires |good| > 0 && AnswersOk(c, good, n) && TakesIndex(c, m)
    ensures AnswersOk(Hear(c, good[0]), good[1..], n) && TakesIndex(Hear(c, good[0]), m)
  {
    DeliverAnswers(c, good, n);
    if good[0].HeartBeatAns? {
      var ack := good[0].msgSeq;
      AckStaysInFront(c, ack);
      AcknowledgedCutsPrefix(c, ack);
      CutFrontAnswers(c, Leading(c.queue, ack), good[1..], n);
    }
  }

  /** The answers on their way leave the index where it is; the one behind them does not. */
  lemma {:induction false} HearAll(w: World, good: seq<Answer>, m: nat, n: nat) returns (steps: seq<Step>)
    requires |w.links| > 0 && w.links[Current(w)].answers == good + [HeartBeatAns(m)]
    requires AnswersOk(w.client, good, n) && TakesIndex(w.client, m)
    ensures Run(w, steps) && !IndexInQueue(After(w, steps).client)
    decreases |good|
  {
    hide AnswersOk, TakesIndex, Guard;
    var c, answers := w.client, w.links[Current(w)].answers;
    assert Guard(w, Deliver) by { Unguarded(w); }
    var w1 := Next(w, Deliver);
    RunOne(w, Deliver);
    if good == [] {
      IndexTaken(c, m);
      steps := [Deliver];
    } else {
      assert answers[0] == good[0] && answers[1..] == good[1..] + [HeartBeatAns(m)];
      HearOne(c, good, m, n);
      var more := HearAll(w1, good[1..], m, n);
      RunJoin(w, [Deliver], more);
      steps := [Deliver] + more;
    }
  }

  /** The client's queue as the acknowledgement will find it: the request in front, if it is
      still there, first gets its callback. */
  lemma CallbackFirst(w: World, m: nat, good: seq<Answer>) returns (s: Step)
    requires |w.links| > 0 && w.links[Current(w)].answers == good + [HeartBeatAns(m)]
    requires QueueOk(w.client, w.issued, m) && Ready(w) && AnswersOk(w.client, good, m)
    requires HeadIsReconnect(w.client) && w.onWire && w.client.queue[0].packet.seqNo > m
    requires exists j :: 0 <= j < |w.client.queue| && w.client.queue[j].packet.seqNo <= m
    ensures Enabled(w, s) && Guard(w, s)
    ensures Next(w, s).links == w.links && TakesIndex(Next(w, s).client, m) && AnswersOk(Next(w, s).client, good, m)
  {
    hide Ready, QueueOk, PumpOk, AnswersOk, TakesIndex;
    var c := w.client;
    s := CallbackStep(w);
    var n := c.queue[c.idx].packet.size - c.queue[c.idx].readIndex;
    assert CallbackFits(c, n, true);
    WrittenKeepsAnswers(c, n, good, true, w.issued, m);
    RequestGone(c, n, w.issued, m);
  }

  lemma RequestGone(c: Client, n: nat, issued: seq<Packet>, m: nat)
    requires QueueOk(c, issued, m) && CallbackFits(c, n, true)
    requires HeadIsReconnect(c) && c.queue[0].packet.seqNo > m
    requires exists j :: 0 <= j < |c.queue| && c.queue[j].packet.seqNo <= m
    ensures TakesIndex(Written(c, n), m)
  {
    hide Waiting, Missing, Written;
    WrittenShape(c, n, true);
    var j :| 0 <= j < |c.queue| && c.queue[j].packet.seqNo <= m;
    assert c.queue[1].packet.seqNo <= m;
  }

  /** Either the acknowledgement would take the index already, or the request is in front. */
  lemma TakenOrRequest(w: World, p: Packet)
    requires Inv(w) && AcksAhead(w, p) && w.client.state.Connected? && w.links[Current(w)].session.Main?
    ensures var c, m := w.client, w.server.msgSeq;
      TakesIndex(c, m) ||
      (HeadIsReconnect(c) && w.onWire && c.queue[0].packet.seqNo > m &&
       exists j :: 0 <= j < |c.queue| && c.queue[j].packet.seqNo <= m)
  {
    hide IssuedOk, DeliveredOk, PumpOk, LinksOk, AnswersOk;
    var c, m := w.client, w.server.msgSeq;
    var j :| 0 <= j < |c.queue| && c.idx <= j && c.queue[j].packet.seqNo <= m;
    assert forall i :: 0 <= i < j && !IsReconnect(c.queue[i].packet) ==> c.queue[i].packet.seqNo <= m;
  }

  lemma QueueSide(w: World)
    requires Inv(w)
    ensures QueueOk(w.client, w.issued, w.server.msgSeq)
  {
  }

  lemma LateBreaks(w: World, o: nat) returns (steps: seq<Step>)
    requires Inv(w) && LateFrame(w, o) && w.client.state.Connected? && AcksAhead(w, w.links[o].wire[0].packet)
    ensures var w1 := HandleMain(Popped(w, o), w.links[o].wire[0].packet);
      Run(w1, steps) && !IndexInQueue(After(w1, steps).client)
  {
    hide Inv, HandleMain, WireOk, QueueOk, PumpOk, AnswersOk, TakesIndex, Next, Enabled, Guard;
    var p, m, cur := w.links[o].wire[0].packet, w.server.msgSeq, Current(w);
    LateWire(w, o);
    NotCurrent(w, o);
    var answers, s := LateEffect(w, o, p);
    var w1 := HandleMain(Popped(w, o), p);
    var good := w.links[cur].answers;
    assert w1.links[Current(w1)].answers == good + [HeartBeatAns(m)];
    ServerSide(w);
    ClientSide(w);
    QueueSide(w);
    TakenOrRequest(w, p);
    if TakesIndex(w.client, m) {
      steps := HearAll(w1, good, m, m);
    } else {
      var first := CallbackFirst(w1, m, good);
      RunOne(w1, first);
      var more := HearAll(Next(w1, first), good, m, m);
      RunJoin(w1, [first], more);
      steps := [first] + more;
    }
  }

  /** When is a late frame harmless for the send index?  Exactly when it does not draw an
      acknowledgement of packets the client has not sent again yet. */
  lemma LateReadSafeExactly(w: World, o: nat, busy: bool, body: Misread)
    requires Inv(w) && LateFrame(w, o) && w.client.state.Connected?
    ensures var w1 := ReceiveChunk(w, o, 1, 0, busy, body);
      !AcksAhead(w, w.links[o].wire[0].packet) <==>
      forall steps :: Run(w1, steps) ==> IndexInQueue(After(w1, steps).client)
  {
    hide Inv, Run, After, LateFrame, AcksAhead, IndexInQueue;
    var w1 := LateRead(w, o, busy, body);
    assert o < |w.links| && |w.links[o].wire| > 0 by { LateWaits(w, o); }
    if AcksAhead(w, w.links[o].wire[0].packet) {
      var steps := LateBreaks(w, o);
      assert Run(w1, steps) && !IndexInQueue(After(w1, steps).client);
    } else {
      LateKeeps(w, o);
      forall steps | Run(w1, steps)
        ensures IndexInQueue(After(w1, steps).client)
      {
        RunKeeps(w1, steps);
        IndexInside(After(w1, steps));
      }
    }
  }

  lemma LateWaits(w: World, o: nat)
    requires LateFrame(w, o)
    ensures o < |w.links| && |w.links[o].wire| > 0
  {
  }

  // ---------------------------------------------------------------- the failing input

  /** Message 2 is dispatched, the heartbeat behind it waits on the first link; the client has
      reconnected, its request was granted while the first link's strand was busy. */
  lemma LateHeartBeatReachable()
    ensures exists w :: Reachable(w) && LateFrame(w, 0) && w.client.state.Connected? && AcksAhead(w, P3)
                        && w.links[0].wire == [Whole(P3)] && 0 in w.detaching
  {
    SendingReachable();
    var w1 := Sending;
    var w2 := w1.(client := Client([Queued(P2, 10)], 1, 2, Connected, Some(1), 0), onWire := false);
    ReachStep(w1, SendCallback(10), w2);
    var w3 := w2.(client := Client([Queued(P2, 10), Queued(P3, 0)], 1, 3, Connected, Some(1), 1), issued := [P1, P2, P3]);
    ReachStep(w2, HeartBeat, w3);
    var w4 := w3.(links := [Link([Whole(P2), Whole(P3)], [], Main)], onWire := true);
    ReachTransmit(w3, w4.links, w4);
    var w5 := w4.(links := [Link([Whole(P3)], [], Main)], server := Serving(2, [P1, P2]));
    ReachMainReceive(w4, P2, [Whole(P3)], w5.links[0], w5);
    DroppedReachable(w5);
  }

  const M4 := Packet(4, User, true, 10)
  const R5 := Packet(5, ReconnectReq(Some(1)), false, 20)

  lemma DroppedReachable(w5: World)
    requires w5 == World(Client([Queued(P2, 10), Queued(P3, 0)], 1, 3, Connected, Some(1), 1),
                         [Link([Whole(P3)], [], Main)], 0, true, Serving(2, [P1, P2]), [P1, P2, P3], {}, {})
    requires Reachable(w5)
    ensures exists w :: Reachable(w) && LateFrame(w, 0) && w.client.state.Connected? && AcksAhead(w, P3)
                        && w.links[0].wire == [Whole(P3)] && 0 in w.detaching
  {
    var q, q' := [Queued(P2, 10), Queued(P3, 0), Queued(M4, 0)], [Queued(P2, 0), Queued(P3, 0), Queued(M4, 0)];
    var w6 := w5.(client := w5.client.(state := Disconnected, sends := 0));
    ReachStep(w5, Drop, w6);
    var w7 := w6.(client := Client(q, 1, 4, OnConnecting, Some(1), 0), issued := [P1, P2, P3, M4]);
    ReachStep(w6, UserSend(0, true), w7);
    var w8 := World(Client([Queued(R5, 0)] + q', 0, 5, Connected, Some(1), 1),
                    [w5.links[0], Link([], [], Fresh(0))], 0, false, w5.server, [P1, P2, P3, M4, R5], {}, {});
    assert Rewound(q) == q';
    ReachReconnect(w7, 20, w8);
    var w9 := w8.(links := [w5.links[0], Link([Whole(R5)], [], Fresh(0))], onWire := true);
    ReachTransmit(w8, w9.links, w9);
    var w10 := w9.(client := w9.client.(queue := q'), onWire := false);
    assert w9.client.queue[..0] + w9.client.queue[1..] == q';
    ReachStep(w9, SendCallback(20), w10);
    GrantedReachable(w10, q');
  }

  lemma GrantedReachable(w10: World, q: seq<Queued>)
    requires q == [Queued(P2, 0), Queued(P3, 0), Queued(M4, 0)] && Reachable(w10)
    requires w10 == World(Client(q, 0, 5, Connected, Some(1), 1),
                          [Link([Whole(P3)], [], Main), Link([Whole(R5)], [], Fresh(0))], 0, false, Serving(2, [P1, P2]),
                          [P1, P2, P3, M4, R5], {}, {})
    ensures exists w :: Reachable(w) && LateFrame(w, 0) && w.client.state.Connected? && AcksAhead(w, P3)
                        && w.links[0].wire == [Whole(P3)] && 0 in w.detaching
  {
    var s := Receive(1, 1, 0, true, Throws);
    assert [Whole(R5)][1..] == [] && [Whole(R5)][..1] == [Whole(R5)];
    var w11 := Next(w10, s);
    var resumed := Resume(Popped(w10, 1), 1, true, Aligned);
    assert w11 == resumed.(server := resumed.server.(pending := 0));
    assert resumed.links[0] == Supersede(w10.links[0], false, 0);
    ReachStep(w10, s, w11);
    LateHeartBeat(w11);
  }

  lemma LateHeartBeat(w11: World)
    requires Reachable(w11) && w11.client == Client([Queued(P2, 0), Queued(P3, 0), Queued(M4, 0)], 0, 5, Connected, Some(1), 1)
    requires |w11.links| == 2 && w11.links[0] == Link([Whole(P3)], [], Superseded) && w11.detaching == {0}
    requires w11.server.link == Some(1) && w11.server.pending == 0 && w11.server.msgSeq == 2
    requires w11.issued == [P1, P2, P3, M4, R5]
    ensures exists w :: Reachable(w) && LateFrame(w, 0) && w.client.state.Connected? && AcksAhead(w, P3)
                        && w.links[0].wire == [Whole(P3)] && 0 in w.detaching
  {
    assert w11.client.queue[0].packet.seqNo <= 2;
    assert Known(w11.issued, P3);
    assert WireOk(w11.links[0].wire, w11.issued, 2);
  }

  // ---------------------------------------------------------------- a late detaching

  /** When the detaching runs at last it cuts the session from the link it has taken over: the
      session is still read there, but sends nothing any more. */
  lemma LateDetachSilences(w: World, o: nat)
    requires Inv(w) && LateFrame(w, o)
    ensures var w1 := DetachLink(w, o);
      && Inv(w1) && w1.server.link.None? && w1.links[Current(w1)].session.Main?
      && forall p :: !IsReconnect(p) ==>
           forall l :: 0 <= l < |w1.links| ==> HandleMain(w1, p).links[l].answers == w1.links[l].answers
  {
    hide IssuedOk, DeliveredOk, QueueOk, PumpOk, LinksOk, CurrentOk, AnswersOk, WireOk;
    NotCurrent(w, o);
    DetachKeeps(w, o);
  }

  // ---------------------------------------------------------------- a late frame in the middle

  /** A late chunk that meets an unfinished frame of the new link in the shared packet is taken
      for the rest of it: the server's number becomes the frame's, and its packet is lost. */
  lemma LateTears(w: World, o: nat, count: nat, tail: nat, busy: bool, body: Misread)
    requires Inv(w) && o < |w.links| && w.links[o].session.Superseded? && count <= |w.links[o].wire|
    requires w.server.link == Some(Current(w)) && |w.links[Current(w)].wire| > 0
    requires var f := w.links[Current(w)].wire[0];
      && Missing(w.issued, w.server.msgSeq, f.packet) && HEADER_SIZE <= w.server.pending < f.packet.size
      && w.server.pending + Bytes(w.links[o].wire[..count]) + tail >= f.packet.size
    ensures Lost(ReceiveChunk(w, o, count, tail, busy, body), w.links[Current(w)].wire[0].packet)
  {
    hide IssuedOk, QueueOk, PumpOk, CurrentOk, AnswersOk, TakenOk, WireOk;
    var p := w.links[Current(w)].wire[0].packet;
    assert w.links[Current(w)].wire[0].Whole? by { MainWire(w, Current(w)); }
    assert p !in w.server.log;
    assert ReceiveChunk(w, o, count, tail, busy, body) == Tear(w, o, count, tail);
  }
}
