/** Two of the conditions the protocol depends on, each with exactly what fails without it: a
    clean queue at a reconnect, and no acknowledgement of an earlier connection handled after
    a reconnect. */
module SessionLimits {
  import opened Wrappers
  import opened ClientSession
  import opened SessionProtocol
  import opened SessionInvariant
  import opened SessionClientSteps
  import opened SessionTheorems
  import opened SessionRuns

  // ---------------------------------------------------------------- a stuck reconnect request

  /** The shortest continuation in which a stuck request is replayed behind the new one. */
  function ReplayStuck(l: nat, size: nat): seq<Step> {
    [Transmit, SendCallback(size), Read(l, 1), Transmit, Read(l, 1)]
  }

  lemma RunOf5(w: World, a: Step, b: Step, c: Step, d: Step, e: Step, w1: World, w2: World, w3: World, w4: World)
    requires Enabled(w, a) && Guard(w, a) && w1 == Next(w, a)
    requires Enabled(w1, b) && Guard(w1, b) && w2 == Next(w1, b)
    requires Enabled(w2, c) && Guard(w2, c) && w3 == Next(w2, c)
    requires Enabled(w3, d) && Guard(w3, d) && w4 == Next(w3, d)
    requires Enabled(w4, e) && Guard(w4, e)
    ensures Run(w, [a, b, c, d, e]) && After(w, [a, b, c, d, e]) == Next(w4, e)
  {
    hide Next, Enabled, Guard;
    assert [a, b, c, d, e][1..] == [b, c, d, e];
    assert [b, c, d, e][1..] == [c, d, e];
    assert [c, d, e][1..] == [d, e];
    assert [d, e][1..] == [e];
    assert [e][1..] == [];
    assert Run(Next(w4, e), []);
    assert Run(w4, [e]) && After(w4, [e]) == Next(w4, e);
    assert Run(w3, [d, e]) && After(w3, [d, e]) == Next(w4, e);
    assert Run(w2, [c, d, e]) && After(w2, [c, d, e]) == Next(w4, e);
    assert Run(w1, [b, c, d, e]) && After(w1, [b, c, d, e]) == Next(w4, e);
  }

  predicate TokenAgrees(w: World) {
    Grants(w.server, w.client.token)
  }

  /** Right after the reconnect: the new request, the stuck one, and the rest. */
  lemma AfterDirtyReconnect(w: World, size: nat) returns (w1: World)
    requires |w.links| > 0 && Enabled(w, Reconnect(size)) && HeadIsReconnect(w.client) && w.client.sends == 0
    ensures w1 == Next(w, Reconnect(size))
    ensures w1.client.idx == 0 && w1.client.sends == 1 && w1.client.state.Connected? && |w1.client.queue| >= 2
    ensures w1.client.queue[0] == Queued(Packet(w.client.msgSeq + 1, ReconnectReq(w.client.token), false, size), 0)
    ensures w1.client.queue[1] == Queued(w.client.queue[0].packet, 0)
    ensures w1.links == w.links + [Link([], [], Fresh(0))] && !w1.onWire && w1.partial == 0
    ensures w1.server == w.server && w.issued <= w1.issued
  {
    w1 := Next(w, Reconnect(size));
  }

  /** The new request is sent, and the stuck one is next. */
  lemma RequestSent(w1: World, size: nat) returns (w2: World, w3: World)
    requires |w1.links| > 0 && !w1.onWire && w1.partial == 0 && w1.links[Current(w1)] == Link([], [], Fresh(0))
    requires w1.client.idx == 0 && w1.client.sends == 1 && w1.client.state.Connected? && |w1.client.queue| >= 2
    requires w1.client.queue[0].readIndex == 0 && w1.client.queue[0].packet.size == size && !w1.client.queue[0].packet.reliable
    ensures Enabled(w1, Transmit) && Guard(w1, Transmit) && w2 == Next(w1, Transmit)
    ensures Enabled(w2, SendCallback(size)) && Guard(w2, SendCallback(size)) && w3 == Next(w2, SendCallback(size))
    ensures |w3.links| == |w1.links| && w3.links[Current(w1)] == Link([Whole(w1.client.queue[0].packet)], [], Fresh(0))
    ensures w3.client.queue == w1.client.queue[1..] && w3.client.idx == 0 && w3.client.sends == 1 && w3.client.state.Connected?
    ensures !w3.onWire && w3.partial == 0 && w3.server == w1.server && w3.issued == w1.issued
  {
    w2 := Next(w1, Transmit);
    assert w2.links[Current(w1)] == Link([Whole(w1.client.queue[0].packet)], [], Fresh(0));
    w3 := Next(w2, SendCallback(size));
    assert w1.client.queue[..0] + w1.client.queue[1..] == w1.client.queue[1..];
  }

  /** With a request of an earlier attempt still queued, replaying it on the resumed session
      raises the server's number past every reliable packet issued before that request. */
  lemma DirtyReconnectLoses(w: World, size: nat, p: Packet)
    requires Inv(w) && Enabled(w, Reconnect(size)) && TokenAgrees(w) && HeadIsReconnect(w.client)
    requires Missing(w.issued, w.server.msgSeq, p) && p.seqNo < w.client.queue[0].packet.seqNo
    ensures var w1, steps := Next(w, Reconnect(size)), ReplayStuck(|w.links|, size);
      Run(w1, steps) && Lost(After(w1, steps), p)
  {
    hide Inv, Next, Enabled, Guard;
    assert |w.links| > 0 && w.client.state.Opened? by { WasOpened(w, size); }
    NotYetDispatched(w, p);
    NoneSent(w);
    var w1 := AfterDirtyReconnect(w, size);
    var l := |w.links|;
    var request, stuck := w1.client.queue[0].packet, w1.client.queue[1].packet;
    var w2, w3 := RequestSent(w1, size);
    var w4 := ReceiveRequest(w3, l, request);
    var w5 := StuckSent(w4);
    ReceiveStuck(w5, l, stuck);
    RunOf5(w1, Transmit, SendCallback(size), Read(l, 1), Transmit, Read(l, 1), w2, w3, w4, w5);
    var w6 := Next(w5, Read(l, 1));
    assert w6.server.log == w.server.log + [stuck];
  }

  lemma StuckSent(w: World) returns (w1: World)
    requires |w.links| > 0 && w.links[Current(w)].session.Main? && w.links[Current(w)].wire == [] && !w.onWire && w.partial == 0
    requires w.client.idx == 0 && w.client.sends == 1 && |w.client.queue| > 0 && w.client.queue[0].readIndex == 0
    ensures Enabled(w, Transmit) && Guard(w, Transmit) && w1 == Next(w, Transmit)
    ensures w1.server == w.server && w1.issued == w.issued && |w1.links| == |w.links|
    ensures w1.links[Current(w)].wire == [Whole(w.client.queue[0].packet)] && w1.links[Current(w)].session.Main?
  {
    w1 := Next(w, Transmit);
  }

  lemma WasOpened(w: World, size: nat)
    requires Enabled(w, Reconnect(size))
    ensures |w.links| > 0 && w.client.state.Opened?
  {
  }

  /** The new request is granted. */
  lemma ReceiveRequest(w: World, l: nat, p: Packet) returns (w': World)
    requires |w.links| > 0 && l < |w.links| && w.links[l] == Link([Whole(p)], [], Fresh(0)) && p.seqNo > 0
    requires p.kind.ReconnectReq? && Grants(w.server, p.kind.token)
    ensures w' == Next(w, Read(l, 1)) && Enabled(w, Read(l, 1)) && Guard(w, Read(l, 1))
    ensures |w'.links| == |w.links| && w'.links[l].wire == [] && w'.links[l].session.Main?
    ensures w'.client == w.client && w'.issued == w.issued && w'.onWire == w.onWire && w'.partial == w.partial
    ensures w'.server.msgSeq == w.server.msgSeq && w'.server.log == w.server.log && w'.server.received.Aligned?
  {
    w' := Next(w, Read(l, 1));
    assert [Whole(p)][1..] == [] && [Whole(p)][..1] == [Whole(p)];
    var w1 := Resume(Popped(w, l), l, false, Aligned);
    assert w' == w1.(server := w1.server.(pending := 0));
  }

  /** The stuck request is read by the main session, whatever it answers. */
  lemma ReceiveStuck(w: World, l: nat, p: Packet)
    requires |w.links| > 0 && l < |w.links| && w.links[l].wire == [Whole(p)] && w.links[l].session.Main?
    requires p.kind.ReconnectReq? && p.seqNo > w.server.msgSeq && w.server.received.Aligned?
    ensures Enabled(w, Read(l, 1)) && Guard(w, Read(l, 1))
    ensures var w' := Next(w, Read(l, 1));
      w'.server.msgSeq == p.seqNo && w'.server.log == w.server.log + [p] && w'.issued == w.issued
  {
    assert [Whole(p)][1..] == [];
    var w1 := w.(server := w.server.(pending := 0));
    assert MainChunk(w1, l, 1) == HandleMain(Popped(w1, l), p);
  }

  /** When is a reconnect safe for a reliable packet the server still lacks, issued before
      any request that is stuck in the queue?  Exactly when no request is stuck. */
  lemma ReconnectSafeExactlyWhenClean(w: World, size: nat, p: Packet)
    requires Inv(w) && Enabled(w, Reconnect(size)) && TokenAgrees(w)
    requires Missing(w.issued, w.server.msgSeq, p)
    requires HeadIsReconnect(w.client) ==> p.seqNo < w.client.queue[0].packet.seqNo
    ensures CleanQueue(w.client) <==>
      forall steps :: Run(Next(w, Reconnect(size)), steps) ==> !Lost(After(Next(w, Reconnect(size)), steps), p)
  {
    hide Inv, Next, Enabled, Grants, After, Run;
    var w1 := Next(w, Reconnect(size));
    if CleanQueue(w.client) {
      assert Inv(w1) by { ReconnectKeeps(w, size); }
      forall steps | Run(w1, steps)
        ensures !Lost(After(w1, steps), p)
      {
        RunKeeps(w1, steps);
        NothingLostInInv(After(w1, steps), p);
      }
    } else {
      StuckIsHead(w);
      DirtyReconnectLoses(w, size, p);
      var steps := ReplayStuck(|w.links|, size);
      assert Run(w1, steps) && Lost(After(w1, steps), p);
    }
  }

  lemma StuckIsHead(w: World)
    requires Inv(w) && !CleanQueue(w.client)
    ensures HeadIsReconnect(w.client)
  {
    hide DeliveredOk, LinksOk, CurrentOk, AnswersOk, PumpOk;
  }

  /** Message 2 is missing at the server, and a request numbered above it is stuck. */
  ghost predicate Stuck(w: World) {
    |w.links| > 0 && Enabled(w, Reconnect(20)) && TokenAgrees(w) && HeadIsReconnect(w.client) &&
    Missing(w.issued, w.server.msgSeq, P2) && P2.seqNo < w.client.queue[0].packet.seqNo
  }

  /** The second attempt to reconnect begins with the first attempt's request still queued,
      the token still the server's, and message 2 not dispatched: what
      ReconnectSafeExactlyWhenClean is about does happen. */
  lemma StuckRequestReachable()
    ensures exists w :: Reachable(w) && Stuck(w)
  {
    TalkingReachable();
    var m3, r4 := Packet(3, User, true, 10), Packet(4, ReconnectReq(Some(1)), false, 20);
    var w1 := Talking.(client := Talking.client.(state := Disconnected, sends := 0));
    ReachStep(Talking, Drop, w1);
    var w2 := w1.(client := Client([Queued(P2, 0), Queued(m3, 0)], 0, 3, OnConnecting, Some(1), 0), issued := [P1, P2, m3]);
    assert Issue(w1.client.(state := OnConnecting), User, true, 10) == w2.client;
    ReachStep(w1, UserSend(0, true), w2);
    var w3 := w2.(client := Client([Queued(r4, 0), Queued(P2, 0), Queued(m3, 0)], 0, 4, Connected, Some(1), 1),
                  links := [Link([], [], Main), Link([], [], Fresh(0))], issued := [P1, P2, m3, r4]);
    assert Rewound(w2.client.queue) == w2.client.queue;
    assert Reconnected(w2.client, 20) == w3.client;
    ReachReconnect(w2, 20, w3);
    StuckAfterDrop(w3, m3, r4);
  }

  lemma StuckAfterDrop(w3: World, m3: Packet, r4: Packet)
    requires m3 == Packet(3, User, true, 10) && r4 == Packet(4, ReconnectReq(Some(1)), false, 20)
    requires w3 == World(Client([Queued(r4, 0), Queued(P2, 0), Queued(m3, 0)], 0, 4, Connected, Some(1), 1),
                         [Link([], [], Main), Link([], [], Fresh(0))], 0, false, Serving(1, [P1]), [P1, P2, m3, r4], {}, {})
    requires Reachable(w3)
    ensures exists w :: Reachable(w) && Stuck(w)
  {
    var m5 := Packet(5, User, true, 10);
    var w4 := w3.(client := w3.client.(state := Disconnected, sends := 0));
    ReachStep(w3, Drop, w4);
    var w5 := w4.(client := Client([Queued(r4, 0), Queued(P2, 0), Queued(m3, 0), Queued(m5, 0)], 0, 5, OnConnecting, Some(1), 0),
                  issued := [P1, P2, m3, r4, m5]);
    assert Issue(w4.client.(state := OnConnecting), User, true, 10) == w5.client;
    ReachStep(w4, UserSend(0, true), w5);
    OpenStuck(w5);
  }

  lemma OpenStuck(w: World)
    requires Reachable(w) && |w.links| > 0 && w.client.state.OnConnecting? && TokenAgrees(w) && HeadIsReconnect(w.client)
    requires Missing(w.issued, w.server.msgSeq, P2) && P2.seqNo < w.client.queue[0].packet.seqNo
    ensures exists w1 :: Reachable(w1) && Stuck(w1)
  {
    var w1 := w.(client := NewSocket(w.client));
    ReachStep(w, Open, w1);
    assert Stuck(w1);
  }

  // ---------------------------------------------------------------- a stale acknowledgement

  /** An earlier link still carries an acknowledgement that would push the index below zero. */
  predicate StaleAck(w: World, l: nat) {
    l + 1 < |w.links| && |w.links[l].answers| > 0 && w.links[l].answers[0].HeartBeatAns? &&
    Hear(w.client, w.links[l].answers[0]).idx < 0
  }

  /** Message 2 and a heartbeat are through; the acknowledgement of 2 is on its way. */
  const Acking := World(
    Client([Queued(P2, 10), Queued(P3, 0)], 1, 3, Connected, Some(1), 1),
    [Link([], [HeartBeatAns(2)], Main)], 0, true, Serving(3, [P1, P2, P3]), [P1, P2, P3], {}, {})

  lemma AckingReachable()
    ensures Reachable(Acking)
  {
    SendingReachable();
    var w1 := Sending;
    var w2 := w1.(client := Client([Queued(P2, 10)], 1, 2, Connected, Some(1), 0), onWire := false);
    ReachStep(w1, SendCallback(10), w2);
    var w3 := w2.(client := Client([Queued(P2, 10), Queued(P3, 0)], 1, 3, Connected, Some(1), 1), issued := [P1, P2, P3]);
    ReachStep(w2, HeartBeat, w3);
    HeartBeatReachable(w3);
  }

  lemma HeartBeatReachable(w3: World)
    requires w3 == World(Client([Queued(P2, 10), Queued(P3, 0)], 1, 3, Connected, Some(1), 1),
                         [Link([Whole(P2)], [], Main)], 0, false, Serving(1, [P1]), [P1, P2, P3], {}, {})
    requires Reachable(w3)
    ensures Reachable(Acking)
  {
    var w4 := w3.(links := [Link([Whole(P2), Whole(P3)], [], Main)], onWire := true);
    ReachTransmit(w3, w4.links, w4);
    var w5 := w4.(links := [Link([Whole(P3)], [], Main)], server := Serving(2, [P1, P2]));
    ReachMainReceive(w4, P2, [Whole(P3)], w5.links[0], w5);
    ReachMainReceive(w5, P3, [], Acking.links[0], Acking);
  }

  /** After a reconnect, handling an acknowledgement that an earlier link still carries can
      push the index below zero. */
  lemma StaleAckBreaksIndex()
    ensures exists w, l :: Reachable(w) && StaleAck(w, l)
  {
    AckingReachable();
    var m4, r5 := Packet(4, User, true, 10), Packet(5, ReconnectReq(Some(1)), false, 20);
    var q, q' := [Queued(P2, 10), Queued(P3, 0), Queued(m4, 0)], [Queued(P2, 0), Queued(P3, 0), Queued(m4, 0)];
    var w7 := Acking.(client := Acking.client.(state := Disconnected, sends := 0));
    ReachStep(Acking, Drop, w7);
    var w8 := w7.(client := Client(q, 1, 4, OnConnecting, Some(1), 0), issued := [P1, P2, P3, m4]);
    ReachStep(w7, UserSend(0, true), w8);
    var first := Acking.links[0];
    var w9 := World(Client([Queued(r5, 0)] + q', 0, 5, Connected, Some(1), 1), [first, Link([], [], Fresh(0))], 0, false,
                    w8.server, [P1, P2, P3, m4, r5], {}, {});
    assert Rewound(q) == q';
    assert Reconnected(w8.client, 20) == w9.client;
    ReachReconnect(w8, 20, w9);
    StaleAckReachable(w9, q', r5);
  }

  lemma StaleAckReachable(w9: World, q: seq<Queued>, r5: Packet)
    requires r5 == Packet(5, ReconnectReq(Some(1)), false, 20) && |q| > 0 && q[0] == Queued(P2, 0)
    requires w9.client == Client([Queued(r5, 0)] + q, 0, 5, Connected, Some(1), 1)
    requires w9.links == [Acking.links[0], Link([], [], Fresh(0))] && w9.partial == 0 && !w9.onWire
    requires Reachable(w9)
    ensures exists w, l :: Reachable(w) && StaleAck(w, l)
  {
    var w10 := w9.(links := [Acking.links[0], Link([Whole(r5)], [], Fresh(0))], onWire := true);
    ReachTransmit(w9, w10.links, w10);
    var w11 := w10.(client := Client(q, 0, 5, Connected, Some(1), 1), onWire := false);
    assert w10.client.queue[..0] + w10.client.queue[1..] == q;
    ReachStep(w10, SendCallback(20), w11);
    AcknowledgedCutsPrefix(w11.client, 2);
    assert StaleAck(w11, 0);
  }
}
