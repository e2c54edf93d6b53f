/** A reconnect request that does not end its chunk.  The resumed session takes over the
    packet being read, whose header fields still show the request: they are read again, and
    the session's number passes everything the request came after. */
module SessionHandover {
  import opened Wrappers
  import opened ClientSession
  import opened SessionProtocol
  import opened SessionInvariant
  import opened SessionServerSteps
  import opened SessionTheorems
  import opened SessionRuns
  import opened SessionPump

  /** After the chunk: what followed the request is unread in the main session's packet,
      behind the request, and has been dispatched to nobody but the replaced session. */
  lemma HandedOver(w: World, l: nat, count: nat, tail: nat, busy: bool, body: Misread) returns (w1: World)
    requires Inv(w) && GrantedNext(w, l) && 0 < count <= |w.links[l].wire| && (count > 1 || tail > 0)
    ensures w1 == ReceiveChunk(w, l, count, tail, busy, body)
    ensures w1 == w.(links := w1.links, server := w1.server, detaching := w1.detaching)
    ensures |w1.links| == |w.links| && w1.links[l].session.Main? && w1.links[l].wire == w.links[l].wire[count..]
    ensures w1.server.msgSeq == w.server.msgSeq && w1.server.log == w.server.log && w1.server.pending == tail
    ensures w1.server.received == Behind(w.links[l].wire[0].packet, Bytes(w.links[l].wire[1..count]) + tail)
  {
    hide Inv, FreshChunk, Resume;
    OpeningFrame(w, l);
    FreshWire(w, l);
    var link := w.links[l];
    w1 := ReceiveChunk(w, l, count, tail, busy, body);
    assert w1 == FreshChunk(w, l, 0, count, tail, busy);
    var resumed := FirstFrame(w, l, count, tail, busy);
    FreshSkips(resumed, l, link.wire[0].packet.seqNo, count - 1, tail, busy);
    assert link.wire[1..][count - 1..] == link.wire[count..];
  }

  /** The request itself is granted, with the rest of its chunk behind it. */
  lemma FirstFrame(w: World, l: nat, count: nat, tail: nat, busy: bool) returns (w1: World)
    requires GrantedNext(w, l) && 0 < count <= |w.links[l].wire| && (count > 1 || tail > 0)
    requires w.links[l].session == Fresh(0) && w.links[l].wire[0].packet.seqNo > 0
    ensures var link, p := w.links[l], w.links[l].wire[0].packet;
      && w1 == w.(links := w1.links, server := w1.server, detaching := w1.detaching)
      && |w1.links| == |w.links| && w1.links[l].session.Main? && w1.links[l].wire == link.wire[1..]
      && w1.server.msgSeq == w.server.msgSeq && w1.server.log == w.server.log && w1.server.pending == tail
      && w1.server.received == Behind(p, Bytes(link.wire[1..count]) + tail)
      && FreshChunk(w, l, 0, count, tail, busy) == FreshChunk(w1, l, p.seqNo, count - 1, tail, busy)
  {
    hide Resume;
    var link, p := w.links[l], w.links[l].wire[0].packet;
    assert link.wire[1..][..count - 1] == link.wire[1..count];
    ResumedLink(Popped(w, l), l, busy, Behind(p, Bytes(link.wire[1..count]) + tail));
    var resumed := Resume(Popped(w, l), l, busy, Behind(p, Bytes(link.wire[1..count]) + tail));
    w1 := resumed.(server := resumed.server.(pending := tail));
  }

  lemma ResumedLink(w: World, l: nat, busy: bool, received: Received)
    requires l < |w.links| && w.links[l].session.Fresh?
    ensures var w1 := Resume(w, l, busy, received);
      && w1 == w.(links := w1.links, server := w1.server, detaching := w1.detaching)
      && |w1.links| == |w.links| && w1.links[l].session.Main? && w1.links[l].wire == w.links[l].wire
      && w1.server.msgSeq == w.server.msgSeq && w1.server.log == w.server.log && w1.server.received == received
  {
  }

  lemma FreshWire(w: World, l: nat)
    requires Inv(w) && l < |w.links| && w.links[l].session.Fresh? && |w.links[l].wire| > 0
    ensures AllWhole(w.links[l].wire)
    ensures forall i :: 0 < i < |w.links[l].wire| ==> !IsReconnect(w.links[l].wire[i].packet)
  {
    hide DeliveredOk, QueueOk, CurrentOk, AnswersOk, PumpOk, IssuedOk;
    var wire := w.links[l].wire;
    assert LinkOk(w.links[l], w.issued, w.server.msgSeq);
    assert forall i :: 0 < i < |wire| ==> wire[i] == wire[1..][i - 1];
  }

  /** Whatever the handler makes of it, reading the request's header again raises the number
      to the request's. */
  lemma ReadAgainRaises(w: World, l: nat, count: nat, tail: nat, busy: bool, body: Misread)
    requires l < |w.links| && w.links[l].session.Main? && count <= |w.links[l].wire|
    requires w.server.received.Behind? && w.server.received.request.seqNo > w.server.msgSeq
    requires w.server.received.unread + Bytes(w.links[l].wire[..count]) + tail - w.server.pending >= w.server.received.request.size
    ensures var w1 := ReceiveChunk(w, l, count, tail, busy, body);
      && w1.server.msgSeq == w.server.received.request.seqNo
      && w1.server.log == w.server.log + [w.server.received.request]
      && w1.issued == w.issued
  {
  }

  // ---------------------------------------------------------------- exactly when it loses

  /** With something unread behind the request, the client's next full message is enough for
      the header to be read again: every reliable packet the request came after is lost. */
  lemma BehindLoses(w: World, p: Packet) returns (steps: seq<Step>)
    requires Ready(w) && w.links[Current(w)].session.Main?
    requires w.server.received.Behind? && w.server.received.unread >= w.server.pending
    requires w.server.received.request.size <= BUFFER_SIZE && !w.server.received.request.reliable
    requires Known(w.issued, p) && p.reliable && p !in w.server.log
    requires w.server.msgSeq < p.seqNo < w.server.received.request.seqNo
    ensures Run(w, steps) && Lost(After(w, steps), p)
  {
    hide PumpOk, Next, Enabled, Guard, ReceiveChunk;
    var l := Current(w);
    var s, w1, j := SendOne(w);
    var more, w2 := PumpOut(w1);
    var wire := w2.links[l].wire;
    assert Wholes(ToSend(w1))[j] == wire[|w1.links[l].wire| + j];
    LongFrame(wire, wire[|w1.links[l].wire| + j]);
    assert wire[..|wire|] == wire;
    ReadAgainRaises(w2, l, |wire|, 0, false, Throws);
    var last := Read(l, |wire|);
    assert Enabled(w2, last) && Guard(w2, last) && Next(w2, last) == ReceiveChunk(w2, l, |wire|, 0, false, Throws) by {
      ReadAll(w2, l);
    }
    RunOne(w, s);
    RunJoin(w, [s], more);
    RunOne(w2, last);
    RunJoin(w, [s] + more, [last]);
    steps := [s] + more + [last];
  }

  lemma ReadAll(w: World, l: nat)
    requires |w.links| > 0 && l == Current(w) && |w.links[l].wire| > 0 && w.links[l].session.Main?
    requires w.server.received.Behind?
    ensures var s := Read(l, |w.links[l].wire|);
      Enabled(w, s) && Guard(w, s) && Next(w, s) == ReceiveChunk(w, l, |w.links[l].wire|, 0, false, Throws)
  {
  }

  /** When is a granted request safe for a reliable packet the server still lacks, numbered
      below it?  Exactly when nothing at all stands behind the request in its chunk: no frame,
      and not a byte of one. */
  lemma GrantSafeExactlyWhenLast(w: World, l: nat, count: nat, tail: nat, busy: bool, body: Misread, p: Packet)
    requires Inv(w) && GrantedNext(w, l) && l == Current(w) && w.client.state.Connected?
    requires count > 0 && Enabled(w, Receive(l, count, tail, busy, body))
    requires Missing(w.issued, w.server.msgSeq, p) && p.seqNo < w.links[l].wire[0].packet.seqNo
    ensures var w1 := Next(w, Receive(l, count, tail, busy, body));
      (count == 1 && tail == 0) <==> forall steps :: Run(w1, steps) ==> !Lost(After(w1, steps), p)
  {
    hide Inv, ReceiveChunk, GrantedNext, Grants, After, Run;
    var w1 := Next(w, Receive(l, count, tail, busy, body));
    if count == 1 && tail == 0 {
      assert !w.links[l].session.Superseded? by { SessionIsFresh(w, l); }
      ReceiveKeeps(w, l, count, tail, busy, body);
      forall steps | Run(w1, steps)
        ensures !Lost(After(w1, steps), p)
      {
        RunKeeps(w1, steps);
        NothingLostInInv(After(w1, steps), p);
      }
    } else {
      SessionIsFresh(w, l);
      var _ := HandedOver(w, l, count, tail, busy, body);
      OpeningFrame(w, l);
      NotYetDispatched(w, p);
      ClientSide(w);
      var steps := BehindLoses(w1, p);
      assert Run(w1, steps) && Lost(After(w1, steps), p);
    }
  }

  lemma SessionIsFresh(w: World, l: nat)
    requires GrantedNext(w, l)
    ensures l < |w.links| && w.links[l].session.Fresh? && |w.links[l].wire| > 0
  {
  }

  lemma ClientSide(w: World)
    requires Inv(w) && w.client.state.Connected?
    ensures Ready(w)
  {
    hide IssuedOk, DeliveredOk, LinksOk, CurrentOk, AnswersOk, TakenOk;
  }

  // ---------------------------------------------------------------- the failing input

  const M3 := Packet(3, User, true, 10)
  const R4 := Packet(4, ReconnectReq(Some(1)), false, 20)

  /** The client has reconnected: message 2, which the server has, and message 3, which it
      lacks, follow the request on the new link. */
  ghost predicate Replayed(w: World) {
    && |w.links| == 2 && w.links[1] == Link([Whole(R4), Whole(P2), Whole(M3)], [], Fresh(0))
    && GrantedNext(w, 1) && w.server.msgSeq == 2 && w.server.log == [P1, P2] && Missing(w.issued, 2, M3)
  }

  lemma ReplayedReachable()
    ensures exists w :: Reachable(w) && Replayed(w)
  {
    IdleReachable();
    var w3 := Idle;
    var w4 := w3.(client := w3.client.(state := Disconnected));
    ReachStep(w3, Drop, w4);
    var w5 := w4.(client := Client([Queued(P2, 10), Queued(M3, 0)], 1, 3, OnConnecting, Some(1), 0), issued := [P1, P2, M3]);
    ReachStep(w4, UserSend(0, true), w5);
    var q := [Queued(P2, 0), Queued(M3, 0)];
    var w6 := w5.(client := Client([Queued(R4, 0)] + q, 0, 4, Connected, Some(1), 1),
                  links := [Link([], [], Main), Link([], [], Fresh(0))], issued := [P1, P2, M3, R4]);
    assert Rewound(w5.client.queue) == q;
    ReachReconnect(w5, 20, w6);
    ReplayReachable(w6, q);
  }

  lemma ReplayReachable(w6: World, q: seq<Queued>)
    requires q == [Queued(P2, 0), Queued(M3, 0)] && Reachable(w6)
    requires w6 == World(Client([Queued(R4, 0)] + q, 0, 4, Connected, Some(1), 1),
                         [Link([], [], Main), Link([], [], Fresh(0))], 0, false, Serving(2, [P1, P2]), [P1, P2, M3, R4], {}, {})
    ensures exists w :: Reachable(w) && Replayed(w)
  {
    var old0 := Link([], [], Main);
    var w7 := w6.(links := [old0, Link([Whole(R4)], [], Fresh(0))], onWire := true);
    ReachTransmit(w6, w7.links, w7);
    var w8 := w7.(client := w7.client.(queue := q), onWire := false);
    assert w7.client.queue[..0] + w7.client.queue[1..] == q;
    ReachStep(w7, SendCallback(20), w8);
    var w9 := w8.(links := [old0, Link([Whole(R4), Whole(P2)], [], Fresh(0))], onWire := true);
    ReachTransmit(w8, w9.links, w9);
    var w10 := w9.(client := Client([Queued(P2, 10), Queued(M3, 0)], 1, 4, Connected, Some(1), 1), onWire := false);
    ReachStep(w9, SendCallback(10), w10);
    var w11 := w10.(links := [old0, Link([Whole(R4), Whole(P2), Whole(M3)], [], Fresh(0))], onWire := true);
    ReachTransmit(w10, w11.links, w11);
    assert Replayed(w11);
  }

  /** The request and the message the server has in one chunk, the missing one in the next:
      the request is read again in its place, and message 3 is lost. */
  lemma MessageThreeLost(w: World, body: Misread)
    requires Inv(w) && Replayed(w)
    ensures var w1 := ReceiveChunk(w, 1, 2, 0, false, body);
      && |w1.links| == 2 && |w1.links[1].wire| == 1
      && Lost(ReceiveChunk(w1, 1, 1, 0, false, body), M3)
  {
    hide Inv, FreshChunk, MainChunk, RecvOnMain;
    var wire := w.links[1].wire;
    var w1 := HandedOver(w, 1, 2, 0, false, body);
    assert wire[1..2] == [Whole(P2)] && wire[2..] == [Whole(M3)];
    assert Bytes([Whole(P2)]) == 10 && Bytes([Whole(M3)]) == 10 by {
      assert [Whole(P2)][1..] == [] && [Whole(M3)][1..] == [];
    }
    assert [Whole(M3)][..1] == [Whole(M3)];
    ReadAgainRaises(w1, 1, 1, 0, false, body);
    assert M3 !in w1.server.log + [R4];
  }
}
