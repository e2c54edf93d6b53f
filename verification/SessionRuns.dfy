/** Runs put together: states that guarded runs from the start reach. */
module SessionRuns {
  import opened Wrappers
  import opened ClientSession
  import opened SessionProtocol
  import opened SessionInvariant

  /** A reliable packet the server will never accept any more, and never dispatched. */
  ghost predicate Lost(w: World, p: Packet) {
    Known(w.issued, p) && p.reliable && p.seqNo <= w.server.msgSeq && p !in w.server.log
  }

  lemma NothingLostInInv(w: World, p: Packet)
    requires Inv(w)
    ensures !Lost(w, p)
  {
  }

  lemma NotYetDispatched(w: World, p: Packet)
    requires Inv(w) && Missing(w.issued, w.server.msgSeq, p)
    ensures p !in w.server.log && p.seqNo >= 1
  {
  }

  /** A chunk of whole frames, on whose outcome nothing else bears. */
  function Read(l: nat, count: nat): Step {
    Receive(l, count, 0, false, Throws)
  }

  lemma RunOne(w: World, s: Step)
    requires Enabled(w, s) && Guard(w, s)
    ensures Run(w, [s]) && After(w, [s]) == Next(w, s)
  {
    hide Next, Enabled, Guard;
    assert [s][1..] == [];
    assert Run(Next(w, s), []);
  }

  lemma {:induction false} RunJoin(w: World, a: seq<Step>, b: seq<Step>)
    requires Run(w, a) && Run(After(w, a), b)
    ensures Run(w, a + b) && After(w, a + b) == After(After(w, a), b)
    decreases |a|
  {
    hide Next, Enabled, Guard;
    if a == [] {
      assert [] + b == b;
    } else {
      RunJoin(Next(w, a[0]), a[1..], b);
      assert (a + b)[1..] == a[1..] + b;
    }
  }

  ghost predicate Reachable(w: World) {
    exists steps :: Run(Start, steps) && After(Start, steps) == w
  }

  lemma ReachStep(w: World, s: Step, w': World)
    requires Reachable(w) && Enabled(w, s) && Guard(w, s) && w' == Next(w, s)
    ensures Reachable(w')
  {
    hide Next, Enabled, Guard;
    var steps :| Run(Start, steps) && After(Start, steps) == w;
    RunOne(w, s);
    RunJoin(Start, steps, [s]);
  }

  /** The socket connects, and the queue is rewound behind the request. */
  lemma ReachReconnect(w: World, size: nat, w': World)
    requires Reachable(w) && |w.links| > 0 && w.client.state.OnConnecting? && HEADER_SIZE <= size <= BUFFER_SIZE
    requires CleanQueue(w.client)
    requires w' == Next(w.(client := NewSocket(w.client)), Reconnect(size))
    ensures Reachable(w')
  {
    hide Reconnected;
    var w1 := w.(client := NewSocket(w.client));
    ReachStep(w, Open, w1);
    ReachStep(w1, Reconnect(size), w');
  }

  /** What the main session's handler sends back, and the server after it. */
  function Reply(s: Server, p: Packet): seq<Answer> {
    match p.kind
    case ConnectReq => [ConnectAns(s.token + 1)]
    case HeartBeatReq => [HeartBeatAns(s.msgSeq)]
    case _ => []
  }

  function Moved(s: Server, p: Packet): Server {
    s.(msgSeq := p.seqNo, token := if p.kind.ConnectReq? then s.token + 1 else s.token,
       registered := p.kind.ConnectReq? || s.registered, log := s.log + [p])
  }

  /** The main session of the first link receives one frame and answers there. */
  lemma ReachMainReceive(w: World, p: Packet, rest: seq<Frame>, link: Link, w': World)
    requires Reachable(w) && |w.links| > 0 && w.links[0].session.Main? && w.links[0].wire == [Whole(p)] + rest
    requires w.server.link == Some(0) && w.server.received.Aligned? && w.server.pending == 0
    requires !IsReconnect(p) && p.seqNo > w.server.msgSeq
    requires link == Link(rest, w.links[0].answers + Reply(w.server, p), Main)
    requires w' == w.(links := w.links[0 := link], server := Moved(w.server, p))
    ensures Reachable(w')
  {
    assert w.links[0].wire[1..] == rest;
    var w1 := Popped(w, 0);
    assert w.links[0].answers + [] == w.links[0].answers;
    assert HandleMain(w1, p).links == w'.links;
    assert MainChunk(w, 0, 1) == w';
    ReachStep(w, Read(0, 1), w');
  }

  /** The packet at the index goes out whole on the last link. */
  lemma ReachTransmit(w: World, links: seq<Link>, w': World)
    requires Reachable(w) && |w.links| > 0 && Enabled(w, Transmit) && w.client.queue[w.client.idx].readIndex == w.partial
    requires |links| == |w.links| && links[..Current(w)] == w.links[..Current(w)]
    requires links[Current(w)] == w.links[Current(w)].(
               wire := w.links[Current(w)].wire + [Whole(w.client.queue[w.client.idx].packet)])
    requires w' == w.(links := links, onWire := true)
    ensures Reachable(w')
  {
    var cur := Current(w);
    assert forall i :: 0 <= i < cur ==> w.links[..cur][i] == w.links[i] && links[..cur][i] == links[i];
    assert w.links[cur := links[cur]] == links;
    ReachStep(w, Transmit, w');
  }

  const P1 := Packet(1, ConnectReq, false, 10)
  const P2 := Packet(2, User, true, 10)
  const P3 := Packet(3, HeartBeatReq, true, 10)

  /** The main session on the first link, having dispatched `log`. */
  function Serving(msgSeq: nat, log: seq<Packet>): Server {
    Server(msgSeq, 1, true, log, Some(0), Aligned, 0)
  }

  /** A client that is connected, knows its token, and is sending its first message. */
  const Talking := World(
    Client([Queued(P2, 0)], 0, 2, Connected, Some(1), 1),
    [Link([], [], Main)], 0, false, Serving(1, [P1]), [P1, P2], {}, {})

  lemma TalkingReachable()
    ensures Reachable(Talking)
  {
    var c0 := Client([Queued(P1, 0)], 0, 1, Connected, None, 1);
    assert Start == World(c0, [Link([], [], Main)], 0, false, Server(0, 0, false, [], Some(0), Aligned, 0), [P1], {}, {});
    assert Run(Start, []);
    var w1 := Start.(links := [Link([Whole(P1)], [], Main)], onWire := true);
    ReachTransmit(Start, w1.links, w1);
    var w2 := w1.(client := c0.(queue := [], sends := 0), onWire := false);
    assert c0.queue[..0] + c0.queue[1..] == [];
    ReachStep(w1, SendCallback(10), w2);
    var w3 := w2.(links := [Link([], [ConnectAns(1)], Main)], server := Serving(1, [P1]));
    ReachMainReceive(w2, P1, [], w3.links[0], w3);
    TokenReachable(w3);
  }

  lemma TokenReachable(w3: World)
    requires w3 == World(Client([], 0, 1, Connected, None, 0), [Link([], [ConnectAns(1)], Main)], 0, false,
                         Serving(1, [P1]), [P1], {}, {})
    requires Reachable(w3)
    ensures Reachable(Talking)
  {
    var w4 := w3.(links := [Link([], [], Main)], client := w3.client.(token := Some(1)));
    assert w3.links[0].answers[1..] == [];
    assert w3.links[0 := Link([], [], Main)] == w4.links;
    ReachStep(w3, Deliver, w4);
    assert Issue(w4.client, User, true, 10) == Talking.client;
    ReachStep(w4, UserSend(0, true), Talking);
  }

  /** Its first message is on the wire. */
  const Sending := Talking.(links := [Link([Whole(P2)], [], Main)], onWire := true)

  lemma SendingReachable()
    ensures Reachable(Sending)
  {
    TalkingReachable();
    ReachTransmit(Talking, Sending.links, Sending);
  }

  /** It was sent and dispatched, and nothing waits. */
  const Idle := World(
    Client([Queued(P2, 10)], 1, 2, Connected, Some(1), 0),
    [Link([], [], Main)], 0, false, Serving(2, [P1, P2]), [P1, P2], {}, {})

  lemma IdleReachable()
    ensures Reachable(Idle)
  {
    SendingReachable();
    var w := Sending.(links := [Link([], [], Main)], server := Serving(2, [P1, P2]));
    ReachMainReceive(Sending, P2, [], w.links[0], w);
    ReachStep(w, SendCallback(10), Idle);
  }
}
