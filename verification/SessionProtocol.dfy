/** The reliable session protocol: one client, the links it opens one after another, and
    the server's session object, with connection drops and reconnects.

    Each step is one lock section of the client or one strand-wrapped callback of the
    server.  Bytes are abstracted to frames here; module Framing covers the byte stream. */
module SessionProtocol {
  import opened Wrappers
  import opened ClientSession

  /** What a BeginSend puts on a connection: a packet from its first byte, or only its tail. */
  datatype Frame = Whole(packet: Packet) | Cut(packet: Packet, from: nat)

  datatype Answer = ConnectAns(token: nat) | ReconnectAns(granted: bool, token: nat) | HeartBeatAns(msgSeq: nat)

  /** The session object a link points to.  Every accepted link starts with a session of
      its own; the main session is the one the client's first connection created.  A
      superseded link still points to the main session, which was attached elsewhere since. */
  datatype Attached = Nobody | Fresh(msgSeq: nat) | Main | Superseded

  datatype Link = Link(wire: seq<Frame>, answers: seq<Answer>, session: Attached)

  /** The main session's receive packet.  Its header fields are read from the start of the
      array: `Behind` is a packet whose read cursor stands behind the request it was handed
      over with; `Torn` is one whose unread bytes no longer begin with a frame. */
  datatype Received = Aligned | Behind(request: Packet, unread: int) | Torn

  /** The main session: last number, token, whether the session manager still holds it, the
      packets handed to the dispatcher so far, the link its answers go to, and its receive
      packet with how many bytes of the next frame are in it already. */
  datatype Server = Server(
    msgSeq: nat, token: nat, registered: bool, log: seq<Packet>, link: Option<nat>, received: Received, pending: nat)

  /** `partial`: bytes of the packet at the index written on the current (last) link.
      `onWire`: all of them are in the stream, though the callback may still be pending.
      `taken`: packets some thread has numbered and not queued yet.
      `issued`: by number, the packet queued under it; a blank where there is none, or none yet.
      `detaching`: links whose detaching is posted to their strand and has not run. */
  datatype World = World(
    client: Client, links: seq<Link>, partial: nat, onWire: bool, server: Server, issued: seq<Packet>,
    detaching: set<nat>, taken: set<Packet>)

  /** Stands for a number under which nothing is queued. */
  function Blank(n: nat): Packet {
    Packet(n, User, false, 0)
  }

  predicate IsReconnect(p: Packet) { p.kind.ReconnectReq? }

  /** A link that may still be read. */
  predicate Live(link: Link) {
    link.session.Fresh? || link.session.Main?
  }

  function Size(f: Frame): nat {
    match f
    case Whole(p) => p.size
    case Cut(p, from) => if from < p.size then p.size - from else 0
  }

  function Bytes(fs: seq<Frame>): nat {
    if fs == [] then 0 else Size(fs[0]) + Bytes(fs[1..])
  }

  // ---------------------------------------------------------------- server

  /** Nothing was put on a wire or taken off one. */
  predicate SameWires(w: World, w': World) {
    |w'.links| == |w.links| && forall l :: 0 <= l < |w.links| ==> w'.links[l].wire == w.links[l].wire
  }

  function SetLink(w: World, l: nat, link: Link): World
    requires l < |w.links|
  {
    w.(links := w.links[l := link])
  }

  function Popped(w: World, l: nat): World
    requires l < |w.links| && |w.links[l].wire| > 0
  {
    SetLink(w, l, w.links[l].(wire := w.links[l].wire[1..]))
  }

  function Answered(link: Link, a: Answer): Link {
    link.(answers := link.answers + [a])
  }

  predicate Grants(server: Server, token: Option<nat>) {
    server.registered && token == Some(server.token)
  }

  /** AttachSession(NULL) on a link: its session, if any, forgets its link. */
  function DetachLink(w: World, l: nat): World
    requires l < |w.links|
  {
    var s := w.links[l].session;
    var w1 := SetLink(w, l, w.links[l].(session := Nobody));
    if s.Main? || s.Superseded? then w1.(server := w1.server.(link := None)) else w1
  }

  /** The link the main session was read from until now.  It is detached at once, unless it
      is not the session's link any more or its strand is busy.  Bytes of an unfinished frame
      stay behind in the packet that is given up. */
  function Supersede(link: Link, atOnce: bool, pending: nat): Link {
    if !link.session.Main? then link
    else
      var wire := if pending > 0 && |link.wire| > 0 then [Cut(link.wire[0].packet, pending)] + link.wire[1..] else link.wire;
      link.(wire := wire, session := if atOnce then Nobody else Superseded)
  }

  function SupersedeAll(w: World, busy: bool): (links: seq<Link>)
    ensures |links| == |w.links|
    ensures forall i :: 0 <= i < |links| ==>
      links[i] == Supersede(w.links[i], !busy && w.server.link == Some(i), w.server.pending)
  {
    seq(|w.links|, i requires 0 <= i < |w.links| =>
      Supersede(w.links[i], !busy && w.server.link == Some(i), w.server.pending))
  }

  /** Recv_Reconnect_Req granted to the fresh session of link l: the main session takes over
      the link and the packet being read. */
  function Resume(w: World, l: nat, busy: bool, received: Received): World
    requires l < |w.links|
  {
    var newToken := w.server.token + 1;
    var links := SupersedeAll(w, busy);
    w.(links := links[l := Answered(links[l].(session := Main), ReconnectAns(true, newToken))],
       detaching := w.detaching + if busy && w.server.link.Some? then {w.server.link.value} else {},
       server := w.server.(token := newToken, link := Some(l), received := received, pending := 0))
  }

  function Refuse(w: World, l: nat): (w': World)
    requires l < |w.links|
    ensures SameWires(w, w')
  {
    SetLink(DetachLink(w, l), l, Answered(w.links[l].(session := Nobody), ReconnectAns(false, 0)))
  }

  /** What the main session sends goes to its link, if it has one. */
  function AnswerMain(w: World, a: Answer): (w': World)
    ensures SameWires(w, w')
  {
    if w.server.link.Some? && w.server.link.value < |w.links| then
      SetLink(w, w.server.link.value, Answered(w.links[w.server.link.value], a))
    else w
  }

  /** A reconnect request read by the main session itself: granted, it stays where it is. */
  function RecvOnMain(w: World, token: Option<nat>): (w': World)
    ensures SameWires(w, w')
  {
    if Grants(w.server, token) then
      var newToken := w.server.token + 1;
      AnswerMain(w.(server := w.server.(token := newToken)), ReconnectAns(true, newToken))
    else if w.server.link.Some? && w.server.link.value < |w.links| then Refuse(w, w.server.link.value)
    else w
  }

  /** Dispatching a packet on the main session. */
  function DispatchMain(w: World, p: Packet): (w': World)
    ensures SameWires(w, w')
  {
    var w0 := w.(server := w.server.(log := w.server.log + [p]));
    var w1 := match p.kind
      case ConnectReq =>
        var newToken := w.server.token + 1;
        AnswerMain(w0.(server := w0.server.(token := newToken, registered := true)), ConnectAns(newToken))
      case ReconnectReq(token) => RecvOnMain(w0, token)
      case HeartBeatReq => AnswerMain(w0, HeartBeatAns(w.server.msgSeq))
      case User => w0;
    w1.(server := w1.server.(msgSeq := p.seqNo))
  }

  function HandleMain(w: World, p: Packet): (w': World)
    ensures SameWires(w, w')
  {
    if p.seqNo > w.server.msgSeq then DispatchMain(w, p) else w
  }

  /** The loop of OnRecvMsg on the main session, over whole frames. */
  function MainChunk(w: World, l: nat, count: nat): World
    requires l < |w.links| && count <= |w.links[l].wire|
    decreases count
  {
    if count == 0 then w
    else
      MainChunk(HandleMain(Popped(w, l), w.links[l].wire[0].packet), l, count - 1)
  }

  /** The loop on a fresh session with number n.  The session is read from the link once,
      before the loop, so it reads on after another one took over the link. */
  function FreshChunk(w: World, l: nat, n: nat, count: nat, tail: nat, busy: bool): World
    requires l < |w.links| && count <= |w.links[l].wire|
    decreases count
  {
    if count == 0 then w
    else
      var p := w.links[l].wire[0].packet;
      var w0 := Popped(w, l);
      if p.seqNo <= n then FreshChunk(w0, l, n, count - 1, tail, busy)
      else if !p.kind.ReconnectReq? || !w.links[l].session.Fresh? then FreshChunk(w0, l, p.seqNo, count - 1, tail, busy)
      else if Grants(w.server, p.kind.token) then
        var behind := Bytes(w0.links[l].wire[..count - 1]) + tail;
        var w1 := Resume(w0, l, busy, if count == 1 && tail == 0 then Aligned else Behind(p, behind));
        FreshChunk(w1.(server := w1.server.(pending := tail)), l, p.seqNo, count - 1, tail, busy)
      else FreshChunk(Refuse(w0, l), l, p.seqNo, count - 1, tail, busy)
  }

  /** What the handler makes of the bytes that stand where a body should be. */
  datatype Misread = Throws | Asks(token: Option<nat>)

  /** The header of the handed-over request is read again once enough bytes are unread. */
  function ReadAgain(w: World, body: Misread, tail: nat): World
    requires w.server.received.Behind?
  {
    var request, unread := w.server.received.request, w.server.received.unread;
    if unread < request.size then w
    else
      var w1 :=
        if request.seqNo <= w.server.msgSeq then w
        else
          var w0 := w.(server := w.server.(log := w.server.log + [request]));
          var w2 := if body.Throws? then w0 else RecvOnMain(w0, body.token);
          w2.(server := w2.server.(msgSeq := request.seqNo));
      w1.(server := w1.server.(received := if unread == request.size && tail == 0 then Aligned else Torn))
  }

  function CloseLink(w: World, l: nat): World
    requires l < |w.links|
  {
    var w1 := DetachLink(w, l);
    SetLink(w1, l, w1.links[l].(wire := []))
  }

  /** The bytes of a chunk that do not belong behind those in the main session's packet.  If the
      header of a frame is in there already, they complete it: its number counts as read, while
      what is dispatched under it is not the packet. */
  function Tear(w: World, l: nat, count: nat, tail: nat): World
    requires l < |w.links| && count <= |w.links[l].wire|
  {
    var s := w.server;
    var k := if s.link.Some? && s.link.value < |w.links| then s.link.value else l;
    var begun := k != l && s.pending >= HEADER_SIZE && |w.links[k].wire| > 0 && w.links[k].wire[0].Whole?;
    if begun && s.pending + Bytes(w.links[l].wire[..count]) + tail >= w.links[k].wire[0].packet.size &&
       w.links[k].wire[0].packet.seqNo > s.msgSeq
    then w.(server := s.(received := Torn, msgSeq := w.links[k].wire[0].packet.seqNo))
    else w.(server := s.(received := Torn))
  }

  predicate AllWhole(fs: seq<Frame>) {
    forall i :: 0 <= i < |fs| ==> fs[i].Whole?
  }

  /** OnRecvMsg for a chunk that completes `count` frames and leaves `tail` bytes of the next. */
  function ReceiveChunk(w: World, l: nat, count: nat, tail: nat, busy: bool, body: Misread): World
    requires l < |w.links| && count <= |w.links[l].wire|
  {
    var link := w.links[l];
    var s := w.server;
    match link.session
    case Nobody => CloseLink(w, l)
    case Fresh(n) =>
      if AllWhole(link.wire[..count]) then FreshChunk(w, l, n, count, tail, busy) else CloseLink(w, l)
    case _ =>
      match s.received
      case Torn => w
      case Behind(request, unread) =>
        var w1 := SetLink(w, l, link.(wire := link.wire[count..]));
        ReadAgain(w1.(server := s.(received := Behind(request, unread + Bytes(link.wire[..count]) + tail - s.pending),
                                   pending := tail)), body, tail)
      case Aligned =>
        if !AllWhole(link.wire[..count]) || (link.session.Superseded? && s.pending > 0) then Tear(w, l, count, tail)
        else if link.session.Main? || tail == 0 then MainChunk(w.(server := s.(pending := tail)), l, count)
        else
          var w1 := MainChunk(w, l, count);
          w1.(server := w1.server.(received := Torn))
  }

  // ---------------------------------------------------------------- steps

  datatype Step =
    | UserSend(dataLength: nat, reliable: bool)  // a public SendMsg that no other thread interrupts
    | HeartBeat                      // a Send_HeartBeat_Req that no other thread interrupts
    | Attempt                        // the public SendMsg starts to reconnect
    | Number(kind: Kind, reliable: bool, size: nat)  // a thread takes the next number, outside the lock
    | Queue(packet: Packet)          // a thread queues what it has numbered, in the lock
    | Open                           // the new socket is connected, and the state says so
    | Transmit                       // the rest of the packet at the index enters the stream
    | SendCallback(written: nat)
    | Drop                           // the client sees its connection (or attempt) fail
    | Reconnect(size: nat)           // the request and the rewinding, in the lock
    | Receive(link: nat, count: nat, tail: nat, busy: bool, body: Misread)
    | Detach(link: nat)              // a posted detaching runs
    | ServerClose(link: nat)
    | Deliver                        // the client handles the next answer of its current link
    | Sweep                          // the idle sweep forgets a detached session

  function Current(w: World): nat
    requires |w.links| > 0
  {
    |w.links| - 1
  }

  /** How much of a frame behind `count` complete ones can have arrived. */
  predicate TailFits(w: World, l: nat, count: nat, tail: nat)
    requires |w.links| > 0 && l < |w.links| && count <= |w.links[l].wire|
  {
    if count < |w.links[l].wire| then tail == 0 || tail < Size(w.links[l].wire[count])
    else l == Current(w) ==> tail <= if w.onWire then 0 else w.partial
  }

  function Enabled(w: World, s: Step): bool {
    |w.links| > 0 &&
    var c := w.client;
    match s
    case UserSend(_, _) => true
    case HeartBeat => true
    case Attempt => true
    case Number(kind, _, size) => !kind.ReconnectReq? && !kind.ConnectReq? && HEADER_SIZE <= size <= BUFFER_SIZE
    case Queue(p) => p in w.taken && 0 < p.seqNo <= |w.issued|
    case Open => c.state.OnConnecting?
    case Transmit => c.sends == 1 && !w.onWire && 0 <= c.idx < |c.queue|
    case SendCallback(n) =>
      c.sends == 1 && 0 <= c.idx < |c.queue| &&
      var rest := c.queue[c.idx].packet.size - c.queue[c.idx].readIndex;
      if w.onWire then n == rest else 0 < n < rest
    case Drop => !c.state.Disconnected?
    case Reconnect(size) => c.state.Opened? && HEADER_SIZE <= size <= BUFFER_SIZE
    case Receive(l, n, tail, _, _) =>
      l < |w.links| && n <= |w.links[l].wire| && n + tail > 0 && TailFits(w, l, n, tail) &&
      (w.links[l].session.Main? || w.links[l].session.Superseded? ==>
         !w.server.received.Torn? && (n == 0 ==> w.server.pending < tail))
    case Detach(l) => l < |w.links| && l in w.detaching
    case ServerClose(l) => l < |w.links|
    case Deliver => |w.links[Current(w)].answers| > 0
    case Sweep => w.server.link.None?
  }

  function Numbered(w: World, c: Client, added: seq<Packet>): World {
    w.(client := c, issued := w.issued + added)
  }

  /** The packets one public SendMsg numbers; a spoiled one is never queued. */
  function IssuedBySend(c: Client, dataLength: nat, reliable: bool): seq<Packet> {
    var n := c.msgSeq + 1;
    if Refused(dataLength) then []
    else if Spoiled(dataLength) then [Blank(n)]
    else
      [Packet(n, User, reliable, HEADER_SIZE + dataLength)] +
      if n % 10 == 0 && Up(StartReconnect(c).state) then [Packet(n + 1, HeartBeatReq, true, HEADER_SIZE)]
      else []
  }

  function Hear(c: Client, a: Answer): Client {
    match a
    case ConnectAns(t) => c.(token := Some(t))
    case ReconnectAns(granted, t) => if granted then c.(token := Some(t)) else c
    case HeartBeatAns(n) => Acknowledged(c, n)
  }

  function Next(w: World, s: Step): World
    requires Enabled(w, s)
  {
    var c := w.client;
    var cur := w.links[Current(w)];
    match s
    case UserSend(n, r) => Numbered(w, SendMsg(c, n, r), IssuedBySend(c, n, r))
    case HeartBeat => Numbered(w, SendHeartBeat(c), [Packet(c.msgSeq + 1, HeartBeatReq, true, HEADER_SIZE)])
    case Attempt => w.(client := StartReconnect(c))
    case Number(kind, reliable, size) =>
      var n := c.msgSeq + 1;
      Numbered(w, c.(msgSeq := n), [Blank(n)]).(taken := w.taken + {Packet(n, kind, reliable, size)})
    case Queue(p) =>
      w.(client := Push(c, p), issued := w.issued[p.seqNo - 1 := p], taken := w.taken - {p})
    case Open => w.(client := NewSocket(c))
    case Transmit =>
      var q := c.queue[c.idx];
      var frame := if q.readIndex == w.partial then Whole(q.packet) else Cut(q.packet, q.readIndex);
      SetLink(w, Current(w), cur.(wire := cur.wire + [frame])).(onWire := true)
    case SendCallback(n) =>
      w.(client := Written(c, n), partial := if w.onWire then 0 else w.partial + n, onWire := false)
    case Drop => w.(client := Closed(c))
    case Reconnect(size) =>
      Numbered(w, Reconnected(c, size), [Packet(c.msgSeq + 1, ReconnectReq(c.token), false, size)])
        .(links := w.links + [Link([], [], Fresh(0))], partial := 0, onWire := false)
    case Receive(l, n, tail, busy, body) => ReceiveChunk(w, l, n, tail, busy, body)
    case Detach(l) => DetachLink(w, l).(detaching := w.detaching - {l})
    case ServerClose(l) => CloseLink(w, l)
    case Deliver =>
      SetLink(w, Current(w), cur.(answers := cur.answers[1..])).(client := Hear(c, cur.answers[0]))
    case Sweep => w.(server := w.server.(registered := false))
  }

  /** No reconnect request of an earlier attempt is still queued. */
  predicate CleanQueue(c: Client) {
    forall j :: 0 <= j < |c.queue| ==> !c.queue[j].packet.kind.ReconnectReq?
  }

  /** The first frame of link l is a reconnect request the server would grant. */
  predicate GrantedNext(w: World, l: nat) {
    l < |w.links| && w.links[l].session.Fresh? && |w.links[l].wire| > 0 && w.links[l].wire[0].Whole? &&
    w.links[l].wire[0].packet.kind.ReconnectReq? && Grants(w.server, w.links[l].wire[0].packet.kind.token)
  }

  /** Nothing with a higher number went past a packet that is about to be queued: not to the
      server, not onto a link, not into the queue.  A reconnect request does not count. */
  predicate Unpassed(w: World, p: Packet) {
    && w.server.msgSeq < p.seqNo
    && (forall j :: 0 <= j < |w.client.queue| && !IsReconnect(w.client.queue[j].packet) ==>
          w.client.queue[j].packet.seqNo < p.seqNo)
    && (forall l :: 0 <= l < |w.links| && Live(w.links[l]) ==> Below(w.links[l].wire, p.seqNo))
  }

  predicate Below(wire: seq<Frame>, n: nat) {
    forall i :: 0 <= i < |wire| && !IsReconnect(wire[i].packet) ==> wire[i].packet.seqNo < n
  }

  /** Queueing now would begin a send on the new socket in front of the request. */
  predicate Early(c: Client) {
    c.state.Opened? && c.idx >= |c.queue|
  }

  /** What the protocol relies on: a reconnect starts from a clean queue; numbers are queued in
      the order they were taken, and none of them starts a send on a socket before its request;
      a reconnect request that is granted ends its chunk; a superseded link is not read any
      more. */
  predicate Guard(w: World, s: Step) {
    match s
    case Reconnect(_) => CleanQueue(w.client)
    case UserSend(n, _) => Refused(n) || Spoiled(n) || !Early(w.client)
    case HeartBeat => !Early(w.client)
    case Queue(p) => Unpassed(w, p) && !Early(w.client)
    case Receive(l, count, tail, _, _) =>
      && (GrantedNext(w, l) && count > 0 ==> count == 1 && tail == 0)
      && (l < |w.links| ==> !w.links[l].session.Superseded?)
    case _ => true
  }

  const Start: World :=
    World(Issue(Client([], 0, 0, Connected, None, 0), ConnectReq, false, HEADER_SIZE),
          [Link([], [], Main)], 0, false,
          Server(0, 0, false, [], Some(0), Aligned, 0),
          [Packet(1, ConnectReq, false, HEADER_SIZE)], {}, {})

  /** A run of guarded steps from w. */
  ghost predicate Run(w: World, steps: seq<Step>)
    decreases |steps|
  {
    steps == [] || (Enabled(w, steps[0]) && Guard(w, steps[0]) && Run(Next(w, steps[0]), steps[1..]))
  }

  function After(w: World, steps: seq<Step>): World
    requires Run(w, steps)
    decreases |steps|
  {
    if steps == [] then w else After(Next(w, steps[0]), steps[1..])
  }
}
