/** The Unity client's `Session`: numbering, the send queue, the one-at-a-time send
    pump, cumulative acknowledgement, and the replay set up after a reconnect.

    The class `Session` mirrors the fields the client updates; each of its methods is
    proved against a function over the immutable snapshot `Client`, and the protocol
    proof (module SessionProtocol) is about those functions. */
module ClientSession {
  import opened Wrappers

  /** `Opened` is Connected on a new socket whose queue has not been rewound yet: the state is
      set before the lock is taken. */
  datatype ConnectionState = Disconnected | OnConnecting | Opened | Connected

  /** What a packet asks of the server.  A reconnect request carries the token the
      client held when it was built (None: no connect answer had arrived yet). */
  datatype Kind = ConnectReq | ReconnectReq(token: Option<nat>) | HeartBeatReq | User

  datatype Packet = Packet(seqNo: nat, kind: Kind, reliable: bool, size: nat)

  /** A queued packet with its `read_index`: how many of its bytes were written so far. */
  datatype Queued = Queued(packet: Packet, readIndex: nat)

  const HEADER_SIZE: nat := 10
  const BUFFER_SIZE: nat := 8192
  const LENGTH_MODULUS: nat := 0x1_0000

  /** Snapshot of the client.  `sends` counts the BeginSends on the current socket that have
      not called back yet. */
  datatype Client = Client(
    queue: seq<Queued>, idx: int, msgSeq: nat, state: ConnectionState, token: Option<nat>, sends: nat)

  /** The private SendMsg(Packet): enqueue, and start the pump when the packet is the only
      one waiting. */
  function Push(c: Client, p: Packet): Client {
    var q := c.queue + [Queued(p, 0)];
    c.(queue := q, sends := c.sends + if 1 == |q| - c.idx && Up(c.state) then 1 else 0)
  }

  /** What the client's own code sees as connected. */
  predicate Up(state: ConnectionState) {
    state.Connected? || state.Opened?
  }

  /** Number a packet and push it. */
  function Issue(c: Client, kind: Kind, reliable: bool, size: nat): Client {
    Push(c.(msgSeq := c.msgSeq + 1), Packet(c.msgSeq + 1, kind, reliable, size))
  }

  function SendHeartBeat(c: Client): Client {
    Issue(c, HeartBeatReq, true, HEADER_SIZE)
  }

  /** The call refuses the message before numbering it. */
  predicate Refused(dataLength: nat) {
    (HEADER_SIZE + dataLength) % LENGTH_MODULUS > BUFFER_SIZE
  }

  /** The 16-bit length passed the check but the body does not fit the buffer: the copy
      throws after the number was taken. */
  predicate Spoiled(dataLength: nat) {
    !Refused(dataLength) && HEADER_SIZE + dataLength > BUFFER_SIZE
  }

  function StartReconnect(c: Client): Client {
    if c.state.Disconnected? then c.(state := OnConnecting) else c
  }

  /** The public SendMsg: reconnect if needed, send, and a heartbeat at every tenth number. */
  function SendMsg(c: Client, dataLength: nat, reliable: bool): Client {
    var c0 := StartReconnect(c);
    if Refused(dataLength) then c0
    else if Spoiled(dataLength) then c0.(msgSeq := c0.msgSeq + 1)
    else
      var c1 := Issue(c0, User, reliable, HEADER_SIZE + dataLength);
      if c1.msgSeq % 10 == 0 && Up(c1.state) then SendHeartBeat(c1) else c1
  }

  /** k messages of no data, sent one after the other. */
  function SendMany(c: Client, k: nat): Client
    decreases k
  {
    if k == 0 then c else SendMsg(SendMany(c, k - 1), 0, true)
  }

  /** Of ten messages sent in a row on a connection one is followed by a heartbeat. */
  lemma HeartBeatComes(c: Client)
    requires Up(c.state)
    ensures exists j: nat :: j < 10 && SendMany(c, j + 1).msgSeq == SendMany(c, j).msgSeq + 2
  {
    hide SendMsg;
    var j: nat := 9 - c.msgSeq % 10;
    NoneBefore(c, j);
    SendCounts(SendMany(c, j));
    assert SendMany(c, j + 1) == SendMsg(SendMany(c, j), 0, true);
  }

  lemma SendCounts(c: Client)
    requires Up(c.state)
    ensures var c' := SendMsg(c, 0, true);
      c'.state == c.state && c'.msgSeq == c.msgSeq + if (c.msgSeq + 1) % 10 == 0 then 2 else 1
  {
  }

  lemma {:induction false} NoneBefore(c: Client, j: nat)
    requires Up(c.state) && c.msgSeq % 10 + j <= 9
    ensures SendMany(c, j).msgSeq == c.msgSeq + j && SendMany(c, j).state == c.state
  {
    hide SendMsg;
    if j > 0 {
      NoneBefore(c, j - 1);
      SendCounts(SendMany(c, j - 1));
    }
  }

  /** Callback_SendMsg after `written` bytes: send the rest, or move past the packet (a
      reliable one stays queued before the index) and start on the next one. */
  function Written(c: Client, written: nat): Client
    requires 0 <= c.idx < |c.queue|
  {
    var head := c.queue[c.idx];
    var head' := head.(readIndex := head.readIndex + written);
    if head'.readIndex < head.packet.size then
      c.(queue := c.queue[c.idx := head'])
    else if head.packet.reliable then
      c.(queue := c.queue[c.idx := head'], idx := c.idx + 1, sends := Sends(c.sends, c.idx + 1 < |c.queue|))
    else
      c.(queue := c.queue[..c.idx] + c.queue[c.idx + 1..], sends := Sends(c.sends, c.idx + 1 < |c.queue|))
  }

  /** One called back, and another one begins or not. */
  function Sends(sends: nat, more: bool): nat {
    if more || sends == 0 then sends else sends - 1
  }

  /** RemoveSentPacket: drop the queue's leading packets numbered up to `ack`. */
  function Acknowledged(c: Client, ack: nat): Client
    decreases |c.queue|
  {
    if |c.queue| > 0 && c.queue[0].packet.seqNo <= ack then
      Acknowledged(c.(queue := c.queue[1..], idx := c.idx - 1), ack)
    else c
  }

  /** How many packets an acknowledgement removes. */
  function Leading(q: seq<Queued>, ack: nat): (n: nat)
    ensures n <= |q|
    ensures forall j :: 0 <= j < n ==> q[j].packet.seqNo <= ack
    ensures n < |q| ==> q[n].packet.seqNo > ack
  {
    if |q| > 0 && q[0].packet.seqNo <= ack then
      var n := 1 + Leading(q[1..], ack);
      assert forall j :: 1 <= j < n ==> q[j] == q[1..][j - 1];
      n
    else 0
  }

  /** An acknowledgement cuts a prefix of the queue and moves the index with it. */
  lemma {:induction false} AcknowledgedCutsPrefix(c: Client, ack: nat)
    ensures var n := Leading(c.queue, ack);
      Acknowledged(c, ack) == c.(queue := c.queue[n..], idx := c.idx - n)
    decreases |c.queue|
  {
    if |c.queue| > 0 && c.queue[0].packet.seqNo <= ack {
      var d := c.(queue := c.queue[1..], idx := c.idx - 1);
      assert Acknowledged(c, ack) == Acknowledged(d, ack);
      AcknowledgedCutsPrefix(d, ack);
      var n := Leading(d.queue, ack);
      assert Leading(c.queue, ack) == n + 1;
      assert d.queue[n..] == c.queue[n + 1..];
    } else {
      assert c.queue[0..] == c.queue;
    }
  }

  /** The index stays in range exactly when nothing at or behind it is acknowledged away. */
  lemma AcknowledgedKeepsIndex(c: Client, ack: nat)
    requires 0 <= c.idx
    ensures 0 <= Acknowledged(c, ack).idx <==>
      (|c.queue| <= c.idx || exists j :: 0 <= j <= c.idx && c.queue[j].packet.seqNo > ack)
  {
    AcknowledgedCutsPrefix(c, ack);
  }

  function Rewound(q: seq<Queued>): (r: seq<Queued>)
    ensures |r| == |q|
    ensures forall j :: 0 <= j < |q| ==> r[j] == Queued(q[j].packet, 0)
  {
    seq(|q|, j requires 0 <= j < |q| => Queued(q[j].packet, 0))
  }

  /** Callback_Reconnect before its lock: a new socket, on which nothing was sent. */
  function NewSocket(c: Client): Client {
    c.(state := Opened, sends := 0)
  }

  /** Callback_Reconnect in its lock: a reconnect request goes first, then every queued packet
      again, from its first byte. */
  function Reconnected(c: Client, size: nat): Client {
    var c1 := Issue(c.(queue := [], idx := 0, state := Connected), ReconnectReq(c.token), false, size);
    c1.(queue := c1.queue + Rewound(c.queue))
  }

  function Closed(c: Client): Client {
    c.(state := Disconnected, sends := 0)
  }

  // ---------------------------------------------------------------- what the pump keeps

  predicate IndexInQueue(c: Client) {
    0 <= c.idx <= |c.queue|
  }

  /** One BeginSend is pending exactly while a connected client has something waiting. */
  predicate Pumping(c: Client) {
    c.sends == if c.state.Connected? && c.idx < |c.queue| then 1 else 0
  }

  /** The reliable packets in the queue, sent or not. */
  function Kept(q: seq<Queued>): seq<Packet> {
    if q == [] then [] else (if q[0].packet.reliable then [q[0].packet] else []) + Kept(q[1..])
  }

  /** The bytes of the packets that are still to be written on this connection. */
  function Unwritten(q: seq<Queued>): int {
    if q == [] then 0 else q[0].packet.size - q[0].readIndex + Unwritten(q[1..])
  }

  lemma {:induction false} KeptJoin(a: seq<Queued>, b: seq<Queued>)
    ensures Kept(a + b) == Kept(a) + Kept(b)
  {
    if a == [] {
      assert a + b == b;
    } else {
      KeptJoin(a[1..], b);
      assert (a + b)[1..] == a[1..] + b;
      var first := if a[0].packet.reliable then [a[0].packet] else [];
      assert Kept(a + b) == first + (Kept(a[1..]) + Kept(b));
    }
  }

  lemma KeptSplit(q: seq<Queued>, i: nat)
    requires i < |q|
    ensures Kept(q) == Kept(q[..i]) + ((if q[i].packet.reliable then [q[i].packet] else []) + Kept(q[i + 1..]))
  {
    KeptJoin(q[..i], q[i..]);
    assert q == q[..i] + q[i..];
    assert q[i..][1..] == q[i + 1..];
  }

  /** A send callback takes no reliable packet out of the queue, moves the written bytes and no
      others, and leaves a send pending exactly while something waits. */
  lemma WrittenConserves(c: Client, written: nat)
    requires IndexInQueue(c) && c.idx < |c.queue| && Pumping(c) && c.sends == 1
    requires written <= c.queue[c.idx].packet.size - c.queue[c.idx].readIndex
    ensures var c' := Written(c, written);
      && IndexInQueue(c') && Pumping(c')
      && Kept(c'.queue) == Kept(c.queue)
      && Unwritten(c'.queue[c'.idx..]) == Unwritten(c.queue[c.idx..]) - written
  {
    var c', i, q := Written(c, written), c.idx, c.queue;
    var head := q[i].(readIndex := q[i].readIndex + written);
    var done := head.readIndex == head.packet.size;
    KeptSplit(q, i);
    assert q[i..][1..] == q[i + 1..];
    if done && !head.packet.reliable {
      KeptJoin(q[..i], q[i + 1..]);
      assert c'.queue[i..] == q[i + 1..];
    } else {
      assert c'.queue[..i] == q[..i] && c'.queue[i + 1..] == q[i + 1..];
      KeptSplit(c'.queue, i);
      assert c'.queue[i..][1..] == q[i + 1..];
      assert done ==> c'.queue[c'.idx..] == q[i + 1..];
    }
  }

  /** The client object itself. */
  class Session {
    var sendQueue: seq<Queued>
    var sendQueueIdx: int
    var msgSeq: nat
    var state: ConnectionState
    var sessionToken: Option<nat>
    /** BeginSends on the current socket that wait for their callbacks */
    var sends: nat

    function Abs(): Client
      reads this
    {
      Client(sendQueue, sendQueueIdx, msgSeq, state, sessionToken, sends)
    }

    /** The index is inside the queue and a send is pending exactly while something waits. */
    predicate Ready()
      reads this
    {
      IndexInQueue(Abs()) && Pumping(Abs())
    }

    /** Connect and its callback: a cleared queue holding the connect request. */
    constructor ()
      ensures Abs() == Issue(Client([], 0, 0, Connected, None, 0), ConnectReq, false, HEADER_SIZE)
      ensures Ready() && sends == 1
    {
      sendQueue, sendQueueIdx, msgSeq := [], 0, 0;
      state, sessionToken, sends := Connected, None, 0;
      new;
      msgSeq := msgSeq + 1;
      Enqueue(Packet(msgSeq, ConnectReq, false, HEADER_SIZE));
    }

    /** The packet goes last; a send begins exactly when nothing waited on a connected client. */
    method Enqueue(packet: Packet)
      modifies this
      ensures Abs() == Push(old(Abs()), packet)
      ensures old(Ready()) && !state.Opened? ==> Ready()
      ensures old(Ready()) ==> sends - old(sends) == if Up(state) && old(sendQueueIdx == |sendQueue|) then 1 else 0
      ensures Kept(sendQueue) == old(Kept(sendQueue)) + if packet.reliable then [packet] else []
    {
      KeptJoin(sendQueue, [Queued(packet, 0)]);
      sendQueue := sendQueue + [Queued(packet, 0)];
      if 1 == |sendQueue| - sendQueueIdx && Up(state) {
        sends := sends + 1;
      }
    }

    /** The heartbeat takes the next number and stays queued until it is acknowledged. */
    method SendHeartBeatReq()
      modifies this
      ensures Abs() == SendHeartBeat(old(Abs()))
      ensures old(Ready()) && !state.Opened? ==> Ready()
      ensures Kept(sendQueue) == old(Kept(sendQueue)) + [Packet(old(msgSeq) + 1, HeartBeatReq, true, HEADER_SIZE)]
    {
      msgSeq := msgSeq + 1;
      Enqueue(Packet(msgSeq, HeartBeatReq, true, HEADER_SIZE));
    }

    /** `error` is set where the original reports an exception. */
    method Send(dataLength: nat, handOverReliability: bool) returns (error: bool)
      modifies this
      ensures Abs() == SendMsg(old(Abs()), dataLength, handOverReliability)
      ensures old(Ready()) && !state.Opened? ==> Ready()
      ensures error <==> HEADER_SIZE + dataLength > BUFFER_SIZE
    {
      hide Kept;
      if state == Disconnected {
        state := OnConnecting;
      }
      var packetLength := (HEADER_SIZE + dataLength) % LENGTH_MODULUS;
      if packetLength > BUFFER_SIZE {
        return true;
      }
      msgSeq := msgSeq + 1;
      if HEADER_SIZE + dataLength > BUFFER_SIZE {
        return true;
      }
      Enqueue(Packet(msgSeq, User, handOverReliability, HEADER_SIZE + dataLength));
      if msgSeq % 10 == 0 && Up(state) {
        SendHeartBeatReq();
      }
      error := false;
    }

    /** No reliable packet leaves the queue, the written bytes and no others are accounted for,
        and the next send is pending exactly while something waits. */
    method CallbackSendMsg(writtenBytes: nat)
      requires 0 <= sendQueueIdx < |sendQueue|
      modifies this
      ensures Abs() == Written(old(Abs()), writtenBytes)
      ensures old(Ready() && sends == 1 && writtenBytes <= sendQueue[sendQueueIdx].packet.size - sendQueue[sendQueueIdx].readIndex) ==>
        && Ready() && Kept(sendQueue) == old(Kept(sendQueue))
        && Unwritten(sendQueue[sendQueueIdx..]) == old(Unwritten(sendQueue[sendQueueIdx..])) - writtenBytes
    {
      if Ready() && sends == 1 && writtenBytes <= sendQueue[sendQueueIdx].packet.size - sendQueue[sendQueueIdx].readIndex {
        WrittenConserves(Abs(), writtenBytes);
      }
      var packet := sendQueue[sendQueueIdx];
      packet := packet.(readIndex := packet.readIndex + writtenBytes);
      sendQueue := sendQueue[sendQueueIdx := packet];
      if packet.packet.size - packet.readIndex > 0 {
        return;
      }
      if packet.packet.reliable {
        sendQueueIdx := sendQueueIdx + 1;
      } else {
        assert sendQueue[sendQueueIdx + 1..] == old(sendQueue[sendQueueIdx + 1..]);
        sendQueue := sendQueue[..sendQueueIdx] + sendQueue[sendQueueIdx + 1..];
      }
      if sendQueueIdx >= |sendQueue| && sends > 0 {
        sends := sends - 1;
      }
    }

    method RemoveSentPacket(ack: nat)
      modifies this
      ensures Abs() == Acknowledged(old(Abs()), ack)
    {
      while 0 < |sendQueue|
        invariant Acknowledged(Abs(), ack) == Acknowledged(old(Abs()), ack)
        decreases |sendQueue|
      {
        if sendQueue[0].packet.seqNo > ack {
          break;
        }
        sendQueue := sendQueue[1..];
        sendQueueIdx := sendQueueIdx - 1;
      }
    }

    /** Callback_Reconnect up to its lock. */
    method OpenSocket()
      modifies this
      ensures Abs() == NewSocket(old(Abs()))
      ensures Kept(sendQueue) == old(Kept(sendQueue)) && sends == 0
    {
      state := Opened;
      sends := 0;
    }

    /** Callback_Reconnect in its lock. */
    method CallbackReconnect(size: nat)
      modifies this
      ensures Abs() == Reconnected(old(Abs()), size)
      ensures old(sends) == 0 ==> Ready() && sends == 1
    {
      state := Connected;
      var tmp := sendQueue;
      sendQueue := [];
      sendQueueIdx := 0;
      msgSeq := msgSeq + 1;
      Enqueue(Packet(msgSeq, ReconnectReq(sessionToken), false, size));
      ghost var first := Abs();
      for i := 0 to |tmp|
        invariant Abs() == first.(queue := first.queue + Rewound(tmp[..i]))
      {
        assert Rewound(tmp[..i + 1]) == Rewound(tmp[..i]) + [Queued(tmp[i].packet, 0)];
        sendQueue := sendQueue + [tmp[i].(readIndex := 0)];
      }
      assert tmp[..|tmp|] == tmp;
    }

    /** Nothing queued is given up: only the connection is, and with it the pending send. */
    method Close()
      modifies this
      ensures state.Disconnected? && (old(Ready()) ==> Ready() && sends == 0)
      ensures sendQueue == old(sendQueue) && sendQueueIdx == old(sendQueueIdx)
      ensures msgSeq == old(msgSeq) && sessionToken == old(sessionToken)
      ensures Abs() == if old(state).Disconnected? then old(Abs()) else Closed(old(Abs()))
    {
      if state == Disconnected {
        return;
      }
      state := Disconnected;
      sends := 0;
    }
  }
}
