/** The invariant of the session protocol. */
module SessionInvariant {
  import opened ClientSession
  import opened SessionProtocol

  /** p was queued under its number. */
  predicate Known(issued: seq<Packet>, p: Packet) {
    1 <= p.seqNo <= |issued| && issued[p.seqNo - 1] == p && p.size > 0
  }

  /** A reliable packet the server has not dispatched while its number stands at m. */
  predicate Missing(issued: seq<Packet>, m: nat, p: Packet) {
    Known(issued, p) && p.reliable && p.seqNo > m
  }

  predicate IssuedOk(issued: seq<Packet>, msgSeq: nat) {
    |issued| == msgSeq && forall i :: 0 <= i < |issued| ==> issued[i].seqNo == i + 1 && (issued[i].reliable ==> issued[i].size > 0)
  }

  /** The dispatched packets are issued ones in increasing order, and no reliable packet
      numbered up to the server's number is missing from them. */
  ghost predicate DeliveredOk(s: Server, issued: seq<Packet>) {
    && s.msgSeq <= |issued|
    && (forall i :: 0 <= i < |s.log| ==> Known(issued, s.log[i]) && s.log[i].seqNo <= s.msgSeq)
    && (forall i, j :: 0 <= i < j < |s.log| ==> s.log[i].seqNo < s.log[j].seqNo)
    && (forall p :: Known(issued, p) && p.reliable && p.seqNo <= s.msgSeq ==> p in s.log)
  }

  /** p waits in the queue at or behind index `from`. */
  ghost predicate Waiting(q: seq<Queued>, from: int, p: Packet) {
    exists j :: 0 <= j < |q| && from <= j && q[j].packet == p
  }

  /** Frames a main session may read: whole issued packets in order, each preceded by every
      reliable packet the server still lacks below it. */
  ghost predicate WireOk(wire: seq<Frame>, issued: seq<Packet>, m: nat) {
    && (forall i :: 0 <= i < |wire| ==>
          wire[i].Whole? && Known(issued, wire[i].packet) && !IsReconnect(wire[i].packet))
    && (forall i, j :: 0 <= i < j < |wire| ==> wire[i].packet.seqNo < wire[j].packet.seqNo)
    && (forall i, p :: 0 <= i < |wire| && Missing(issued, m, p) && p.seqNo < wire[i].packet.seqNo ==>
          Whole(p) in wire)
  }

  predicate OpensWith(f: Frame, issued: seq<Packet>) {
    f.Whole? && Known(issued, f.packet) && IsReconnect(f.packet) && !f.packet.reliable && f.packet.size <= BUFFER_SIZE
  }

  /** A fresh session has read nothing; the first frame of its link is a reconnect request. */
  ghost predicate LinkOk(link: Link, issued: seq<Packet>, m: nat) {
    match link.session
    case Nobody => true
    case Superseded => true
    case Main => WireOk(link.wire, issued, m)
    case Fresh(n) => n == 0 && (link.wire == [] || (OpensWith(link.wire[0], issued) && WireOk(link.wire[1..], issued, m)))
  }

  function Body(link: Link): seq<Frame> {
    if link.session.Fresh? && link.wire != [] then link.wire[1..] else link.wire
  }

  predicate HeadIsReconnect(c: Client) {
    |c.queue| > 0 && IsReconnect(c.queue[0].packet)
  }

  /** The queue: issued packets in order (a reconnect request may stand in front), every
      reliable packet the server lacks among them; before the index only reliable ones. */
  ghost predicate QueueOk(c: Client, issued: seq<Packet>, m: nat) {
    var q := c.queue;
    && 0 <= c.idx <= |q|
    && (forall j :: 0 <= j < |q| ==> Known(issued, q[j].packet))
    && (forall j :: 1 <= j < |q| ==> !IsReconnect(q[j].packet))
    && (forall i, j :: 0 <= i < j < |q| && !IsReconnect(q[i].packet) ==> q[i].packet.seqNo < q[j].packet.seqNo)
    && (HeadIsReconnect(c) ==> c.idx == 0 && !q[0].packet.reliable && q[0].packet.size <= BUFFER_SIZE)
    && (forall j :: 0 <= j < c.idx ==> q[j].packet.reliable)
    && (forall p :: Missing(issued, m, p) ==> Waiting(q, 0, p))
  }

  /** The pump: one BeginSend is pending exactly while a connected client has something
      waiting, and it continues where the bytes already written stop. */
  predicate PumpOk(c: Client, partial: nat, onWire: bool) {
    && Pumping(c)
    && (onWire ==> c.idx < |c.queue|)
    && (c.state.Connected? && 0 <= c.idx < |c.queue| ==> partial <= c.queue[c.idx].packet.size)
    && (c.state.Connected? ==>
          (forall j :: 0 <= j < |c.queue| && c.idx <= j ==>
             c.queue[j].readIndex == if j == c.idx then partial else 0) &&
          (c.idx == |c.queue| ==> partial == 0))
  }

  /** Index of the first packet of which nothing more is on the current link. */
  function Unsent(c: Client, onWire: bool): int {
    c.idx + if onWire then 1 else 0
  }

  /** What is on the current link's wire precedes what still has to be sent on it, and the
      opening request comes before everything. */
  predicate AheadOk(c: Client, cur: Link, onWire: bool) {
    var q := c.queue;
    && (forall i :: 0 <= i < |cur.wire| ==> cur.wire[i].Whole?)
    && (forall i, j :: 0 <= i < |Body(cur)| && 0 <= j < |q| && Unsent(c, onWire) <= j && !IsReconnect(q[j].packet) ==>
          Body(cur)[i].packet.seqNo < q[j].packet.seqNo)
    && (onWire && 0 <= c.idx < |q| && !IsReconnect(q[c.idx].packet) ==>
          forall i :: 0 <= i < |Body(cur)| ==> Body(cur)[i].packet.seqNo <= q[c.idx].packet.seqNo)
    && (HeadIsReconnect(c) ==> Body(cur) == [] && (!onWire ==> cur.wire == [] && cur.session.Fresh?))
    && (c.state.Connected? && cur.session.Fresh? && cur.wire == [] ==> HeadIsReconnect(c) && Unsent(c, onWire) == 0)
  }

  /** Wire and unsent queue together hold every reliable packet the server lacks. */
  ghost predicate CoverOk(c: Client, cur: Link, onWire: bool, issued: seq<Packet>, m: nat) {
    c.state.Connected? ==> forall p :: Missing(issued, m, p) ==>
      Whole(p) in cur.wire || Waiting(c.queue, Unsent(c, onWire), p)
  }

  /** The packet at the index, once all of it is in the stream, is on the wire or was read. */
  predicate SentOk(c: Client, cur: Link, onWire: bool, m: nat) {
    onWire && 0 <= c.idx < |c.queue| && !IsReconnect(c.queue[c.idx].packet) ==>
      Whole(c.queue[c.idx].packet) in cur.wire || c.queue[c.idx].packet.seqNo <= m
  }

  ghost predicate CurrentOk(c: Client, cur: Link, onWire: bool, issued: seq<Packet>, m: nat) {
    Live(cur) ==> AheadOk(c, cur, onWire) && CoverOk(c, cur, onWire, issued, m) && SentOk(c, cur, onWire, m)
  }

  /** What a thread has numbered and not queued: its number is blank so far, and nobody else's. */
  predicate TakenOk(taken: set<Packet>, issued: seq<Packet>) {
    && (forall p :: p in taken ==>
          1 <= p.seqNo <= |issued| && issued[p.seqNo - 1] == Blank(p.seqNo) && p.size > 0 && !IsReconnect(p))
    && (forall p, q :: p in taken && q in taken && p.seqNo == q.seqNo ==> p == q)
  }

  /** An acknowledgement on its way only covers packets before the index. */
  predicate AnswersOk(c: Client, answers: seq<Answer>, m: nat) {
    forall k :: 0 <= k < |answers| && answers[k].HeartBeatAns? ==>
      answers[k].msgSeq <= m &&
      forall j :: 0 <= j < |c.queue| && c.idx <= j ==> c.queue[j].packet.seqNo > answers[k].msgSeq
  }

  ghost predicate LinksOk(links: seq<Link>, issued: seq<Packet>, m: nat) {
    && (forall l :: 0 <= l < |links| ==> LinkOk(links[l], issued, m))
    && (forall k, l :: 0 <= k < l < |links| ==> !(links[k].session.Main? && links[l].session.Main?))
  }

  /** The main session answers, if at all, on the link it is read from, and its receive
      packet begins with a frame. */
  predicate AttachedOk(s: Server, links: seq<Link>) {
    && s.received.Aligned?
    && (s.link.Some? ==> s.link.value < |links| && links[s.link.value].session.Main?)
  }

  ghost predicate Inv(w: World) {
    && |w.links| > 0
    && IssuedOk(w.issued, w.client.msgSeq)
    && DeliveredOk(w.server, w.issued)
    && QueueOk(w.client, w.issued, w.server.msgSeq)
    && PumpOk(w.client, w.partial, w.onWire)
    && LinksOk(w.links, w.issued, w.server.msgSeq)
    && AttachedOk(w.server, w.links)
    && TakenOk(w.taken, w.issued)
    && CurrentOk(w.client, w.links[Current(w)], w.onWire, w.issued, w.server.msgSeq)
    && AnswersOk(w.client, w.links[Current(w)].answers, w.server.msgSeq)
  }

  lemma StartInv()
    ensures Inv(Start)
  {
    var q := Start.client.queue;
    assert q == [Queued(Start.issued[0], 0)];
    assert Start.links[0] == Link([], [], Main);
    assert q[0].packet == Start.issued[0];
  }
}
