/** The client goes on sending: whatever waits in its queue gets onto its link. */
module SessionPump {
  import opened ClientSession
  import opened SessionProtocol
  import opened SessionInvariant
  import opened SessionClientSteps
  import opened SessionRuns

  /** These packets, from their first bytes on. */
  function Wholes(q: seq<Queued>): (fs: seq<Frame>)
    ensures |fs| == |q| && forall j :: 0 <= j < |q| ==> fs[j] == Whole(q[j].packet)
  {
    seq(|q|, j requires 0 <= j < |q| => Whole(q[j].packet))
  }

  /** What the pump works with. */
  predicate Ready(w: World) {
    |w.links| > 0 && IndexInQueue(w.client) && PumpOk(w.client, w.partial, w.onWire) && w.client.state.Connected?
  }

  /** What waits behind the packet whose last bytes are in the stream. */
  function ToSend(w: World): seq<Queued>
    requires Ready(w)
  {
    w.client.queue[Unsent(w.client, w.onWire)..]
  }

  /** The callback for all bytes of the packet at the index. */
  lemma CallbackStep(w: World) returns (s: Step)
    requires Ready(w) && w.onWire
    ensures w.client.queue[w.client.idx].packet.size >= w.client.queue[w.client.idx].readIndex
    ensures s == SendCallback(w.client.queue[w.client.idx].packet.size - w.client.queue[w.client.idx].readIndex)
    ensures Enabled(w, s) && Guard(w, s)
    ensures var w1 := Next(w, s);
      w1 == w.(client := w1.client, partial := 0, onWire := false) && Ready(w1) && ToSend(w1) == ToSend(w)
  {
    var c := w.client;
    var rest := c.queue[c.idx].packet.size - c.queue[c.idx].readIndex;
    s := SendCallback(rest);
    WrittenKeepsPump(c, rest, true, w.partial);
    WrittenShape(c, rest, true);
    var c' := Written(c, rest);
    assert c'.queue[c'.idx..] == c.queue[c.idx + 1..];
  }

  /** The packet at the index goes onto the current link. */
  lemma TransmitStep(w: World)
    requires Ready(w) && !w.onWire && w.client.idx < |w.client.queue|
    ensures Enabled(w, Transmit) && Guard(w, Transmit)
    ensures var cur, w1 := w.links[Current(w)], Next(w, Transmit);
      && w1 == SetLink(w, Current(w), cur.(wire := cur.wire + [Whole(w.client.queue[w.client.idx].packet)])).(onWire := true)
      && Ready(w1) && ToSend(w) == [w.client.queue[w.client.idx]] + ToSend(w1)
  {
  }

  /** The pump as a whole: a connected client gets everything it has waiting onto its link, in
      the order of its queue. */
  lemma {:induction false} PumpOut(w: World) returns (steps: seq<Step>, w1: World)
    requires Ready(w)
    ensures Run(w, steps) && w1 == After(w, steps)
    ensures w1.server == w.server && w1.issued == w.issued && |w1.links| == |w.links|
    ensures Ready(w1) && ToSend(w1) == [] && w1.client.token == w.client.token
    ensures var cur, cur1 := w.links[Current(w)], w1.links[Current(w)];
      cur1.session == cur.session && cur1.answers == cur.answers && cur1.wire == cur.wire + Wholes(ToSend(w))
    decreases |ToSend(w)|, if w.onWire then 1 else 0
  {
    hide Ready, Next, Enabled, Guard;
    if ToSend(w) == [] {
      steps, w1 := [], w;
      assert |w.links| > 0 by { Linked(w); }
      assert w.links[Current(w)].wire + [] == w.links[Current(w)].wire;
    } else {
      Sizes(w);
      var s := Transmit;
      if w.onWire {
        s := CallbackStep(w);
        CallbackToken(w, s);
      } else {
        TransmitStep(w);
        var first := w.client.queue[w.client.idx];
        WholesStep(first, ToSend(Next(w, s)), w.links[Current(w)].wire);
      }
      RunOne(w, s);
      steps, w1 := PumpOut(Next(w, s));
      RunJoin(w, [s], steps);
      steps := [s] + steps;
    }
  }

  lemma CallbackToken(w: World, s: Step)
    requires Enabled(w, s) && s.SendCallback?
    ensures Next(w, s).client.token == w.client.token
  {
  }

  lemma Linked(w: World)
    requires Ready(w)
    ensures |w.links| > 0
  {
  }

  lemma Sizes(w: World)
    requires Ready(w) && ToSend(w) != []
    ensures |w.links| > 0 && 0 <= w.client.idx < |w.client.queue|
  {
  }

  lemma WholesStep(x: Queued, rest: seq<Queued>, wire: seq<Frame>)
    ensures (wire + [Whole(x.packet)]) + Wholes(rest) == wire + Wholes([x] + rest)
  {
    assert Wholes([x] + rest) == [Whole(x.packet)] + Wholes(rest);
  }

  /** One more reliable message of full length is numbered and waits to be sent. */
  lemma SendOne(w: World) returns (s: Step, w1: World, j: nat)
    requires Ready(w)
    ensures Enabled(w, s) && Guard(w, s) && w1 == Next(w, s)
    ensures w1 == w.(client := w1.client, issued := w1.issued) && w.issued <= w1.issued && Ready(w1)
    ensures j < |ToSend(w1)| && ToSend(w1)[j].packet.size == BUFFER_SIZE
  {
    hide PumpOk, Push;
    var c := w.client;
    s := UserSend(BUFFER_SIZE - HEADER_SIZE, true);
    w1 := Next(w, s);
    var p := Packet(c.msgSeq + 1, User, true, BUFFER_SIZE);
    AnyNumber(c, w.partial, w.onWire);
    assert forall n: nat :: c.(msgSeq := c.msgSeq + 1).(msgSeq := n) == c.(msgSeq := n);
    PushOne(c.(msgSeq := c.msgSeq + 1), p, w.partial, w.onWire);
    var c0 := Push(c.(msgSeq := c.msgSeq + 1), p);
    j := |c.queue| - Unsent(c, w.onWire);
    if p.seqNo % 10 == 0 {
      var h := Packet(p.seqNo + 1, HeartBeatReq, true, HEADER_SIZE);
      assert forall n: nat :: c0.(msgSeq := c0.msgSeq + 1).(msgSeq := n) == c0.(msgSeq := n);
      PushOne(c0.(msgSeq := c0.msgSeq + 1), h, w.partial, w.onWire);
      assert w1.client == Push(c0.(msgSeq := c0.msgSeq + 1), h);
    } else {
      assert w1.client == c0;
    }
  }

  lemma AnyNumber(c: Client, partial: nat, onWire: bool)
    requires PumpOk(c, partial, onWire)
    ensures forall n: nat :: PumpOk(c.(msgSeq := n), partial, onWire)
  {
  }

  lemma PushOne(c: Client, p: Packet, partial: nat, onWire: bool)
    requires IndexInQueue(c) && c.state.Connected? && forall n: nat :: PumpOk(c.(msgSeq := n), partial, onWire)
    ensures var c' := Push(c, p);
      && IndexInQueue(c') && c' == c.(queue := c.queue + [Queued(p, 0)], sends := c'.sends)
      && (forall n: nat :: PumpOk(c'.(msgSeq := n), partial, onWire))
      && 0 <= Unsent(c, onWire) <= |c.queue|
  {
    assert c.(msgSeq := c.msgSeq) == c;
    PushKeepsPump(c, p, partial, onWire);
    AnyNumber(Push(c, p), partial, onWire);
  }

  lemma {:induction false} LongFrame(fs: seq<Frame>, f: Frame)
    requires f in fs
    ensures Bytes(fs) >= Size(f)
  {
    if f != fs[0] {
      LongFrame(fs[1..], f);
    }
  }
}
