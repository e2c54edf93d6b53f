/** What the protocol guarantees over whole runs, and exactly where it stops. */
module SessionTheorems {
  import opened ClientSession
  import opened SessionProtocol
  import opened SessionInvariant
  import opened SessionClientSteps
  import opened SessionServerSteps

  lemma StepKeeps(w: World, s: Step)
    requires Inv(w) && Enabled(w, s) && Guard(w, s)
    ensures Inv(Next(w, s))
  {
    hide Inv, Push, Early, Unpassed, SendMsg, IssuedBySend, Reconnected, Closed, Written, Hear;
    match s
    case UserSend(n, r) => UserSendKeeps(w, n, r);
    case HeartBeat => IssueKeeps(w, HeartBeatReq, true, HEADER_SIZE);
    case Attempt => StartReconnectKeeps(w);
    case Number(kind, reliable, size) => NumberKeeps(w, w.taken + {Packet(w.client.msgSeq + 1, kind, reliable, size)});
    case Queue(p) => QueueKeeps(w, p);
    case Open => OpenKeeps(w);
    case Transmit => TransmitKeeps(w);
    case SendCallback(n) => SendCallbackKeeps(w, n);
    case Drop => DropKeeps(w);
    case Reconnect(size) => ReconnectKeeps(w, size);
    case Receive(l, n, tail, busy, body) => ReceiveKeeps(w, l, n, tail, busy, body);
    case Detach(l) =>
      DetachKeeps(w, l);
      ForgetKeeps(DetachLink(w, l), Next(w, s));
    case ServerClose(l) => CloseKeeps(w, l);
    case Deliver => DeliverKeeps(w);
    case Sweep => ForgetKeeps(w, Next(w, s));
  }

  /** Every state of every guarded run satisfies the invariant. */
  lemma {:induction false} RunKeeps(w: World, steps: seq<Step>)
    requires Inv(w) && Run(w, steps)
    ensures Inv(After(w, steps))
    decreases |steps|
  {
    hide Inv, Next, Enabled, Guard;
    if steps != [] {
      StepKeeps(w, steps[0]);
      RunKeeps(Next(w, steps[0]), steps[1..]);
    }
  }

  // ---------------------------------------------------------------- delivery

  function Reliable(ps: seq<Packet>): seq<Packet> {
    if ps == [] then []
    else (if ps[0].reliable then [ps[0]] else []) + Reliable(ps[1..])
  }

  lemma {:induction false} ReliableHas(ps: seq<Packet>, p: Packet)
    ensures p in Reliable(ps) <==> p in ps && p.reliable
  {
    if ps != [] {
      ReliableHas(ps[1..], p);
      assert p in ps <==> p == ps[0] || p in ps[1..];
    }
  }

  lemma HeadIn(ps: seq<Packet>)
    ensures ps != [] ==> ps[0] in ps
  {
  }

  ghost predicate Ascending(ps: seq<Packet>) {
    forall i, j :: 0 <= i < j < |ps| ==> ps[i].seqNo < ps[j].seqNo
  }

  lemma {:induction false} ReliableAscends(ps: seq<Packet>)
    requires Ascending(ps)
    ensures Ascending(Reliable(ps))
  {
    if ps != [] {
      ReliableAscends(ps[1..]);
      var r := Reliable(ps[1..]);
      forall i | 0 <= i < |r|
        ensures ps[0].seqNo < r[i].seqNo
      {
        ReliableHas(ps[1..], r[i]);
        assert forall p :: p in ps[1..] ==> ps[0].seqNo < p.seqNo;
      }
    }
  }

  /** Two ascending sequences with the same elements are equal. */
  lemma {:induction false} AscendingUnique(a: seq<Packet>, b: seq<Packet>)
    requires Ascending(a) && Ascending(b) && forall p :: p in a <==> p in b
    ensures a == b
  {
    if a == [] {
      HeadIn(b);
    } else {
      assert a[0] in a && a[0] in b && b[0] in b;
      assert b[0] in a;
      assert forall i :: 0 < i < |a| ==> a[0].seqNo < a[i].seqNo;
      assert forall i :: 0 < i < |b| ==> b[0].seqNo < b[i].seqNo;
      assert a[0] == b[0];
      forall p
        ensures p in a[1..] <==> p in b[1..]
      {
        assert p in a <==> p == a[0] || p in a[1..];
        assert p in b <==> p == b[0] || p in b[1..];
      }
      AscendingUnique(a[1..], b[1..]);
    }
  }

  /** In every run, however many drops and reconnects it has: the numbers dispatched on the
      server session strictly increase, and the reliable packets dispatched are exactly the
      reliable packets queued under numbers up to the server's, each once and in order. */
  lemma DeliveredInOrder(steps: seq<Step>)
    requires Run(Start, steps)
    ensures var w := After(Start, steps);
      && Ascending(w.server.log)
      && w.server.msgSeq <= |w.issued|
      && Reliable(w.server.log) == Reliable(w.issued[..w.server.msgSeq])
  {
    StartInv();
    RunKeeps(Start, steps);
    var w := After(Start, steps);
    var log, upTo := w.server.log, w.issued[..w.server.msgSeq];
    assert Ascending(upTo);
    ReliableAscends(log);
    ReliableAscends(upTo);
    forall p
      ensures p in Reliable(log) <==> p in Reliable(upTo)
    {
      ReliableHas(log, p);
      ReliableHas(upTo, p);
      if p.reliable { DeliveredSame(w.server, w.issued, p); }
    }
    AscendingUnique(Reliable(log), Reliable(upTo));
  }

  lemma DeliveredSame(s: Server, issued: seq<Packet>, p: Packet)
    requires DeliveredOk(s, issued) && IssuedOk(issued, |issued|) && p.reliable
    ensures p in s.log <==> p in issued[..s.msgSeq]
  {
    if p in s.log {
      var i :| 0 <= i < |s.log| && s.log[i] == p;
      assert issued[..s.msgSeq][p.seqNo - 1] == p;
    }
    if p in issued[..s.msgSeq] {
      var i :| 0 <= i < s.msgSeq && issued[i] == p;
      assert Known(issued, p);
    }
  }

  function Packets(q: seq<Queued>): (r: seq<Packet>)
    ensures |r| == |q| && forall j :: 0 <= j < |q| ==> r[j] == q[j].packet
  {
    seq(|q|, j requires 0 <= j < |q| => q[j].packet)
  }

  /** The reliable packets among ps the server has not reached. */
  function Unreached(ps: seq<Packet>, m: nat): seq<Packet> {
    if ps == [] then []
    else (if ps[0].reliable && ps[0].seqNo > m then [ps[0]] else []) + Unreached(ps[1..], m)
  }

  lemma {:induction false} UnreachedHas(ps: seq<Packet>, m: nat, p: Packet)
    ensures p in Unreached(ps, m) <==> p in ps && p.reliable && p.seqNo > m
  {
    if ps != [] {
      UnreachedHas(ps[1..], m, p);
      assert p in ps <==> p == ps[0] || p in ps[1..];
    }
  }

  lemma {:induction false} UnreachedAscends(ps: seq<Packet>, m: nat)
    requires forall i, j :: 0 <= i < j < |ps| && ps[i].reliable ==> ps[i].seqNo < ps[j].seqNo
    ensures Ascending(Unreached(ps, m))
  {
    if ps != [] {
      UnreachedAscends(ps[1..], m);
      var r := Unreached(ps[1..], m);
      forall i | 0 <= i < |r|
        ensures ps[0].reliable ==> ps[0].seqNo < r[i].seqNo
      {
        UnreachedHas(ps[1..], m, r[i]);
        assert forall p :: p in ps[1..] && ps[0].reliable ==> ps[0].seqNo < p.seqNo;
      }
    }
  }

  /** Nothing reliable is ever lost: what was dispatched, followed by what is still queued
      beyond the server's number, is everything reliable that was queued, in the order of the
      numbers. */
  lemma NothingLost(steps: seq<Step>)
    requires Run(Start, steps)
    ensures var w := After(Start, steps);
      Reliable(w.server.log) + Unreached(Packets(w.client.queue), w.server.msgSeq) == Reliable(w.issued)
  {
    hide Inv, Run, After;
    StartInv();
    RunKeeps(Start, steps);
    DeliveredInOrder(steps);
    AllAccounted(After(Start, steps));
  }

  lemma AllAccounted(w: World)
    requires Inv(w)
    ensures w.server.msgSeq <= |w.issued|
    ensures Unreached(Packets(w.client.queue), w.server.msgSeq) == Reliable(w.issued[w.server.msgSeq..])
    ensures Reliable(w.issued) == Reliable(w.issued[..w.server.msgSeq]) + Reliable(w.issued[w.server.msgSeq..])
  {
    hide PumpOk, LinksOk, CurrentOk, AnswersOk, TakenOk, Reliable, Unreached, QueueOk;
    var m := w.server.msgSeq;
    StillQueued(w.client, w.issued, m);
    ReliableConcat(w.issued[..m], w.issued[m..]);
    assert w.issued == w.issued[..m] + w.issued[m..];
  }

  /** The queue beyond the server's number is exactly the reliable packets issued beyond it. */
  lemma StillQueued(c: Client, issued: seq<Packet>, m: nat)
    requires QueueOk(c, issued, m) && IssuedOk(issued, |issued|) && m <= |issued|
    ensures Unreached(Packets(c.queue), m) == Reliable(issued[m..])
  {
    var ps, later := Packets(c.queue), issued[m..];
    assert forall i, j :: 0 <= i < j < |ps| && ps[i].reliable ==> ps[i].seqNo < ps[j].seqNo;
    UnreachedAscends(ps, m);
    assert forall i :: 0 <= i < |later| ==> later[i] == issued[m + i];
    ReliableAscends(later);
    forall p
      ensures p in Unreached(ps, m) <==> p in Reliable(later)
    {
      UnreachedHas(ps, m, p);
      ReliableHas(later, p);
      StillQueuedSame(c, issued, m, p);
    }
    AscendingUnique(Unreached(ps, m), Reliable(later));
  }

  lemma StillQueuedSame(c: Client, issued: seq<Packet>, m: nat, p: Packet)
    requires QueueOk(c, issued, m) && IssuedOk(issued, |issued|) && m <= |issued|
    ensures p in Packets(c.queue) && p.reliable && p.seqNo > m <==> p in issued[m..] && p.reliable
  {
    var ps := Packets(c.queue);
    if p in ps && p.seqNo > m {
      var j :| 0 <= j < |ps| && ps[j] == p;
      assert Known(issued, c.queue[j].packet);
      assert issued[m..][p.seqNo - 1 - m] == p;
    }
    if p in issued[m..] && p.reliable {
      var i :| 0 <= i < |issued| - m && issued[m..][i] == p;
      assert issued[m + i] == p;
      assert Missing(issued, m, p);
      var j :| 0 <= j < |c.queue| && c.queue[j].packet == p;
      assert ps[j] == p;
    }
  }

  lemma {:induction false} ReliableConcat(a: seq<Packet>, b: seq<Packet>)
    ensures Reliable(a + b) == Reliable(a) + Reliable(b)
  {
    if a == [] {
      assert a + b == b;
    } else {
      ReliableConcat(a[1..], b);
      var first := if a[0].reliable then [a[0]] else [];
      assert (a + b)[0] == a[0] && (a + b)[1..] == a[1..] + b;
      assert Reliable(a + b) == first + (Reliable(a[1..]) + Reliable(b));
      assert first + (Reliable(a[1..]) + Reliable(b)) == first + Reliable(a[1..]) + Reliable(b);
    }
  }

  /** A connection that carried everything delivers everything: once the client's current
      link belongs to the main session, the pump is through the queue and the wire is empty,
      every reliable packet ever queued has been dispatched. */
  lemma ReplayDeliversAll(steps: seq<Step>)
    requires Run(Start, steps)
    requires var w := After(Start, steps);
      w.client.state.Connected? && w.client.idx == |w.client.queue| &&
      |w.links| > 0 && w.links[Current(w)].session.Main? && w.links[Current(w)].wire == []
    ensures var w := After(Start, steps); Reliable(w.server.log) == Reliable(w.issued)
  {
    StartInv();
    RunKeeps(Start, steps);
    NothingLost(steps);
    var w := After(Start, steps);
    var rest := Unreached(Packets(w.client.queue), w.server.msgSeq);
    HeadIn(rest);
    forall p
      ensures p !in rest
    {
      UnreachedHas(Packets(w.client.queue), w.server.msgSeq, p);
      QuiescentQueue(w, p);
    }
  }

  lemma QuiescentQueue(w: World, p: Packet)
    requires Inv(w) && w.client.state.Connected? && w.client.idx == |w.client.queue|
    requires w.links[Current(w)].session.Main? && w.links[Current(w)].wire == []
    ensures p in Packets(w.client.queue) && p.reliable ==> p.seqNo <= w.server.msgSeq
  {
    hide DeliveredOk, LinksOk, AnswersOk, AheadOk;
    assert !Missing(w.issued, w.server.msgSeq, p);
    if p in Packets(w.client.queue) {
      var j :| 0 <= j < |w.client.queue| && Packets(w.client.queue)[j] == p;
      assert Known(w.issued, w.client.queue[j].packet);
    }
  }

  /** In every reachable state the index is inside the queue, everything before it is
      reliable, exactly one send is pending while something waits on a live connection, and
      whatever answer the client handles next leaves the index inside the queue, cutting
      only packets in front of it. */
  lemma IndexAlwaysValid(steps: seq<Step>)
    requires Run(Start, steps)
    ensures var w := After(Start, steps); var c := w.client;
      && IndexInQueue(c) && Pumping(c)
      && (forall j :: 0 <= j < c.idx ==> c.queue[j].packet.reliable)
      && (Enabled(w, Deliver) ==> var c' := Next(w, Deliver).client;
            0 <= c'.idx <= |c'.queue| && c'.queue[c'.idx..] == c.queue[c.idx..])
  {
    hide Inv, Run, After, Next, Enabled;
    StartInv();
    RunKeeps(Start, steps);
    var w := After(Start, steps);
    IndexInside(w);
    if Enabled(w, Deliver) {
      DeliverKeeps(w);
      IndexInside(Next(w, Deliver));
      NextAnswerInFront(w);
      Delivered(w);
    }
  }

  lemma IndexInside(w: World)
    requires Inv(w)
    ensures var c := w.client;
      IndexInQueue(c) && Pumping(c) && forall j :: 0 <= j < c.idx ==> c.queue[j].packet.reliable
  {
    hide IssuedOk, DeliveredOk, LinksOk, CurrentOk, AnswersOk, TakenOk;
  }

  lemma Delivered(w: World)
    requires Enabled(w, Deliver)
    ensures |w.links[Current(w)].answers| > 0 && Next(w, Deliver).client == Hear(w.client, w.links[Current(w)].answers[0])
  {
    hide Hear;
  }

  lemma NextAnswerInFront(w: World)
    requires Inv(w) && Enabled(w, Deliver)
    ensures var c, c' := w.client, Hear(w.client, w.links[Current(w)].answers[0]);
      0 <= c'.idx <= |c'.queue| && c'.queue[c'.idx..] == c.queue[c.idx..]
  {
    hide IssuedOk, DeliveredOk, LinksOk, CurrentOk, PumpOk, Acknowledged;
    var c, a := w.client, w.links[Current(w)].answers[0];
    if a.HeartBeatAns? {
      AckStaysInFront(c, a.msgSeq);
      AcknowledgedCutsPrefix(c, a.msgSeq);
    }
  }
}
