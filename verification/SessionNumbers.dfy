/** Two threads of the client.  Numbers are taken outside the lock and queued in it, and a new
    socket counts as connected before its queue is rewound: exactly what goes wrong when
    another thread gets in between. */
module SessionNumbers {
  import opened Wrappers
  import opened ClientSession
  import opened SessionProtocol
  import opened SessionInvariant
  import opened SessionClientSteps
  import opened SessionTheorems
  import opened SessionRuns
  import opened SessionPump
  import opened SessionHandover

  // ---------------------------------------------------------------- whole calls

  /** A call that nobody interrupts is its steps one after another. */
  lemma IssueIsRun(w: World, kind: Kind, reliable: bool, size: nat) returns (steps: seq<Step>)
    requires Inv(w) && !kind.ReconnectReq? && !kind.ConnectReq? && HEADER_SIZE <= size <= BUFFER_SIZE && !Early(w.client)
    ensures Run(w, steps)
    ensures After(w, steps) ==
      Numbered(w, Issue(w.client, kind, reliable, size), [Packet(w.client.msgSeq + 1, kind, reliable, size)])
  {
    hide Inv, Push, Early, Unpassed;
    var n := w.client.msgSeq + 1;
    var p := Packet(n, kind, reliable, size);
    NothingAbove(w, p);
    var number := Number(kind, reliable, size);
    var w1 := Next(w, number);
    assert w1.client == w.client.(msgSeq := n) && p in w1.taken && |w1.issued| == n;
    StillOpen(w.client, w1.client);
    assert Unpassed(w1, p) by { SamePassed(w, w1, p); }
    var w2 := Next(w1, Queue(p));
    assert (w.issued + [Blank(n)])[n - 1 := p] == w.issued + [p];
    assert w.taken + {p} - {p} == w.taken;
    RunOne(w, number);
    RunOne(w1, Queue(p));
    RunJoin(w, [number], [Queue(p)]);
    steps := [number] + [Queue(p)];
  }

  lemma SamePassed(w: World, w1: World, p: Packet)
    requires Unpassed(w, p) && w1.server == w.server && w1.client.queue == w.client.queue && w1.links == w.links
    ensures Unpassed(w1, p)
  {
  }

  lemma SendIsRun(w: World, n: nat, r: bool) returns (steps: seq<Step>)
    requires Inv(w) && !Refused(n) && !Spoiled(n) && !Early(w.client)
    ensures Run(w, steps) && After(w, steps) == Next(w, UserSend(n, r))
  {
    hide Inv, Push, Early, Unpassed, Run, After;
    assert Enabled(w, Attempt) && Guard(w, Attempt) by { Sendable(w); }
    RunOne(w, Attempt);
    StartReconnectKeeps(w);
    NotEarly(w.client);
    var w0 := Next(w, Attempt);
    var a := Packet(w.client.msgSeq + 1, User, r, HEADER_SIZE + n);
    var first := IssueIsRun(w0, User, r, HEADER_SIZE + n);
    IssueKeeps(w0, User, r, HEADER_SIZE + n);
    RunJoin(w, [Attempt], first);
    steps := [Attempt] + first;
    var w1 := After(w0, first);
    PushShape(w0.client.(msgSeq := a.seqNo), a);
    if w1.client.msgSeq % 10 == 0 && Up(w1.client.state) {
      StillOpen(w0.client, w0.client.(msgSeq := a.seqNo));
      PushNotEarly(w0.client.(msgSeq := a.seqNo), a);
      var more := IssueIsRun(w1, HeartBeatReq, true, HEADER_SIZE);
      RunJoin(w, steps, more);
      steps := steps + more;
      var b := Packet(a.seqNo + 1, HeartBeatReq, true, HEADER_SIZE);
      assert w.issued + ([a] + [b]) == w.issued + [a] + [b];
    } else {
      assert [a] + [] == [a];
    }
  }

  lemma Sendable(w: World)
    requires Inv(w)
    ensures |w.links| > 0
  {
  }

  // ---------------------------------------------------------------- a number that was passed

  /** The client is connected and the main session reads its link, and no other. */
  predicate Settled(w: World) {
    && |w.links| > 0 && w.client.state.Connected? && w.links[Current(w)].session.Main?
    && forall l :: 0 <= l < Current(w) ==> !Live(w.links[l])
  }

  /** What one frame does to number and log. */
  lemma HandleReads(w: World, p: Packet)
    ensures var s := HandleMain(w, p).server;
      && s.msgSeq >= w.server.msgSeq && s.msgSeq >= p.seqNo
      && (s.log == w.server.log || s.log == w.server.log + [p])
    ensures HandleMain(w, p).issued == w.issued
  {
  }

  /** A chunk raises the number to that of every frame in it, and dispatches nothing else. */
  lemma {:induction false} ChunkReads(w: World, l: nat, count: nat)
    requires l < |w.links| && count <= |w.links[l].wire|
    ensures var s, wire := MainChunk(w, l, count).server, w.links[l].wire;
      && s.msgSeq >= w.server.msgSeq && (forall i :: 0 <= i < count ==> s.msgSeq >= wire[i].packet.seqNo)
      && (forall x :: x in s.log ==> x in w.server.log || exists i :: 0 <= i < count && wire[i].packet == x)
    ensures MainChunk(w, l, count).issued == w.issued
    decreases count
  {
    hide HandleMain;
    if count > 0 {
      var wire := w.links[l].wire;
      var w1 := HandleMain(Popped(w, l), wire[0].packet);
      HandleReads(Popped(w, l), wire[0].packet);
      ChunkReads(w1, l, count - 1);
      var wire1 := w1.links[l].wire;
      assert forall i :: 0 <= i < count - 1 ==> wire1[i] == wire[i + 1];
      var s := MainChunk(w, l, count).server;
      assert MainChunk(w, l, count) == MainChunk(w1, l, count - 1);
      forall i | 0 <= i < count
        ensures s.msgSeq >= wire[i].packet.seqNo
      {
        assert i > 0 ==> wire1[i - 1] == wire[i];
      }
      forall x | x in s.log && x !in w.server.log
        ensures exists i :: 0 <= i < count && wire[i].packet == x
      {
        if x in w1.server.log {
          assert wire[0].packet == x;
        } else {
          var i :| 0 <= i < count - 1 && wire1[i].packet == x;
          assert wire[i + 1].packet == x;
        }
      }
    }
  }

  /** The main session reads the first `count` frames of the current link. */
  lemma ReadSome(w: World, count: nat)
    requires |w.links| > 0 && w.links[Current(w)].session.Main? && 0 < count <= |w.links[Current(w)].wire|
    requires w.server.received.Aligned? && AllWhole(w.links[Current(w)].wire)
    ensures var s := Read(Current(w), count);
      && Enabled(w, s) && Guard(w, s)
      && Next(w, s) == MainChunk(w.(server := w.server.(pending := 0)), Current(w), count)
  {
  }

  /** A frame that goes out before p with no lower a number: once it is read, p is lost. */
  lemma PassedLoses(w: World, p: Packet, k: nat) returns (steps: seq<Step>)
    requires Ready(w) && w.links[Current(w)].session.Main? && w.server.received.Aligned?
    requires AllWhole(w.links[Current(w)].wire) && Known(w.issued, p) && p.reliable && p !in w.server.log
    requires var out := w.links[Current(w)].wire + Wholes(ToSend(w));
      && k < |out| && out[k].packet.seqNo >= p.seqNo && forall i :: 0 <= i <= k ==> out[i].packet != p
    ensures Run(w, steps) && Lost(After(w, steps), p)
  {
    hide Ready, ToSend, PumpOk, Next, Enabled, Guard;
    var more, w1 := PumpOut(w);
    var l := Current(w);
    var wire := w1.links[l].wire;
    assert AllWhole(wire);
    ReadSome(w1, k + 1);
    ChunkReads(w1.(server := w1.server.(pending := 0)), l, k + 1);
    RunOne(w1, Read(l, k + 1));
    RunJoin(w, more, [Read(l, k + 1)]);
    steps := more + [Read(l, k + 1)];
  }

  /** Where a number that was passed shows: at the server, on the wire, or in what is to be sent. */
  lemma PassedWhere(w: World, p: Packet) returns (k: nat)
    requires Inv(w) && Settled(w) && p in w.taken && !Unpassed(w, p)
    ensures Ready(w)
    ensures var out := w.links[Current(w)].wire + Wholes(ToSend(w));
      w.server.msgSeq >= p.seqNo || (k < |out| && out[k].packet.seqNo >= p.seqNo)
  {
    hide Inv, Ready, ToSend, Unpassed;
    ClientSide(w);
    var wire := w.links[Current(w)].wire;
    k := 0;
    if w.server.msgSeq < p.seqNo {
      if !Below(wire, p.seqNo) {
        k :| 0 <= k < |wire| && wire[k].packet.seqNo >= p.seqNo;
      } else {
        NotAllBelow(w, p);
        var j :| 0 <= j < |w.client.queue| && !IsReconnect(w.client.queue[j].packet) && w.client.queue[j].packet.seqNo >= p.seqNo;
        NotSentYet(w, j, p.seqNo);
        var i := WaitsAt(w, j);
        k := |wire| + i;
      }
    }
  }

  lemma WaitsAt(w: World, j: nat) returns (i: nat)
    requires Ready(w) && j < |w.client.queue| && j >= Unsent(w.client, w.onWire)
    ensures i < |ToSend(w)| && Wholes(ToSend(w))[i] == Whole(w.client.queue[j].packet)
  {
    i := j - Unsent(w.client, w.onWire);
  }

  lemma NotAllBelow(w: World, p: Packet)
    requires Settled(w) && !Unpassed(w, p) && w.server.msgSeq < p.seqNo && Below(w.links[Current(w)].wire, p.seqNo)
    ensures exists j :: 0 <= j < |w.client.queue| && !IsReconnect(w.client.queue[j].packet) && w.client.queue[j].packet.seqNo >= p.seqNo
  {
  }

  /** What was sent on this connection is on its wire or was read. */
  lemma NotSentYet(w: World, j: nat, n: nat)
    requires Inv(w) && Settled(w) && j < |w.client.queue| && !IsReconnect(w.client.queue[j].packet)
    requires w.client.queue[j].packet.seqNo >= n && w.server.msgSeq < n && Below(w.links[Current(w)].wire, n)
    ensures j >= Unsent(w.client, w.onWire)
  {
    hide IssuedOk, DeliveredOk, LinksOk, AnswersOk, TakenOk, AheadOk;
    var c, cur, m := w.client, w.links[Current(w)], w.server.msgSeq;
    var x := c.queue[j].packet;
    assert Whole(x) !in cur.wire;
    if j < c.idx {
      assert Missing(w.issued, m, x);
    }
  }

  lemma QueuedWaits(w: World, p: Packet)
    requires Inv(w) && Settled(w) && Enabled(w, Queue(p))
    ensures var w1 := Next(w, Queue(p));
      && Ready(w) && Ready(w1) && ToSend(w1) == ToSend(w) + [Queued(p, 0)]
      && w1.links == w.links && w1.server == w.server && Known(w1.issued, p)
  {
    hide DeliveredOk, LinksOk, AnswersOk, CurrentOk;
    ClientSide(w);
    PushKeepsPump(w.client, p, w.partial, w.onWire);
    PumpBounds(w.client, w.partial, w.onWire);
    var c, i := w.client, Unsent(w.client, w.onWire);
    assert (c.queue + [Queued(p, 0)])[i..] == c.queue[i..] + [Queued(p, 0)];
  }

  lemma PumpBounds(c: Client, partial: nat, onWire: bool)
    requires IndexInQueue(c) && PumpOk(c, partial, onWire)
    ensures 0 <= Unsent(c, onWire) <= |c.queue|
  {
  }

  /** A packet that is only numbered was never dispatched, put on the wire or queued. */
  lemma NowhereYet(w: World, p: Packet)
    requires Inv(w) && Settled(w) && p in w.taken && Ready(w)
    ensures p !in w.server.log && AllWhole(w.links[Current(w)].wire) && w.server.received.Aligned?
    ensures forall f :: f in w.links[Current(w)].wire + Wholes(ToSend(w)) ==> f.packet != p
  {
    hide Inv, Ready, ToSend;
    OnlyTaken(w, p);
    WireKnown(w);
    SendKnown(w);
  }

  lemma OnlyTaken(w: World, p: Packet)
    requires Inv(w) && p in w.taken
    ensures p !in w.server.log && !Known(w.issued, p) && w.server.received.Aligned?
  {
    hide IssuedOk, QueueOk, PumpOk, LinksOk, CurrentOk, AnswersOk;
  }

  lemma WireKnown(w: World)
    requires Inv(w) && Settled(w)
    ensures AllWhole(w.links[Current(w)].wire)
    ensures forall f :: f in w.links[Current(w)].wire ==> Known(w.issued, f.packet)
  {
    hide IssuedOk, DeliveredOk, QueueOk, PumpOk, CurrentOk, AnswersOk, TakenOk;
    assert LinkOk(w.links[Current(w)], w.issued, w.server.msgSeq);
  }

  lemma SendKnown(w: World)
    requires Inv(w) && Ready(w)
    ensures forall f :: f in Wholes(ToSend(w)) ==> Known(w.issued, f.packet)
  {
    hide IssuedOk, DeliveredOk, LinksOk, CurrentOk, AnswersOk, TakenOk;
    var sent, i := ToSend(w), Unsent(w.client, w.onWire);
    assert forall j :: 0 <= j < |sent| ==> sent[j] == w.client.queue[i + j];
  }

  /** When is it safe to queue a reliable packet numbered before?  Exactly when nothing
      with a higher number went ahead of it. */
  lemma QueueSafeExactly(w: World, p: Packet)
    requires Inv(w) && Settled(w) && Enabled(w, Queue(p)) && p.reliable
    ensures var w1 := Next(w, Queue(p));
      Unpassed(w, p) <==> forall steps :: Run(w1, steps) ==> !Lost(After(w1, steps), p)
  {
    hide Inv, Run, After, Unpassed, Ready, ToSend, Push;
    var w1 := Next(w, Queue(p));
    if Unpassed(w, p) {
      assert !Early(w.client);
      QueueKeeps(w, p);
      forall steps | Run(w1, steps)
        ensures !Lost(After(w1, steps), p)
      {
        RunKeeps(w1, steps);
        NothingLostInInv(After(w1, steps), p);
      }
    } else {
      QueuedWaits(w, p);
      NowhereYet(w, p);
      var k := PassedWhere(w, p);
      var steps := PassedIsLost(w, w1, p, k);
      assert Run(w1, steps) && Lost(After(w1, steps), p);
    }
  }

  lemma PassedIsLost(w: World, w1: World, p: Packet, k: nat) returns (steps: seq<Step>)
    requires Ready(w) && Ready(w1) && ToSend(w1) == ToSend(w) + [Queued(p, 0)] && p.reliable
    requires w1.links == w.links && w1.server == w.server && Known(w1.issued, p) && w.links[Current(w)].session.Main?
    requires p !in w.server.log && AllWhole(w.links[Current(w)].wire) && w.server.received.Aligned?
    requires var out := w.links[Current(w)].wire + Wholes(ToSend(w));
      && (forall f :: f in out ==> f.packet != p)
      && (w.server.msgSeq >= p.seqNo || (k < |out| && out[k].packet.seqNo >= p.seqNo))
    ensures Run(w1, steps) && Lost(After(w1, steps), p)
  {
    hide Ready, ToSend;
    if w.server.msgSeq >= p.seqNo {
      steps := [];
    } else {
      var wire := w.links[Current(w)].wire;
      var out, out1 := wire + Wholes(ToSend(w)), wire + Wholes(ToSend(w1));
      assert forall i :: 0 <= i < |out| ==> out1[i] == out[i];
      assert forall i :: 0 <= i <= k ==> out1[i] in out;
      steps := PassedLoses(w1, p, k);
    }
  }

  /** The user's thread has taken a number, the timer's thread has taken the next one and queued
      it: a guarded run gets there. */
  lemma PassedReachable()
    ensures exists w, p :: Reachable(w) && Settled(w) && Enabled(w, Queue(p)) && p.reliable && !Unpassed(w, p)
  {
    TalkingReachable();
    var p, h := Packet(3, User, true, 10), Packet(4, HeartBeatReq, true, 10);
    var w1 := Talking.(client := Talking.client.(msgSeq := 3), issued := [P1, P2, Blank(3)], taken := {p});
    ReachStep(Talking, Number(User, true, 10), w1);
    var w2 := w1.(client := Client([Queued(P2, 0), Queued(h, 0)], 0, 4, Connected, Some(1), 1),
                  issued := [P1, P2, Blank(3), h]);
    ReachStep(w1, HeartBeat, w2);
    assert w2.client.queue[1].packet.seqNo == 4;
    assert Reachable(w2) && Settled(w2) && Enabled(w2, Queue(p)) && p.reliable && !Unpassed(w2, p);
  }

  /** Two threads whose increments collide have one number between them: the server takes at
      most one of their packets. */
  lemma SameNumberDiscarded(w: World, p: Packet, q: Packet)
    requires p.seqNo == q.seqNo
    ensures HandleMain(HandleMain(w, p), q) == HandleMain(w, p)
  {
    HandleReads(w, p);
  }

  function PushAll(c: Client, ps: seq<Packet>): Client
    decreases |ps|
  {
    if ps == [] then c else PushAll(Push(c, ps[0]), ps[1..])
  }

  /** A queue in which something waits while no send is outstanding stands still: no later call
      begins one.  So the first connect request is never sent if a message was queued before it. */
  lemma {:induction false} NothingBegins(c: Client, ps: seq<Packet>)
    requires 0 <= c.idx < |c.queue| && c.sends == 0
    ensures PushAll(c, ps).sends == 0
    decreases |ps|
  {
    if ps != [] {
      NothingBegins(Push(c, ps[0]), ps[1..]);
    }
  }

  // ---------------------------------------------------------------- a send before the request

  /** When is it safe to queue between the new socket and the rewinding?  Exactly when something
      waits already, so that no send begins in front of the request: otherwise two sends are
      outstanding at once. */
  lemma OpenSafeExactly(w: World, p: Packet)
    requires Inv(w) && w.client.state.Opened? && CleanQueue(w.client) && Enabled(w, Queue(p)) && Unpassed(w, p)
    ensures var w1 := Next(w, Queue(p));
      !Early(w.client) <==> forall steps :: Run(w1, steps) ==> After(w1, steps).client.sends <= 1
  {
    hide Inv, Run, After, Unpassed;
    var w1 := Next(w, Queue(p));
    if Early(w.client) {
      NoneSent(w);
      TakenIsMessage(w, p);
      assert w1.client.sends == 1 by { InsideQueue(w); }
      assert forall j :: 0 <= j < |w.client.queue| ==> w1.client.queue[j] == w.client.queue[j];
      var s := Reconnect(20);
      assert Enabled(w1, s) && Guard(w1, s);
      RunOne(w1, s);
      assert After(w1, [s]).client.sends == 2;
    } else {
      QueueKeeps(w, p);
      forall steps | Run(w1, steps)
        ensures After(w1, steps).client.sends <= 1
      {
        RunKeeps(w1, steps);
        IndexInside(After(w1, steps));
      }
    }
  }

  lemma TakenIsMessage(w: World, p: Packet)
    requires Inv(w) && p in w.taken
    ensures !IsReconnect(p)
  {
  }

  lemma InsideQueue(w: World)
    requires Inv(w)
    ensures IndexInQueue(w.client)
  {
    IndexInside(w);
  }

  /** Everything is sent and a third packet is numbered. */
  const Numbering: World :=
    Idle.(client := Idle.client.(msgSeq := 3), issued := [P1, P2, Blank(3)], taken := {Packet(3, User, true, 10)})

  lemma NumberingReachable()
    ensures Reachable(Numbering)
  {
    IdleReachable();
    ReachStep(Idle, Number(User, true, 10), Numbering);
  }

  /** The connection is lost there, and the packet is about to be queued while the new socket
      waits for the rewinding. */
  lemma EarlyReachable()
    ensures exists w, p :: Reachable(w) && w.client.state.Opened? && CleanQueue(w.client) && Enabled(w, Queue(p)) &&
                           Unpassed(w, p) && Early(w.client)
  {
    NumberingReachable();
    var p := Packet(3, User, true, 10);
    var w2 := Numbering.(client := Numbering.client.(state := Disconnected));
    ReachStep(Numbering, Drop, w2);
    var w3 := w2.(client := w2.client.(state := OnConnecting));
    ReachStep(w2, Attempt, w3);
    var w4 := w3.(client := w3.client.(state := Opened));
    ReachStep(w3, Open, w4);
    assert Reachable(w4) && Enabled(w4, Queue(p)) && Unpassed(w4, p) && Early(w4.client);
  }
}
