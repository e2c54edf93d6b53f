/** Coming back: from any state in which the client has heard its last token it reconnects, and
    everything that waits is delivered; what it cannot recover from. */
module SessionComeback {
  import opened Wrappers
  import opened ClientSession
  import opened SessionProtocol
  import opened SessionInvariant
  import opened SessionServerSteps
  import opened SessionTheorems
  import opened SessionRuns
  import opened SessionPump
  import opened SessionTokens

  ghost predicate Sound(w: World) {
    Inv(w) && TokenInv(w)
  }

  lemma SoundRun(w: World, steps: seq<Step>)
    requires Sound(w) && Run(w, steps)
    ensures Sound(After(w, steps))
  {
    hide Inv, TokenInv, Run, After;
    RunTokens(w, steps);
  }

  /** Everything reliable that was queued is dispatched. */
  ghost predicate AllDispatched(w: World) {
    forall p :: Known(w.issued, p) && p.reliable ==> p in w.server.log
  }

  /** The client is disconnected, a reconnect may start, and the server would grant it. */
  predicate MayReturn(w: World) {
    w.client.state.Disconnected? && CleanQueue(w.client) && Grants(w.server, w.client.token)
  }

  /** The client is connected to the main session, with nothing left to send or to read. */
  predicate IsBack(w: World) {
    && |w.links| > 0 && w.client.state.Connected? && w.client.idx == |w.client.queue| && !w.onWire
    && w.links[Current(w)].session.Main? && w.links[Current(w)].wire == []
  }

  // ---------------------------------------------------------------- up to the request

  /** The socket connects and the request is queued in front of what waits. */
  lemma Knock(w: World) returns (steps: seq<Step>, w1: World)
    requires Sound(w) && MayReturn(w)
    ensures Run(w, steps) && w1 == After(w, steps) && Sound(w1) && Ready(w1) && !w1.onWire
    ensures w1.server == w.server && w1.client.token == w.client.token && |w1.links| == |w.links| + 1
    ensures w1.links[Current(w1)] == Link([], [], Fresh(0))
    ensures w1.client.idx == 0 && |w1.client.queue| > 0 && w1.client.queue[0].packet.kind == ReconnectReq(w.client.token)
  {
    hide Inv, TokenInv;
    assert |w.links| > 0 by { HasLinks(w); }
    var wa := Next(w, Attempt);
    RunOne(w, Attempt);
    var wb := Next(wa, Open);
    RunOne(wa, Open);
    RunJoin(w, [Attempt], [Open]);
    var r := Reconnect(20);
    assert Enabled(wb, r) && Guard(wb, r);
    w1 := Next(wb, r);
    RunOne(wb, r);
    RunJoin(w, [Attempt] + [Open], [r]);
    steps := [Attempt] + [Open] + [r];
    SoundRun(w, steps);
    PumpReady(w1);
  }

  lemma HasLinks(w: World)
    requires Inv(w)
    ensures |w.links| > 0
  {
  }

  lemma PumpReady(w: World)
    requires Inv(w) && w.client.state.Connected?
    ensures Ready(w)
  {
  }

  /** It goes out, and so does everything behind it. */
  lemma SendOut(w: World) returns (steps: seq<Step>, w1: World)
    requires Sound(w) && Ready(w)
    ensures Run(w, steps) && w1 == After(w, steps) && Sound(w1)
    ensures w1.server == w.server && w1.client.token == w.client.token && |w1.links| == |w.links|
    ensures w1.client.state.Connected? && w1.client.idx == |w1.client.queue| && !w1.onWire
    ensures var cur, cur1 := w.links[Current(w)], w1.links[Current(w)];
      cur1.session == cur.session && cur1.answers == cur.answers && cur1.wire == cur.wire + Wholes(ToSend(w))
  {
    hide Inv, TokenInv, Next, Enabled, Guard, PumpOk;
    steps, w1 := PumpOut(w);
    if w1.onWire {
      var s := CallbackStep(w1);
      CallbackToken(w1, s);
      RunOne(w1, s);
      RunJoin(w, steps, [s]);
      steps := steps + [s];
      w1 := Next(w1, s);
    }
    SoundRun(w, steps);
    AllSent(w1);
  }

  lemma AllSent(w: World)
    requires Ready(w) && !w.onWire && ToSend(w) == []
    ensures w.client.idx == |w.client.queue| && w.client.state.Connected?
  {
  }

  // ---------------------------------------------------------------- the grant

  /** The server reads the request on the client's current link and grants it; the client hears
      the new token. */
  lemma LetIn(w: World) returns (steps: seq<Step>, w1: World)
    requires Sound(w) && |w.links| > 0 && Grants(w.server, w.client.token) && w.client.state.Connected?
    requires var cur := w.links[Current(w)];
      && cur.session == Fresh(0) && cur.answers == [] && |cur.wire| > 0
      && cur.wire[0].Whole? && cur.wire[0].packet.kind == ReconnectReq(w.client.token)
    ensures Run(w, steps) && w1 == After(w, steps) && Sound(w1) && |w1.links| == |w.links|
    ensures w1.client == w.client.(token := Some(w.server.token + 1)) && w1.onWire == w.onWire
    ensures w1.server.token == w.server.token + 1 && w1.server.registered
    ensures var cur1 := w1.links[Current(w)];
      cur1.session.Main? && cur1.wire == w.links[Current(w)].wire[1..] && cur1.answers == []
  {
    hide Inv, TokenInv, Resume, FreshChunk;
    var l, t := Current(w), w.server.token + 1;
    assert GrantedNext(w, l);
    OpeningFrame(w, l);
    var s := Read(l, 1);
    assert AllWhole(w.links[l].wire[..1]);
    var wa := Next(w, s);
    ResumedCurrent(w, l);
    GrantShape(w, l);
    var r := Resume(Popped(w, l), l, false, Aligned);
    assert wa == r.(server := r.server.(pending := 0));
    RunOne(w, s);
    assert Enabled(wa, Deliver) && Guard(wa, Deliver);
    w1 := Next(wa, Deliver);
    assert wa.links[l].answers[1..] == [];
    RunOne(wa, Deliver);
    RunJoin(w, [s], [Deliver]);
    steps := [s] + [Deliver];
    SoundRun(w, steps);
  }

  lemma GrantShape(w: World, l: nat)
    requires GrantedNext(w, l) && w.links[l].session == Fresh(0) && w.links[l].wire[0].packet.seqNo > 0
    ensures FreshChunk(w, l, 0, 1, 0, false) ==
      Resume(Popped(w, l), l, false, Aligned).(server := Resume(Popped(w, l), l, false, Aligned).server.(pending := 0))
  {
  }

  lemma ResumedCurrent(w: World, l: nat)
    requires Inv(w) && GrantedNext(w, l) && w.links[l].answers == []
    ensures var r := Resume(Popped(w, l), l, false, Aligned);
      && r.links[l] == Link(w.links[l].wire[1..], [ReconnectAns(true, w.server.token + 1)], Main)
      && |r.links| == |w.links| && r.client == w.client && r.onWire == w.onWire
      && r.server.token == w.server.token + 1 && r.server.registered == w.server.registered
  {
    hide IssuedOk, DeliveredOk, QueueOk, PumpOk, CurrentOk, AnswersOk;
    ResumedLinks(w, l, false);
    assert [] + [ReconnectAns(true, w.server.token + 1)] == [ReconnectAns(true, w.server.token + 1)];
  }

  // ---------------------------------------------------------------- the rest is read

  lemma {:induction false} ChunkWire(w: World, l: nat, count: nat)
    requires l < |w.links| && count <= |w.links[l].wire|
    ensures var w1 := MainChunk(w, l, count);
      && SameLinkCount(w, w1) && w1.links[l].wire == w.links[l].wire[count..]
      && w1.client == w.client && w1.onWire == w.onWire
    decreases count
  {
    hide HandleMain;
    if count == 0 {
      assert w.links[l].wire[0..] == w.links[l].wire;
    } else {
      var p := w.links[l].wire[0].packet;
      var w0 := HandleMain(Popped(w, l), p);
      HandleClient(Popped(w, l), p);
      ChunkWire(w0, l, count - 1);
      assert w0.links[l].wire[count - 1..] == w.links[l].wire[count..];
    }
  }

  predicate SameLinkCount(w: World, w1: World) {
    |w1.links| == |w.links|
  }

  lemma HandleClient(w: World, p: Packet)
    ensures HandleMain(w, p).client == w.client && HandleMain(w, p).onWire == w.onWire
  {
  }

  /** A chunk handed to the main session leaves it attached and hands out no token. */
  lemma {:induction false} ChunkMain(w: World, l: nat, count: nat)
    requires Inv(w) && TokenInv(w) && w.server.token > 0
    requires l < |w.links| && w.links[l].session.Main? && count <= |w.links[l].wire|
    ensures var w1 := MainChunk(w, l, count);
      |w1.links| == |w.links| && w1.links[l].session.Main? && w1.server.token == w.server.token && w1.server.registered == w.server.registered
    decreases count
  {
    hide Inv, TokenInv, HandleMain;
    if count > 0 {
      var w0 := HandleMain(Popped(w, l), w.links[l].wire[0].packet);
      MainReads(w, l);
      MainReadsTokens(w, l);
      NoNewToken(w, l);
      ChunkMain(w0, l, count - 1);
    }
  }

  lemma NoNewToken(w: World, l: nat)
    requires Inv(w) && TokenInv(w) && w.server.token > 0
    requires l < |w.links| && w.links[l].session.Main? && |w.links[l].wire| > 0
    ensures var s := HandleMain(Popped(w, l), w.links[l].wire[0].packet).server;
      s.token == w.server.token && s.registered == w.server.registered
  {
    hide Inv, HandedOut;
    var p := MainPacket(w, l);
    if p.kind.ConnectReq? {
      FirstOnly(w.issued, w.links, w.server.token, p);
    }
  }

  lemma ReadRest(w: World) returns (steps: seq<Step>, w1: World)
    requires Sound(w) && |w.links| > 0 && w.links[Current(w)].session.Main? && w.server.token > 0
    ensures Run(w, steps) && w1 == After(w, steps) && Sound(w1) && |w1.links| == |w.links|
    ensures w1.client == w.client && w1.onWire == w.onWire
    ensures w1.server.token == w.server.token && w1.server.registered == w.server.registered
    ensures w1.links[Current(w1)].session.Main? && w1.links[Current(w1)].wire == []
  {
    hide Inv, TokenInv, MainChunk;
    var l := Current(w);
    var count := |w.links[l].wire|;
    if count == 0 {
      steps, w1 := [], w;
    } else {
      MainWire(w, l);
      var s := Read(l, count);
      assert AllWhole(w.links[l].wire[..count]);
      assert Enabled(w, s) && Guard(w, s);
      var w0 := w.(server := w.server.(pending := 0));
      w1 := Next(w, s);
      assert w1 == MainChunk(w0, l, count);
      PendingKeeps(w, 0);
      PendingTokens(w, 0);
      ChunkWire(w0, l, count);
      ChunkMain(w0, l, count);
      RunOne(w, s);
      steps := [s];
      SoundRun(w, steps);
    }
  }

  /** With nothing left to send or to read, nothing is missing. */
  lemma NothingMissing(w: World)
    requires Inv(w) && IsBack(w)
    ensures AllDispatched(w) && CleanQueue(w.client)
  {
    hide LinksOk, AnswersOk, AheadOk;
    forall p | Known(w.issued, p) && p.reliable
      ensures p in w.server.log
    {
      assert !Missing(w.issued, w.server.msgSeq, p);
    }
  }

  // ---------------------------------------------------------------- coming back

  /** A client that has heard its last token, and whose session the server still holds, comes
      back: it ends up on the main session with everything dispatched, and may do so again. */
  lemma ComeBack(w: World) returns (steps: seq<Step>, w1: World)
    requires Sound(w) && MayReturn(w)
    ensures Run(w, steps) && w1 == After(w, steps) && Sound(w1)
    ensures IsBack(w1) && AllDispatched(w1) && w1.server.token == w.server.token + 1
    ensures Grants(w1.server, w1.client.token) && CleanQueue(w1.client)
  {
    hide Inv, TokenInv, Run, After, CleanQueue, PumpOk;
    var a, wa := Knock(w);
    var b, wb := SendOut(wa);
    RequestFirst(wa);
    RunJoin(w, a, b);
    var c, wc := LetIn(wb);
    RunJoin(w, a + b, c);
    var d, wd := ReadRest(wc);
    RunJoin(w, a + b + c, d);
    steps, w1 := a + b + c + d, wd;
    NothingMissing(w1);
  }

  /** The request is what goes out first. */
  lemma RequestFirst(w: World)
    requires Ready(w) && !w.onWire && w.client.idx == 0 && |w.client.queue| > 0
    ensures |ToSend(w)| > 0 && Wholes(ToSend(w))[0] == Whole(w.client.queue[0].packet)
  {
  }

  /** As often as the connection is lost: twice in a row. */
  lemma ComeBackTwice(w: World) returns (steps: seq<Step>, w1: World)
    requires Sound(w) && MayReturn(w)
    ensures Run(w, steps) && w1 == After(w, steps) && Sound(w1)
    ensures IsBack(w1) && AllDispatched(w1) && w1.server.token == w.server.token + 2 && Grants(w1.server, w1.client.token)
  {
    hide Inv, TokenInv, Run, After, CleanQueue, AllDispatched;
    var a, wa := ComeBack(w);
    RunOne(wa, Drop);
    RunJoin(w, a, [Drop]);
    var wb := Next(wa, Drop);
    SoundRun(wa, [Drop]);
    assert CleanQueue(wb.client) by { SameQueue(wa.client, wb.client); }
    var b, wc := ComeBack(wb);
    RunJoin(w, a + [Drop], b);
    steps, w1 := a + [Drop] + b, wc;
  }

  lemma SameQueue(c: Client, c': Client)
    requires CleanQueue(c) && c'.queue == c.queue
    ensures CleanQueue(c')
  {
  }

  // ---------------------------------------------------------------- a token that was never heard

  /** The last token was sent on a connection that the client has given up since. */
  predicate GivenUp(w: World) {
    exists l :: 0 <= l < |w.links| - 1 && w.server.token in Unheard(w.links[l])
  }

  /** What was answered on links the client has left stays there. */
  predicate OldKept(w: World, w': World) {
    |w.links| <= |w'.links| && forall l :: 0 <= l < |w.links| - 1 ==> w.links[l].answers <= w'.links[l].answers
  }

  lemma UnheardStays(w: World, w': World)
    requires GivenUp(w) && OldKept(w, w') && w'.server.token == w.server.token
    ensures GivenUp(w')
  {
    var l :| 0 <= l < |w.links| - 1 && w.server.token in Unheard(w.links[l]);
    var a, b := w.links[l].answers, w'.links[l].answers;
    TokensJoin(a, b[|a|..]);
    assert a + b[|a|..] == b;
    assert w.server.token in Unheard(w'.links[l]);
  }

  lemma {:induction false} ChunkOld(w: World, l: nat, count: nat)
    requires l < |w.links| && count <= |w.links[l].wire|
    ensures OldKept(w, MainChunk(w, l, count))
    decreases count
  {
    hide HandleMain;
    if count > 0 {
      var w0 := HandleMain(Popped(w, l), w.links[l].wire[0].packet);
      HandleOld(Popped(w, l), w.links[l].wire[0].packet);
      ChunkOld(w0, l, count - 1);
      assert |MainChunk(w, l, count).links| >= |w0.links| == |w.links|;
    }
  }

  lemma HandleOld(w: World, p: Packet)
    ensures var w' := HandleMain(w, p);
      |w'.links| == |w.links| && forall l :: 0 <= l < |w.links| ==> w.links[l].answers <= w'.links[l].answers
  {
  }

  /** A request that would be granted carries a token that was heard. */
  lemma AskedFor(w: World, l: nat)
    requires Inv(w) && TokenInv(w) && GrantedNext(w, l)
    ensures !SomeUnheard(w.links, w.server.token)
  {
    hide HandedOut, SomeUnheard, IssuedOk, DeliveredOk, QueueOk, PumpOk, CurrentOk, AnswersOk, WireOk;
    assert LinkOk(w.links[l], w.issued, w.server.msgSeq);
    var p := w.links[l].wire[0].packet;
    assert w.issued[p.seqNo - 1] == p;
  }

  lemma GivenUpUnheard(w: World)
    requires GivenUp(w)
    ensures SomeUnheard(w.links, w.server.token)
  {
  }

  /** So no such request stands anywhere. */
  lemma NobodyAsks(w: World, l: nat)
    requires Inv(w) && TokenInv(w) && GivenUp(w)
    ensures !GrantedNext(w, l)
  {
    hide Inv, TokenInv, GivenUp, SomeUnheard, GrantedNext;
    GivenUpUnheard(w);
    if GrantedNext(w, l) {
      AskedFor(w, l);
    }
  }

  lemma GivenUpToken(w: World)
    requires TokenInv(w) && GivenUp(w)
    ensures w.server.token > 0
  {
  }

  lemma StuckReceive(w: World, l: nat, count: nat, tail: nat, busy: bool, body: Misread)
    requires Sound(w) && GivenUp(w) && l < |w.links| && count <= |w.links[l].wire| && !w.links[l].session.Superseded?
    ensures var w' := ReceiveChunk(w, l, count, tail, busy, body); w'.server.token == w.server.token && OldKept(w, w')
  {
    hide Inv, TokenInv, FreshChunk, MainChunk, GivenUp;
    GivenUpToken(w);
    match w.links[l].session
    case Nobody =>
    case Fresh(n) =>
      if AllWhole(w.links[l].wire[..count]) {
        NobodyAsks(w, l);
        StuckFresh(w, l, count, tail, busy);
      }
    case Main =>
      MainWire(w, l);
      PendingKeeps(w, tail);
      PendingTokens(w, tail);
      var w0 := w.(server := w.server.(pending := tail));
      ChunkOld(w0, l, count);
      ChunkMain(w0, l, count);
  }

  lemma StuckFresh(w: World, l: nat, count: nat, tail: nat, busy: bool)
    requires Inv(w) && l < |w.links| && w.links[l].session.Fresh? && count <= |w.links[l].wire| && !GrantedNext(w, l)
    requires AllWhole(w.links[l].wire[..count])
    ensures var w' := FreshChunk(w, l, w.links[l].session.msgSeq, count, tail, busy);
      w'.server.token == w.server.token && OldKept(w, w')
  {
    hide Inv, Resume, Refuse;
    if count > 0 {
      OpeningFrame(w, l);
      var p := w.links[l].wire[0].packet;
      assert w.links[l].wire[..count][0] == w.links[l].wire[0];
      var w0 := Popped(w, l);
      RefuseShape(w0, l);
      RefuseOld(w0, l);
      FreshSkips(Refuse(w0, l), l, p.seqNo, count - 1, tail, busy);
    }
  }

  lemma RefuseOld(w: World, l: nat)
    requires l < |w.links| && w.links[l].session.Fresh?
    ensures |Refuse(w, l).links| == |w.links|
    ensures forall k :: 0 <= k < |w.links| ==> w.links[k].answers <= Refuse(w, l).links[k].answers
  {
  }

  lemma StuckStep(w: World, s: Step)
    requires Sound(w) && GivenUp(w) && Enabled(w, s) && Guard(w, s)
    ensures GivenUp(Next(w, s)) && Next(w, s).server.token == w.server.token
  {
    hide Inv, TokenInv, GivenUp, ReceiveChunk, SendMsg, IssuedBySend, Push, Reconnected, Hear, Written;
    var w' := Next(w, s);
    if s.Receive? {
      StuckReceive(w, s.link, s.count, s.tail, s.busy, s.body);
    } else {
      assert w'.server.token == w.server.token && OldKept(w, w');
    }
    UnheardStays(w, w');
  }

  lemma {:induction false} StuckForever(w: World, steps: seq<Step>)
    requires Sound(w) && GivenUp(w) && Run(w, steps)
    ensures After(w, steps).server.token == w.server.token
    decreases |steps|
  {
    hide Inv, TokenInv, GivenUp, Next, Enabled, Guard;
    if steps != [] {
      StuckStep(w, steps[0]);
      StepKeeps(w, steps[0]);
      StepTokens(w, steps[0]);
      StuckForever(Next(w, steps[0]), steps[1..]);
    }
  }

  // ---------------------------------------------------------------- a session that was forgotten

  lemma ForgottenReceive(w: World, l: nat, count: nat, tail: nat, busy: bool, body: Misread)
    requires Sound(w) && w.server.token > 0 && !w.server.registered
    requires l < |w.links| && count <= |w.links[l].wire| && !w.links[l].session.Superseded?
    ensures var s := ReceiveChunk(w, l, count, tail, busy, body).server; s.token == w.server.token && !s.registered
  {
    hide Inv, TokenInv, FreshChunk, MainChunk;
    match w.links[l].session
    case Nobody =>
    case Fresh(n) =>
      if AllWhole(w.links[l].wire[..count]) {
        ForgottenFresh(w, l, count, tail, busy);
      }
    case Main =>
      MainWire(w, l);
      PendingKeeps(w, tail);
      PendingTokens(w, tail);
      ChunkMain(w.(server := w.server.(pending := tail)), l, count);
  }

  lemma ForgottenFresh(w: World, l: nat, count: nat, tail: nat, busy: bool)
    requires Inv(w) && l < |w.links| && w.links[l].session.Fresh? && count <= |w.links[l].wire| && !w.server.registered
    requires AllWhole(w.links[l].wire[..count])
    ensures var s := FreshChunk(w, l, w.links[l].session.msgSeq, count, tail, busy).server;
      s.token == w.server.token && !s.registered
  {
    hide Inv, Resume, Refuse;
    if count > 0 {
      OpeningFrame(w, l);
      var p := w.links[l].wire[0].packet;
      var w0 := Popped(w, l);
      RefuseShape(w0, l);
      FreshSkips(Refuse(w0, l), l, p.seqNo, count - 1, tail, busy);
    }
  }

  lemma ForgottenStep(w: World, s: Step)
    requires Sound(w) && w.server.token > 0 && !w.server.registered && Enabled(w, s) && Guard(w, s)
    ensures Next(w, s).server.token == w.server.token && !Next(w, s).server.registered
  {
    hide Inv, TokenInv, ReceiveChunk, SendMsg, IssuedBySend, Push, Reconnected, Hear, Written;
    if s.Receive? {
      ForgottenReceive(w, s.link, s.count, s.tail, s.busy, s.body);
    }
  }

  /** The server never holds a session again that it has forgotten, and never resumes it. */
  lemma {:induction false} ForgottenForever(w: World, steps: seq<Step>)
    requires Sound(w) && w.server.token > 0 && !w.server.registered && Run(w, steps)
    ensures After(w, steps).server.token == w.server.token && !After(w, steps).server.registered
    decreases |steps|
  {
    hide Inv, TokenInv, Next, Enabled, Guard;
    if steps != [] {
      ForgottenStep(w, steps[0]);
      StepKeeps(w, steps[0]);
      StepTokens(w, steps[0]);
      ForgottenForever(Next(w, steps[0]), steps[1..]);
    }
  }

  /** That is what the idle sweep does to a session without a link. */
  lemma SweptForever(w: World, steps: seq<Step>)
    requires Sound(w) && w.server.token > 0 && w.server.link.None? && |w.links| > 0
    requires Run(Next(w, Sweep), steps)
    ensures After(Next(w, Sweep), steps).server.token == w.server.token
  {
    hide Inv, TokenInv, Run, After;
    StepKeeps(w, Sweep);
    StepTokens(w, Sweep);
    ForgottenForever(Next(w, Sweep), steps);
  }

  // ---------------------------------------------------------------- who can come back

  /** The answers that wait on the current link are handled. */
  lemma {:induction false} HearEverything(w: World) returns (steps: seq<Step>, w1: World)
    requires Sound(w) && |w.links| > 0 && w.client.state.Disconnected? && CleanQueue(w.client)
    ensures Run(w, steps) && w1 == After(w, steps) && Sound(w1) && |w1.links| == |w.links| && w1.server == w.server
    ensures w1.client.state.Disconnected? && CleanQueue(w1.client) && w1.links[Current(w1)].answers == []
    ensures forall l :: 0 <= l < |w.links| - 1 ==> w1.links[l] == w.links[l]
    decreases |w.links[|w.links| - 1].answers|
  {
    hide Inv, TokenInv, Run, After, CleanQueue, Hear;
    if w.links[Current(w)].answers == [] {
      steps, w1 := [], w;
      assert Run(w, []) && After(w, []) == w by { NoSteps(w); }
    } else {
      assert Enabled(w, Deliver) && Guard(w, Deliver);
      var wa := Next(w, Deliver);
      RunOne(w, Deliver);
      SoundRun(w, [Deliver]);
      HeardFirst(w.client, w.links[Current(w)].answers);
      HeardClean(w.client, w.links[Current(w)].answers[0]);
      steps, w1 := HearEverything(wa);
      RunJoin(w, [Deliver], steps);
      steps := [Deliver] + steps;
    }
  }

  lemma NoSteps(w: World)
    ensures Run(w, []) && After(w, []) == w
  {
  }

  lemma HeardClean(c: Client, a: Answer)
    requires CleanQueue(c)
    ensures CleanQueue(Hear(c, a))
  {
    if a.HeartBeatAns? {
      AcknowledgedCutsPrefix(c, a.msgSeq);
    }
  }

  /** Can a disconnected client come back?  Exactly when the server still holds its session and
      the last token was not sent on a connection that the client has given up. */
  lemma ComeBackExactly(w: World)
    requires Sound(w) && w.client.state.Disconnected? && CleanQueue(w.client) && w.server.token > 0
    ensures (exists steps :: Run(w, steps) && After(w, steps).server.token > w.server.token) <==>
      w.server.registered && !GivenUp(w)
  {
    hide Inv, TokenInv, Run, After, CleanQueue, AllDispatched, GivenUp;
    if !w.server.registered {
      forall steps | Run(w, steps)
        ensures After(w, steps).server.token == w.server.token
      {
        ForgottenForever(w, steps);
      }
    } else if GivenUp(w) {
      forall steps | Run(w, steps)
        ensures After(w, steps).server.token == w.server.token
      {
        StuckForever(w, steps);
      }
    } else {
      HasLinks(w);
      var a, wa := HearEverything(w);
      AllHeard(w, wa);
      var b, wb := ComeBack(wa);
      RunJoin(w, a, b);
      assert Run(w, a + b) && After(w, a + b).server.token > w.server.token;
    }
  }

  lemma AllHeard(w: World, w1: World)
    requires TokenInv(w1) && |w1.links| == |w.links| > 0 && w1.server == w.server && w.server.registered && !GivenUp(w)
    requires w1.links[|w1.links| - 1].answers == [] && forall l :: 0 <= l < |w.links| - 1 ==> w1.links[l] == w.links[l]
    ensures Grants(w1.server, w1.client.token)
  {
    hide Unheard, RequestsOk, SomeUnheard;
    OnlyOld(w, w1);
    Granted(w1);
  }

  lemma OnlyOld(w: World, w1: World)
    requires |w1.links| == |w.links| > 0 && w1.server == w.server && w1.links[|w1.links| - 1].answers == []
    requires forall l :: 0 <= l < |w.links| - 1 ==> w1.links[l] == w.links[l]
    ensures SomeUnheard(w1.links, w1.server.token) ==> GivenUp(w)
  {
    assert Unheard(w1.links[|w1.links| - 1]) == [] by { NoneUnheard(w1.links[|w1.links| - 1]); }
    hide Unheard;
    if SomeUnheard(w1.links, w1.server.token) {
      var l :| 0 <= l < |w1.links| && w1.server.token in Unheard(w1.links[l]);
      assert w.server.token in Unheard(w.links[l]);
    }
  }

  lemma NoneUnheard(link: Link)
    requires link.answers == []
    ensures Unheard(link) == []
  {
  }

  // ---------------------------------------------------------------- and how it happens

  const R3 := Packet(3, ReconnectReq(Some(1)), false, 20)
  const R4 := Packet(4, ReconnectReq(Some(1)), false, 20)

  /** From the idle state the client reconnects; the server has the request. */
  const Asking := World(
    Client([Queued(P2, 0)], 0, 3, Connected, Some(1), 1),
    [Link([], [], Main), Link([Whole(R3)], [], Fresh(0))], 0, false, Serving(2, [P1, P2]), [P1, P2, R3], {}, {})

  lemma AskingReachable()
    ensures Reachable(Asking)
  {
    IdleReachable();
    var c := Idle.client;
    var w1 := Idle.(client := c.(state := Disconnected, sends := 0));
    ReachStep(Idle, Drop, w1);
    var w2 := w1.(client := w1.client.(state := OnConnecting));
    ReachStep(w1, Attempt, w2);
    var w3 := World(Client([Queued(R3, 0), Queued(P2, 0)], 0, 3, Connected, Some(1), 1),
                    [Link([], [], Main), Link([], [], Fresh(0))], 0, false, Idle.server, [P1, P2, R3], {}, {});
    assert Rewound(c.queue) == [Queued(P2, 0)];
    assert w3 == Next(w2.(client := NewSocket(w2.client)), Reconnect(20));
    ReachReconnect(w2, 20, w3);
    AskedReachable(w3);
  }

  lemma AskedReachable(w3: World)
    requires Reachable(w3)
    requires w3 == World(Client([Queued(R3, 0), Queued(P2, 0)], 0, 3, Connected, Some(1), 1),
                         [Link([], [], Main), Link([], [], Fresh(0))], 0, false, Idle.server, [P1, P2, R3], {}, {})
    ensures Reachable(Asking)
  {
    var w4 := w3.(links := [Link([], [], Main), Link([Whole(R3)], [], Fresh(0))], onWire := true);
    ReachTransmit(w3, w4.links, w4);
    var c := w3.client;
    assert c.queue[..0] + c.queue[1..] == [Queued(P2, 0)];
    assert Written(c, 20) == Asking.client;
    ReachStep(w4, SendCallback(20), Asking);
  }

  /** The server grants the request while the client loses the connection, and the client
      reconnects with the token it has: a guarded run gets there. */
  lemma GivenUpReachable()
    ensures exists w :: Reachable(w) && w.server.registered && GivenUp(w)
  {
    AskingReachable();
    var w0 := Asking;
    var granted := Serving(2, [P1, P2]).(token := 2, link := Some(1));
    var links := [Link([], [], Nobody), Link([], [ReconnectAns(true, 2)], Main)];
    var w1 := w0.(links := links, server := granted);
    GrantedLinks(links);
    ReachGrant(w0, w1);
    LeftReachable(w1);
  }

  lemma GrantedLinks(links: seq<Link>)
    requires links == [Link([], [], Nobody), Link([], [ReconnectAns(true, 2)], Main)]
    ensures Resume(Popped(Asking, 1), 1, false, Aligned).links == links
  {
    assert [Whole(R3)][1..] == [] && [] + [ReconnectAns(true, 2)] == [ReconnectAns(true, 2)];
    var r := Resume(Popped(Asking, 1), 1, false, Aligned);
    assert r.links[0] == links[0] && r.links[1] == links[1] && |r.links| == 2;
  }

  lemma ReachGrant(w: World, w1: World)
    requires Reachable(w) && w == Asking
    requires w1 == Resume(Popped(w, 1), 1, false, Aligned)
    ensures Reachable(w1)
  {
    hide Resume;
    assert AllWhole(w.links[1].wire[..1]) && w.links[1].wire[0].packet == R3;
    GrantShape(w, 1);
    assert w1.server.pending == 0 by { NoPending(w); }
    assert w1.(server := w1.server.(pending := 0)) == w1;
    assert Next(w, Read(1, 1)) == w1;
    ReachStep(w, Read(1, 1), w1);
  }

  lemma NoPending(w: World)
    requires |w.links| > 1 && |w.links[1].wire| > 0
    ensures Resume(Popped(w, 1), 1, false, Aligned).server.pending == 0
  {
  }

  lemma LeftReachable(w1: World)
    requires Reachable(w1)
    requires w1 == Asking.(links := [Link([], [], Nobody), Link([], [ReconnectAns(true, 2)], Main)],
                           server := Serving(2, [P1, P2]).(token := 2, link := Some(1)))
    ensures exists w :: Reachable(w) && w.server.registered && GivenUp(w)
  {
    var c := w1.client;
    var w2 := w1.(client := c.(state := Disconnected, sends := 0));
    ReachStep(w1, Drop, w2);
    var w3 := w2.(client := w2.client.(state := OnConnecting));
    ReachStep(w2, Attempt, w3);
    var w4 := w3.(client := Client([Queued(R4, 0), Queued(P2, 0)], 0, 4, Connected, Some(1), 1),
                  links := w1.links + [Link([], [], Fresh(0))], issued := [P1, P2, R3, R4]);
    assert Rewound(c.queue) == [Queued(P2, 0)];
    assert w4 == Next(w3.(client := NewSocket(w3.client)), Reconnect(20));
    ReachReconnect(w3, 20, w4);
    assert TokensIn([ReconnectAns(true, 2)]) == [2] by { OneToken(ReconnectAns(true, 2)); }
    assert 2 in Unheard(w4.links[1]);
    assert GivenUp(w4);
  }
}
