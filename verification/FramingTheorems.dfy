/** What the framing layer promises: chunking does not matter, and frames that were written
    are read back one by one. */
module FramingTheorems {
  import opened Bytes
  import opened Buffers
  import opened Framing

  // ---------------------------------------------------------------- writing

  /** `Overrun`: header and body do not fit the array, and the copy goes past its end. */
  datatype Write = Written | Refused | Overrun

  /** Packet::Write: the header fields and the body.  The check for the capacity is made on the
      length as it fits the 16-bit field, so it lets a body pass whose length wraps. */
  method WritePacket(packet: Buffer, m: Message) returns (r: Write)
    requires packet.Valid() && packet.Capacity() == MAX_SIZE
    modifies packet, packet.data
    ensures packet.Valid() && packet.data == old(packet.data)
    ensures r.Written? <==> |m.body| + HEADER_SIZE < MAX_SIZE
    ensures r.Refused? <==> (|m.body| + HEADER_SIZE) % LENGTH_MODULUS == MAX_SIZE
    ensures packet.Contents() == if r.Written? then Frame(m) else []
  {
    packet.Clear();
    var total := (|m.body| + HEADER_SIZE) % LENGTH_MODULUS;
    if packet.Capacity() <= total {
      return Refused;
    }
    if HEADER_SIZE + |m.body| > packet.data.Length {
      return Overrun;
    }
    var header := LE(total, 2) + LE(m.seqNo, 4) + LE(m.id, 4);
    var data := packet.data;
    forall i | 0 <= i < HEADER_SIZE {
      data[i] := header[i];
    }
    forall i | 0 <= i < |m.body| {
      data[HEADER_SIZE + i] := m.body[i];
    }
    packet.writeCursor := packet.writeCursor + total;
    assert data[0..total] == header + m.body;
    r := Written;
  }

  // ---------------------------------------------------------------- reading back

  /** A written frame parses as one complete frame, with its number, id and body. */
  lemma FrameFields(m: Message, rest: seq<Byte>)
    requires InRange(m)
    ensures var bs := Frame(m) + rest;
      Complete(bs) && LengthField(bs) == |Frame(m)| && bs[..|Frame(m)|] == Frame(m) && bs[|Frame(m)|..] == rest
    ensures Decode(Frame(m)) == m
  {
    var bs, f := Frame(m) + rest, Frame(m);
    PowersOf256();
    assert bs[..OFFSET_MSGSEQ] == LE(|f|, 2);
    LERoundTrip(|f|, 2);
    assert f[OFFSET_MSGSEQ..OFFSET_MSGID] == LE(m.seqNo, 4);
    LERoundTrip(m.seqNo, 4);
    assert f[OFFSET_MSGID..HEADER_SIZE] == LE(m.id, 4);
    LERoundTrip(m.id, 4);
    assert f[HEADER_SIZE..] == m.body;
  }

  /** Where the octets of a frame stand: two of the length, four of the number, four of the id,
      each least significant first, and the body. */
  lemma FrameOctets(m: Message, k: nat)
    requires k < |m.body| + 10
    ensures Frame(m)[k] ==
      if k < 2 then (|m.body| + 10) / Pow256(k) % 256
      else if k < 6 then m.seqNo / Pow256(k - 2) % 256
      else if k < 10 then m.id / Pow256(k - 6) % 256
      else m.body[k - 10]
  {
    hide LE, Pow256;
    if k < 2 {
      LEAt(|m.body| + 10, 2, k);
    } else if k < 6 {
      LEAt(m.seqNo, 4, k - 2);
    } else if k < 10 {
      LEAt(m.id, 4, k - 6);
    }
  }

  function Frames(ms: seq<Message>): seq<seq<Byte>> {
    if ms == [] then [] else [Frame(ms[0])] + Frames(ms[1..])
  }

  function Concat(chunks: seq<seq<Byte>>): seq<Byte> {
    if chunks == [] then [] else chunks[0] + Concat(chunks[1..])
  }

  /** Concatenated frames are recovered frame by frame; none is refused. */
  lemma {:induction false} FramesRecovered(ms: seq<Message>, rest: seq<Byte>)
    requires forall i :: 0 <= i < |ms| ==> InRange(ms[i])
    ensures Parse(Concat(Frames(ms)) + rest) == Parse(rest).(frames := Frames(ms) + Parse(rest).frames)
  {
    hide Parse, Frame, LengthField, Decode, InRange;
    if ms == [] {
      assert [] + rest == rest;
      assert [] + Parse(rest).frames == Parse(rest).frames;
    } else {
      var tail := Concat(Frames(ms[1..])) + rest;
      assert Concat(Frames(ms)) + rest == Frame(ms[0]) + tail;
      FrameFields(ms[0], tail);
      ParseHead(Frame(ms[0]) + tail);
      FramesRecovered(ms[1..], rest);
      assert [Frame(ms[0])] + (Frames(ms[1..]) + Parse(rest).frames) == Frames(ms) + Parse(rest).frames;
    }
  }

  /** What stands behind good frames is refused exactly when a whole header stands there whose
      length is less than a header's or does not fit the packet. */
  lemma RefusedExactly(ms: seq<Message>, rest: seq<Byte>)
    requires forall i :: 0 <= i < |ms| ==> InRange(ms[i])
    requires |rest| >= 10 ==> !(10 <= rest[0] + 256 * (rest[1] as nat) <= |rest|)
    ensures var p := Parse(Concat(Frames(ms)) + rest);
      && p.frames == Frames(ms) && p.rest == rest
      && (p.status.TooShort? <==> |rest| >= 10 && rest[0] + 256 * (rest[1] as nat) < 10)
      && (p.status.TooLong? <==> |rest| >= 10 && rest[0] + 256 * (rest[1] as nat) >= MAX_SIZE)
  {
    hide Parse, Concat, Frames, InRange;
    FramesRecovered(ms, rest);
    HeadRefused(rest);
    assert Frames(ms) + [] == Frames(ms);
  }

  lemma HeadRefused(rest: seq<Byte>)
    requires |rest| >= 10 ==> !(10 <= rest[0] + 256 * (rest[1] as nat) <= |rest|)
    ensures var p := Parse(rest);
      && p.frames == [] && p.rest == rest
      && (p.status.TooShort? <==> |rest| >= 10 && rest[0] + 256 * (rest[1] as nat) < 10)
      && (p.status.TooLong? <==> |rest| >= 10 && rest[0] + 256 * (rest[1] as nat) >= MAX_SIZE)
  {
    hide LengthField, Parse;
    ParseHead(rest);
    if |rest| >= 10 {
      LengthIs(rest);
    }
  }

  lemma LengthIs(bs: seq<Byte>)
    requires |bs| >= 10
    ensures LengthField(bs) == bs[0] + 256 * (bs[1] as nat)
  {
    assert bs[..2] == [bs[0], bs[1]] && [bs[0], bs[1]][1..] == [bs[1]] && [bs[1]][1..] == [];
    assert UnLE([bs[1]]) == bs[1];
  }

  /** Messages numbered above m and increasing all pass the filter. */
  predicate Numbered(ms: seq<Message>, m: nat)
    decreases |ms|
  {
    ms == [] || (ms[0].seqNo > m && Numbered(ms[1..], ms[0].seqNo))
  }

  lemma SentReads(m: Message)
    requires InRange(m)
    ensures Decode(Frame(m)) == m && SeqField(Frame(m)) == m.seqNo
  {
    hide Frame, SeqField, IdField;
    FrameFields(m, []);
  }

  lemma {:induction false} AllDispatched(ms: seq<Message>, m: nat)
    requires (forall i :: 0 <= i < |ms| ==> InRange(ms[i])) && Numbered(ms, m)
    ensures Framed(Frames(ms)) && Dispatched(m, Frames(ms)) == ms
    decreases |ms|
  {
    hide Frame, LengthField, SeqField, IdField, InRange;
    if ms != [] {
      SentReads(ms[0]);
      AllDispatched(ms[1..], ms[0].seqNo);
      assert Frames(ms)[1..] == Frames(ms[1..]);
    }
  }

  // ---------------------------------------------------------------- chunks

  function FeedAll(r: Receiver, chunks: seq<seq<Byte>>): Receiver
    decreases |chunks|
  {
    if chunks == [] then r else FeedAll(Feed(r, chunks[0]), chunks[1..])
  }

  /** Every chunk fits behind the bytes still pending when it arrives. */
  predicate Fits(r: Receiver, chunks: seq<seq<Byte>>)
    decreases |chunks|
  {
    chunks == [] || (|r.pending| + |chunks[0]| <= MAX_SIZE && Fits(Feed(r, chunks[0]), chunks[1..]))
  }

  /** A receiver between two reads: what is pending is an incomplete frame. */
  predicate Idle(r: Receiver) {
    r.outcome == Received(Waiting) && Parse(r.pending) == Parsed([], r.pending, Waiting)
  }

  lemma {:induction false} RestIsIdle(bs: seq<Byte>)
    ensures Parse(bs).status.Waiting? ==> Parse(Parse(bs).rest) == Parsed([], Parse(bs).rest, Waiting)
    decreases |bs|
  {
    if Complete(bs) {
      RestIsIdle(bs[LengthField(bs)..]);
    }
  }

  lemma {:induction false} DeadStays(r: Receiver, chunks: seq<seq<Byte>>)
    requires r.outcome != Received(Waiting)
    ensures FeedAll(r, chunks) == r
    decreases |chunks|
  {
    if chunks != [] {
      DeadStays(r, chunks[1..]);
    }
  }

  /** The receiver after any chunks that fit, from the concatenated bytes alone: the same
      messages dispatched, the same number, the same error at the same place. */
  ghost predicate AsWhole(r: Receiver, bs: seq<Byte>, r': Receiver) {
    var p := Parse(r.pending + bs);
    Framed(p.frames) &&
    r'.dispatched == r.dispatched + Dispatched(r.msgSeq, p.frames) &&
    r'.msgSeq == LastSeq(r.msgSeq, p.frames) &&
    r'.outcome == Received(p.status) &&
    (p.status.Waiting? ==> r'.pending == p.rest)
  }

  lemma {:induction false} ChunkingIrrelevant(r: Receiver, chunks: seq<seq<Byte>>)
    requires Idle(r) && Fits(r, chunks)
    ensures AsWhole(r, Concat(chunks), FeedAll(r, chunks))
    decreases |chunks|
  {
    if chunks == [] {
      assert r.pending + [] == r.pending;
      OneFrameBase(r.msgSeq);
      assert r.dispatched + [] == r.dispatched;
    } else {
      var a, rest := r.pending + chunks[0], Concat(chunks[1..]);
      var r1 := Feed(r, chunks[0]);
      assert r.pending + Concat(chunks) == a + rest;
      ParseFramed(a);
      ParseFramed(a + rest);
      if Parse(a).status.Waiting? {
        RestIsIdle(a);
        ChunkingIrrelevant(r1, chunks[1..]);
        ChunkThenRest(r, a, rest, r1, FeedAll(r1, chunks[1..]));
      } else {
        RefusedStays(a, rest);
        DeadStays(r1, chunks[1..]);
      }
    }
  }

  lemma ChunkThenRest(r: Receiver, a: seq<Byte>, rest: seq<Byte>, r1: Receiver, r2: Receiver)
    requires Parse(a).status.Waiting? && Framed(Parse(a).frames) && Framed(Parse(a + rest).frames)
    requires r1 == Receiver(Parse(a).rest, LastSeq(r.msgSeq, Parse(a).frames),
                            r.dispatched + Dispatched(r.msgSeq, Parse(a).frames), Received(Waiting))
    requires AsWhole(r1, rest, r2)
    ensures var p := Parse(a + rest);
      r2.dispatched == r.dispatched + Dispatched(r.msgSeq, p.frames) && r2.msgSeq == LastSeq(r.msgSeq, p.frames) &&
      r2.outcome == Received(p.status) && (p.status.Waiting? ==> r2.pending == p.rest)
  {
    hide Parse, Dispatched, LastSeq;
    ParseAppend(a, rest);
    var later := Parse(Parse(a).rest + rest);
    DispatchedAppend(r.msgSeq, Parse(a).frames, later.frames);
  }

  /** Two ways of cutting the same bytes into chunks dispatch the same messages and end the
      same way. */
  lemma SameBytesSameResult(r: Receiver, a: seq<seq<Byte>>, b: seq<seq<Byte>>)
    requires Idle(r) && Fits(r, a) && Fits(r, b) && Concat(a) == Concat(b)
    ensures FeedAll(r, a).dispatched == FeedAll(r, b).dispatched
    ensures FeedAll(r, a).msgSeq == FeedAll(r, b).msgSeq && FeedAll(r, a).outcome == FeedAll(r, b).outcome
  {
    ChunkingIrrelevant(r, a);
    ChunkingIrrelevant(r, b);
  }

  /** Messages written in increasing order and delivered in any chunks that fit are
      dispatched one by one, each with its number, id and body, and none is refused. */
  lemma WrittenIsDispatched(ms: seq<Message>, chunks: seq<seq<Byte>>)
    requires (forall i :: 0 <= i < |ms| ==> InRange(ms[i])) && Numbered(ms, 0)
    requires Concat(chunks) == Concat(Frames(ms))
    requires Fits(Receiver([], 0, [], Received(Waiting)), chunks)
    ensures var r := FeedAll(Receiver([], 0, [], Received(Waiting)), chunks);
      r.dispatched == ms && r.outcome == Received(Waiting) && r.pending == []
  {
    ChunkingIrrelevant(Receiver([], 0, [], Received(Waiting)), chunks);
    FramesRecovered(ms, []);
    AllDispatched(ms, 0);
    var bs := Concat(Frames(ms));
    assert [] + Concat(chunks) == bs && bs + [] == bs;
    assert Frames(ms) + [] == Frames(ms);
    assert [] + ms == ms;
  }

  /** The buffer never fills up on its own: an idle receiver always has room for more. */
  lemma IdleLeavesRoom(r: Receiver, chunk: seq<Byte>)
    requires Idle(r) && |chunk| <= 2
    ensures !Feed(r, chunk).outcome.BufferFull?
  {
    RestIsBounded(r.pending);
  }
}
