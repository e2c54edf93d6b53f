/** Framing of the TCP byte stream: the packet header, OnRecvMsg's reassembly loop over a
    receive buffer, and the sequence filter in front of the dispatcher. */
module Framing {
  import opened Bytes
  import opened Buffers

  const OFFSET_MSGSEQ: nat := 2
  const OFFSET_MSGID: nat := 6
  const HEADER_SIZE: nat := 10
  const LENGTH_MODULUS: nat := 0x1_0000

  /** A message as the dispatcher sees it. */
  datatype Message = Message(seqNo: nat, id: nat, body: seq<Byte>)

  predicate InRange(m: Message) {
    m.seqNo < 0x1_0000_0000 && m.id < 0x1_0000_0000 && |m.body| + HEADER_SIZE < MAX_SIZE
  }

  /** The frame Packet::Write builds: 16-bit total length, 32-bit number, 32-bit id, body. */
  function Frame(m: Message): (bs: seq<Byte>)
    ensures |bs| == |m.body| + HEADER_SIZE
  {
    LE(|m.body| + HEADER_SIZE, 2) + LE(m.seqNo, 4) + LE(m.id, 4) + m.body
  }

  function LengthField(bs: seq<Byte>): (n: nat)
    requires |bs| >= HEADER_SIZE
    ensures n < 0x1_0000
  {
    PowersOf256();
    UnLE(bs[..OFFSET_MSGSEQ])
  }

  function SeqField(bs: seq<Byte>): nat
    requires |bs| >= HEADER_SIZE
  {
    UnLE(bs[OFFSET_MSGSEQ..OFFSET_MSGID])
  }

  function IdField(bs: seq<Byte>): nat
    requires |bs| >= HEADER_SIZE
  {
    UnLE(bs[OFFSET_MSGID..HEADER_SIZE])
  }

  // ---------------------------------------------------------------- the stream

  datatype Status = Waiting | TooShort(length: nat) | TooLong(length: nat)

  /** What a byte stream holds: its complete frames, the unconsumed rest, and whether the
      rest is merely incomplete or starts with a length the receiver refuses. */
  datatype Parsed = Parsed(frames: seq<seq<Byte>>, rest: seq<Byte>, status: Status)

  function Parse(bs: seq<Byte>): Parsed
    decreases |bs|
  {
    if |bs| < HEADER_SIZE then Parsed([], bs, Waiting)
    else
      var length := LengthField(bs);
      if length < HEADER_SIZE then Parsed([], bs, TooShort(length))
      else if length >= MAX_SIZE then Parsed([], bs, TooLong(length))
      else if length > |bs| then Parsed([], bs, Waiting)
      else
        var p := Parse(bs[length..]);
        p.(frames := [bs[..length]] + p.frames)
  }

  /** Every frame is at least a header long. */
  predicate Framed(frames: seq<seq<Byte>>) {
    forall i :: 0 <= i < |frames| ==> |frames[i]| >= HEADER_SIZE
  }

  lemma {:induction false} ParseFramed(bs: seq<Byte>)
    ensures Framed(Parse(bs).frames)
    decreases |bs|
  {
    if |bs| >= HEADER_SIZE && HEADER_SIZE <= LengthField(bs) < MAX_SIZE && LengthField(bs) <= |bs| {
      ParseFramed(bs[LengthField(bs)..]);
    }
  }

  /** An incomplete rest is shorter than the longest frame. */
  lemma {:induction false} RestIsBounded(bs: seq<Byte>)
    ensures Parse(bs).status.Waiting? ==> |Parse(bs).rest| < MAX_SIZE - 1
    decreases |bs|
  {
    if |bs| >= HEADER_SIZE && HEADER_SIZE <= LengthField(bs) < MAX_SIZE && LengthField(bs) <= |bs| {
      RestIsBounded(bs[LengthField(bs)..]);
    }
  }

  /** The head of the stream is a complete, acceptable frame. */
  predicate Complete(bs: seq<Byte>) {
    |bs| >= HEADER_SIZE && HEADER_SIZE <= LengthField(bs) < MAX_SIZE && LengthField(bs) <= |bs|
  }

  /** One turn of the loop, as the parse sees it. */
  lemma ParseHead(bs: seq<Byte>)
    ensures Complete(bs) ==> var n := LengthField(bs);
      Parse(bs) == Parse(bs[n..]).(frames := [bs[..n]] + Parse(bs[n..]).frames)
    ensures !Complete(bs) ==> Parse(bs).frames == [] && Parse(bs).rest == bs
    ensures |bs| < HEADER_SIZE ==> Parse(bs).status == Waiting
    ensures |bs| >= HEADER_SIZE && !Complete(bs) ==> var n := LengthField(bs);
      Parse(bs).status == if n < HEADER_SIZE then TooShort(n) else if n >= MAX_SIZE then TooLong(n) else Waiting
  {
  }

  /** More bytes only matter behind what was complete. */
  lemma {:induction false} ParseAppend(a: seq<Byte>, b: seq<Byte>)
    requires Parse(a).status.Waiting?
    ensures var more := Parse(Parse(a).rest + b);
      Parse(a + b) == more.(frames := Parse(a).frames + more.frames)
    decreases |a|
  {
    hide LengthField, Parse;
    var p := Parse(a);
    var more := Parse(p.rest + b);
    ParseHead(a);
    if Complete(a) {
      var n := LengthField(a);
      HeadStays(a, b, n);
      ParseHead(a + b);
      ParseAppend(a[n..], b);
      assert [a[..n]] + (Parse(a[n..]).frames + more.frames) == p.frames + more.frames;
    } else {
      assert [] + more.frames == more.frames;
    }
  }

  lemma HeadStays(a: seq<Byte>, b: seq<Byte>, n: nat)
    requires n <= |a| && |a| >= HEADER_SIZE
    ensures LengthField(a + b) == LengthField(a)
    ensures (a + b)[..n] == a[..n] && (a + b)[n..] == a[n..] + b
  {
    assert (a + b)[..OFFSET_MSGSEQ] == a[..OFFSET_MSGSEQ];
  }

  /** A refused length stays refused, at the same place. */
  lemma {:induction false} RefusedStays(a: seq<Byte>, b: seq<Byte>)
    requires !Parse(a).status.Waiting?
    ensures Parse(a + b).frames == Parse(a).frames && Parse(a + b).status == Parse(a).status
    decreases |a|
  {
    hide LengthField, Parse;
    ParseHead(a);
    ParseHead(a + b);
    if Complete(a) {
      var n := LengthField(a);
      HeadStays(a, b, n);
      RefusedStays(a[n..], b);
    } else {
      HeadStays(a, b, 0);
    }
  }

  // ---------------------------------------------------------------- the sequence filter

  function Decode(frame: seq<Byte>): Message
    requires |frame| >= HEADER_SIZE
  {
    Message(SeqField(frame), IdField(frame), frame[HEADER_SIZE..])
  }

  /** The messages dispatched from frames by a session whose number is m. */
  function Dispatched(m: nat, frames: seq<seq<Byte>>): seq<Message>
    requires Framed(frames)
    decreases |frames|
  {
    if frames == [] then []
    else if SeqField(frames[0]) > m then [Decode(frames[0])] + Dispatched(SeqField(frames[0]), frames[1..])
    else Dispatched(m, frames[1..])
  }

  /** The session's number afterwards. */
  function LastSeq(m: nat, frames: seq<seq<Byte>>): nat
    requires Framed(frames)
    decreases |frames|
  {
    if frames == [] then m
    else LastSeq(if SeqField(frames[0]) > m then SeqField(frames[0]) else m, frames[1..])
  }

  lemma {:induction false} DispatchedAppend(m: nat, a: seq<seq<Byte>>, b: seq<seq<Byte>>)
    requires Framed(a) && Framed(b)
    ensures Framed(a + b)
    ensures Dispatched(m, a + b) == Dispatched(m, a) + Dispatched(LastSeq(m, a), b)
    ensures LastSeq(m, a + b) == LastSeq(LastSeq(m, a), b)
    decreases |a|
  {
    hide SeqField, Decode;
    if a == [] {
      assert a + b == b;
      assert [] + Dispatched(m, b) == Dispatched(m, b);
    } else {
      assert (a + b)[0] == a[0] && (a + b)[1..] == a[1..] + b;
      DispatchedAppend(if SeqField(a[0]) > m then SeqField(a[0]) else m, a[1..], b);
    }
  }

  /** Frame i has a number beyond m and beyond those of all frames in front of it. */
  predicate Beyond(m: nat, frames: seq<seq<Byte>>, i: nat)
    requires Framed(frames) && i < |frames|
  {
    SeqField(frames[i]) > m && forall j :: 0 <= j < i ==> SeqField(frames[j]) < SeqField(frames[i])
  }

  /** The session's number is the greatest there was. */
  lemma {:induction false} LastSeqIs(m: nat, frames: seq<seq<Byte>>)
    requires Framed(frames)
    ensures LastSeq(m, frames) >= m && forall j :: 0 <= j < |frames| ==> SeqField(frames[j]) <= LastSeq(m, frames)
    ensures LastSeq(m, frames) == m || exists j :: 0 <= j < |frames| && SeqField(frames[j]) == LastSeq(m, frames)
    decreases |frames|
  {
    hide SeqField;
    if frames != [] {
      var n := if SeqField(frames[0]) > m then SeqField(frames[0]) else m;
      LastSeqIs(n, frames[1..]);
      assert forall j :: 1 <= j < |frames| ==> frames[j] == frames[1..][j - 1];
      assert LastSeq(m, frames) == LastSeq(n, frames[1..]);
    }
  }

  /** Which frames pass the filter, one after the other: exactly those whose number is beyond
      every number there was. */
  lemma FilterExactly(m: nat, frames: seq<seq<Byte>>, i: nat)
    requires Framed(frames) && i < |frames|
    ensures Dispatched(m, []) == []
    ensures Dispatched(m, frames[..i + 1]) ==
      Dispatched(m, frames[..i]) + if Beyond(m, frames, i) then [Decode(frames[i])] else []
  {
    hide SeqField, Decode, LastSeq, Dispatched;
    OneFrameBase(m);
    var a := frames[..i];
    assert frames[..i + 1] == a + [frames[i]];
    DispatchedAppend(m, a, [frames[i]]);
    OneFrame(LastSeq(m, a), frames[i]);
    LastSeqIs(m, a);
    assert forall j :: 0 <= j < i ==> a[j] == frames[j];
  }

  // ---------------------------------------------------------------- the receiver

  datatype Outcome = Received(status: Status) | BufferFull

  /** What one OnRecvMsg leaves behind: pending bytes, the session's number, the dispatched
      messages, and how the call ended. */
  datatype Receiver = Receiver(pending: seq<Byte>, msgSeq: nat, dispatched: seq<Message>, outcome: Outcome)

  /** OnRecvMsg as a function.  After an error the link is closed and nothing more is read. */
  function Feed(r: Receiver, chunk: seq<Byte>): Receiver {
    if r.outcome != Received(Waiting) then r
    else if |r.pending| + |chunk| > MAX_SIZE then r.(outcome := BufferFull)
    else
      var p := Parse(r.pending + chunk);
      ParseFramed(r.pending + chunk);
      Receiver(p.rest, LastSeq(r.msgSeq, p.frames), r.dispatched + Dispatched(r.msgSeq, p.frames), Received(p.status))
  }

  /** The server session as OnRecvMsg uses it; `dispatched` records the dispatcher's calls. */
  class Session {
    var recvPacket: Buffer
    var msgSeq: nat
    var dispatched: seq<Message>

    ghost predicate Valid()
      reads this, recvPacket
    {
      recvPacket.Valid() && recvPacket.data.Length == MAX_SIZE && recvPacket.readCursor == 0
    }

    ghost function Pending(): seq<Byte>
      reads this, recvPacket, recvPacket.data
      requires Valid()
    {
      recvPacket.Contents()
    }

    ghost function Snapshot(outcome: Outcome): Receiver
      reads this, recvPacket, recvPacket.data
      requires Valid()
    {
      Receiver(Pending(), msgSeq, dispatched, outcome)
    }

    constructor ()
      ensures Valid() && fresh(recvPacket) && fresh(recvPacket.data)
      ensures Pending() == [] && msgSeq == 0 && dispatched == []
    {
      recvPacket := new Buffer(MAX_SIZE);
      msgSeq := 0;
      dispatched := [];
    }

    /** Packet::GetLength, GetSEQ and GetID read the array at absolute offsets, so they see
        the head of the unread bytes only because the read cursor is zero. */
    method ReadHeader() returns (length: nat, seqNo: nat, id: nat)
      requires Valid() && |Pending()| >= HEADER_SIZE
      ensures length == LengthField(Pending()) && seqNo == SeqField(Pending()) && id == IdField(Pending())
    {
      var data := recvPacket.data;
      length := UnLE(data[0..OFFSET_MSGSEQ]);
      seqNo := UnLE(data[OFFSET_MSGSEQ..OFFSET_MSGID]);
      id := UnLE(data[OFFSET_MSGID..HEADER_SIZE]);
      assert Pending()[..OFFSET_MSGSEQ] == data[0..OFFSET_MSGSEQ];
      assert Pending()[OFFSET_MSGSEQ..OFFSET_MSGID] == data[OFFSET_MSGSEQ..OFFSET_MSGID];
      assert Pending()[OFFSET_MSGID..HEADER_SIZE] == data[OFFSET_MSGID..HEADER_SIZE];
    }

    /** Consumes the frame at the head; what follows moves into a fresh packet. */
    method DropFrame(length: nat)
      requires Valid() && length <= |Pending()|
      modifies this`recvPacket, recvPacket
      ensures Valid() && Pending() == old(Pending())[length..]
      ensures recvPacket == old(recvPacket) || fresh(recvPacket)
      ensures recvPacket.data == old(recvPacket.data) || fresh(recvPacket.data)
    {
      recvPacket.Remove(length);
      if 0 < recvPacket.Size() {
        var packet := new Buffer(MAX_SIZE);
        var rest := recvPacket.data[recvPacket.readCursor..recvPacket.writeCursor];
        var ok := packet.Append(rest);
        recvPacket := packet;
      }
    }

    /** The loop body for a complete frame: dispatch it if its number is new, then drop it. */
    method TakeFrame(length: nat, seqNo: nat, id: nat)
      requires Valid() && HEADER_SIZE <= length <= |Pending()|
      requires seqNo == SeqField(Pending()) && id == IdField(Pending())
      modifies this, recvPacket
      ensures Valid() && Pending() == old(Pending())[length..]
      ensures recvPacket == old(recvPacket) || fresh(recvPacket)
      ensures recvPacket.data == old(recvPacket.data) || fresh(recvPacket.data)
      ensures msgSeq == LastSeq(old(msgSeq), [old(Pending())[..length]])
      ensures dispatched == old(dispatched) + Dispatched(old(msgSeq), [old(Pending())[..length]])
    {
      FrameHeader(Pending(), length);
      OneFrame(msgSeq, Pending()[..length]);
      if seqNo > msgSeq {
        assert Pending()[..length][HEADER_SIZE..] == recvPacket.data[HEADER_SIZE..length];
        dispatched := dispatched + [Message(seqNo, id, recvPacket.data[HEADER_SIZE..length])];
        msgSeq := seqNo;
      }
      DropFrame(length);
    }

    /** The loop of OnRecvMsg: takes frames off the pending bytes while one is complete. */
    method Reassemble() returns (status: Status)
      requires Valid()
      modifies this, recvPacket
      ensures Valid()
      ensures recvPacket == old(recvPacket) || fresh(recvPacket)
      ensures recvPacket.data == old(recvPacket.data) || fresh(recvPacket.data)
      ensures var p := Parse(old(Pending()));
        Framed(p.frames) && status == p.status && Pending() == p.rest &&
        msgSeq == LastSeq(old(msgSeq), p.frames) &&
        dispatched == old(dispatched) + Dispatched(old(msgSeq), p.frames)
    {
      hide Parse, Dispatched, LastSeq, LengthField, SeqField, IdField;
      ghost var all := Pending();
      ghost var taken: seq<seq<Byte>> := [];
      OneFrameBase(msgSeq);
      status := Waiting;
      assert Parse(all).frames == [] + Parse(all).frames;
      while HEADER_SIZE <= recvPacket.Size()
        invariant Valid() && status == Waiting
        invariant recvPacket == old(recvPacket) || fresh(recvPacket)
        invariant recvPacket.data == old(recvPacket.data) || fresh(recvPacket.data)
        invariant Framed(taken)
        invariant Parse(all) == Parse(Pending()).(frames := taken + Parse(Pending()).frames)
        invariant msgSeq == LastSeq(old(msgSeq), taken)
        invariant dispatched == old(dispatched) + Dispatched(old(msgSeq), taken)
        decreases |Pending()|
      {
        var length, seqNo, id := ReadHeader();
        ParseHead(Pending());
        if length < HEADER_SIZE {
          status := TooShort(length);
          break;
        }
        if length >= recvPacket.Capacity() {
          status := TooLong(length);
          break;
        }
        if length > recvPacket.Size() {
          break;
        }
        ghost var frame := Pending()[..length];
        Advance(all, taken, Pending(), old(msgSeq));
        TakeFrame(length, seqNo, id);
        taken := taken + [frame];
      }
      ParseHead(Pending());
      assert taken + [] == taken;
    }

    /** OnRecvMsg: append the chunk, then take off what is complete. */
    method OnRecvMsg(chunk: seq<Byte>) returns (r: Outcome)
      requires Valid()
      modifies this, recvPacket, recvPacket.data
      ensures Valid()
      ensures recvPacket == old(recvPacket) || fresh(recvPacket)
      ensures recvPacket.data == old(recvPacket.data) || fresh(recvPacket.data)
      ensures Snapshot(r) == Feed(old(Snapshot(Received(Waiting))), chunk)
    {
      hide Parse, Dispatched, LastSeq;
      var ok := recvPacket.Append(chunk);
      if !ok {
        return BufferFull;
      }
      var status := Reassemble();
      r := Received(status);
    }
  }

  /** One more frame taken off the pending bytes. */
  lemma Advance(all: seq<Byte>, taken: seq<seq<Byte>>, pending: seq<Byte>, m: nat)
    requires Parse(all) == Parse(pending).(frames := taken + Parse(pending).frames) && Framed(taken)
    requires Complete(pending)
    ensures var n := LengthField(pending); var taken' := taken + [pending[..n]];
      Parse(all) == Parse(pending[n..]).(frames := taken' + Parse(pending[n..]).frames) && Framed(taken') &&
      Dispatched(m, taken') == Dispatched(m, taken) + Dispatched(LastSeq(m, taken), [pending[..n]]) &&
      LastSeq(m, taken') == LastSeq(LastSeq(m, taken), [pending[..n]])
  {
    hide Parse, LengthField, Dispatched, LastSeq;
    var n := LengthField(pending);
    ParseHead(pending);
    DispatchedAppend(m, taken, [pending[..n]]);
    assert taken + ([pending[..n]] + Parse(pending[n..]).frames) == taken + [pending[..n]] + Parse(pending[n..]).frames;
  }

  lemma OneFrameBase(m: nat)
    ensures Dispatched(m, []) == [] && LastSeq(m, []) == m
  {
  }

  lemma OneFrame(m: nat, frame: seq<Byte>)
    requires |frame| >= HEADER_SIZE
    ensures var s := SeqField(frame);
      LastSeq(m, [frame]) == (if s > m then s else m) && Dispatched(m, [frame]) == if s > m then [Decode(frame)] else []
  {
  }

  /** A frame's own header is the head of the stream it was cut from. */
  lemma FrameHeader(bs: seq<Byte>, length: nat)
    requires HEADER_SIZE <= length <= |bs|
    ensures SeqField(bs[..length]) == SeqField(bs) && IdField(bs[..length]) == IdField(bs)
  {
    assert bs[..length][OFFSET_MSGSEQ..OFFSET_MSGID] == bs[OFFSET_MSGSEQ..OFFSET_MSGID];
    assert bs[..length][OFFSET_MSGID..HEADER_SIZE] == bs[OFFSET_MSGID..HEADER_SIZE];
  }
}
