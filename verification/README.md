# Gamnet, modelled and proved in Dafny

Gamnet is a C++ game-server network library with a Unity (C#) client, an IDL compiler that
generates serializers for both, and a few library codecs. This project models its protocols
and codecs and proves that they do what they are for. Verify it with
`dafny verify dfyconfig.toml`.

## What is modelled

**Reliable session** (`ClientSession`, `SessionProtocol`, `SessionInvariant`,
`SessionClientSteps`, `SessionServerSteps`, `SessionTheorems`, `SessionRuns`, `SessionPump`,
`SessionNumbers`, `SessionLimits`, `SessionHandover`, `SessionSuperseded`, `SessionTokens`,
`SessionComeback`). The client numbers
packets, keeps the reliable ones in its send queue, pumps one send at a time and replays the
queue after a reconnect. The server dispatches what is numbered beyond its session number,
re-attaches the old session on a reconnect request and acknowledges in the heartbeat answer.
Client, one wire per connection and server form one state machine. Its client steps are the
lock sections of the client and what its threads do between them: a number taken, a packet
queued, a new socket that counts as connected before its queue is rewound, partial writes,
drops that may tear a frame. Its server steps are chunks received with a torn frame at their
end, posted detachings that run at last, closes, sweeps and answers delivered. The server's
side includes the receive packet that a resumed session takes over and the link its answers go
to. The invariant holds in every state of every guarded run, and from it follow order, no loss
and replay. A second invariant follows the session tokens: from it follows when a reconnect is
granted, that a client which has heard its last token comes back with everything delivered, as
often as it likes, and exactly when it cannot come back at all. The client itself is also a class whose methods are proved to take exactly these
steps.

A run is guarded by five conditions, each with an if-and-only-if theorem over all
continuations: a reconnect starts from a queue without an earlier request
(`SessionLimits.ReconnectSafeExactlyWhenClean`); packets are queued in the order of their
numbers (`SessionNumbers.QueueSafeExactly`); nothing begins a send on a new socket in front of
its request (`SessionNumbers.OpenSafeExactly`); a granted request ends its chunk
(`SessionHandover.GrantSafeExactlyWhenLast`); a superseded link is not read any more
(`SessionSuperseded.LateReadSafeExactly`, for whole frames). For each of them a guarded run is
given that reaches a state where the code breaks it.

**Framing** (`Buffers`, `Framing`, `FramingTheorems`). The cursor buffer over an array, the
packet writer and the reassembly loop, as classes, against a parse of the byte stream.

**IDL compiler** (`Idl`, `IdlCode`, `IdlCompiler`, `IdlStore`, `IdlSize`, `IdlScopes`,
`IdlTaken`, `IdlLoad`, `IdlSafety`, `IdlTheorems`, `IdlLimits`, `IdlLoadLimits`,
`IdlSizeMember`, `IdlTexts`). Types and values; the
statements the generators emit, with variables, scopes, a cursor and a remaining size, and what running them
does; the C++ and the C# generator as functions from types to statements. Running generated
code is related to a direct encoder, and loading to what the wire holds, maps in any order and
with repeated keys included. `Data` is the generated file `example/idl/data.h` in its
own imperative form.

**MD5** (`Md5Spec`, `Md5`, `Md5Vectors`). Sections 3.1 to 3.5 of RFC 1321 as functions; the
streaming class with its 64-octet buffer and two-word counter, proved against them; what the
functions compute, told without their formulas, down to three digests of section A.5.

**JSON** (`Json`, `JsonTokens`, `JsonRoundTrip`, `JsonUnicode`, `JsonSyntax`, `JsonWriter`,
`JsonReader`, `JsonLimits`). What is printed and what a text means, as functions with the round
trip between them; the documents of RFC 8259 as syntax trees, and what the reader makes of each;
FastWriter and Reader as classes proved to compute these functions.

**Locks, links, pool and acceptor** (`MultiLock`, `Links`, `Acceptor`). Ordered acquisition as
a state machine over any number of threads; the link's send pump; the tie between links and
sessions through accept, close and reconnect; the idle sweep; the link pool and the acceptor
that is armed again when links close.

**Router** (`Strings`, `Router`, `RouterAnswers`). The three routing tables, and the
correlation of requests and answers over any run.

**Base64** (`Base64`, `Base64Bits`). Section 4 of RFC 4648, with both streaming loops; the
alphabet place by place and the bits of every group as numbers.

`Bytes` holds the little-endian byte order, `Wrappers` the `Option` type.

## Where the code does less than it promises

Each of these is a lemma or a postcondition, not an impression.

- A reconnect request that was never sent stays in the client's queue and is replayed behind
  the next one. On the resumed session it raises the session number past every missing packet
  numbered below it, and these are lost (`SessionLimits.DirtyReconnectLoses`, reached by
  `StuckRequestReachable`).
- Numbers are taken outside the lock that queues the packets. When the heartbeat timer takes a
  number behind the user's and queues it first, the server discards the user's packet as one it
  has passed, and the acknowledgement drops it from the queue (`SessionNumbers.QueueSafeExactly`,
  reached by `PassedReachable`). Two threads whose increments collide share a number, and one of
  the two packets is discarded (`SameNumberDiscarded`).
- A new socket counts as connected before the queue is rewound under the lock. A message queued
  in between while everything was sent goes out in front of the reconnect request, and two
  sends are then outstanding at once (`SessionNumbers.OpenSafeExactly`, reached by
  `EarlyReachable`). At the first connect the same gap lets a message be queued in front of the
  connect request while no send begins; then none ever does (`NothingBegins`).
- A resumed session takes over the packet that held its request. What stood behind the request
  in the chunk is then unread behind it, while the header fields are read from the start of
  the array: the request is dispatched again in place of the next frame, and everything missing
  below it is lost. `SessionHandover.GrantSafeExactlyWhenLast` says exactly when;
  `ReplayedReachable` and `MessageThreeLost` show it happening.
- The detaching of a superseded link is posted to that link's strand. A chunk already waiting
  there is still read by the resumed session, which answers a heartbeat on its new link; the
  client then drops packets it has not sent again, and its index leaves the queue.
  `SessionSuperseded.LateReadSafeExactly` says exactly when; `LateHeartBeatReachable` reaches
  it. A late chunk that meets an unfinished frame of the new link loses that frame's packet
  (`LateTears`).
- A grant makes the client's token void before the client has heard the new one. When the
  connection is lost in between, the client asks with the old token for good, and no run ever
  lets it back in (`SessionComeback.StuckForever`, reached by `GivenUpReachable`;
  `ComeBackExactly` says exactly which sessions can be resumed).
- A heartbeat answer from an earlier connection, processed after a reconnect, can drive the
  send index below zero (`StaleAckBreaksIndex`). In the runs, answers come from the current
  connection only.
- When that detaching runs after the re-attachment, the resumed session loses its new link:
  it is still read but answers nothing (`SessionSuperseded.LateDetachSilences`,
  `Links.LinkManager.LateDetach`; the exact condition is in the contracts of `Reconnect` and
  `LateDetach`). Once it has been quiet for the keep-alive time, the idle sweep destroys it
  while the new link still has it attached (`Links.SweptWhileAttached`; `SessionManager.Sweep`
  says exactly which attached sessions go).
- A superseded link that closes before its detaching has run tells the resumed session of the
  close and cuts it off from its new link (`Links.LinkManager.ResumeThenClose` says exactly
  when).
- A closing link is not yet back in the pool when the acceptor looks for a free one, so an
  acceptor that stopped on an exhausted pool can stop for good (`Acceptor.StopsForGood`;
  `StoppedExactly` says in which states).
- The generated C++ Load copies a primitive static array without checking what is left:
  `IdlTheorems.OverreadExactly`. The vector form of Load takes an empty vector for success:
  `VectorAcceptsOnlyEmpty`.
- A field called like the length local of an earlier text or container is neither stored (C++)
  nor loaded (both languages): `IdlLimits.StoredExactly`, `IdlLoadLimits.LoadedExactly`. A
  number called `nSize` is loaded over the parameter that counts the remaining size, so that
  some input is read past its end exactly when anything is read behind that number
  (`IdlSizeMember.SizeMemberOverreads`).
- The C# generator emits code that does not compile for a static array of strings, for typedefs
  of strings and of other typedefs, and where a field is called like a local of another one.
  `IdlTheorems.SchemaShared` says exactly which schemas fit for C++ are fit for C#.
- A packet whose length does not fit 16 bits passes the capacity check and is copied past the
  end of the array (`FramingTheorems.WritePacket`).
- Unregistering one of two router addresses that share service and id, as a router does that
  registers for two ways of casting, leaves the lists in a state C++ does not determine
  (`Router.UnregisteredExactly`).
- The generated Load appends to the lists of its target, so it gives back what was stored
  only into a blank one (`Data.UserData.Load`, and the blank target of
  `IdlTheorems.RoundTrip`).
- C# reads the length of a list as a signed number and takes a negative one for none
  (`IdlLoadLimits.NegativeList`).
- An escaped surrogate that stands alone in a JSON string decodes to octets that are no UTF-8
  (`JsonUnicode.SurrogateUnread`).
- The JSON reader takes a lone `-` for 0, and lets an object end after a comma behind a member
  with an empty name (`JsonLimits.LoneMinus`, `TrailingCommaExactly`).

## Model

| member | source | states |
|---|---|---|
| `SessionTheorems.DeliveredInOrder` | Gamnet/Network/Tcp/LinkManager.h:102-108 | in every guarded run with any number of drops and reconnects the numbers dispatched on the server session strictly increase, and its reliable packets are exactly the reliable packets queued under numbers up to the session number |
| `SessionTheorems.NothingLost` | example/unity_client/Assets/Session.cs:427-513 | in every guarded run the reliable packets dispatched, followed by those waiting in the queue beyond the server's number, are all the reliable packets ever queued, in the order of their numbers |
| `SessionTheorems.ReplayDeliversAll` | example/unity_client/Assets/Session.cs:279-316 | after any guarded run, once the client is connected, has sent its whole queue and the main session has read its link, the server has dispatched exactly the reliable packets ever queued |
| `SessionTheorems.IndexAlwaysValid` | example/unity_client/Assets/Session.cs:462-513 | in every guarded run the index stays between 0 and the queue length, everything before it is reliable, one send is pending exactly while a connected client has something waiting, and the next answer removes only packets before the index |
| `SessionTheorems.NextAnswerInFront` | example/unity_client/Assets/Session.cs:502-513 | an acknowledgement arriving in any state of the invariant leaves what is at and behind the index as it was |
| `SessionTheorems.StepKeeps` | example/unity_client/Assets/Session.cs:270-316 | every guarded step of client, wire and server keeps the protocol invariant |
| `SessionTheorems.RunKeeps` | Gamnet/Network/Tcp/LinkManager.h:67-130 | every guarded run keeps the protocol invariant |
| `SessionTheorems.StillQueued` | example/unity_client/Assets/Session.cs:502-513 | the reliable packets queued beyond a number are exactly those numbered beyond it |
| `SessionTheorems.QuiescentQueue` | example/unity_client/Assets/Session.cs:470-500 | a reliable packet still queued when everything is sent and read is already dispatched |
| `SessionInvariant.StartInv` | example/unity_client/Assets/Session.cs:203-268 | the state after connecting satisfies the invariant |
| `SessionClientSteps.NumberKeeps` | example/unity_client/Assets/Session.cs:446 | taking a number keeps the invariant, with the packet numbered and not yet queued |
| `SessionClientSteps.QueueKeeps` | example/unity_client/Assets/Session.cs:462-469 | queueing a packet numbered before keeps the invariant when no higher number went ahead of it and no send begins in front of a request |
| `SessionClientSteps.OpenKeeps` | example/unity_client/Assets/Session.cs:279-292 | a new socket that counts as connected keeps the invariant, with the queue not yet rewound |
| `SessionClientSteps.IssueKeeps` | example/unity_client/Assets/Session.cs:444-452 | numbering and queueing without interruption keeps the invariant, with the packet added to those issued |
| `SessionClientSteps.UserSendKeeps` | example/unity_client/Assets/Session.cs:427-461 | the public SendMsg keeps the invariant: refused, spoiled, queued, with the reconnect before it and the heartbeat after it |
| `SessionClientSteps.TransmitKeeps` | example/unity_client/Assets/Session.cs:462-469 | putting the packet at the index on the wire keeps the invariant |
| `SessionClientSteps.SendCallbackKeeps` | example/unity_client/Assets/Session.cs:470-500 | the send callback keeps the invariant for every partial write |
| `SessionClientSteps.DropKeeps` | example/unity_client/Assets/Session.cs:397-412 | closing the connection keeps the invariant, with a frame torn in the middle |
| `SessionClientSteps.ReconnectKeeps` | example/unity_client/Assets/Session.cs:294-303 | rewinding the queue behind a new reconnect request keeps the invariant when no earlier request is still queued |
| `SessionClientSteps.DeliverKeeps` | example/unity_client/Assets/Session.cs:665-674 | hearing the next answer of the current link keeps the invariant |
| `SessionServerSteps.ReceiveKeeps` | Gamnet/Network/Tcp/LinkManager.h:67-130 | receiving a chunk, with a torn frame at its end, keeps the invariant on every link but a superseded one |
| `SessionServerSteps.GrantKeeps` | Gamnet/Network/Tcp/LinkManager.h:172-213 | granting a reconnect request that ends its chunk keeps the invariant, whether the old link is detached at once or later: the resumed session finds every missing reliable packet on its new link |
| `SessionServerSteps.FreshReads` | Gamnet/Network/Tcp/LinkManager.h:69-129 | a fresh session may read any chunk if its request is refused, and the request alone if it is granted |
| `SessionServerSteps.DetachKeeps` | Gamnet/Network/Link.cpp:225-242 | a posted detaching keeps the invariant whenever it runs |
| `SessionServerSteps.MainChunkKeeps` | Gamnet/Network/Tcp/LinkManager.h:79-129 | any number of frames read by the main session keep the invariant |
| `SessionServerSteps.CloseKeeps` | Gamnet/Network/Tcp/LinkManager.h:55-65 | closing a link keeps the invariant |
| `ClientSession.AcknowledgedCutsPrefix` | example/unity_client/Assets/Session.cs:502-513 | an acknowledgement removes exactly the leading packets numbered up to it and lowers the index by their count |
| `ClientSession.AcknowledgedKeepsIndex` | example/unity_client/Assets/Session.cs:502-513 | the index stays non-negative exactly when everything is before it or some packet up to it is numbered beyond the acknowledgement |
| `ClientSession.Leading` | example/unity_client/Assets/Session.cs:505-511 | the packets an acknowledgement removes are the longest prefix numbered up to it |
| `ClientSession.Session.constructor` | example/unity_client/Assets/Session.cs:203-268 | connecting leaves the connect request as the only queued packet |
| `ClientSession.WrittenConserves` | example/unity_client/Assets/Session.cs:470-500 | the same for the callback as a function: kept packets, bytes to be written, index and pump |
| `ClientSession.Session.Enqueue` | example/unity_client/Assets/Session.cs:462-469 | the reliable packets kept are the old ones and this one; with the index in the queue and the pump right before, they are so after, and a send begins exactly when nothing waited on a connected client |
| `ClientSession.Session.SendHeartBeatReq` | example/unity_client/Assets/Session.cs:649-658 | the heartbeat takes the next number and is kept behind the other reliable packets until acknowledged; index and pump stay right |
| `ClientSession.Session.Send` | example/unity_client/Assets/Session.cs:427-461 | the new client state is that of the SendMsg specification, index and pump stay right, and an exception is raised exactly when header and data exceed the buffer |
| `ClientSession.HeartBeatComes` | example/unity_client/Assets/Session.cs:453-456 | of ten messages sent in a row on a connection one is followed by a heartbeat |
| `ClientSession.Session.CallbackSendMsg` | example/unity_client/Assets/Session.cs:470-500 | no reliable packet leaves the queue, the bytes still to be written fall by exactly those written, and a send is pending exactly while something waits |
| `ClientSession.Session.RemoveSentPacket` | example/unity_client/Assets/Session.cs:502-513 | the loop computes the acknowledgement specification |
| `ClientSession.Session.OpenSocket` | example/unity_client/Assets/Session.cs:279-292 | no send is pending on the new socket and nothing queued or numbered is given up |
| `ClientSession.Session.CallbackReconnect` | example/unity_client/Assets/Session.cs:294-303 | the queue is the new request followed by the old packets rewound to their first byte, index 0 |
| `ClientSession.Session.Close` | example/unity_client/Assets/Session.cs:397-412 | nothing queued or numbered is given up, and no send is pending any more |
| `SessionNumbers.QueueSafeExactly` | example/unity_client/Assets/Session.cs:446-469 | for a packet numbered and not yet queued, while the main session reads the client's link: no continuation after queueing it ever loses it if and only if the server, the wire and the queue hold no higher number yet |
| `SessionNumbers.PassedReachable` | example/unity_client/Assets/Session.cs:649-658 | a guarded run reaches a state in which the timer's heartbeat was numbered later and queued earlier than the user's reliable packet |
| `SessionNumbers.SameNumberDiscarded` | Gamnet/Network/Tcp/LinkManager.h:102-108 | of two packets under one number the server takes at most one |
| `SessionNumbers.OpenSafeExactly` | example/unity_client/Assets/Session.cs:292-303 | queueing between Connected and the rewinding: in every continuation at most one send is outstanding if and only if something was waiting in the queue |
| `SessionNumbers.EarlyReachable` | example/unity_client/Assets/Session.cs:270-303 | a guarded run reaches a state in which such a queueing begins a send |
| `SessionNumbers.NothingBegins` | example/unity_client/Assets/Session.cs:252-254 | with something waiting and no send outstanding, no later packets queued ever begin one |
| `SessionNumbers.IssueIsRun` | example/unity_client/Assets/Session.cs:444-452 | numbering and queueing in one go is a run of the two steps |
| `SessionNumbers.SendIsRun` | example/unity_client/Assets/Session.cs:427-461 | the public SendMsg, uninterrupted, is a run of its steps: reconnect attempt, number, queue, and the heartbeat's number and queue |
| `SessionNumbers.ChunkReads` | Gamnet/Network/Tcp/LinkManager.h:79-129 | reading a chunk raises the session number to that of every frame in it and dispatches nothing that is not in it |
| `SessionPump.PumpOut` | example/unity_client/Assets/Session.cs:462-500 | from any state a connected client can get everything it has waiting onto its link, in order |
| `SessionLimits.ReconnectSafeExactlyWhenClean` | example/unity_client/Assets/Session.cs:279-316 | for a missing reliable packet below the queued request: no continuation after reconnecting ever loses it if and only if no reconnect request of an earlier attempt was still queued |
| `SessionLimits.DirtyReconnectLoses` | example/unity_client/Assets/Session.cs:294-303 | with a request of an earlier attempt still queued, the five steps that replay it make the server pass over every missing reliable packet numbered below it |
| `SessionLimits.StuckRequestReachable` | example/unity_client/Assets/Session.cs:270-316 | a guarded run from the start reaches a state with such a request and a missing packet |
| `SessionLimits.StaleAckBreaksIndex` | example/unity_client/Assets/Session.cs:665-674 | a guarded run reaches a state in which an earlier link still carries an acknowledgement that would drive the index below 0 |
| `SessionHandover.HandedOver` | Gamnet/Network/Tcp/LinkManager.h:201-209 | when a granted request does not end its chunk, the resumed session owns the packet with the rest of the chunk unread behind the request, its number and dispatches unchanged |
| `SessionHandover.ReadAgainRaises` | Gamnet/Network/Tcp/LinkManager.h:79-115 | once enough bytes are unread the request's header is read again and dispatched, whatever stands where its body should be, and the session number becomes the request's |
| `SessionHandover.GrantSafeExactlyWhenLast` | Gamnet/Network/Tcp/LinkManager.h:172-213 | for a missing reliable packet numbered below a granted request on the client's current link: no continuation loses it if and only if nothing stands behind the request in its chunk, no frame and no byte of one |
| `SessionHandover.BehindLoses` | Gamnet/Network/Tcp/LinkManager.h:79-129 | with anything unread behind the request, a continuation of the client's own sends makes the session pass over every missing packet below it |
| `SessionHandover.ReplayedReachable` | Gamnet/Network/Tcp/LinkManager.h:67-130 | a guarded run reaches a link with the request, a message the server has and one it lacks |
| `SessionHandover.MessageThreeLost` | Gamnet/Network/Tcp/LinkManager.h:201-209 | read as two chunks, the first two frames and the third, that link loses the third |
| `SessionSuperseded.LateReadSafeExactly` | Gamnet/Network/Link.cpp:225-242 | when a superseded link is read before its detaching has run: no continuation drives the send index out of the queue if and only if the frame is no new heartbeat with a packet not sent again numbered up to the session number |
| `SessionSuperseded.LateKeeps` | Gamnet/Network/Tcp/LinkManager.h:201-209 | such a harmless late frame keeps the whole invariant |
| `SessionSuperseded.LateBreaks` | example/unity_client/Assets/Session.cs:502-513 | a harmful one is answered on the new link, and the answer drives the index below 0 |
| `SessionSuperseded.LateHeartBeatReachable` | Gamnet/Network/Link.cpp:225-242 | a guarded run reaches a superseded link with a harmful frame waiting and its detaching still posted |
| `SessionSuperseded.LateTears` | Gamnet/Network/Tcp/LinkManager.h:79-129 | a late chunk that meets an unfinished frame of the new link is taken for the rest of it, and that frame's packet is lost |
| `SessionSuperseded.LateDetachSilences` | Gamnet/Network/Link.cpp:225-242 | a detaching that runs late keeps the invariant and leaves the resumed session read but without a link to answer on |
| `SessionTokens.GrantedExactly` | Gamnet/Network/Tcp/LinkManager.h:172-198 | in every guarded run the server would grant a request with the token the client has if and only if it still holds the session and the last token it handed out is no longer on its way |
| `SessionTokens.DeliverTokens` | example/unity_client/Assets/Session.cs:639-646 | hearing an answer keeps the token in it: of all tokens each is heard once, in order, and the last one is heard or still on its way |
| `SessionTokens.ReconnectTokens` | example/unity_client/Assets/Session.cs:294-303 | a request to reconnect carries a token the client has heard, and none that is on its way |
| `SessionTokens.GrantTokens` | Gamnet/Network/Tcp/LinkManager.h:195-209 | a grant hands the next token out on the link it is granted on, and nowhere else |
| `SessionTokens.StepTokens` | example/unity_client/Assets/Session.cs:270-316 | every guarded step keeps account of the tokens |
| `SessionTokens.RunTokens` | Gamnet/Network/Tcp/LinkManager.h:67-213 | so does every guarded run |
| `SessionComeback.ComeBack` | example/unity_client/Assets/Session.cs:270-316 | from any state in which a disconnected client has heard its last token and starts from a queue without a request: a run of its own steps and the server's ends on the main session with everything reliable dispatched, nothing left to send or read, and a next reconnect that would be granted |
| `SessionComeback.ComeBackTwice` | example/unity_client/Assets/Session.cs:270-316 | the same for two lost connections in a row |
| `SessionComeback.ComeBackExactly` | Gamnet/Network/Tcp/LinkManager.h:172-209 | a disconnected client whose queue holds no request can come back, by any run, if and only if the server still holds its session and the last token was not sent on a connection the client has given up |
| `SessionComeback.ForgottenForever` | Gamnet/Network/Session.cpp:90-111 | a session the server has forgotten is never resumed, by any run |
| `SessionComeback.StuckForever` | Gamnet/Network/Tcp/LinkManager.h:186-189 | a token sent on a connection the client has given up: no run ever resumes the session again |
| `SessionComeback.GivenUpReachable` | Gamnet/Network/Tcp/LinkManager.h:195-209 | a guarded run reaches such a state |
| `SessionComeback.LetIn` | Gamnet/Network/Tcp/LinkManager.h:172-213 | the server reads the request, resumes the session on the new link, and the client hears the new token |
| `Buffers.Buffer.constructor` | Gamnet/Library/Buffer.cpp:33-41 | an empty buffer of the given capacity |
| `Buffers.Buffer.Available` | Gamnet/Library/Buffer.cpp:52-55 | room and contents add up to the capacity |
| `Buffers.Buffer.Size` | Gamnet/Library/Buffer.cpp:128-131 | the number of unread bytes |
| `Buffers.Buffer.Clear` | Gamnet/Library/Buffer.cpp:62-66 | no unread bytes, cursor at 0 |
| `Buffers.Buffer.RemoveReadBuffer` | Gamnet/Library/Buffer.cpp:68-80 | compaction keeps the unread bytes and brings the read cursor to 0 |
| `Buffers.Buffer.Append` | Gamnet/Library/Buffer.cpp:82-100 | appends all bytes exactly when they fit the capacity, else changes nothing; compacts only when the tail is short |
| `Buffers.Buffer.Remove` | Gamnet/Library/Buffer.cpp:114-126 | drops that many unread bytes or all; an emptied buffer has its cursor at 0 |
| `Buffers.Buffer.Resize` | Gamnet/Library/Buffer.cpp:148-162 | a new array with the unread bytes at its front |
| `Buffers.Buffer.Copy` | Gamnet/Library/Buffer.cpp:102-112 | takes over the other buffer's unread bytes, growing where needed |
| `Framing.Session.ReadHeader` | Gamnet/Network/Tcp/Packet.cpp:23-36 | the absolute offsets read the header of the first unread frame |
| `Framing.Session.DropFrame` | Gamnet/Network/Tcp/LinkManager.h:115-128 | the frame at the head is gone and what follows stands in a packet read from position 0 |
| `Framing.Session.TakeFrame` | Gamnet/Network/Tcp/LinkManager.h:102-128 | dispatches the frame exactly when its number is beyond the session's |
| `Framing.Session.Reassemble` | Gamnet/Network/Tcp/LinkManager.h:79-129 | the loop ends, keeps the read cursor at 0, and takes exactly the frames the parse of the pending bytes gives, with the parse's error |
| `Framing.Session.OnRecvMsg` | Gamnet/Network/Tcp/LinkManager.h:67-130 | the object does what the receive function does: appends or overflows, then reassembles |
| `Framing.ParseFramed` | Gamnet/Network/Tcp/LinkManager.h:81-87 | every accepted frame is at least a header long |
| `Framing.RestIsBounded` | Gamnet/Network/Tcp/LinkManager.h:89-100 | an incomplete rest is shorter than the longest frame |
| `Framing.ParseAppend` | Gamnet/Network/Tcp/LinkManager.h:79-129 | parsing more bytes later is parsing the rest with them |
| `Framing.RefusedStays` | Gamnet/Network/Tcp/LinkManager.h:82-94 | a refused length is refused at the same place whatever follows |
| `Framing.DispatchedAppend` | Gamnet/Network/Tcp/LinkManager.h:102-108 | the filter over two runs of frames is the filter over the first, then over the second from the number it reached |
| `Framing.FilterExactly` | Gamnet/Network/Tcp/LinkManager.h:102-108 | frame by frame: it is dispatched if and only if its number is beyond the session's and beyond those of all frames before it |
| `Framing.LastSeqIs` | Gamnet/Network/Tcp/LinkManager.h:103-108 | the session's number is the greatest there was |
| `FramingTheorems.ChunkingIrrelevant` | Gamnet/Network/Tcp/LinkManager.h:78-129 | feeding any chunks that fit is feeding their concatenation: same dispatches, number, error and rest |
| `FramingTheorems.SameBytesSameResult` | Gamnet/Network/Tcp/LinkManager.h:78-129 | two ways of cutting the same bytes give the same dispatches, number and outcome |
| `FramingTheorems.IdleLeavesRoom` | Gamnet/Network/Tcp/LinkManager.h:77-78 | between two reads the receive packet has room for two more bytes, so it never blocks by itself |
| `FramingTheorems.WritePacket` | Gamnet/Network/Tcp/Packet.h:97-121 | writes the frame exactly when header and body stay below the capacity; refuses exactly when their length, as it fits 16 bits, is the capacity; any other length wraps and the copy overruns the array |
| `FramingTheorems.FrameFields` | Gamnet/Network/Tcp/Packet.h:56-66 | a written frame has its own length, decodes to its number, id and body, and is complete whatever follows |
| `FramingTheorems.FrameOctets` | Gamnet/Network/Tcp/Packet.h:97-121 | where each octet of length, number, id and body stands |
| `FramingTheorems.RefusedExactly` | Gamnet/Network/Tcp/LinkManager.h:81-100 | behind any good frames a header is refused if and only if its length is below a header's or does not fit the packet |
| `FramingTheorems.FramesRecovered` | Gamnet/Network/Tcp/Packet.h:69-121 | concatenated frames are recovered frame by frame and none is refused |
| `FramingTheorems.AllDispatched` | Gamnet/Network/Tcp/LinkManager.h:102-108 | messages with increasing numbers all pass the filter |
| `FramingTheorems.WrittenIsDispatched` | Gamnet/Network/Tcp/Packet.h:69-121 | written frames arriving in any chunks are dispatched as the messages written, nothing pending, no error |
| `IdlTheorems.RoundTrip` | idlc/src/generate_rule_cpp.cpp:107-328 | for both back ends, every type and value: Load on Store(v) ++ rest into a default or blank target gives v, consumes Size(v) bytes and leaves rest |
| `IdlTheorems.StoreIsEncode` | idlc/src/generate_rule_cpp.cpp:388-434 | the generated Store writes the wire format, and the generated Size is its length |
| `IdlTheorems.SameWireFormat` | idlc/src/generate_rule_csharp.cpp:89-260 | on values both languages hold, both back ends emit the same bytes and size, and each Load reads the other's Store |
| `IdlTheorems.MapFreeCrosses` | idlc/src/generate_rule_csharp.cpp:318-436 | every map-free message of a portable schema crosses between the languages in both directions |
| `IdlTheorems.MapFreeShared` | idlc/src/generate_rule_csharp.cpp:89-141 | a map-free C# value is a C++ value |
| `IdlTheorems.CSharpCrosses` | idlc/src/generate_rule_csharp.cpp:109-117 | for every message of a portable schema and every C# value, its Dictionaries in any order: C++ loads what C# stored, consumes its Size, leaves what follows, and holds a value of its type with the same entries in every map |
| `IdlTheorems.WireLoaded` | idlc/src/generate_rule_cpp.cpp:196-206 | for both languages: whatever the wire holds, maps in any order and with repeated keys, is loaded as a value of the type |
| `IdlTaken.EntriesSame` | idlc/src/generate_rule_cpp.cpp:196-206 | the entries of a C# map put into a C++ map in the order they come: the same entries as a multiset, ascending |
| `IdlTaken.RepeatedKey` | idlc/src/generate_rule_cpp.cpp:196-206 | of a repeated key a C++ map keeps the first value, a C# map the last |
| `IdlTaken.InsertedIs` | idlc/src/generate_rule_cpp.cpp:204 | an insertion keeps the entry of a key that is there, adds any other, and keeps the keys ascending |
| `IdlTaken.AssignedIs` | idlc/src/generate_rule_csharp.cpp:216 | an assignment replaces the value of a key that is there and adds any other |
| `IdlTaken.TakenTyped` | idlc/src/generate_rule_cpp.cpp:177-245 | what is taken from the wire is a value of the type |
| `IdlTaken.TakenAsIs` | idlc/src/generate_rule_cpp.cpp:177-245 | a value of the type itself is taken as it is |
| `Idl.FieldHolds` | idlc/src/generate_rule_cpp.cpp:29-39 | a stored field holds exactly the numbers of its type's range |
| `Idl.KeysNumeric` | idlc/src/generate_rule_cpp.cpp:127-130 | integer keys are in the order of the numbers they stand for, signed or not |
| `Idl.TextsLexicographic` | idlc/src/generate_rule_cpp.cpp:127-130 | text keys are in lexicographic order |
| `IdlTexts.TextExactly` | idlc/src/generate_rule_csharp.cpp:103 | the octets a C# string has are exactly the spellings of code points that are no surrogates |
| `IdlTheorems.SchemaShared` | idlc/src/generate_rule_csharp.cpp:25-141 | a schema fit for C++ is fit for C# if and only if it has no static array of strings, no typedef of a string or of another typedef, and no field called like a local C# declares for another |
| `IdlTheorems.SizeFitsInt` | idlc/src/generate_rule_csharp.cpp:262-316 | C# Size, an int, is the stored length exactly while that length is below 2^31 |
| `IdlTheorems.TruncatedRefused` | idlc/src/generate_rule_cpp.cpp:444-460 | no proper prefix of Store(v) is accepted; where the code is checked it is refused with false |
| `IdlTheorems.VectorAcceptsOnlyEmpty` | idlc/src/generate_rule_cpp.cpp:437-443 | the vector form of Load accepts exactly the empty one of all proper prefixes |
| `IdlTheorems.OverreadExactly` | idlc/src/generate_rule_cpp.cpp:225-240 | some input makes a well-formed schema's Load read outside its buffer if and only if the back end is C++ and a non-empty primitive static array is in the schema |
| `IdlTheorems.NoneHidden` | idlc/src/generate_rule_cpp.cpp:444 | a well-formed schema hides no parameter of the C++ Load |
| `IdlTheorems.Overruns` | idlc/src/generate_rule_cpp.cpp:225-231 | an input ending where the first block copy starts is overrun, wherever in the type the array stands |
| `IdlTheorems.DefaultEnumStored` | idlc/src/generate_rule_cpp.cpp:471-500 | a default-constructed enum is stored as its first enumerator by C++ and as 0 by C# |
| `IdlTheorems.DefaultTyped` | idlc/src/generate_rule_cpp.cpp:354-370 | a default-constructed object is a value of its type, enums at their first enumerator in C++ |
| `IdlStore.StoreValue` | idlc/src/generate_rule_cpp.cpp:107-175 | the store of a variable appends the encoding of its value and changes nothing else |
| `IdlStore.StoreItems` | idlc/src/generate_rule_cpp.cpp:137-156 | the loop over a list appends its items in order |
| `IdlStore.StoreEntries` | idlc/src/generate_rule_cpp.cpp:124-136 | the loop over a map appends its keys and values in order |
| `IdlStore.StoreFields` | idlc/src/generate_rule_cpp.cpp:424-432 | the members are stored in declaration order |
| `IdlStore.StoreObject` | idlc/src/generate_rule_cpp.cpp:419-434 | a serializer's Store appends parent, then members |
| `IdlSize.SizeValue` | idlc/src/generate_rule_cpp.cpp:247-328 | the size statements add the length of the encoding |
| `IdlSize.SizeObject` | idlc/src/generate_rule_cpp.cpp:388-406 | a serializer's Size is the length of the encoding, parent included |
| `IdlLoad.LoadValue` | idlc/src/generate_rule_cpp.cpp:177-245 | the load of a variable takes what stands at the cursor, moves the cursor past it and keeps consumed + nSize |
| `IdlLoad.LoadItems` | idlc/src/generate_rule_cpp.cpp:207-224 | from any round on, the list loop appends the remaining items |
| `IdlLoad.LoadEntries` | idlc/src/generate_rule_cpp.cpp:196-206 | from any round on, the map loop puts the remaining entries, in any order, among those there |
| `IdlLoad.LoadElements` | idlc/src/generate_rule_cpp.cpp:225-240 | from any index on, the static array loop overwrites the remaining elements |
| `IdlLoad.LoadFields` | idlc/src/generate_rule_cpp.cpp:450-458 | the members are read in order and none disturbs another |
| `IdlLoad.LoadObject` | idlc/src/generate_rule_cpp.cpp:444-460 | a serializer's Load takes exactly the object at the cursor, whatever the order and the keys of its maps |
| `IdlScopes.CollectSet` | idlc/src/generate_rule_cpp.cpp:444-460 | the members read back are the values set |
| `IdlSafety.RunStable` | idlc/src/generate_rule_cpp.cpp:177-245 | bytes behind the buffer do not change a success of any statement, compiled or not |
| `IdlSafety.CodeStable` | idlc/src/generate_rule_cpp.cpp:444-460 | bytes behind the buffer do not change a successful Load |
| `IdlSafety.TruncatedNeverLoads` | idlc/src/generate_rule_cpp.cpp:444-460 | a prefix shorter than the stored value is never accepted, whatever the target |
| `IdlSafety.LoadSafe` | idlc/src/generate_rule_cpp.cpp:177-224 | code without primitive static arrays and without members named like a parameter never reads outside the buffer, on any bytes, and keeps consumed + nSize constant |
| `IdlSafety.ObjectLoadSafe` | idlc/src/generate_rule_cpp.cpp:444-460 | the same for whole serializers |
| `IdlLimits.StoredExactly` | idlc/src/generate_rule_cpp.cpp:119-149 | for every C++ message whose code compiles: every value is stored as it is if and only if no field is called like the size local of an earlier text or container |
| `IdlLimits.MessageStored` | idlc/src/generate_rule_cpp.cpp:388-434 | what is stored in any case: in place of a shadowed number, enum or typedef of an integer, the length its namesake holds |
| `IdlLimits.OnesNotStored` | idlc/src/generate_rule_cpp.cpp:119-123 | ones in the shadowed fields of an otherwise empty message are not stored |
| `IdlLoadLimits.LoadedExactly` | idlc/src/generate_rule_cpp.cpp:190-224 | for both languages: every value is loaded back if and only if no field is called like the length local of an earlier text or container |
| `IdlLoadLimits.MessageLoaded` | idlc/src/generate_rule_cpp.cpp:444-460 | what is loaded in any case: a shadowed number keeps what the target held |
| `IdlLoadLimits.FieldsLoaded` | idlc/src/generate_rule_cpp.cpp:450-458 | from any member on, with any locals on top |
| `IdlLoadLimits.NegativeText` | idlc/src/generate_rule_csharp.cpp:196-202 | a negative length in front of a text is refused |
| `IdlLoadLimits.NegativeList` | idlc/src/generate_rule_csharp.cpp:206-217 | a negative length in front of a list counts as none |
| `IdlSizeMember.SizeMemberOverreads` | idlc/src/generate_rule_cpp.cpp:183-187 | for every field list without primitive static arrays in which a number is called nSize: some input is read past its end if and only if anything is read behind that number |
| `IdlSizeMember.ZeroWraps` | idlc/src/generate_rule_cpp.cpp:185-187 | a zero for the number called nSize leaves the remaining size wrapped around to 2^64 less its width |
| `IdlSizeMember.NoSizeMember` | idlc/src/generate_rule_cpp.cpp:444-460 | without such a member the resolution of names makes no difference |
| `Data.ItemEncoded` | example/idl/data.h:90-97 | the generated item layout is the wire format of its IDL type |
| `Data.UserEncoded` | example/idl/data.h:148-160 | the same for UserData with its item list |
| `Data.Input.Number` | example/idl/data.h:111 | a read succeeds exactly when enough bytes are left, and gives the number standing there |
| `Data.Input.Text` | example/idl/data.h:106-109 | a text is read when one stands there; when not, none does |
| `Data.LoadItem` | example/idl/data.h:105-113 | true exactly when an item stands at the pointer, and then that item |
| `Data.SameItem` | example/idl/data.h:105-113 | no two items stand at the same place |
| `Data.ReadItemList` | example/idl/data.h:174-180 | true exactly when that many items stand at the pointer |
| `Data.PrefixForced` | example/idl/data.h:176-180 | items already read are forced: any list that stands there starts with them |
| `Data.StoreItem` | example/idl/data.h:90-97 | writes the item in place and nothing else |
| `Data.UserData.Size` | example/idl/data.h:127-137 | the length of what Store writes |
| `Data.UserData.Store` | example/idl/data.h:148-160 | writes the encoding in place and nothing else |
| `Data.UserData.StoreVector` | example/idl/data.h:138-147 | grows the vector only when it is too short; the encoding stands at its front |
| `Data.UserData.Load` | example/idl/data.h:168-182 | true exactly when a UserData stands at the pointer; the list read is appended to the items already there |
| `Bytes.LEofUnLE` | example/idl/data.h:95 | reading and writing back little-endian bytes gives the same bytes |
| `Bytes.LEAt` | example/idl/data.h:95 | byte k of a stored number is its k-th digit to the base 256 |
| `Bytes.UnLEofLE` | example/idl/data.h:107 | writing and reading a number keeps it up to truncation to the field |
| `Md5.DigestOfChunks` | Gamnet/Library/MD5.cpp:261-340 | any way of cutting the input into updates gives the digest of section 3 of RFC 1321 of the whole |
| `Md5Vectors.EmptyDigest` | Gamnet/Library/MD5.cpp:261-340 | the digest of the empty message is the one RFC 1321 lists in section A.5 |
| `Md5Vectors.ADigest` | Gamnet/Library/MD5.cpp:261-340 | the same for "a" |
| `Md5Vectors.AbcDigest` | Gamnet/Library/MD5.cpp:261-340 | the same for "abc" |
| `Md5Vectors.FChooses` | Gamnet/Library/MD5.cpp:71-73 | F is the second argument where the first is set and the third elsewhere |
| `Md5Vectors.GChooses` | Gamnet/Library/MD5.cpp:75-77 | G is the first argument where the third is set and the second elsewhere |
| `Md5Vectors.HIsParity` | Gamnet/Library/MD5.cpp:79-81 | H is the parity: where two arguments agree, the other one |
| `Md5Vectors.ITurns` | Gamnet/Library/MD5.cpp:83-85 | I turns the second argument over where the first is set or the third is not |
| `Md5Vectors.InitialOctets` | Gamnet/Library/MD5.cpp:138-141 | the initial words are the octets listed in section 3.3 |
| `Md5Vectors.PaddingLeast` | Gamnet/Library/MD5.cpp:310-324 | a 1 bit, zeros, and no more octets than needed |
| `Md5Vectors.ShortWords` | Gamnet/Library/MD5.cpp:316-327 | the block of a message of at most three octets, word by word |
| `Md5.MD5.constructor` | Gamnet/Library/MD5.cpp:113-142 | an empty message, not finalized |
| `Md5.MD5.Transform` | Gamnet/Library/MD5.cpp:171-255 | the state becomes the RFC transformation of the block |
| `Md5.Round1` | Gamnet/Library/MD5.cpp:176-192 | the sixteen lines of round 1 are its sixteen operations |
| `Md5.Round2` | Gamnet/Library/MD5.cpp:194-210 | the same for round 2 |
| `Md5.Round3` | Gamnet/Library/MD5.cpp:212-228 | the same for round 3 |
| `Md5.Round4` | Gamnet/Library/MD5.cpp:230-246 | the same for round 4 |
| `Md5.FourFF` | Gamnet/Library/MD5.cpp:94-96 | four operations of round 1 put the four words back in place |
| `Md5.FourGG` | Gamnet/Library/MD5.cpp:98-100 | the same for round 2 |
| `Md5.FourHH` | Gamnet/Library/MD5.cpp:102-104 | the same for round 3 |
| `Md5.FourII` | Gamnet/Library/MD5.cpp:106-108 | the same for round 4 |
| `Md5.Decode` | Gamnet/Library/MD5.cpp:147-152 | the sixteen words of a block, low-order octet first |
| `Md5.Encode` | Gamnet/Library/MD5.cpp:158-166 | the octets of the words, low-order octet first |
| `Md5.CountAdds` | Gamnet/Library/MD5.cpp:266-269 | the two-word counter holds 8n mod 2^64 after the wrapping addition with its carry |
| `Md5.IndexOf` | Gamnet/Library/MD5.cpp:263-264 | the buffer index is n mod 64 |
| `Md5.MD5.Count` | Gamnet/Library/MD5.cpp:266-269 | the counter moves from n to n + length octets |
| `Md5.MD5.TakeBlocks` | Gamnet/Library/MD5.cpp:276-290 | every whole block is transformed, in order, and fewer than 64 octets are left |
| `Md5.Consumed` | Gamnet/Library/MD5.cpp:292-293 | what is left is what the buffer has to hold |
| `Md5.ProcessMore` | Gamnet/Library/MD5.cpp:283-285 | one more block after the processed ones is one more transformation |
| `Md5.MD5.Update` | Gamnet/Library/MD5.cpp:261-294 | counter, state and buffered tail describe the old message followed by the input |
| `Md5.MD5.UpdateText` | Gamnet/Library/MD5.cpp:299-302 | the same for the convenience form |
| `Md5.MD5.PadOut` | Gamnet/Library/MD5.cpp:316-327 | the message consumed is then the padded message of sections 3.1 and 3.2 |
| `Md5.PaddingIs` | Gamnet/Library/MD5.cpp:321-324 | the padding array cut to 56 mod 64 is the RFC padding |
| `Md5.MD5.Finalize` | Gamnet/Library/MD5.cpp:308-340 | the digest is that of the message; a second call changes nothing |
| `Md5.MD5.Result` | Gamnet/Library/MD5.cpp:329-330 | the digest stored is the RFC digest of what was consumed |
| `JsonRoundTrip.WrittenReadBack` | Gamnet/Library/Json/jsoncpp.cpp:4351-4411 | for every value without reals and any bytes behind it: what FastWriter writes reads back as the value up to the int/uint tag if its height is at most the stack limit, and fails otherwise |
| `JsonSyntax.DocumentRead` | Gamnet/Library/Json/jsoncpp.cpp:287-432 | for every document of RFC 8259, with blanks between its tokens, numbers with fractions and exponents, strings in any spelling and members in any order and with repeated names: it is read as what it says, whatever follows, if it is nested no deeper than the stack limit, and fails otherwise |
| `JsonSyntax.NodeRead` | Gamnet/Library/Json/jsoncpp.cpp:350-432 | the same anywhere in a document, up to what does not continue a number |
| `JsonSyntax.NodeTooDeep` | Gamnet/Library/Json/jsoncpp.cpp:355 | a document beyond the stack limit fails, however it is written |
| `JsonSyntax.NumberRead` | Gamnet/Library/Json/jsoncpp.cpp:615-635 | a number of section 6 is one token, up to what does not continue it |
| `JsonSyntax.NumberMeant` | Gamnet/Library/Json/jsoncpp.cpp:753-793 | a whole number of the 64-bit range is that integer, any other number its text |
| `JsonSyntax.SetAllIs` | Gamnet/Library/Json/jsoncpp.cpp:649-703 | an object holds its members in the order of their names, and of a repeated name the last value |
| `JsonSyntax.SetMemberIs` | Gamnet/Library/Json/jsoncpp.cpp:3457-3474 | setting a member replaces the one of its name, leaves every other, and keeps the names ascending |
| `JsonSyntax.CommentIgnored` | Gamnet/Library/Json/jsoncpp.cpp:434-442 | a comment in front of a value, up to its first end mark or the end of its line, makes no difference |
| `JsonUnicode.Utf8Exactly` | Gamnet/Library/Json/jsoncpp.cpp:105-134 | the octets written for a code point are exactly those the table of RFC 3629 reads as it |
| `JsonUnicode.SurrogateUnread` | Gamnet/Library/Json/jsoncpp.cpp:119-122 | a lone surrogate gives octets that are no UTF-8 |
| `JsonUnicode.CodePointRead` | Gamnet/Library/Json/jsoncpp.cpp:881-937 | four hexadecimal digits in either case, or a surrogate pair, are the code point they spell |
| `JsonUnicode.SpelledToken` | Gamnet/Library/Json/jsoncpp.cpp:637-647 | a string in any spelling of section 7 of RFC 8259 is one token and decodes to what it spells |
| `JsonUnicode.PiecesRead` | Gamnet/Library/Json/jsoncpp.cpp:828-879 | characters, the eight short escapes and code points in any mixture |
| `JsonRoundTrip.ParsePrinted` | Gamnet/Library/Json/jsoncpp.cpp:350-432 | a printed value anywhere in a document, within the stack limit, reads back and is consumed exactly |
| `JsonRoundTrip.TooDeep` | Gamnet/Library/Json/jsoncpp.cpp:355 | a printed value beyond the stack limit fails |
| `JsonRoundTrip.ItemsRead` | Gamnet/Library/Json/jsoncpp.cpp:704-741 | from any item on, the array loop reads the remaining items behind those read |
| `JsonRoundTrip.MembersRead` | Gamnet/Library/Json/jsoncpp.cpp:649-703 | from any member on, the object loop reads the remaining members behind those read |
| `JsonRoundTrip.SetLast` | Gamnet/Library/Json/jsoncpp.cpp:3457-3474 | a member with the greatest name so far goes to the end |
| `JsonRoundTrip.RetagPrintsSame` | Gamnet/Library/Json/jsoncpp.cpp:4359-4411 | retagging does not show in print |
| `JsonRoundTrip.NoControlsPrinted` | Gamnet/Library/Json/jsoncpp.cpp:4271-4332 | a printed string holds no raw control character (section 7 of RFC 8259) |
| `JsonLimits.AcceptedLooks` | Gamnet/Library/Json/jsoncpp.cpp:350-432 | whatever is accepted begins and ends as its value does: null, true and false as spelled, texts in quotes, arrays and objects in their brackets, numbers with a digit or a sign in front |
| `JsonLimits.LoneMinus` | Gamnet/Library/Json/jsoncpp.cpp:758-792 | anywhere in a document, a sign that nothing of a number follows reads as 0 |
| `JsonLimits.TrailingCommaExactly` | Gamnet/Library/Json/jsoncpp.cpp:661-674 | a printed object with a comma put before its brace is accepted if and only if it has one member, with an empty name |
| `JsonLimits.MembersThenComma` | Gamnet/Library/Json/jsoncpp.cpp:649-703 | the same from any member on |
| `JsonTokens.DigitsRead` | Gamnet/Library/Json/jsoncpp.cpp:149-155 | the digits of a number have its value |
| `JsonTokens.IntegerToken` | Gamnet/Library/Json/jsoncpp.cpp:615-635 | a printed integer is one number token |
| `JsonTokens.NumberDecoded` | Gamnet/Library/Json/jsoncpp.cpp:753-793 | a printed integer of the 64-bit range decodes to itself, the signed minimum included |
| `JsonTokens.StringScanned` | Gamnet/Library/Json/jsoncpp.cpp:637-647 | the scan stops at the closing quote of an escaped text |
| `JsonTokens.StringDecoded` | Gamnet/Library/Json/jsoncpp.cpp:828-879 | undoing the escapes of any string gives the string |
| `JsonTokens.QuotedToken` | Gamnet/Library/Json/jsoncpp.cpp:444-513 | a quoted string is one token and decodes to the string |
| `JsonWriter.UintToString` | Gamnet/Library/Json/jsoncpp.cpp:149-155 | the digits and a final NUL stand at the end of the buffer, which never runs under |
| `JsonWriter.DigitsFit` | Gamnet/Library/Json/jsoncpp.cpp:135-142 | a number below 10^k has at most k digits |
| `JsonWriter.ValueToString` | Gamnet/Library/Json/jsoncpp.cpp:4124-4146 | the text of any 64-bit integer, the signed minimum included |
| `JsonWriter.NothingToEscape` | Gamnet/Library/Json/jsoncpp.cpp:4114-4122 | the quick scans say yes exactly when no character needs escaping |
| `JsonWriter.PlainEscaped` | Gamnet/Library/Json/jsoncpp.cpp:4275-4277 | then the text is its own escaped form |
| `JsonWriter.ValueToQuotedStringN` | Gamnet/Library/Json/jsoncpp.cpp:4271-4332 | the quoted, escaped text, by either path |
| `JsonWriter.FastWriter.Write` | Gamnet/Library/Json/jsoncpp.cpp:4351-4357 | the printed value and a line feed |
| `JsonWriter.FastWriter.WriteValue` | Gamnet/Library/Json/jsoncpp.cpp:4359-4411 | appends the printed value to the document |
| `JsonWriter.FastWriter.WriteItems` | Gamnet/Library/Json/jsoncpp.cpp:4386-4395 | appends the items, separated by commas |
| `JsonWriter.FastWriter.WriteMembers` | Gamnet/Library/Json/jsoncpp.cpp:4396-4410 | appends the members in the order of their names |
| `JsonReader.DecodeNumber` | Gamnet/Library/Json/jsoncpp.cpp:753-793 | the integer exactly when all digits fit the 64-bit range, else a decimal; no step overflows |
| `JsonReader.TooLarge` | Gamnet/Library/Json/jsoncpp.cpp:770-785 | where the loop gives up the whole number is beyond the limit |
| `JsonReader.DecodeUnicodeEscapeSequence` | Gamnet/Library/Json/jsoncpp.cpp:910-937 | the value of four hexadecimal digits, or an error |
| `JsonReader.DecodeUnicodeCodePoint` | Gamnet/Library/Json/jsoncpp.cpp:881-908 | the code point, a surrogate pair taken together |
| `JsonReader.DecodeString` | Gamnet/Library/Json/jsoncpp.cpp:828-879 | the string with its escapes undone, or an error exactly where the specification has one |
| `JsonReader.Reader.GetNextChar` | Gamnet/Library/Json/jsoncpp.cpp:971-975 | the character at the cursor, 0 and no move at the end |
| `JsonReader.Reader.SkipBlanks` | Gamnet/Library/Json/jsoncpp.cpp:515-523 | the cursor stands at the next character that is no blank |
| `JsonReader.Reader.Match` | Gamnet/Library/Json/jsoncpp.cpp:525-534 | matches the pattern inside the document and consumes it, or does not move |
| `JsonReader.Reader.ReadNumber` | Gamnet/Library/Json/jsoncpp.cpp:615-635 | the cursor stands behind the longest number |
| `JsonReader.Reader.ReadString` | Gamnet/Library/Json/jsoncpp.cpp:637-647 | the cursor stands behind the closing quote, or the string is reported open |
| `JsonReader.Reader.ReadCStyleComment` | Gamnet/Library/Json/jsoncpp.cpp:590-597 | the cursor stands behind the first closing mark, or the comment is reported open |
| `JsonReader.Reader.ReadCppStyleComment` | Gamnet/Library/Json/jsoncpp.cpp:599-613 | the cursor stands behind the line, with either kind of line end |
| `JsonReader.Reader.ReadComment` | Gamnet/Library/Json/jsoncpp.cpp:536-557 | a comment of either style, or an error |
| `JsonReader.Reader.SkipCommentTokens` | Gamnet/Library/Json/jsoncpp.cpp:434-442 | the next token that is no comment |
| `JsonReader.Reader.ReadToken` | Gamnet/Library/Json/jsoncpp.cpp:444-513 | the token of the specification, with the cursor at its end |
| `JsonReader.Reader.ReadValue` | Gamnet/Library/Json/jsoncpp.cpp:350-432 | succeeds, with the value and cursor, exactly as the parse specification; the depth is restored |
| `JsonReader.Reader.ReadArray` | Gamnet/Library/Json/jsoncpp.cpp:704-741 | the same for arrays |
| `JsonReader.Reader.ReadObject` | Gamnet/Library/Json/jsoncpp.cpp:649-703 | the same for objects, a later member of a name replacing an earlier one |
| `JsonReader.ParseDocument` | Gamnet/Library/Json/jsoncpp.cpp:287-348 | the document parses exactly when its first value does |
| `MultiLock.MultiLockImpl.constructor` | Gamnet/Library/MultiLock.h:16-23 | the locks to take, ascending and without repeats, whatever the arguments |
| `MultiLock.MultiLockImpl.Insert` | Gamnet/Library/MultiLock.h:33-44 | inserting keeps the order and adds just that lock |
| `MultiLock.StepKeeps` | Gamnet/Library/MultiLock.h:16-31 | every step keeps each lock with at most one thread |
| `MultiLock.RunKeeps` | Gamnet/Library/MultiLock.h:16-31 | so does every run |
| `MultiLock.NoDeadlock` | Gamnet/Library/MultiLock.h:16-23 | in every reachable state that is not finished some thread has an enabled step, for any number of threads and lock sets |
| `MultiLock.SomeoneMoves` | Gamnet/Library/MultiLock.h:19-22 | following the chain of wanted locks from any unfinished thread finds one that can move |
| `MultiLock.EveryoneFinishes` | Gamnet/Library/MultiLock.h:16-31 | every run is at most as long as the lock operations to do, and stops exactly when all threads are finished |
| `MultiLock.UnorderedDeadlocks` | Gamnet/Library/MultiLock.h:33-44 | without the order two threads block each other for good |
| `Links.Link.AsyncSend` | Gamnet/Network/Link.cpp:136-147 | the buffer joins the queue; a write starts exactly when none was waiting |
| `Links.Link.FlushSend` | Gamnet/Network/Link.cpp:149-168 | one write is outstanding exactly when something is queued |
| `Links.Link.WriteDone` | Gamnet/Network/Link.cpp:163-164 | the written bytes grow by the first buffer and the pump goes on |
| `Links.Link.WriteFailed` | Gamnet/Network/Link.cpp:157-161 | after an error the written bytes are still a prefix of what was queued, and nothing more is started |
| `Links.Link.WrittenIsPrefix` | Gamnet/Network/Link.cpp:136-168 | at every step the written bytes are a prefix of the buffers in AsyncSend order, all of them when the queue is empty |
| `Links.ConcatPush` | Gamnet/Network/Link.cpp:141 | a pushed buffer's bytes come last |
| `Links.Link.AttachSession` | Gamnet/Network/Link.cpp:225-242 | detaches the old session, ties the new one, and touches nothing else |
| `Links.LinkManager.OnAccept` | Gamnet/Network/Tcp/LinkManager.h:38-53 | link and session stay tied both ways, with a new session on the new link |
| `Links.LinkManager.OnClose` | Gamnet/Network/Tcp/LinkManager.h:55-65 | in every state: the session the link has is told and left without a link, no other session or link is touched; ties that held still hold |
| `Links.LinkManager.Reconnect` | Gamnet/Network/Tcp/LinkManager.h:201-209 | the whole new state of links and sessions; from a tied state the one link left astray is the superseded one, exactly when its detaching was put off |
| `Links.LinkManager.RefuseReconnect` | Gamnet/Network/Tcp/LinkManager.h:215-220 | a refused link has no session |
| `Links.LinkManager.LateDetach` | Gamnet/Network/Link.cpp:225-242 | in every state: a posted detaching cuts a session off from a link of its own if and only if the superseded link is still astray with that session |
| `Links.LinkManager.ResumeThenClose` | Gamnet/Network/Tcp/LinkManager.h:55-65 | a resumed session hears of the close of its superseded link if and only if the detaching has not run by then, and keeps its new link if and only if it ran at once |
| `Links.SessionManager.Add` | Gamnet/Network/Session.cpp:119-129 | adds the session and stamps it, unless the key is taken |
| `Links.StampedThenSwept` | Gamnet/Network/Session.cpp:90-128 | a session stamped and not heard of again outlives every sweep up to its stamp and the keep-alive time, and no later one unless it has a link |
| `Links.SweptWhileAttached` | Gamnet/Network/Session.cpp:90-111 | a session resumed before its late detaching ran, and quiet since, is destroyed while its new link has it |
| `Links.SessionManager.Sweep` | Gamnet/Network/Session.cpp:90-111 | in every state: erases exactly the sessions without a link that stood idle too long and destroys each of those; a session that a link has attached goes if and only if it is one of them, and then the link is astray; where all is tied none goes |
| `Acceptor.Pool.Create` | Gamnet/Library/Pool.h:114-131 | refused exactly when all objects are in use; never an object somebody still has |
| `Acceptor.Pool.Restitute` | Gamnet/Library/Pool.h:157-165 | the object is free again, first in the queue |
| `Acceptor.Pool.Available` | Gamnet/Library/Pool.h:136-140 | the capacity less the objects in use |
| `Acceptor.RunKeeps` | Gamnet/Network/LinkManager.cpp:54-113 | every run keeps the invariant of pool and acceptor |
| `Acceptor.AcceptorInvariant` | Gamnet/Network/LinkManager.cpp:54-113 | exactly one accept is outstanding while accepting is on, none while it is off, and links in use never exceed the capacity |
| `Acceptor.StopsExactly` | Gamnet/Network/LinkManager.cpp:70-89 | an outstanding accept, successful or not, is followed by another if and only if a link is available |
| `Acceptor.LinksMove` | Gamnet/Network/LinkManager.cpp:70-113 | every link moves from accepting to open to closing to the pool |
| `Acceptor.StoppedExactly` | Gamnet/Network/LinkManager.cpp:99-113 | a state of the invariant can never accept again, by any run, if and only if accepting has stopped with no link open, or with the one link of a pool of one |
| `Acceptor.StopsForGood` | Gamnet/Network/LinkManager.cpp:99-113 | for every capacity a run ends with the whole pool available, no accept outstanding and no event left that would start one |
| `Router.OrderAgreesWithEquality` | Gamnet/Network/Router/MsgRouter.h:116-145 | the order is a strict weak one whose equivalence is address equality, which leaves the sequence number out |
| `Strings.LessIsStrict` | Gamnet/Network/Router/MsgRouter.h:124-127 | no string is before itself |
| `Strings.LessIsTransitive` | Gamnet/Network/Router/MsgRouter.h:124-127 | the order of strings is transitive |
| `Strings.LessIsTotal` | Gamnet/Library/Json/jsoncpp.cpp:2708-2720 | two different strings are ordered one way or the other |
| `Strings.LessExactly` | Gamnet/Network/Router/MsgRouter.h:124-127 | a string is before another if and only if it ends, or has the smaller character, where they first differ |
| `Router.Registered` | Gamnet/Network/Router/RouterCaster.cpp:63-137 | adding a new address to table and lists keeps them in step |
| `Router.OnlyMatch` | Gamnet/Network/Router/RouterCaster.cpp:99-118 | an address that shares service and id with nobody names exactly one session of its service's list |
| `Router.UnregisteredExactly` | Gamnet/Network/Router/RouterCaster.cpp:99-118 | taking out a registered address keeps table and list in step, whatever remove_if leaves behind, if and only if no other registered address has its service and id |
| `Router.UniCastAlone` | Gamnet/Network/Router/RouterCaster.cpp:99-118 | among uni-cast addresses that is always so |
| `Router.Unregistered` | Gamnet/Network/Router/RouterCaster.cpp:99-118 | with its session out of the list, table and lists are in step |
| `Router.HasAddress` | Gamnet/Network/Router/RouterCaster.cpp:66-73 | whether an equal address is in the list |
| `Router.EraseMatch` | Gamnet/Network/Router/RouterCaster.cpp:109-116 | remove_if keeps the others in order and the one-element erase takes out the first of what it leaves behind |
| `Router.RouterCaster.RegisterMulti` | Gamnet/Network/Router/RouterCaster.cpp:63-77 | appended exactly when no equal address is in the service's list |
| `Router.RouterCaster.RegisterAny` | Gamnet/Network/Router/RouterCaster.cpp:120-137 | the same, and the newcomer is next in turn |
| `Router.RouterCaster.RegisterAddress` | Gamnet/Network/Router/RouterCaster.cpp:196-208 | into all three tables or none, for any way of casting; fails exactly when an equal address is there, and then changes nothing |
| `Router.RouterCaster.UnregisterAddress` | Gamnet/Network/Router/RouterCaster.cpp:237-248 | out of the table exactly when it is there; the lists lose the sessions of its id but for what is left behind, and stay in step when nobody shares its service and id |
| `Router.RouterCaster.FindSession` | Gamnet/Network/Router/RouterCaster.cpp:250-255 | found exactly when an equal address is registered |
| `Router.RouterCaster.PickAny` | Gamnet/Network/Router/RouterCaster.cpp:139-164 | the service's session whose turn it is, and the turn moves on |
| `Router.TakesTurns` | Gamnet/Network/Router/RouterCaster.cpp:156 | n consecutive any-cast messages reach each of n sessions exactly once |
| `Router.RegisterThenPick` | Gamnet/Network/Router/RouterCaster.cpp:120-164 | a newcomer gets its service's next any-cast message and is found under every address that compares equal |
| `RouterAnswers.AnswerWaitingSessionManager.AddSession` | Gamnet/Network/Router/Session.h:39-43 | an entry already there stays |
| `RouterAnswers.AnswerWaitingSessionManager.FindSession` | Gamnet/Network/Router/Session.h:45-56 | finding an entry takes it out |
| `RouterAnswers.AnswerWaitingSessionManager.Sweep` | Gamnet/Network/Router/Session.h:20-35 | exactly the entries that waited too long are gone |
| `RouterAnswers.AnswerWaitingSessionManager.Clear` | Gamnet/Network/Router/Session.h:58-62 | nothing waits |
| `RouterAnswers.StepKeeps` | Gamnet/Network/Router/Dispatcher.h:55-69 | every send, answer, sweep and clear keeps: waiting entries stand for requests not yet answered, under numbers never used twice |
| `RouterAnswers.RunKeeps` | Gamnet/Network/Router/Dispatcher.h:55-69 | so does every run |
| `RouterAnswers.AnswersReachTheAsker` | Gamnet/Network/Router/Dispatcher.h:55-88 | in every run each answer handed on goes to the session whose request used that number on that link, and no request is answered twice |
| `RouterAnswers.WaitingIsAnswered` | Gamnet/Network/Router/RouterCaster.cpp:210-235 | after any run and any continuation, a request's answer is handed on exactly if no answer to it, sweep past its time or clearing of its link came before |
| `RouterAnswers.WaitsExactly` | Gamnet/Network/Router/Session.h:20-62 | an entry waits exactly as long as every event spares it, and never comes back |
| `Base64.RoundTrip` | Gamnet/Library/Base64.cpp:21-136 | decoding the encoding of any byte string gives it back, and the encoding has 4*ceil(n/3) characters |
| `Base64.Encode` | Gamnet/Library/Base64.cpp:21-74 | the streaming loop computes the encoding of section 4 of RFC 4648 |
| `Base64Bits.Alphabet` | Gamnet/Library/Base64.cpp:12-15 | the alphabet is table 1 in section 4 of RFC 4648, place by place |
| `Base64Bits.SymbolsOnly` | Gamnet/Library/Base64.cpp:17-19 | nothing else is a symbol, and each is looked up at its own place |
| `Base64Bits.GroupBits` | Gamnet/Library/Base64.cpp:34-50 | at any group: its four symbols, as one number to the base 64, are its three octets as one number to the base 256 |
| `Base64Bits.LastBits` | Gamnet/Library/Base64.cpp:52-72 | a last group of one or two octets is two or three symbols with zero bits behind, and the fillers |
| `Base64Bits.DecodedBits` | Gamnet/Library/Base64.cpp:91-111 | at any group of any text: its octets as a number are its symbols as a number |
| `Base64Bits.DecodedLast` | Gamnet/Library/Base64.cpp:113-132 | symbols left over give the octets they fill; nothing behind the first other character counts |
| `Base64.Decode` | Gamnet/Library/Base64.cpp:76-136 | the streaming loop computes the decoding, on any text |
| `Base64.JoinSplit` | Gamnet/Library/Base64.cpp:39-42 | four symbols of a group give back its three octets |
| `Base64.FillersDoNotShow` | Gamnet/Library/Base64.cpp:113-132 | the values of missing symbols never reach the octets put out |
| `Base64.EncodedMore` | Gamnet/Library/Base64.cpp:34-50 | a whole number of groups encodes on its own |

## Left out

Reliable session

- SessionTheorems.RunKeeps: each lock section, number taken and change of state of the client, and each strand section of the server, is one step; UserSend and HeartBeat are whole calls that nobody interrupts, as `SessionNumbers.SendIsRun` shows. Runs start with the connect request queued and nothing before it.
- SessionNumbers.SameNumberDiscarded: the increment of a number is one step in the runs; that two of them collide is followed only to the server's filter.
- SessionNumbers.OpenSafeExactly: what two sends outstanding at once do to the bytes of the socket is not followed further.
- SessionTheorems.NothingLost: session tokens are fresh numbers, callbacks of a closed socket do not arrive, and the numbers stay below 2^32; wrap-around is not modelled.
- SessionTheorems.DeliveredInOrder: the five guards named above and the rule that answers come from the current link restrict the runs; their exact conditions are in SessionLimits, SessionNumbers, SessionHandover and SessionSuperseded.
- SessionTheorems.ReplayDeliversAll: a handler that logs through the null link of a session goes on here; in C++ what it does is undefined.
- SessionHandover.ReadAgainRaises: what is read once the unread bytes no longer begin with a frame depends on those bytes; such a receive packet is not read on in this model.
- SessionSuperseded.LateReadSafeExactly: is about whole late frames in an empty receive packet; one that meets an unfinished frame there loses it (LateTears), and one that is unfinished itself leaves a packet that is not read on in this model.
- SessionLimits.ReconnectSafeExactlyWhenClean: speaks of a request that is granted, so the client's token is the server's; a request is no larger than the client's buffer.
- The connect timeout, the kickout message, events handed to the game and the older client sessions.
- SessionComeback.ComeBackExactly: is about a client from whose queue a reconnect may start; the tokens are numbers, each new to both sides.
- The JSON bodies of the handshake messages are abstract here; the JSON reader is modelled on its own.

Framing

- FramingTheorems.WritePacket: what an overrunning copy overwrites is not modelled; the packet has the capacity it is made with, so the Resize behind the check cannot be reached.
- Framing.Session.DropFrame: a packet is always to be had from the pool; running out of packets is not modelled.
- Buffers.Buffer.RemoveReadBuffer: the memcpy is a move that allows overlap, which C++ does not promise.
- Move constructor and operators of Buffer.

IDL compiler

- The lexer and parser, and the Python back end.
- IdlTheorems.RoundTrip: messages that contain themselves, null strings of C#, booleans other than 0 and 1 on the wire and floating-point map keys are not modelled; texts are their bytes, which for C# are well-formed UTF-8; well-formed schemas name no field like a parameter, a loop counter or the length local of an earlier field.
- IdlTheorems.SameWireFormat: is about values both languages hold: texts in UTF-8, maps in ascending order.
- IdlLoad.LoadValue: what C# makes of bytes that are not UTF-8 is not modelled.
- IdlLoadLimits.LoadedExactly: speaks of schemas whose code compiles and in which no field is called `nSize` or `_buf_`; a field called `_buf_` overwrites the pointer itself and is not modelled. A number of 8 bytes over the C++ local of 4 is copied past its end, which is not modelled.
- IdlLimits.StoredExactly: a typedef of a boolean or floating-point number called like the size local is converted from it in C++, which is not modelled.
- IdlTheorems.SchemaShared: reserved words, names of the generated members, and the order of declarations (C# wants typedefs first, and C# before 12 none of a keyword type) are not modelled; a typedef of a string counts as unfit for C# even where nothing uses it.
- IdlSize.SizeObject: the int32 in which the Size of a C++ typedef is summed is not modelled; SizeFitsInt treats the int of C#.
- The generated operators of enums, and the text the generators print around the statements.

MD5

- hexdigest and the stream operator.
- Md5Vectors.AbcDigest: of the digests in section A.5 of RFC 1321 the three whose messages fit one word are proved; that the table is made from sines is not.
- Md5.MD5.Update: is not called again after finalize, which wipes the counter; the four state words are one value, not an array.

JSON

- JsonRoundTrip.WrittenReadBack: values with reals are left out; a number that is no 64-bit integer decodes to its own text.
- JsonReader.DecodeNumber: the conversion of a decimal always succeeds here and gives its text; in jsoncpp it can fail.
- JsonSyntax.DocumentRead: says what is made of every document of RFC 8259; which texts beyond those are accepted is in JsonLimits and JsonSyntax.CommentIgnored for some only.
- JsonReader.ParseDocument: error texts, recovery after an error, and the comments and offsets kept in values are not modelled.
- JsonReader.Reader.ReadValue: values are returned, where the original fills them in place on a stack of pointers.
- JsonWriter.FastWriter.Write: the options for YAML, null placeholders and line feed keep their defaults, and strings are not NULL.
- StyledWriter, OurReader, Path and the rest of the vendored file.

Locks, links, pool and acceptor

- Links.Link.AsyncSend: strand-wrapped calls are atomic; SyncSend and the buffer pool are not modelled.
- Links.LinkManager.OnAccept: there is always a session object to be had.
- Links.LinkManager.Reconnect: reading, timers and AttachManager are not modelled; a posted call is the method LateDetach, which may run in any state.
- Acceptor.Pool.Create: the capacity does not change and allocation does not fail.
- MultiLock.NoDeadlock: each thread takes one MultiLock at a time; mutexes are numbers in address order.

Router

- Router.RouterCaster.RegisterAddress: a registered session's address is not altered.
- Router.RouterCaster.UnregisterAddress: what remove_if leaves behind is a parameter, as C++ does not determine it.
- Router.RouterCaster.PickAny: the turn is an int in the original; its overflow is not modelled.
- RouterAnswers.AnswersReachTheAsker: fewer than 2^32 requests, and find-handlers bound to answers only.
- RouterAnswers.WaitingIsAnswered: the dispatcher looks for a waiting entry only on links registered for uni-cast (`Dispatcher.h:55`); the links here are such.
- The SetAddress handshake; the router's own messages are generated code, covered by the IDL part.

Everywhere: sockets, timers, clocks and threads are steps or parameters; HTTP, MySQL, Redis, logging, configuration and the Unity UI are not modelled.
