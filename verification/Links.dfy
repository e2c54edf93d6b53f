/** Links and sessions: the send pump of a link, and the two-way tie between a link and the
    session attached to it through accept, close, reconnect and the idle sweep. */
module Links {
  import opened Bytes

  function Concat(buffers: seq<seq<Byte>>): seq<Byte> {
    if buffers == [] then [] else buffers[0] + Concat(buffers[1..])
  }

  lemma {:induction false} ConcatPush(buffers: seq<seq<Byte>>, b: seq<Byte>)
    ensures Concat(buffers + [b]) == Concat(buffers) + b
  {
    if buffers == [] {
      assert [b][1..] == [] && buffers + [b] == [b];
      assert b + [] == b && [] + b == b;
    } else {
      ConcatPush(buffers[1..], b);
      assert (buffers + [b])[1..] == buffers[1..] + [b];
      assert buffers[0] + (Concat(buffers[1..]) + b) == (buffers[0] + Concat(buffers[1..])) + b;
    }
  }

  class Session {
    var link: Link?
    var expireTime: nat
    /** How often the application was told that the connection closed. */
    var closes: nat

    constructor ()
      ensures link == null && expireTime == 0 && closes == 0
    {
      link := null;
      expireTime := 0;
      closes := 0;
    }
  }

  class Link {
    var session: Session?
    var sendBuffers: seq<seq<Byte>>
    /** Whether an async_write is outstanding. */
    var writing: bool
    /** What was passed to AsyncSend so far, and what the socket has been given of it. */
    ghost var queued: seq<Byte>
    ghost var written: seq<Byte>

    constructor ()
      ensures Pumping() && session == null && queued == [] && written == []
    {
      session := null;
      sendBuffers := [];
      writing := false;
      queued := [];
      written := [];
    }

    // -------------------------------------------------------------- the send pump

    /** At most one write is outstanding; while no write has failed there is one exactly when
        buffers are waiting, and what was written and what waits make up what was queued.
        After a failure nothing is written any more. */
    ghost predicate Pumping()
      reads this
    {
      || (written + Concat(sendBuffers) == queued && (writing <==> sendBuffers != []))
      || (!writing && sendBuffers != [] && written <= queued)
    }

    ghost predicate Failed()
      reads this
    {
      !writing && sendBuffers != []
    }

    /** Hand the first buffer to the socket.  No other write may be outstanding. */
    method FlushSend()
      requires !writing && written + Concat(sendBuffers) == queued
      modifies this`writing
      ensures Pumping() && (writing <==> sendBuffers != [])
    {
      if sendBuffers != [] {
        writing := true;
      }
    }

    /** Queue a buffer; the first of a row starts the pump. */
    method AsyncSend(buffer: seq<Byte>)
      requires Pumping()
      modifies this`sendBuffers, this`writing, this`queued
      ensures Pumping() && queued == old(queued) + buffer && (old(Failed()) ==> Failed())
    {
      var needFlush := sendBuffers == [];
      ConcatPush(sendBuffers, buffer);
      assert written + (Concat(sendBuffers) + buffer) == (written + Concat(sendBuffers)) + buffer;
      ghost var was := queued;
      sendBuffers := sendBuffers + [buffer];
      queued := queued + buffer;
      if needFlush {
        FlushSend();
      } else {
        assert was <= queued;
      }
    }

    /** The write completed. */
    method WriteDone()
      requires Pumping() && writing
      modifies this`sendBuffers, this`writing, this`written
      ensures Pumping() && !Failed() && written == old(written) + old(sendBuffers[0])
      ensures queued == old(queued)
    {
      assert written + (sendBuffers[0] + Concat(sendBuffers[1..])) == (written + sendBuffers[0]) + Concat(sendBuffers[1..]);
      written := written + sendBuffers[0];
      writing := false;
      sendBuffers := sendBuffers[1..];
      FlushSend();
    }

    /** The write failed after the socket had taken the first n bytes of the buffer: the
        buffer stays in front and no further write is started. */
    method WriteFailed(n: nat)
      requires Pumping() && writing && n <= |sendBuffers[0]|
      modifies this`writing, this`written
      ensures Pumping() && Failed() && old(written) <= written <= queued
      ensures sendBuffers == old(sendBuffers)
    {
      assert sendBuffers[0] == sendBuffers[0][..n] + sendBuffers[0][n..];
      assert written + (sendBuffers[0] + Concat(sendBuffers[1..])) ==
        (written + sendBuffers[0][..n]) + (sendBuffers[0][n..] + Concat(sendBuffers[1..]));
      written := written + sendBuffers[0][..n];
      writing := false;
    }

    /** In every state the written bytes are a prefix of what was queued, all of it once the
        queue has drained. */
    lemma WrittenIsPrefix()
      requires Pumping()
      ensures written <= queued && (sendBuffers == [] ==> written == queued && !writing)
    {
      if written + Concat(sendBuffers) == queued {
        assert sendBuffers == [] ==> written + [] == written;
      }
    }

    // -------------------------------------------------------------- attaching a session

    /** Drop the session there was, then take the new one. */
    method AttachSession(s: Session?)
      modifies this`session, (if session != null then {session} else {})`link, (if s != null then {s} else {})`link
      ensures session == s
      ensures s != null ==> s.link == this
      ensures old(session) != null && old(session) != s ==> old(session).link == null
    {
      if session != null {
        session.link := null;
        session := null;
      }
      session := s;
      if s != null {
        s.link := this;
      }
    }
  }

  // ---------------------------------------------------------------- the server's view

  /** The link of a session has that session attached.  Every operation keeps this, whatever is
      still posted. */
  ghost predicate Linked(links: set<Link>, sessions: set<Session>)
    reads links, sessions
  {
    && (forall l :: l in links && l.session != null ==> l.session in sessions)
    && (forall s :: s in sessions && s.link != null ==> s.link in links && s.link.session == s)
  }

  /** A link that has a session attached which does not know of it: one a reconnect has
      superseded while the detaching is still posted, or one whose session was cut off. */
  ghost predicate Stray(l: Link)
    reads l, if l.session != null then {l.session} else {}
  {
    l.session != null && l.session.link != l
  }

  /** A link and its session point at each other. */
  ghost predicate Tied(links: set<Link>, sessions: set<Session>)
    reads links, sessions, set l | l in links && l.session != null :: l.session
  {
    Linked(links, sessions) && forall l :: l in links ==> !Stray(l)
  }

  /** When the detaching of the superseded link runs: at once, later but before that link
      closes, or not before it closes. */
  datatype Detaching = AtOnce | Later | NotYet

  class LinkManager {
    /** Every link accepted and every session created so far. */
    ghost var links: set<Link>
    ghost var sessions: set<Session>

    constructor ()
      ensures links == {} && sessions == {} && Tied(links, sessions)
    {
      links, sessions := {}, {};
    }

    /** A new link gets a session of its own. */
    method OnAccept(link: Link)
      requires Linked(links, sessions) && link !in links && link.session == null
      modifies this, link`session
      ensures Linked(links, sessions) && (old(Tied(links, sessions)) ==> Tied(links, sessions))
      ensures links == old(links) + {link} && !Stray(link)
      ensures link.session != null && fresh(link.session) && sessions == old(sessions) + {link.session}
    {
      var session := new Session();
      link.AttachSession(session);
      links, sessions := links + {link}, sessions + {session};
    }

    /** Tell the session the link has, then detach it.  No other session hears of it; the one
        that does is left without a link even where it had moved to another. */
    method OnClose(link: Link)
      modifies link`session, if link.session != null then {link.session} else {}
      ensures link.session == null
      ensures forall s :: s in sessions ==>
        && s.closes == old(s.closes) + (if old(link.session) == s then 1 else 0)
        && s.link == (if old(link.session) == s then null else old(s.link))
      ensures forall l :: l in links && l != link ==> l.session == old(l.session)
      ensures old(Linked(links, sessions)) ==> Linked(links, sessions)
      ensures old(Tied(links, sessions)) && link in links ==> Tied(links, sessions)
    {
      if link.session != null {
        link.session.closes := link.session.closes + 1;
        link.AttachSession(null);
      }
    }

    /** The request arrived on `link` and named the session `other`.  Its old link is detached
        through that link's strand: at once when the strand is idle, otherwise later.  From a
        tied state a link is left astray exactly when the detaching was put off, and then it is
        the superseded one. */
    method Reconnect(link: Link, other: Session, immediate: bool)
      requires Linked(links, sessions) && link in links && other in sessions && link.session != null
      requires other.link == link ==> immediate
      modifies links`session, sessions`link
      ensures Linked(links, sessions) && link.session == other
      ensures forall l :: l in links && l != link ==>
        l.session == (if immediate && l == old(other.link) then null else old(l.session))
      ensures forall s :: s in sessions ==>
        s.link == (if s == other then link else if s == old(link.session) then null else old(s.link))
      ensures old(Tied(links, sessions)) ==>
        forall l :: l in links ==> (Stray(l) <==> !immediate && l == old(other.link))
    {
      var superseded := other.link;
      if superseded != null && immediate {
        superseded.AttachSession(null);
      }
      link.AttachSession(other);
    }

    /** A refused reconnect leaves the link without a session. */
    method RefuseReconnect(link: Link)
      modifies link`session, (if link.session != null then {link.session} else {})`link
      ensures link.session == null
      ensures forall s :: s in sessions ==>
        s.link == (if old(link.session) == s then null else old(s.link))
      ensures forall l :: l in links && l != link ==> l.session == old(l.session)
      ensures old(Linked(links, sessions)) ==> Linked(links, sessions)
      ensures old(Tied(links, sessions)) && link in links ==> Tied(links, sessions)
    {
      link.AttachSession(null);
    }

    /** What the put-off detaching does once it runs.  It cuts a session off from a link that is
        properly its own exactly when the superseded link is still astray with that session. */
    method LateDetach(superseded: Link)
      requires Linked(links, sessions) && superseded in links
      modifies superseded`session, (if superseded.session != null then {superseded.session} else {})`link
      ensures Linked(links, sessions) && superseded.session == null
      ensures forall s :: s in sessions ==>
        s.link == (if old(superseded.session) == s then null else old(s.link))
      ensures forall l :: l in links && l != superseded ==> l.session == old(l.session)
      ensures (exists l :: l in links && l.session != null && old(!Stray(l)) && Stray(l)) <==>
        old(Stray(superseded) && superseded.session.link != null)
    {
      ghost var home := if superseded.session != null then superseded.session.link else null;
      assert home != null ==> home in links && home.session == superseded.session && !Stray(home);
      superseded.AttachSession(null);
      assert home != null && home != superseded ==> home.session != null && Stray(home);
    }

    /** A session is resumed on another link and the superseded link then closes.  The session
        hears of the close exactly when its detaching has not run by then; it keeps its new
        link exactly when the detaching ran at once. */
    method ResumeThenClose(link: Link, other: Session, detaching: Detaching)
      requires Tied(links, sessions) && link in links && other in sessions && link.session != null
      requires other.link != null && other.link != link
      modifies links`session, sessions
      ensures other.closes == old(other.closes) + (if detaching.NotYet? then 1 else 0)
      ensures link.session == other && other.link == (if detaching.AtOnce? then link else null)
      ensures Tied(links, sessions) <==> detaching.AtOnce?
      ensures forall s :: s in sessions && s != other ==> s.closes == old(s.closes)
    {
      var superseded := other.link;
      Reconnect(link, other, detaching.AtOnce?);
      if detaching.Later? {
        LateDetach(superseded);
      }
      OnClose(superseded);
      assert other.link == null ==> Stray(link);
    }
  }

  // ---------------------------------------------------------------- the idle sweep

  class SessionManager {
    var sessions: map<nat, Session>
    const keepAlive: nat

    constructor (keepAlive: nat)
      ensures sessions == map[] && this.keepAlive == keepAlive
    {
      this.sessions := map[];
      this.keepAlive := keepAlive;
    }

    method Add(key: nat, session: Session, now: nat) returns (added: bool)
      modifies this, session`expireTime
      ensures added <==> key !in old(sessions)
      ensures sessions == if added then old(sessions)[key := session] else old(sessions)
      ensures session.expireTime == if added then now else old(session.expireTime)
    {
      if key in sessions {
        return false;
      }
      sessions := sessions[key := session];
      session.expireTime := now;
      added := true;
    }

    predicate Idle(s: Session, now: nat)
      reads s
    {
      s.link == null && s.expireTime + keepAlive < now
    }

    /** Erase the idle sessions while going over the table, and hand them back.  A session
        that a link still has attached is among them exactly when it is idle itself, its link
        lost; where links and sessions are tied there is none. */
    method Sweep(now: nat, ghost links: set<Link>, ghost all: set<Session>) returns (destroyed: seq<Session>)
      modifies this
      ensures sessions == map k | k in old(sessions) && !Idle(old(sessions)[k], now) :: old(sessions)[k]
      ensures forall s :: s in destroyed <==> exists k :: k in old(sessions) && old(sessions)[k] == s && Idle(s, now)
      ensures |destroyed| + |sessions| == |old(sessions)|
      ensures forall l :: l in links && l.session != null ==>
        (l.session in destroyed <==> l.session in old(sessions).Values && Idle(l.session, now))
      ensures forall l :: l in links && l.session != null && l.session in destroyed ==> Stray(l)
      ensures Tied(links, all) ==> forall l :: l in links ==> l.session !in destroyed
    {
      ghost var before := sessions;
      var keys := sessions.Keys;
      destroyed := [];
      while keys != {}
        invariant keys <= before.Keys
        invariant forall k :: k in sessions <==> k in before && (k in keys || !Idle(before[k], now))
        invariant forall k :: k in sessions ==> sessions[k] == before[k]
        invariant |destroyed| + |sessions| == |before|
        invariant forall s :: s in destroyed <==> exists k :: k in before && k !in keys && before[k] == s && Idle(s, now)
        decreases |keys|
      {
        var k :| k in keys;
        var session := sessions[k];
        if session.link == null && session.expireTime + keepAlive < now {
          destroyed := destroyed + [session];
          sessions := sessions - {k};
        }
        keys := keys - {k};
      }
    }
  }

  /** A session is resumed while the detaching of its old link is posted, the detaching runs, and
      nothing more is heard of the session for the keep-alive time: the sweep destroys it while
      the new link still has it. */
  method SweptWhileAttached(manager: LinkManager, table: SessionManager, key: nat, link: Link, now: nat)
    returns (destroyed: seq<Session>)
    requires Tied(manager.links, manager.sessions) && link in manager.links && link.session != null
    requires key in table.sessions && table.sessions[key] in manager.sessions
    requires table.sessions[key].link != null && table.sessions[key].link != link
    requires table.sessions[key].expireTime + table.keepAlive < now
    modifies manager.links`session, manager.sessions`link, table
    ensures old(table.sessions[key]) in destroyed && key !in table.sessions
    ensures link.session == old(table.sessions[key])
  {
    var other := table.sessions[key];
    var superseded := other.link;
    manager.Reconnect(link, other, false);
    manager.LateDetach(superseded);
    destroyed := table.Sweep(now, manager.links, manager.sessions);
  }

  /** A session put into the table and not heard of again: it outlives every sweep up to its
      stamp and the keep-alive time, and no later one unless it has a link. */
  method StampedThenSwept(table: SessionManager, key: nat, session: Session, now: nat, times: seq<nat>)
    requires key !in table.sessions
    modifies table, session`expireTime
    ensures key in table.sessions <==> session.link != null || forall i :: 0 <= i < |times| ==> times[i] <= now + table.keepAlive
    ensures key in table.sessions ==> table.sessions[key] == session
  {
    hide Tied, Linked, Stray;
    var added := table.Add(key, session, now);
    for i := 0 to |times|
      invariant session.expireTime == now
      invariant key in table.sessions <==> session.link != null || forall j :: 0 <= j < i ==> times[j] <= now + table.keepAlive
      invariant key in table.sessions ==> table.sessions[key] == session
    {
      var destroyed := table.Sweep(times[i], {}, {});
    }
  }
}
