/** Package `p2p` (file connent_manage.go): admission of inbound connections. A pool of 50
    tokens bounds how many inbound connections are being handled at once; each handled
    connection is wrapped, checked against the ban list and handshaken. */
module ConnManage {
  import opened Base
  import opened Peer

  /** The size of the token pool of `listenerRoutine`. */
  const Tokens: nat := 50
  /** The handshake deadline `addPeer` uses, in seconds. */
  const HandshakeTimeoutSeconds: int := 30

  /** `isWhitelisted`: no address is banned yet. */
  function IsWhitelisted(addr: string): (banned: bool)
    ensures !banned
  {
    false
  }

  /** `Manage`: the channel established peers are handed over on. */
  class Manage {
    const addpeer: Stage

    constructor (addpeer: Stage)
      ensures this.addpeer == addpeer
    {
      this.addpeer := addpeer;
    }

    /** `addPeer` given the ban-list verdict `banned` for the connection's remote address:
        a banned connection is closed and dropped; any other is handshaken (inbound reads
        first) with a 30 s deadline and counts as added whatever the handshake's outcome. */
    method AddPeer(pc: PeerConn, banned: bool, now: int, steps: Steps) returns (added: bool)
      modifies pc.conn, addpeer
      ensures added == !banned
      ensures banned ==> pc.conn.ops == old(pc.conn.ops) + [Close] && addpeer.sent == old(addpeer.sent)
      ensures !banned ==>
                && pc.conn.ops == old(pc.conn.ops) + HandshakeTrace(pc.outbound, steps, now + HandshakeTimeoutSeconds)
                && addpeer.sent == old(addpeer.sent)
                     + (if HandshakeError(pc.outbound, steps).None? then [pc] else [])
    {
      if banned {
        CloseConn(pc);
        return false;
      }
      var _ := HandshakeTimeout(pc, HandshakeTimeoutSeconds, now, steps, addpeer);
      added := true;
    }

    /** `inboundPeerConnected`: wrap the connection as an inbound, non-persistent peer and
        add it. Wrapping never fails and no address is banned, so it always returns nil and
        always runs the handshake. */
    method InboundPeerConnected(conn: RawConn, now: int, steps: Steps) returns (err: Option<string>)
      modifies conn, addpeer
      ensures err.None?
      ensures conn.ops == old(conn.ops) + HandshakeTrace(false, steps, now + HandshakeTimeoutSeconds)
      ensures addpeer.sent == old(addpeer.sent)
                + (if HandshakeError(false, steps).None? then [PeerConn(false, false, conn)] else [])
    {
      var wrapped := NewPeerConn(conn, false, false);
      var pc := wrapped.0;
      var _ := AddPeer(pc, IsWhitelisted(conn.remote), now, steps);
      err := None;
    }

    /** `run` over the values its select sees: consume handed-over peers, changing nothing,
        until `quit` fires. */
    method Run(events: seq<RunEvent>) returns (consumed: seq<PeerConn>, stopped: bool)
      ensures stopped <==> exists i :: 0 <= i < |events| && events[i].Quit?
      ensures consumed == Peers(events[..FirstWhere(events, IsQuit)])
    {
      consumed := [];
      var i := 0;
      while i < |events| && !events[i].Quit?
        invariant i <= |events|
        invariant forall j :: 0 <= j < i ==> !events[j].Quit?
        invariant consumed == Peers(events[..i])
      {
        assert events[..i + 1][..i] == events[..i];
        consumed := consumed + [events[i].pc];
        i := i + 1;
      }
      FirstWhereUnique(events, IsQuit, i);
      stopped := i < |events|;
    }
  }

  /** What `run`'s select receives: a peer on `addpeer`, or the `quit` signal. */
  datatype RunEvent = PeerArrived(pc: PeerConn) | Quit

  predicate IsQuit(e: RunEvent)
  {
    e.Quit?
  }

  /** The peers among `events`, in order. */
  function Peers(events: seq<RunEvent>): seq<PeerConn>
  {
    if events == [] then []
    else
      var last := events[|events| - 1];
      Peers(events[..|events| - 1]) + (if last.PeerArrived? then [last.pc] else [])
  }

  /** The state of `listenerRoutine`: `available` tokens are in the pool; `holding` says the
      routine has drained a token and waits for a connection; `handling` lists the
      connections whose handler has not yet returned its token; `stopped` says the
      connection channel was found closed. */
  class ListenerRoutine {
    const manage: Manage
    var available: nat
    var holding: bool
    var handling: seq<RawConn>
    var stopped: bool

    /** Tokens are conserved: those in the pool and those taken add up to 50. */
    ghost predicate Valid()
      reads this
    {
      available + InFlight() == Tokens
    }

    /** The tokens taken from the pool. */
    ghost function InFlight(): nat
      reads this
    {
      |handling| + (if holding then 1 else 0)
    }

    /** The pool starts full. */
    constructor (manage: Manage)
      ensures Valid() && this.manage == manage
      ensures available == Tokens && !holding && handling == [] && !stopped
    {
      this.manage := manage;
      available := Tokens;
      holding := false;
      handling := [];
      stopped := false;
    }

    /** `<-slots` at the top of the loop: take a token before receiving a connection. With
        the pool empty the routine blocks, which leaves everything unchanged. */
    method TakeSlot() returns (took: bool)
      requires Valid() && !holding && !stopped
      modifies this
      ensures Valid() && handling == old(handling) && !stopped
      ensures took <==> old(available) > 0
      ensures holding == took
      ensures available == old(available) - (if took then 1 else 0)
    {
      took := available > 0;
      if took {
        available := available - 1;
        holding := true;
      }
    }

    /** `inConn, ok := <-l.Connections()` with a token in hand: a closed channel ends the
        routine, which keeps that token; a connection starts its handler. */
    method Receive(c: Option<RawConn>)
      requires Valid() && holding && !stopped
      modifies this
      ensures Valid() && available == old(available)
      ensures c.None? ==> stopped && holding && handling == old(handling)
      ensures c.Some? ==> !stopped && !holding && handling == old(handling) + [c.value]
    {
      if c.None? {
        stopped := true;
        return;
      }
      handling := handling + [c.value];
      holding := false;
    }

    /** The handler goroutine of `handling[i]`: `inboundPeerConnected`, which hands the peer
        over on `addpeer` when its handshake succeeds, then exactly one token back to the
        pool, whatever the outcome. */
    method Handle(i: nat, now: int, steps: Steps) returns (err: Option<string>)
      requires Valid() && i < |handling|
      modifies this, handling[i], manage.addpeer
      ensures Valid() && available == old(available) + 1
      ensures handling == old(handling[..i] + handling[i + 1..])
      ensures holding == old(holding) && stopped == old(stopped)
      ensures err.None?
      ensures old(handling[i]).ops == old(handling[i].ops) + HandshakeTrace(false, steps, now + HandshakeTimeoutSeconds)
      ensures manage.addpeer.sent == old(manage.addpeer.sent)
                + (if HandshakeError(false, steps).None? then [PeerConn(false, false, old(handling[i]))] else [])
    {
      var conn := handling[i];
      err := manage.InboundPeerConnected(conn, now, steps);
      handling := handling[..i] + handling[i + 1..];
      available := available + 1;
    }

    /** At most 50 connections are ever being handled at once. */
    lemma BoundedHandling()
      requires Valid()
      ensures |handling| <= Tokens && available <= Tokens
    {
    }
  }
}
