/** Package `p2p` (file peer.go): the wrapper around a raw connection and the
    direction-aware version handshake run under a deadline. */
module Peer {
  import opened Base

  /** An operation the handshake performs on a raw connection. */
  datatype ConnOp = SetDeadline(at: int) | ClearDeadline | WriteVersion | ReadVersion | Close

  /** A raw `net.Conn`: its remote address and the operations performed on it so far. What
      each operation reports is an input of the method that performs it. */
  class RawConn {
    const remote: string
    var ops: seq<ConnOp>

    constructor (remote: string)
      ensures this.remote == remote && ops == []
    {
      this.remote := remote;
      ops := [];
    }

    /** `Close`. */
    method Close()
      modifies this
      ensures ops == old(ops) + [ConnOp.Close]
    {
      ops := ops + [ConnOp.Close];
    }

    /** Performs `op`; `ok` is whether the network lets it succeed. */
    method Perform(op: ConnOp, ok: bool) returns (err: Option<string>)
      modifies this
      ensures ops == old(ops) + [op]
      ensures err.None? <==> ok
    {
      ops := ops + [op];
      err := if ok then None else Some("i/o error");
    }
  }

  /** `PeerConn`: a raw connection with its direction and persistence; its fields never change. */
  datatype PeerConn = PeerConn(outbound: bool, persistent: bool, conn: RawConn)

  /** `newPeerConn`: wraps the connection unchanged and never fails. */
  function NewPeerConn(rawConn: RawConn, outbound: bool, persistent: bool): (r: (PeerConn, Option<string>))
    ensures r.0.conn == rawConn && r.0.outbound == outbound && r.0.persistent == persistent
    ensures r.1.None?
  {
    (PeerConn(outbound, persistent, rawConn), None)
  }

  /** `CloseConn`: closes the raw connection. */
  method CloseConn(pc: PeerConn)
    modifies pc.conn
    ensures pc.conn.ops == old(pc.conn.ops) + [Close]
  {
    pc.conn.Close();
  }

  /** The channel established peers are handed over on, as the sequence of peers sent on it. */
  class Stage {
    var sent: seq<PeerConn>

    constructor ()
      ensures sent == []
    {
      sent := [];
    }

    method Send(pc: PeerConn)
      modifies this
      ensures sent == old(sent) + [pc]
    {
      sent := sent + [pc];
    }
  }

  /** How each I/O step of one handshake turns out (`true` is success): setting the
      deadline, writing the local version, reading the remote one, clearing the deadline. */
  datatype Steps = Steps(setDeadline: bool, write: bool, read: bool, clearDeadline: bool)

  /** `readRemoteVersionMsg` is a stub that always succeeds. */
  function ReadRemoteVersionMsg(pc: PeerConn): (err: Option<string>)
    ensures err.None?
  {
    None
  }

  /** `writeLocalVersionMsg` is a stub that always succeeds. */
  function WriteLocalVersionMsg(pc: PeerConn): (err: Option<string>)
    ensures err.None?
  {
    None
  }

  /** The steps of a handshake with the stubs as they are: only the two deadline calls can fail. */
  function StubSteps(pc: PeerConn, setDeadline: bool, clearDeadline: bool): Steps
  {
    Steps(setDeadline, WriteLocalVersionMsg(pc).None?, ReadRemoteVersionMsg(pc).None?, clearDeadline)
  }

  /** The two version messages in the order a connection of this direction exchanges them:
      an outbound connection writes first, an inbound one reads first. */
  function Exchange(outbound: bool): seq<ConnOp>
  {
    if outbound then [WriteVersion, ReadVersion] else [ReadVersion, WriteVersion]
  }

  /** Whether the step `op` of the exchange succeeds. */
  function Succeeds(op: ConnOp, steps: Steps): bool
  {
    if op == WriteVersion then steps.write else steps.read
  }

  /** The error a failed exchange step returns. */
  function StepError(op: ConnOp): string
  {
    if op == WriteVersion then "writeLocalVersionMsg" else "readRemoteVersionMsg"
  }

  /** The operations a handshake performs on its connection, in order. */
  function HandshakeTrace(outbound: bool, steps: Steps, deadline: int): seq<ConnOp>
  {
    var ex := Exchange(outbound);
    if !steps.setDeadline then [SetDeadline(deadline), Close]
    else if !Succeeds(ex[0], steps) then [SetDeadline(deadline), ex[0], Close]
    else if !Succeeds(ex[1], steps) then [SetDeadline(deadline), ex[0], ex[1], Close]
    else [SetDeadline(deadline), ex[0], ex[1], ClearDeadline]
  }

  /** The error a handshake returns; `None` is success. */
  function HandshakeError(outbound: bool, steps: Steps): Option<string>
  {
    var ex := Exchange(outbound);
    if !steps.setDeadline then Some("Error setting deadline")
    else if !Succeeds(ex[0], steps) then Some(StepError(ex[0]))
    else if !Succeeds(ex[1], steps) then Some(StepError(ex[1]))
    else if !steps.clearDeadline then Some("Error removing deadline")
    else None
  }

  /** `HandshakeTimeout`: set the deadline `now + timeout`, exchange versions in the order
      of the connection's direction, clear the deadline, and hand the peer over on `stage`.
      Every failure before the deadline is cleared closes the connection; a failure to clear
      it does not. */
  method HandshakeTimeout(pc: PeerConn, timeout: int, now: int, steps: Steps, stage: Stage)
    returns (err: Option<string>)
    modifies pc.conn, stage
    ensures pc.conn.ops == old(pc.conn.ops) + HandshakeTrace(pc.outbound, steps, now + timeout)
    ensures err == HandshakeError(pc.outbound, steps)
    ensures stage.sent == old(stage.sent) + (if err.None? then [pc] else [])
  {
    var e := pc.conn.Perform(SetDeadline(now + timeout), steps.setDeadline);
    if e.Some? {
      CloseConn(pc);
      return Some("Error setting deadline");
    }
    if pc.outbound {
      e := pc.conn.Perform(WriteVersion, steps.write);
      if e.Some? {
        CloseConn(pc);
        return Some("writeLocalVersionMsg");
      }
      e := pc.conn.Perform(ReadVersion, steps.read);
      if e.Some? {
        CloseConn(pc);
        return Some("readRemoteVersionMsg");
      }
    } else {
      e := pc.conn.Perform(ReadVersion, steps.read);
      if e.Some? {
        CloseConn(pc);
        return Some("readRemoteVersionMsg");
      }
      e := pc.conn.Perform(WriteVersion, steps.write);
      if e.Some? {
        CloseConn(pc);
        return Some("writeLocalVersionMsg");
      }
    }
    e := pc.conn.Perform(ClearDeadline, steps.clearDeadline);
    if e.Some? {
      return Some("Error removing deadline");
    }
    stage.Send(pc);
    err := None;
  }

  /** The deadline is set before anything else; when setting it fails, the connection is
      closed and no version message is read or written. */
  lemma DeadlineComesFirst(outbound: bool, steps: Steps, deadline: int)
    ensures HandshakeTrace(outbound, steps, deadline)[0] == SetDeadline(deadline)
    ensures !steps.setDeadline ==>
              && HandshakeTrace(outbound, steps, deadline) == [SetDeadline(deadline), Close]
              && HandshakeError(outbound, steps) == Some("Error setting deadline")
  {
  }

  /** An outbound connection never reads the remote version before it has written its own;
      an inbound one never writes before it has read. */
  lemma DirectionOrdersExchange(outbound: bool, steps: Steps, deadline: int, i: nat)
    requires i < |HandshakeTrace(outbound, steps, deadline)|
    ensures outbound && HandshakeTrace(outbound, steps, deadline)[i] == ReadVersion ==>
              0 < i && HandshakeTrace(outbound, steps, deadline)[i - 1] == WriteVersion
    ensures !outbound && HandshakeTrace(outbound, steps, deadline)[i] == WriteVersion ==>
              0 < i && HandshakeTrace(outbound, steps, deadline)[i - 1] == ReadVersion
  {
  }

  /** A failed handshake closes its connection exactly once, as its last operation, and
      delivers nothing, unless only clearing the deadline failed: then the connection stays
      open. A successful handshake never closes it. */
  lemma FailureClosesOnce(outbound: bool, steps: Steps, deadline: int)
    ensures var t := HandshakeTrace(outbound, steps, deadline);
            var err := HandshakeError(outbound, steps);
            && (err.Some? && err != Some("Error removing deadline") ==>
                  multiset(t)[Close] == 1 && t[|t| - 1] == Close)
            && (err.None? || err == Some("Error removing deadline") ==> Close !in t)
  {
    var t := HandshakeTrace(outbound, steps, deadline);
    var ex := Exchange(outbound);
    if !steps.setDeadline {
      assert t == [SetDeadline(deadline)] + [Close];
    } else if !Succeeds(ex[0], steps) {
      assert t == [SetDeadline(deadline), ex[0]] + [Close];
    } else if !Succeeds(ex[1], steps) {
      assert t == [SetDeadline(deadline), ex[0], ex[1]] + [Close];
    }
  }

  /** Clearing the deadline is the last step: when only it fails, both versions have been
      exchanged, the error is "Error removing deadline" and the connection is not closed. */
  lemma ClearFailureKeepsConnection(outbound: bool, steps: Steps, deadline: int)
    requires steps.setDeadline && steps.write && steps.read && !steps.clearDeadline
    ensures HandshakeError(outbound, steps) == Some("Error removing deadline")
    ensures HandshakeTrace(outbound, steps, deadline) == [SetDeadline(deadline)] + Exchange(outbound) + [ClearDeadline]
  {
  }

  /** With both version messages stubbed out, a handshake succeeds exactly when both
      deadline calls do. */
  lemma StubbedHandshake(pc: PeerConn, setDeadline: bool, clearDeadline: bool)
    ensures HandshakeError(pc.outbound, StubSteps(pc, setDeadline, clearDeadline)).None? <==>
              setDeadline && clearDeadline
  {
  }
}
