/** Package `p2p` (file server.go): the listener that binds, optionally maps the port through
    NAT, and runs the accept loop that retries temporary errors and stops at the first
    permanent one. */
module P2PServer {
  import opened Base
  import opened Peer
  import Nat

  /** An error `Accept` returned: its text and, when its type has a `Temporary()` method,
      what that method reports. */
  datatype AcceptError = AcceptError(text: string, temporary: Option<bool>)

  /** `isTemporary`: the error implements `Temporary()` and it reports true. A nil error is
      not temporary. */
  function IsTemporary(err: Option<AcceptError>): (r: bool)
    ensures err.None? ==> !r
    ensures err.Some? && err.value.temporary.None? ==> !r
    ensures err.Some? && err.value.temporary == Some(false) ==> !r
    ensures err.Some? && err.value.temporary == Some(true) ==> r
  {
    err.Some? && err.value.temporary == Some(true)
  }

  /** What one `Accept` call returns. */
  datatype AcceptResult = Accepted(conn: RawConn) | AcceptFailed(err: AcceptError)

  /** An accept result that ends the loop: an error that is not temporary. */
  predicate IsPermanent(a: AcceptResult)
  {
    a.AcceptFailed? && !IsTemporary(Some(a.err))
  }

  /** The connections accepted in `results`, in order. */
  function Successes(results: seq<AcceptResult>): seq<RawConn>
  {
    if results == [] then []
    else
      var last := results[|results| - 1];
      Successes(results[..|results| - 1]) + (if last.Accepted? then [last.conn] else [])
  }

  /** The `connections` channel: what has been sent on it and whether it is closed. */
  class ConnChannel {
    var items: seq<RawConn>
    var closed: bool

    constructor ()
      ensures items == [] && !closed
    {
      items := [];
      closed := false;
    }

    /** Sending on a closed channel panics, so a sender needs it open. */
    method Send(c: RawConn)
      requires !closed
      modifies this
      ensures items == old(items) + [c] && !closed
    {
      items := items + [c];
    }

    /** Closing a closed channel panics, so it is closed at most once. */
    method Close()
      requires !closed
      modifies this
      ensures items == old(items) && closed
    {
      closed := true;
    }
  }

  /** `Server`: its configuration, the channel it publishes accepted connections on, whether
      it is listening (listener stored, accept loop started) and whether it started a
      port-mapping loop. */
  class Server {
    const listenAddr: string
    const natSpec: string
    const connections: ConnChannel
    var listening: bool
    var mapping: bool

    constructor (listenAddr: string, natSpec: string, connections: ConnChannel)
      ensures this.listenAddr == listenAddr && this.natSpec == natSpec && this.connections == connections
      ensures !listening && !mapping
    {
      this.listenAddr := listenAddr;
      this.natSpec := natSpec;
      this.connections := connections;
      listening := false;
      mapping := false;
    }

    /** `StartListening` given what binding reports (`bindErr`): a bind error is returned
        unchanged and nothing starts; otherwise the NAT mapping is set up and the accept loop
        starts. `mappingExternalNetwork` never fails, so the result is then nil. */
    method StartListening(bindErr: Option<string>, parseIP: string -> Option<IP>) returns (err: Option<string>)
      modifies this
      ensures bindErr.Some? ==> err == bindErr && listening == old(listening) && mapping == old(mapping)
      ensures bindErr.None? ==> err.None? && listening
      ensures bindErr.None? ==> mapping == (old(mapping) || MappingExternalNetwork(natSpec, parseIP).1)
    {
      if bindErr.Some? {
        return bindErr;
      }
      var outcome := MappingExternalNetwork(natSpec, parseIP);
      if outcome.0.Some? {
        return outcome.0;
      }
      mapping := mapping || outcome.1;
      listening := true;
      err := None;
    }

    /** `listenLoop` over the results of successive `Accept` calls: temporary errors are
        retried and emit nothing, each accepted connection is sent on `connections` once
        and in order, and the first permanent error closes `connections` once and ends the
        loop. Results after it are never asked for; without one the loop runs on. */
    method ListenLoop(results: seq<AcceptResult>)
      requires !connections.closed
      modifies connections
      ensures connections.items == old(connections.items) + Successes(results[..FirstWhere(results, IsPermanent)])
      ensures connections.closed <==> exists i :: 0 <= i < |results| && IsPermanent(results[i])
    {
      var i := 0;
      while i < |results|
        invariant i <= |results|
        invariant forall j :: 0 <= j < i ==> !IsPermanent(results[j])
        invariant !connections.closed
        invariant connections.items == old(connections.items) + Successes(results[..i])
      {
        var r := results[i];
        var err := if r.AcceptFailed? then Some(r.err) else None;
        assert results[..i + 1][..i] == results[..i];
        if IsTemporary(err) {
          i := i + 1;
          continue;
        } else if err.Some? {
          FirstWhereUnique(results, IsPermanent, i);
          connections.Close();
          return;
        }
        connections.Send(r.conn);
        i := i + 1;
      }
      FirstWhereUnique(results, IsPermanent, i);
    }
  }

  /** `mappingExternalNetwork`: its error (always nil, even when the NAT spec does not
      parse) and whether it starts a `Map` loop, which it does exactly when the spec names
      a mechanism. */
  function MappingExternalNetwork(natSpec: string, parseIP: string -> Option<IP>): (r: (Option<string>, bool))
    ensures r.0.None?
    ensures r.1 <==> Nat.Parse(natSpec, parseIP).Ok? && Nat.Parse(natSpec, parseIP).value.Some?
  {
    var parsed := Nat.Parse(natSpec, parseIP);
    var natm := if parsed.Ok? then parsed.value else None;
    (None, natm.Some?)
  }
}
