/** Package `jsonrpc` (file http_server.go): how a JSON-RPC request over HTTP is turned into
    a reply. The body is decoded, the command parsed and dispatched through three tables,
    errors are classified into RPC errors, and the marshalled reply is written after a
    status line taken from a memo cache. */
module HttpServer {
  import opened Base
  import opened RpcHandlers

  /** `ErrRPCUnimplemented`. */
  const ErrRPCUnimplemented: RPCError := RPCError(UnimplementedCode, "Command unimplemented")
  /** `ErrRPCNoWallet`. */
  const ErrRPCNoWallet: RPCError := RPCError(NoWalletCode, "This implementation does not implement wallet commands")
  /** The JSON-RPC library's method-not-found error. */
  const ErrRPCMethodNotFound: RPCError := RPCError(MethodNotFoundCode, "Method not found")

  /** `http.StatusOK`, the only code replies are written with. */
  const StatusOK: int := 200

  /** A decoded JSON-RPC request: its version field, method, parameters and id (the id's raw
      JSON text, or nil). */
  datatype Request = Request(jsonrpc: string, methodName: string, params: seq<string>, id: Option<string>)

  /** What `common.UnmarshalCmd` returns: a command, or an error that either reports an
      unregistered method or carries some other text. */
  datatype Unmarshalled = Cmd(cmd: Command) | CmdError(unregistered: bool, text: string)

  /** `parsedRPCCmd`. */
  datatype ParsedCmd = ParsedCmd(id: Option<string>, methodName: string, cmd: Option<Command>, err: Option<RPCError>)

  /** `parseCmd`: the id and method are always copied from the request; an unregistered
      method becomes method-not-found, any other unmarshalling error an invalid-parameters
      error with that error's text, and success stores the command with no error. */
  function ParseCmd(request: Request, unmarshalCmd: Request -> Unmarshalled): (p: ParsedCmd)
    ensures p.id == request.id && p.methodName == request.methodName
    ensures p.err.None? <==> unmarshalCmd(request).Cmd?
    ensures p.err.None? ==> p.cmd == Some(unmarshalCmd(request).cmd)
    ensures p.err.Some? ==> p.cmd.None?
    ensures unmarshalCmd(request).CmdError? && unmarshalCmd(request).unregistered ==>
              p.err == Some(ErrRPCMethodNotFound)
    ensures unmarshalCmd(request).CmdError? && !unmarshalCmd(request).unregistered ==>
              p.err == Some(RPCError(InvalidParamsCode, unmarshalCmd(request).text))
  {
    match unmarshalCmd(request)
    case CmdError(unregistered, text) =>
      if unregistered then ParsedCmd(request.id, request.methodName, None, Some(ErrRPCMethodNotFound))
      else ParsedCmd(request.id, request.methodName, None, Some(RPCError(InvalidParamsCode, text)))
    case Cmd(cmd) => ParsedCmd(request.id, request.methodName, Some(cmd), None)
  }

  /** `internalRPCError`: the internal error it returns and the line it logs. The error's
      message is `errStr` alone; the context only prefixes the log line. */
  function InternalRPCError(errStr: string, context: string): (r: (RPCError, string))
    ensures r.0.code == InternalCode && r.0.message == errStr
    ensures |errStr| <= |r.1| && r.1[|r.1| - |errStr|..] == errStr
    ensures context == "" ==> r.1 == errStr
    ensures context != "" ==> |context| + 2 <= |r.1| && r.1[..|context| + 2] == context + ": "
  {
    var logStr := if context != "" then context + ": " + errStr else errStr;
    (RPCError(InternalCode, errStr), logStr)
  }

  /** `common.MarshalResponse`: id, result and error to the reply's bytes, or a failure. */
  type Marshal = (Option<string>, Option<string>, Option<RPCError>) -> Result<string>

  /** `createMarshalledReply`: a nil error is marshalled as nil, an `*RPCError` unchanged,
      and any other error as an internal error with the same message. */
  function CreateMarshalledReply(id: Option<string>, result: Option<string>, replyErr: Option<Error>, marshal: Marshal)
    : (r: Result<string>)
    ensures replyErr.None? ==> r == marshal(id, result, None)
    ensures replyErr.Some? && replyErr.value.Rpc? ==> r == marshal(id, result, Some(replyErr.value.rpcErr))
    ensures replyErr.Some? && replyErr.value.Plain? ==>
              r == marshal(id, result, Some(RPCError(InternalCode, replyErr.value.text)))
  {
    var jsonErr :=
      match replyErr
      case None => None
      case Some(Rpc(e)) => Some(e)
      case Some(Plain(text)) => Some(InternalRPCError(text, "").0);
    marshal(id, result, jsonErr)
  }

  /** `handleUnimplemented`. */
  function HandleUnimplemented(cmd: Command): (o: Outcome)
    ensures o.Returned? && o.result.None? && o.err == Some(Rpc(ErrRPCUnimplemented))
  {
    Returned(None, Some(Rpc(ErrRPCUnimplemented)))
  }

  /** `handleAskWallet`. */
  function HandleAskWallet(cmd: Command): (o: Outcome)
    ensures o.Returned? && o.result.None? && o.err == Some(Rpc(ErrRPCNoWallet))
  {
    Returned(None, Some(Rpc(ErrRPCNoWallet)))
  }

  /** `standardCmdResult`: the tables are consulted in a fixed order (registered handlers,
      wallet commands, unimplemented commands) and a method in none of them is not found. */
  function StandardCmdResult(methodName: string, cmd: Command): (o: Outcome)
    ensures methodName in RpcHandlersTable ==> o == Call(RpcHandlersTable[methodName], cmd)
    ensures methodName !in RpcHandlersTable && methodName in RpcAskWallet ==>
              o == Returned(None, Some(Rpc(ErrRPCNoWallet)))
    ensures methodName !in RpcHandlersTable && methodName !in RpcAskWallet && methodName in RpcUnimplemented ==>
              o == Returned(None, Some(Rpc(ErrRPCUnimplemented)))
    ensures methodName !in RpcHandlersTable && methodName !in RpcAskWallet && methodName !in RpcUnimplemented ==>
              o == Returned(None, Some(Rpc(ErrRPCMethodNotFound)))
  {
    if methodName in RpcHandlersTable then Call(RpcHandlersTable[methodName], cmd)
    else if methodName in RpcAskWallet then HandleAskWallet(cmd)
    else if methodName in RpcUnimplemented then HandleUnimplemented(cmd)
    else Returned(None, Some(Rpc(ErrRPCMethodNotFound)))
  }

  /** Since the tables are disjoint, the order never hides an entry: every wallet command is
      answered with the no-wallet error and every unimplemented one with the unimplemented
      error, and only a method outside all three tables is not found. */
  lemma DispatchNeverHides(methodName: string, cmd: Command)
    ensures methodName in RpcAskWallet ==> StandardCmdResult(methodName, cmd) == Returned(None, Some(Rpc(ErrRPCNoWallet)))
    ensures methodName in RpcUnimplemented ==>
              StandardCmdResult(methodName, cmd) == Returned(None, Some(Rpc(ErrRPCUnimplemented)))
    ensures StandardCmdResult(methodName, cmd) == Returned(None, Some(Rpc(ErrRPCMethodNotFound))) <==>
              methodName !in RpcHandlersTable && methodName !in RpcAskWallet && methodName !in RpcUnimplemented
  {
    TablesDisjoint();
  }

  /** What a parsed request is answered with: the parse error, or what dispatch returns. */
  function Answer(request: Request, unmarshalCmd: Request -> Unmarshalled): (o: Outcome)
    ensures unmarshalCmd(request).CmdError? ==> o == Returned(None, Some(Rpc(ParseCmd(request, unmarshalCmd).err.value)))
    ensures unmarshalCmd(request).Cmd? ==> o == StandardCmdResult(request.methodName, unmarshalCmd(request).cmd)
  {
    var parsed := ParseCmd(request, unmarshalCmd);
    if parsed.err.Some? then Returned(None, Some(Rpc(parsed.err.value)))
    else StandardCmdResult(parsed.methodName, parsed.cmd.value)
  }

  /** The protocol token of a status line. */
  function Proto(proto11: bool): string
  {
    if proto11 then "HTTP/1.1" else "HTTP/1.0"
  }

  /** The status line for `code` under a protocol: unknown codes (empty `text`) read
      "status code N". */
  function StatusLine(proto11: bool, code: int, text: string): (line: string)
    ensures |line| >= 10 && line[..8] == Proto(proto11) && line[8] == ' '
    ensures line[|line| - 2..] == "\r\n"
  {
    var codeStr := Itoa(code);
    var shown := if text != "" then text else "status code " + codeStr;
    Proto(proto11) + " " + codeStr + " " + shown + "\r\n"
  }

  /** The cache key of a request: the code for HTTP/1.1 and later, its negation before. */
  function Key(proto11: bool, code: int): int
  {
    if proto11 then code else -code
  }

  function Abs(k: int): nat
  {
    if k < 0 then -k else k
  }

  /** `http.StatusText` knows only positive codes. */
  ghost predicate KnownCodesPositive(statusText: int -> string)
  {
    forall c :: statusText(c) != "" ==> c > 0
  }

  /** Every cached line is the status line of its key: a positive key for HTTP/1.1, a
      negative one for HTTP/1.0, and only codes with a status text are cached. */
  ghost predicate CacheValid(cache: map<int, string>, statusText: int -> string)
  {
    && KnownCodesPositive(statusText)
    && forall k :: k in cache ==>
         statusText(Abs(k)) != "" && cache[k] == StatusLine(k > 0, Abs(k), statusText(Abs(k)))
  }

  /** The line `httpStatusLine` returns given the cache it finds. */
  function CachedLine(cache: map<int, string>, statusText: int -> string, proto11: bool, code: int): string
  {
    var key := Key(proto11, code);
    if key in cache then cache[key] else StatusLine(proto11, code, statusText(code))
  }

  /** The cache `httpStatusLine` leaves: a miss on a code with a status text adds its line. */
  function CacheAfter(cache: map<int, string>, statusText: int -> string, proto11: bool, code: int): map<int, string>
  {
    var key := Key(proto11, code);
    if key in cache || statusText(code) == "" then cache
    else cache[key := StatusLine(proto11, code, statusText(code))]
  }

  /** For a positive code, whatever a valid cache holds, the line is the right one. */
  lemma CachedLineCorrect(cache: map<int, string>, statusText: int -> string, proto11: bool, code: int)
    requires CacheValid(cache, statusText) && code > 0
    ensures CachedLine(cache, statusText, proto11, code) == StatusLine(proto11, code, statusText(code))
  {
    var key := Key(proto11, code);
    if key in cache {
      assert Abs(key) == code && (key > 0 <==> proto11);
    }
  }

  /** Filling the cache keeps it valid. */
  lemma CacheAfterValid(cache: map<int, string>, statusText: int -> string, proto11: bool, code: int)
    requires CacheValid(cache, statusText)
    ensures CacheValid(CacheAfter(cache, statusText, proto11, code), statusText)
  {
    var key := Key(proto11, code);
    if key !in cache && statusText(code) != "" {
      assert code > 0;
      assert Abs(key) == code && (key > 0 <==> proto11);
    }
  }

  /** A second call with the same request and code returns the same line and leaves the
      cache as the first left it. */
  lemma StatusLineIdempotent(cache: map<int, string>, statusText: int -> string, proto11: bool, code: int)
    ensures var after := CacheAfter(cache, statusText, proto11, code);
            && CachedLine(after, statusText, proto11, code) == CachedLine(cache, statusText, proto11, code)
            && CacheAfter(after, statusText, proto11, code) == after
  {
  }

  /** Keys are shared across protocols: once an HTTP/1.0 request has cached the line for 200
      under key -200, an HTTP/1.1 request with code -200 is served that HTTP/1.0 line instead
      of its own. */
  lemma NegativeCodeCollision(statusText: int -> string)
    requires statusText(200) == "OK"
    ensures var cache := CacheAfter(map[], statusText, false, 200);
            && CachedLine(cache, statusText, true, -200) == "HTTP/1.0 200 OK\r\n"
            && CachedLine(cache, statusText, true, -200) != StatusLine(true, -200, statusText(-200))
  {
    assert NatToDecimal(2) == "2";
    assert NatToDecimal(20) == "20";
    assert Itoa(200) == "200";
    assert StatusLine(false, 200, "OK") == "HTTP/1.0 200 OK\r\n";
    assert StatusLine(true, -200, statusText(-200))[..8] == "HTTP/1.1";
  }

  /** A writer that accepts `budget` more writes, then fails every write. */
  class Sink {
    var chunks: seq<string>
    var budget: nat

    constructor (budget: nat)
      ensures chunks == [] && this.budget == budget
    {
      chunks := [];
      this.budget := budget;
    }

    method Write(s: string) returns (err: Option<string>)
      modifies this
      ensures old(budget) > 0 ==> chunks == old(chunks) + [s] && budget == old(budget) - 1 && err.None?
      ensures old(budget) == 0 ==> chunks == old(chunks) && budget == 0 && err.Some?
    {
      if budget == 0 {
        return Some("short write");
      }
      chunks := chunks + [s];
      budget := budget - 1;
      err := None;
    }
  }

  /** The first `n` elements of `s`, or all of them. */
  function Prefix<T>(s: seq<T>, n: nat): (p: seq<T>)
    ensures |p| == if n < |s| then n else |s|
    ensures p <= s
  {
    if n < |s| then s[..n] else s
  }

  /** How the server answers one HTTP request. */
  datatype Reply =
    | HttpError(status: int, text: string)  // a plain HTTP error page
    | NoReply                               // nothing is written
    | Crashed                               // the handler panicked
    | Send(msg: string)                     // this marshalled reply is written

  /** How hijacking the connection turns out. */
  datatype Hijack = NotHijacker | HijackFailed(err: string) | Hijacked

  /** A marshalled reply is sent; a marshalling failure sends nothing. */
  function Marshalled(m: Result<string>): Reply
  {
    if m.Ok? then Send(m.value) else NoReply
  }

  /** The reply `jsonRPCRead` decides on, from what reading the body returns, what hijacking
      returns, and the library calls that decode the body, unmarshal the command and marshal
      the response. */
  function Respond(body: Result<string>, hijack: Hijack, decode: string -> Result<Request>,
                   unmarshalCmd: Request -> Unmarshalled, marshal: Marshal): (r: Reply)
    ensures r.HttpError? <==> body.Err? || !hijack.Hijacked?
    ensures body.Err? ==> r == HttpError(400, "400 error reading JSON message: " + body.msg)
    ensures body.Ok? && hijack.NotHijacker? ==> r == HttpError(500, "500 webserver doesn't support hijacking")
    ensures body.Ok? && hijack.HijackFailed? ==> r == HttpError(500, "500 " + hijack.err)
    ensures r.Crashed? ==> body.Ok? && decode(body.value).Ok? && unmarshalCmd(decode(body.value).value).Cmd?
  {
    if body.Err? then HttpError(400, "400 error reading JSON message: " + body.msg)
    else if hijack.NotHijacker? then HttpError(500, "500 webserver doesn't support hijacking")
    else if hijack.HijackFailed? then HttpError(500, "500 " + hijack.err)
    else
      var decoded := decode(body.value);
      if decoded.Err? then
        Marshalled(CreateMarshalledReply(None, None, Some(Rpc(RPCError(ParseCode, "Failed to parse request: " + decoded.msg))), marshal))
      else if decoded.value.id.None? && decoded.value.jsonrpc != "" then NoReply
      else
        match Answer(decoded.value, unmarshalCmd)
        case Panicked => Crashed
        case Returned(result, err) => Marshalled(CreateMarshalledReply(decoded.value.id, result, err, marshal))
  }

  /** A body that does not decode is answered with a parse error, with no id, whose message
      starts "Failed to parse request: ". */
  lemma ParseFailureReply(body: string, decode: string -> Result<Request>,
                          unmarshalCmd: Request -> Unmarshalled, marshal: Marshal)
    requires decode(body).Err?
    ensures Respond(Ok(body), Hijacked, decode, unmarshalCmd, marshal)
            == Marshalled(marshal(None, None, Some(RPCError(ParseCode, "Failed to parse request: " + decode(body).msg))))
  {
  }

  /** A request with a nil id and a version field is a notification: it gets no reply, and
      its command is never dispatched. */
  lemma NotificationGetsNoReply(body: string, decode: string -> Result<Request>,
                                unmarshalCmd: Request -> Unmarshalled, marshal: Marshal)
    requires decode(body).Ok? && decode(body).value.id.None? && decode(body).value.jsonrpc != ""
    ensures Respond(Ok(body), Hijacked, decode, unmarshalCmd, marshal) == NoReply
  {
  }

  /** An `echo` request answers its content under the request's id, with no error. */
  lemma EchoReply(body: string, decode: string -> Result<Request>,
                  unmarshalCmd: Request -> Unmarshalled, marshal: Marshal, content: string)
    requires decode(body).Ok? && decode(body).value.methodName == "echo"
    requires decode(body).value.id.Some? || decode(body).value.jsonrpc == ""
    requires unmarshalCmd(decode(body).value) == Cmd(EchoCmd(content))
    ensures Respond(Ok(body), Hijacked, decode, unmarshalCmd, marshal)
            == Marshalled(marshal(decode(body).value.id, Some(content), None))
  {
  }

  /** A method `common.UnmarshalCmd` does not know is answered with method-not-found under
      the request's id, whatever table lists it. */
  lemma UnregisteredMethodReply(body: string, decode: string -> Result<Request>,
                                unmarshalCmd: Request -> Unmarshalled, marshal: Marshal)
    requires decode(body).Ok? && (decode(body).value.id.Some? || decode(body).value.jsonrpc == "")
    requires unmarshalCmd(decode(body).value).CmdError? && unmarshalCmd(decode(body).value).unregistered
    ensures Respond(Ok(body), Hijacked, decode, unmarshalCmd, marshal)
            == Marshalled(marshal(decode(body).value.id, None, Some(ErrRPCMethodNotFound)))
  {
  }

  /** The step-by-step form of `Respond`: the statements of `jsonRPCRead` up to the
      marshalled reply, each early exit in the order the handler takes it. */
  method DecideReply(body: Result<string>, hijack: Hijack, decode: string -> Result<Request>,
                     unmarshalCmd: Request -> Unmarshalled, marshal: Marshal)
    returns (reply: Reply)
    ensures reply == Respond(body, hijack, decode, unmarshalCmd, marshal)
  {
    if body.Err? {
      return HttpError(400, "400 error reading JSON message: " + body.msg);
    }
    if hijack.NotHijacker? {
      return HttpError(500, "500 webserver doesn't support hijacking");
    }
    if hijack.HijackFailed? {
      return HttpError(500, "500 " + hijack.err);
    }
    var responseID: Option<string> := None;
    var result: Option<string> := None;
    var jsonErr: Option<Error> := None;
    var decoded := decode(body.value);
    if decoded.Err? {
      jsonErr := Some(Rpc(RPCError(ParseCode, "Failed to parse request: " + decoded.msg)));
    } else {
      var request := decoded.value;
      if request.id.None? && request.jsonrpc != "" {
        return NoReply;
      }
      responseID := request.id;
      var parsed := ParseCmd(request, unmarshalCmd);
      if parsed.err.Some? {
        jsonErr := Some(Rpc(parsed.err.value));
      } else {
        var outcome := StandardCmdResult(parsed.methodName, parsed.cmd.value);
        if outcome.Panicked? {
          return Crashed;
        }
        result, jsonErr := outcome.result, outcome.err;
      }
    }
    var msg := CreateMarshalledReply(responseID, result, jsonErr, marshal);
    if msg.Err? {
      return NoReply;
    }
    reply := Send(msg.value);
  }

  /** `RpcServer`: the status-line cache and the status texts it fills it from
      (`http.StatusText`). */
  class RpcServer {
    var statusLines: map<int, string>
    const statusText: int -> string

    ghost predicate Valid()
      reads this
    {
      CacheValid(statusLines, statusText)
    }

    constructor (statusText: int -> string)
      requires KnownCodesPositive(statusText)
      ensures Valid() && statusLines == map[] && this.statusText == statusText
    {
      statusLines := map[];
      this.statusText := statusText;
    }

    /** `httpStatusLine`: a cache hit returns the cached line; a miss builds the line and
        caches it when the code has a status text. For a positive code the line is always
        the right one. */
    method HttpStatusLine(proto11: bool, code: int) returns (line: string)
      requires Valid()
      modifies this
      ensures Valid()
      ensures line == CachedLine(old(statusLines), statusText, proto11, code)
      ensures statusLines == CacheAfter(old(statusLines), statusText, proto11, code)
      ensures code > 0 ==> line == StatusLine(proto11, code, statusText(code))
    {
      CacheAfterValid(statusLines, statusText, proto11, code);
      if code > 0 {
        CachedLineCorrect(statusLines, statusText, proto11, code);
      }
      var key := code;
      if !proto11 {
        key := -key;
      }
      assert key == Key(proto11, code);
      if key in statusLines {
        return statusLines[key];
      }
      var proto := if proto11 then "HTTP/1.1" else "HTTP/1.0";
      var codeStr := Itoa(code);
      var text := statusText(code);
      assert proto == Proto(proto11);
      if text != "" {
        line := proto + " " + codeStr + " " + text + "\r\n";
        assert line == StatusLine(proto11, code, statusText(code));
        statusLines := statusLines[key := line];
      } else {
        text := "status code " + codeStr;
        line := proto + " " + codeStr + " " + text + "\r\n";
        assert line == StatusLine(proto11, code, statusText(code));
      }
    }

    /** `writeHTTPResponseHeaders`: the status line, then the header block, then a blank
        line, stopping at the first write that fails. */
    method WriteHTTPResponseHeaders(proto11: bool, headers: string, code: int, w: Sink) returns (err: Option<string>)
      requires Valid()
      modifies this, w
      ensures Valid()
      ensures statusLines == CacheAfter(old(statusLines), statusText, proto11, code)
      ensures w.chunks == old(w.chunks) + Prefix([CachedLine(old(statusLines), statusText, proto11, code), headers, "\r\n"], old(w.budget))
      ensures w.budget == if old(w.budget) >= 3 then old(w.budget) - 3 else 0
      ensures err.None? <==> old(w.budget) >= 3
    {
      var line := HttpStatusLine(proto11, code);
      err := w.Write(line);
      if err.Some? {
        return;
      }
      err := w.Write(headers);
      if err.Some? {
        return;
      }
      err := w.Write("\r\n");
    }

    /** `jsonRPCRead`: the HTTP error page it sends, if any, and what it writes on the
        hijacked connection: for a reply, the 200 status line, the headers, a blank line, the
        message and a terminating newline, each while the writer still accepts writes. */
    method JsonRPCRead(proto11: bool, headers: string, body: Result<string>, hijack: Hijack,
                       decode: string -> Result<Request>, unmarshalCmd: Request -> Unmarshalled,
                       marshal: Marshal, buf: Sink)
      returns (httpError: Option<(int, string)>)
      requires Valid()
      modifies this, buf
      ensures Valid()
      ensures var reply := Respond(body, hijack, decode, unmarshalCmd, marshal);
              && (reply.HttpError? ==> httpError == Some((reply.status, reply.text)))
              && (!reply.HttpError? ==> httpError.None?)
              && (reply.Send? ==>
                    && buf.chunks == old(buf.chunks)
                         + Prefix([StatusLine(proto11, StatusOK, statusText(StatusOK)), headers, "\r\n", reply.msg, "\n"], old(buf.budget))
                    && buf.budget == (if old(buf.budget) >= 5 then old(buf.budget) - 5 else 0)
                    && statusLines == CacheAfter(old(statusLines), statusText, proto11, StatusOK))
              && (!reply.Send? ==>
                    buf.chunks == old(buf.chunks) && buf.budget == old(buf.budget) && statusLines == old(statusLines))
    {
      var reply := DecideReply(body, hijack, decode, unmarshalCmd, marshal);
      httpError := None;
      match reply {
        case HttpError(status, text) =>
          httpError := Some((status, text));
        case NoReply =>
        case Crashed =>
        case Send(msg) =>
          CachedLineCorrect(statusLines, statusText, proto11, StatusOK);
          var err := WriteHTTPResponseHeaders(proto11, headers, StatusOK, buf);
          if err.Some? {
            return;
          }
          var _ := buf.Write(msg);
          var _ := buf.Write("\n");
      }
    }
  }
}
