/** Package `jsonrpc` (file rpc_hander.go): the three command tables the server dispatches
    on and the three registered handlers. */
module RpcHandlers {
  import opened Base

  /** The JSON-RPC error codes the server uses, by their names in the btcjson package. */
  datatype ErrorCode = ParseCode | InvalidParamsCode | MethodNotFoundCode | InternalCode | UnimplementedCode | NoWalletCode

  /** `RPCError`: a code and a message. */
  datatype RPCError = RPCError(code: ErrorCode, message: string)

  /** The Go `error` a handler returns: an `*RPCError`, or any other error, known by its text. */
  datatype Error = Rpc(rpcErr: RPCError) | Plain(text: string)

  /** `Data`, an element of `GetData.Data`. */
  datatype Data = Data(content: string)

  /** The concrete command `common.UnmarshalCmd` produced: `*HelloWorld`, `*Echo` or
      `*GetData`. */
  datatype Command =
    | HelloWorldCmd
    | EchoCmd(content: string)
    | GetDataCmd(data: seq<Data>, arr: map<string, int>, echo: int, pdata: Option<int>)

  /** What calling a handler does: it returns a result (nil or a string) and an error (nil or
      not), or it panics. */
  datatype Outcome = Returned(result: Option<string>, err: Option<Error>) | Panicked

  /** The handler functions the `rpcHandlers` table holds. */
  datatype Handler = HelloWorldHandler | EchoHandler | GetDataHandler

  /** `rpcHandlers`: the commands the server answers. */
  const RpcHandlersTable: map<string, Handler> :=
    map["hello_world" := HelloWorldHandler, "echo" := EchoHandler, "get_data" := GetDataHandler]

  /** `rpcAskWallet`: commands that need wallet state. */
  const RpcAskWallet: set<string> := {"listtransactions"}

  /** `rpcUnimplemented`: commands recognised but not implemented. */
  const RpcUnimplemented: set<string> := {"getmempoolentry", "getnetworkinfo", "getwork"}

  /** `helloWorld`: answers "hello world" with no error, whatever the command holds. */
  function HelloWorld(cmd: Command): (o: Outcome)
    ensures o.Returned? && o.result == Some("hello world") && o.err.None?
  {
    Returned(Some("hello world"), None)
  }

  /** `echo`: answers the command's `Content` unchanged; a command of another type fails
      the type assertion `cmd.(*Echo)`. */
  function Echo(cmd: Command): (o: Outcome)
    ensures cmd.EchoCmd? ==> o.Returned? && o.result == Some(cmd.content) && o.err.None?
    ensures !cmd.EchoCmd? ==> o.Panicked?
  {
    match cmd
    case EchoCmd(content) => Returned(Some(content), None)
    case _ => Panicked
  }

  /** `getData`: prints its fields and answers "ok" with no error whatever they hold; a
      command of another type fails the type assertion `cmd.(*GetData)`. */
  function GetData(cmd: Command): (o: Outcome)
    ensures cmd.GetDataCmd? ==> o.Returned? && o.result == Some("ok") && o.err.None?
    ensures !cmd.GetDataCmd? ==> o.Panicked?
  {
    match cmd
    case GetDataCmd(_, _, _, _) => Returned(Some("ok"), None)
    case _ => Panicked
  }

  /** Calls the handler a table entry holds. */
  function Call(h: Handler, cmd: Command): Outcome
  {
    match h
    case HelloWorldHandler => HelloWorld(cmd)
    case EchoHandler => Echo(cmd)
    case GetDataHandler => GetData(cmd)
  }

  /** No command is in two tables. */
  lemma TablesDisjoint()
    ensures forall m :: m in RpcHandlersTable ==> m !in RpcAskWallet && m !in RpcUnimplemented
    ensures RpcAskWallet !! RpcUnimplemented
  {
  }

  /** Each registered handler answers the command it is registered for without an error,
      and `getData`'s answer does not depend on the command's fields. */
  lemma RegisteredHandlersSucceed(content: string, data: seq<Data>, arr: map<string, int>, echo: int, pdata: Option<int>)
    ensures Call(RpcHandlersTable["hello_world"], HelloWorldCmd) == Returned(Some("hello world"), None)
    ensures Call(RpcHandlersTable["echo"], EchoCmd(content)) == Returned(Some(content), None)
    ensures Call(RpcHandlersTable["get_data"], GetDataCmd(data, arr, echo, pdata)) == Returned(Some("ok"), None)
  {
  }
}
