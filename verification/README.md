# blockchainservice core, modelled in Dafny

This project models the core of the Go node `blockchainservice`. It has two halves.

The peer-to-peer half:

- `p2p/nat`: the NAT mechanism grammar (`Parse`), the fixed-address mechanism `extIP` and the NAT-PMP client stubs. It also covers the auto-discovering wrapper `autodisc`, which runs discovery once and caches the router it finds, and `Map`, the loop that keeps a port mapping alive.
- `p2p`: the listener's accept loop and the token pool of 50 handshake slots. It also covers the admission of inbound connections and the direction-aware version handshake run under a deadline.

The JSON-RPC half (`jsonrpc`):

- command parsing and classification of errors into RPC errors;
- dispatch over three command tables in a fixed order;
- the three registered handlers;
- the HTTP status line and its memo cache;
- the framing of the reply written on the hijacked connection.

There is one module per Go file: `Nat` (nat.go), `Pmp` (pmp.go), `Peer` (peer.go), `ConnManage` (connent_manage.go), `P2PServer` (server.go), `HttpServer` (http_server.go) and `RpcHandlers` (rpc_hander.go). A small `Base` module holds `Option`/`Result`, `strconv.Itoa` and `FirstWhere`. `FirstWhere` is the index at which a loop that stops at the first matching event stops.

Calls into libraries and the network are parameters. These include `net.ParseIP`, `http.StatusText`, `common.UnmarshalCmd`, `common.MarshalResponse`, `json.Unmarshal`, the answers of `DiscoverUPnP`, and whether each read, write, deadline or accept succeeds. Loops that wait on channels or timers (`Map`, `run`, `listenLoop`) are methods over the sequence of events their `select` or `Accept` sees. Each is proved against a function of that sequence.

Objects the source updates in place are classes:

- the `autodisc` with its `sync.Once` flag and cached router;
- connections, as the trace of operations performed on them;
- the channels peers and connections are sent on;
- the token pool;
- the RPC server's status-line cache;
- the reply writer.

The source's quirks are kept:

- `Any` races two identical UPnP probes.
- `PMP` ignores its gateway and can never find a router.
- `addPeer` reports success whatever the handshake does.
- `mappingExternalNetwork` returns nil even when the spec does not parse.
- The wallet and unimplemented tables are consulted only for commands `common.UnmarshalCmd` knows. The commands registered in `jsonrpc/rpc_cmds.go` are only the three handled ones, so those tables are reached only if the command registry knows more.

Two cases come out of the code as written and are stated as lemmas:

- `HttpServer.NegativeCodeCollision`: the status-line cache uses `code` as the key for HTTP/1.1 and `-code` for HTTP/1.0. After an HTTP/1.0 request for 200, an HTTP/1.1 request with code -200 is served the line "HTTP/1.0 200 OK". For every positive code the cached line is the right one (`HttpServer.CachedLineCorrect`). The server only ever writes 200.
- `Nat.ParseInvalidIP`: an IP part that does not parse fails before the mechanism is looked at, so "none:xyz" is an error.

## Model

| member | source | states |
|---|---|---|
| Pmp.DiscoverPMP | p2p/nat/pmp.go:8-10 | NAT-PMP discovery returns no mechanism and no error |
| Pmp.PmpClient.String | p2p/nat/pmp.go:16-18 | the description is "NAT-PMP(" + the gateway as shown ("<nil>" when absent) + ")" |
| Pmp.PmpClient.GetExternalAddress | p2p/nat/pmp.go:20-23 | the stub reports no address and no error |
| Pmp.PmpClient.AddPortMapping | p2p/nat/pmp.go:25-28 | the stub reports port 0 and no error |
| Pmp.PmpClient.DeletePortMapping | p2p/nat/pmp.go:30-33 | the stub reports no error |
| Nat.ToLower | p2p/nat/nat.go:44 | the mechanism is lower-cased character by character and keeps its length |
| Nat.SplitFirstColon | p2p/nat/nat.go:43 | the name part holds no ':'; without a ':' it is the whole spec; otherwise name + ":" + rest rebuilds the spec |
| Nat.SplitJoin | p2p/nat/nat.go:43 | only the first ':' splits: a colon-free name joined by ':' to any text (colons included) splits back into exactly those two parts |
| Nat.Parse | p2p/nat/nat.go:41-70 | the only errors are "invalid IP address", "missing IP address" and "unknown mechanism" quoting the name as written; a fixed mechanism carries the address `net.ParseIP` gave for the IP part |
| Nat.ParseJoin | p2p/nat/nat.go:41-70 | parsing a spec written as name and optional IP part is the decision on exactly those parts |
| Nat.ParseCaseInsensitive | p2p/nat/nat.go:44-68 | names that lower-case alike parse alike, except that an unknown name is quoted as written |
| Nat.DecideCaseInsensitive | p2p/nat/nat.go:44-68 | once the spec is split, the decision reads the name only through its lower-case form, except to quote an unknown name |
| Nat.ParseExtIPWithColons | p2p/nat/nat.go:43-62 | "extip:" followed by an address containing ':' yields the fixed mechanism for that whole address |
| Nat.ParseInvalidIP | p2p/nat/nat.go:47-52 | the result is "invalid IP address" exactly when an IP part is present and does not parse, whatever the name |
| Nat.ParseNoMechanism | p2p/nat/nat.go:53-55 | no mechanism and no error exactly for "", "none" and "off" in any case, when any IP part parses |
| Nat.ParseExtIP | p2p/nat/nat.go:58-62 | "extip"/"ip" without an IP part fail with "missing IP address"; with one, the mechanism reports that address, and its mappings succeed with port 0 |
| Nat.ParseUnknown | p2p/nat/nat.go:67-68 | any other name fails with "unknown mechanism" quoting the name |
| Nat.ParseDiscovering | p2p/nat/nat.go:56-66 | "any"/"auto"/"on", "upnp" and the three NAT-PMP names choose their discovering mechanism; the IP part becomes the PMP gateway |
| Nat.Mechanism.GetExternalAddress | p2p/nat/nat.go:117 | `extIP` reports its own address with no error; the NAT-PMP client reports none |
| Nat.Mechanism.String | p2p/nat/nat.go:118 | `extIP` is described as "ExtIP(" + the address as shown + ")" |
| Nat.Mechanism.AddPortMapping | p2p/nat/nat.go:121-123 | `extIP` (and the NAT-PMP stub) report port 0 and no error without doing anything |
| Nat.Mechanism.DeletePortMapping | p2p/nat/nat.go:124-126 | `extIP` (and the NAT-PMP stub) report no error without doing anything |
| Nat.FirstFoundIsEarliest | p2p/nat/nat.go:147-152 | the selection returns the earliest arrival that carries a mechanism, with its error, and (nil, nil) exactly when no arrival carries one |
| Nat.SelectFound | p2p/nat/nat.go:147-152 | the loop over the arrivals returns that selection |
| Nat.Discovered | p2p/nat/nat.go:130-170 | `Any`'s discovery finds a router exactly when one of its two UPnP probes does, preferring the first, and reports (nil, nil) when neither does; `UPnP`'s is its one probe; `PMP`'s never finds one |
| Nat.Adopted | p2p/nat/nat.go:221-225 | a discovered mechanism is kept exactly when discovery reported no error |
| Nat.AutoDisc.constructor | p2p/nat/nat.go:181-184 | a new autodisc has not run discovery and has found nothing |
| Nat.AutoDisc.Wait | p2p/nat/nat.go:218-233 | discovery runs on the first call only, its result is kept only without an error, and the call fails with "no <what> router discovered" while nothing is found |
| Nat.AutoDisc.AddPortMapping | p2p/nat/nat.go:186-191 | waits for discovery, then fails with its error or delegates to the router found |
| Nat.AutoDisc.DeletePortMapping | p2p/nat/nat.go:193-198 | waits for discovery, then fails with its error or delegates to the router found |
| Nat.AutoDisc.GetExternalAddress | p2p/nat/nat.go:200-205 | waits for discovery, then fails with its error or delegates to the router found |
| Nat.AutoDisc.String | p2p/nat/nat.go:207-215 | the kind of router sought while none is found, then the router's own description |
| Nat.Open | p2p/nat/nat.go:130-170 | a fixed address is used as is; "UPnP or NAT-PMP", "UPnP" and "NAT-PMP" each get a fresh autodisc with the matching discovery, and PMP's gateway is dropped |
| Nat.PmpNeverDiscovers | p2p/nat/nat.go:165-170 | whatever the gateway and the network, every NAT-PMP operation fails with "no NAT-PMP router discovered" |
| Nat.DiscoveryIsCached | p2p/nat/nat.go:218-228 | a second wait sees the outcome of the first whatever the network answers then |
| Nat.LeaseNeverLapses | p2p/nat/nat.go:72-75 | adds made every 15 minutes (900 s), each asking for a 20-minute (1200 s) lease, keep the mapping leased at every moment from the first add until the next refresh is due |
| Nat.Map | p2p/nat/nat.go:79-106 | one add at start and one per refresh before the close, each with a 1200 s lease; it returns exactly when the channel is closed and then deletes the mapping once, last; the adds are made at the start and then one refresh interval apart, so the mapping is leased without a gap until the next refresh is due |
| Peer.NewPeerConn | p2p/peer.go:16-22 | the connection, direction and persistence are stored unchanged and there is no error |
| Peer.CloseConn | p2p/peer.go:25-27 | closes the raw connection once |
| Peer.HandshakeTimeout | p2p/peer.go:30-72 | the deadline is set first, versions are exchanged in the order of the direction, and the deadline is cleared; each failure returns its message; the peer is handed over exactly when the handshake succeeds |
| Peer.ReadRemoteVersionMsg | p2p/peer.go:74-76 | the stub never fails |
| Peer.WriteLocalVersionMsg | p2p/peer.go:78-80 | the stub never fails |
| Peer.DeadlineComesFirst | p2p/peer.go:32-36 | the first operation sets the deadline; if that fails the connection is closed and nothing is exchanged |
| Peer.DirectionOrdersExchange | p2p/peer.go:37-63 | an outbound connection reads only right after writing; an inbound one writes only right after reading |
| Peer.FailureClosesOnce | p2p/peer.go:30-72 | a failure before the deadline is cleared closes the connection exactly once, as the last operation; success or a failure to clear never closes it |
| Peer.ClearFailureKeepsConnection | p2p/peer.go:65-69 | when only clearing fails, both versions were exchanged, the error is "Error removing deadline" and the connection stays open |
| Peer.StubbedHandshake | p2p/peer.go:74-80 | with the version messages stubbed, a handshake succeeds exactly when both deadline calls do |
| ConnManage.Manage.AddPeer | p2p/connent_manage.go:78-88 | a banned connection is closed and reported false; any other is handshaken under a 30 s deadline and reported true whatever the handshake does |
| ConnManage.IsWhitelisted | p2p/connent_manage.go:90-92 | no address is banned |
| ConnManage.Manage.InboundPeerConnected | p2p/connent_manage.go:68-76 | always nil; the connection is handshaken as inbound and non-persistent and handed over exactly when that succeeds |
| ConnManage.Manage.Run | p2p/connent_manage.go:94-105 | consumes the peers handed over before the first quit, in order, and stops exactly when quit fires |
| ConnManage.ListenerRoutine.constructor | p2p/connent_manage.go:42-46 | the pool starts with all 50 tokens |
| ConnManage.ListenerRoutine.TakeSlot | p2p/connent_manage.go:49 | a token is taken exactly when one is available; tokens are conserved |
| ConnManage.ListenerRoutine.Receive | p2p/connent_manage.go:50-53 | a closed channel stops the routine holding its token; a connection starts its handler; tokens are conserved |
| ConnManage.ListenerRoutine.Handle | p2p/connent_manage.go:57-63 | the handler admits its connection as an inbound peer, gets nil, hands the peer over on `addpeer` exactly when its handshake succeeds, and returns exactly one token |
| ConnManage.ListenerRoutine.BoundedHandling | p2p/connent_manage.go:41-66 | at most 50 inbound connections are being handled at once |
| P2PServer.Server.StartListening | p2p/server.go:43-58 | a bind error is returned unchanged and nothing starts; otherwise the result is nil, the loop starts and a mapping starts when the NAT spec names a mechanism |
| P2PServer.MappingExternalNetwork | p2p/server.go:60-76 | never fails, even on a spec that does not parse; starts `Map` exactly when the spec parses to a mechanism |
| P2PServer.IsTemporary | p2p/server.go:26-30 | an error is temporary only when its type has `Temporary()` and that reports true; nil and errors without the method are not |
| P2PServer.Server.ListenLoop | p2p/server.go:78-102 | temporary accept errors are retried and emit nothing; accepted connections are sent in order; the first permanent error closes the channel once and ends the loop |
| RpcHandlers.HelloWorld | jsonrpc/rpc_hander.go:28-31 | answers "hello world" with no error whatever the command |
| RpcHandlers.Echo | jsonrpc/rpc_hander.go:33-37 | answers the command's content unchanged; a command of another type panics |
| RpcHandlers.GetData | jsonrpc/rpc_hander.go:39-54 | answers "ok" with no error whatever the fields hold; a command of another type panics |
| RpcHandlers.TablesDisjoint | jsonrpc/rpc_hander.go:12-26 | the three tables share no command |
| RpcHandlers.RegisteredHandlersSucceed | jsonrpc/rpc_hander.go:12-16 | hello_world, echo and get_data answer their own commands without an error |
| HttpServer.ParseCmd | jsonrpc/http_server.go:52-76 | id and method are copied; an unregistered method gives method-not-found, another unmarshalling error gives invalid-params with its text, success gives the command and no error |
| HttpServer.InternalRPCError | jsonrpc/http_server.go:78-86 | an internal error whose message is the error text alone; the context only prefixes the log line |
| HttpServer.CreateMarshalledReply | jsonrpc/http_server.go:88-99 | a nil error is marshalled as nil, an RPC error unchanged, any other error as an internal error with its text |
| HttpServer.HandleUnimplemented | jsonrpc/http_server.go:101-105 | answers no result and the unimplemented RPC error |
| HttpServer.HandleAskWallet | jsonrpc/http_server.go:107-112 | answers no result and the no-wallet RPC error |
| HttpServer.StandardCmdResult | jsonrpc/http_server.go:251-271 | registered handlers first, then wallet commands (no-wallet error), then unimplemented ones (unimplemented error), else method-not-found |
| HttpServer.DispatchNeverHides | jsonrpc/http_server.go:251-271 | every wallet and unimplemented command gets its error, and method-not-found comes exactly for methods in no table |
| HttpServer.Answer | jsonrpc/http_server.go:219-224 | an unmarshalling error is answered with exactly the RPC error `ParseCmd` made from it (method-not-found, or invalid-params with its text) and no result; a parsed command with what dispatch returns |
| HttpServer.StatusLine | jsonrpc/http_server.go:303-317 | a status line starts with the protocol and a space and ends with CRLF |
| HttpServer.CachedLineCorrect | jsonrpc/http_server.go:288-320 | for a positive code a valid cache never changes the line from the one built from scratch |
| HttpServer.CacheAfterValid | jsonrpc/http_server.go:308-313 | filling the cache keeps every entry the line of its key |
| HttpServer.StatusLineIdempotent | jsonrpc/http_server.go:295-313 | a second call with the same protocol and code returns the same line and leaves the cache unchanged |
| HttpServer.NegativeCodeCollision | jsonrpc/http_server.go:290-299 | the ± key lets an HTTP/1.1 request with code -200 be served the cached HTTP/1.0 line for 200 |
| HttpServer.RpcServer.HttpStatusLine | jsonrpc/http_server.go:288-320 | a hit returns the cached line, a miss builds it and caches it only when the code has a status text; positive codes always get the right line |
| HttpServer.RpcServer.WriteHTTPResponseHeaders | jsonrpc/http_server.go:273-286 | writes the status line, the headers and a blank line in that order, stopping at the first failed write, and fails exactly when one does |
| HttpServer.Prefix | jsonrpc/http_server.go:236-248 | what a writer that stops accepting writes keeps of the chunks: at most the first n, in order |
| HttpServer.Respond | jsonrpc/http_server.go:155-233 | an HTTP error page exactly when reading the body or hijacking fails (400 for the read, 500 with its text for the hijack), and a handler panic only for a decoded request whose command unmarshalled |
| HttpServer.DecideReply | jsonrpc/http_server.go:155-233 | the statements of the request handler up to the marshalled reply, in their order, decide exactly the reply `Respond` describes |
| HttpServer.ParseFailureReply | jsonrpc/http_server.go:190-195 | a body that does not decode is answered with a parse error with no id, prefixed "Failed to parse request: " |
| HttpServer.NotificationGetsNoReply | jsonrpc/http_server.go:198-200 | a request with a nil id and a version field gets no reply |
| HttpServer.EchoReply | jsonrpc/http_server.go:204-229 | an echo request is answered with its content under its own id and no error |
| HttpServer.UnregisteredMethodReply | jsonrpc/http_server.go:219-221 | a method the command registry does not know is answered with method-not-found under the request's id |
| HttpServer.RpcServer.JsonRPCRead | jsonrpc/http_server.go:155-249 | an HTTP error page when reading or hijacking fails; otherwise, for a reply, the 200 status line, headers, blank line, message and a final newline, while the writer accepts writes; nothing in any other case |

## Left out

- Concurrency: goroutines, `sync.Once`, `sync.Mutex`/`RWMutex`, `sync.WaitGroup`, and blocking on channels are modelled by their sequential effect. The `Once` is a flag; a channel is the sequence sent on it; a `select` loop is the sequence of events it sees. A token that a blocked routine waits for is not taken.
- Time: `time.Now`, timers and deadlines are numbers passed in; `Map`'s timer is the `RefreshFired` event.
- Nat.Map: each `AddPortMapping` call is taken to return at once, so a refresh fires exactly one interval after the previous add; a slow call delays the `Reset` in the source and shifts later refreshes by its duration.
- Logging and printing (`log.*`, `fmt.Println`) are not modelled; `InternalRPCError` returns its log line instead of printing it.
- Sockets, HTTP hijacking, `bufio` buffering and the close-notifier goroutine of `jsonRPCRead` are not modelled. A writer either accepts a write whole or fails it, after a given number of accepted writes.
- `net.IP` formatting (`%v`) is a parameter `show`; `%q` quoting of an unknown mechanism adds quotes and no escaping.
- Nat.ToLower: lower-cases only ASCII letters, where `strings.ToLower` also folds other Unicode letters.
- Nat.Mechanism: the UPnP client (`DiscoverUPnP` and the router it returns) is not part of this model; its answers are inputs.
- RpcHandlers: `int64` fields are unbounded integers, and error codes are symbolic names; the numeric values of the btcjson codes are not modelled.
- HttpServer: the `common` package is not part of this model; its `RPCError` is taken to be btcjson's, so the no-wallet, unimplemented and parse errors pass through `createMarshalledReply` as RPC errors.
- HttpServer.ParseCmd: an unmarshalling error is described by whether it reports an unregistered method and by its text; other error types are not distinguished.
- Peer.NewPeerConn: wrapping never fails, so the `err != nil` branch of `inboundPeerConnected` (p2p/connent_manage.go:70-73) cannot run and is not modelled.
- ConnManage.Manage.AddPeer: the ban verdict is an input; `isWhitelisted` always returns false, which `InboundPeerConnected` passes in.
- P2PServer.Server.StartListening: the source calls `mappingExternalNetwork` before it stores the listener, so the first call dereferences a nil `s.listener`; the model treats the listener as already usable and does not model that failure.
- P2PServer.MappingExternalNetwork: the call to `GetExternalAddress` and the rewritten address it computes are not modelled, since the result is never used; `Map` is started with a nil channel, which in Go never delivers a close, so the mapping it starts would never be deleted.
- P2PServer.Server.ListenLoop: `Server.connections` is never created in the source (sending on or closing a nil channel blocks or panics); the model starts from an open channel.
- `Manage.Start`, `RpcServer.Start`, `p2p/manage.go`, `jsonrpc/rpc_cmds.go`, `cmd/blockchainservice/main.go`, `p2p/nat/log.go` and `p2p/base_ractor.go` are not part of this model: they wire goroutines and registries or declare names without behaviour.
