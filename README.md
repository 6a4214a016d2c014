# fabric-rpc-rs in Dafny

A model of fabric-rpc-rs, a Rust RPC layer that carries protobuf requests over
the Service Fabric transport, with proofs about the model.

What it models:

- **Bridging layer (`Sys`).** The transport message is a header vector, a body
  vector and two buffers. Each buffer records its length as a `u32`. A message
  viewer reads the buffers back through out-pointers. The module also holds
  the one-shot awaitable callback, and the operation context that a `Begin*`
  handler returns to the transport.
- **Server transport handlers (`ServerTransport`).**
  - Connect and disconnect complete before the `Begin*` call returns.
  - The echo message handler answers `hello: ` + header and `hello: ` + body.
  - A null argument is answered with `E_POINTER`.
- **Server (`Server`).**
  - Services are routed by the first registered name that is a prefix of the
    URL after its leading `/`.
  - A status is framed into the `ReplyHeader` / body pair.
  - Each service carries the state of the implementation behind it. A
    handler call may change that state.
  - The per-connection worker answers every dequeued request in order. Each
    reply is computed on the services as the earlier requests left them.
  - `parse_proto` and `encode_proto` map prost errors to statuses.
- **Client (`Client`).** `Client2::request` frames the request, calls the
  transport, reads the reply status, then decodes the body. This module also
  holds the end-to-end lemma: a client talking to a model server gets the
  routed handler's answer.
- **Code generators (`ProstBuild`, `ServerGen`, `ClientGen`).** Token output is
  abstracted to the names, trait methods, routes and client methods it
  determines. The generated router's `handle_request` is a function of the
  implementation's state, the URL and the body. It returns the new state and
  the answer.
- **Generator agreement (`Agreement`).**
  - Client URLs equal server routes.
  - Suppose no earlier-registered router's name is a prefix of the call's
    URL. Then a generated client call returns what the implementation
    returned. There are two exceptions: a response that fails to encode gives
    Internal, and an error carrying code Ok is decoded as success.
  - Route shadowing between routers whose names are prefixes, in general and
    for one concrete pair.
- **helloworld test crate (`HelloWorld`).** The greeter, and the to-do service
  over a map from id to item, with its RPC wrappers.

Modelling choices:

- Protobuf encoders and decoders (generated by prost) are function values of
  type `ProtoCodec<T>`. Properties that need a faithful codec assume
  `RoundTrips` or `EncodesAll` as a hypothesis.
- The client's transport is a function parameter. So are the server-side
  method implementations, as functions from a state and a request to a new
  state and an answer.
- `EndProcessConnect`, `EndProcessDisconnect`, `EndProcessRequest` and
  `get_msg` assert that the context is completed. The `unwrap()` after
  `get_msg()` in `EndProcessRequest` (`src/server_tr.rs:151`) asserts that a
  message is stored (the `msg.Some?` precondition). In the model those
  assertions are preconditions.
- Strings are sequences of characters, where the source compares UTF-8 bytes.
  UTF-8 is a prefix code, so a prefix test on characters agrees with the same
  test on the encoded bytes.

Behaviours of the source that the proofs make explicit:

- **Route shadowing** (`Agreement.ShadowedRouter`). Routing tests only whether
  a service name is a prefix. Suppose router A's name is a proper prefix of
  service B's name, and the next character of B's name is not '/'. Suppose
  also that A is the first router to claim the URL. Then every method URL of
  B reaches A, which answers Unimplemented "url not found". For example, say
  `demo.Greeter` is registered before `demo.GreeterAdmin`. The request
  `/demo.GreeterAdmin/Reset` then never reaches its router
  (`Agreement.GreeterShadowsGreeterAdmin`).
- **Error carrying code Ok.** A handler can return an error status whose code
  is Ok. That status is framed as status 0, so the client treats it as success
  and decodes an empty body (`Client.Outcome`).
- **Transport signature.** `src/client.rs:63` calls the client transport's
  `request` with a timeout. The `request` in `src/client_tr.rs:110-119` takes
  only the message and uses a fixed timeout. The model follows `client.rs`: the
  transport is a function of a timeout and a message.
- **Server generator not wired in.** `fabric-rpc-build/src/lib.rs` declares only
  the `client` and `code_gen` modules, and `code_gen.rs` emits only client code.
  The server generator in `fabric-rpc-build/src/server.rs` is modelled as
  written, as the counterpart the helloworld crate assumes.
- **Trait method receivers.** The generated trait methods take no `&self`.
  Their branches call `T::method(req)`, while the helloworld implementations
  take `&self`. The model keeps a per-method implementation table. Each call
  receives the implementation's state and returns the new one. That covers
  both a receiver's state and state the implementation reaches on its own.

## Model

| member | source | states |
|---|---|---|
| Primitives.TruncateU32 | src/sys.rs:144-148 | `len as u32` keeps a length, which never grows, and is exact below 2^32 |
| Primitives.HexDigits | src/client.rs:66-70 | width hex digits whose value is n modulo 16^width |
| Primitives.HResultText | src/client.rs:66-70 | an HRESULT prints as "0x" followed by eight hex digits whose value is its 32-bit two's-complement pattern |
| Primitives.EPointerText | src/client.rs:66-70 | E_POINTER prints as "0x80004003" |
| Tonic.ToI32 | src/server.rs:151-155 | a code's wire number lies in 0..16 and is 0 exactly for Ok |
| Tonic.FromI32 | src/client.rs:86-90 | numbers 0..16 map back to the code with that number, other numbers to Unknown, and only 0 to Ok |
| Tonic.CodeRoundTrip | src/client.rs:86-90 | a status code framed by the server is read back unchanged by the client |
| Sys.MessageBuffer.Slice | src/sys.rs:202-214 | reading a buffer yields exactly `size` bytes, a prefix of the addressed data |
| Sys.CreateMessage | src/sys.rs:135-153 | a created message keeps both vectors, its buffers point at them and are readable, and they record the true length when it fits a u32 |
| Sys.GetHeaderAndBodyBuffer | src/sys.rs:158-174 | any null out-pointer leaves all three outputs untouched; otherwise they receive the header buffer, count 1 and the body buffer |
| Sys.ReadBuffers | src/sys.rs:200-215 | a null header pointer gives an empty header; a zero count or null body pointer gives an empty body; otherwise each is its buffer's slice |
| Sys.NewViewer | src/sys.rs:187-222 | the viewer keeps the message and exposes the header and body slices of its buffers |
| Sys.ViewOfCreated | src/sys.rs:135-222 | viewing a created message yields its vectors cut to their lengths modulo 2^32 |
| Sys.CreateViewRoundTrip | src/sys.rs:279-290 | create then view returns both vectors unchanged when their lengths fit a u32 |
| Sys.AwaitableCallback.constructor | src/sys.rs:27-29 | a new callback holds the sender of its receiver, and nothing has been sent yet |
| Sys.AwaitableCallback.Create | src/sys.rs:24-34 | create returns a fresh callback and its own receiver, with the sender held and nothing sent |
| Sys.AwaitableCallback.Invoke | src/sys.rs:38-43 | the first invoke sends exactly one signal; later invokes send nothing; afterwards the sender is gone |
| Sys.Context.State | src/sys.rs:48-52 | the observable state is the completion flag and the stored message |
| Sys.Context.constructor | src/sys.rs:55-61 | a new context is not completed, holds no message and keeps its callback |
| Sys.Context.Complete | src/sys.rs:70-73 | completing is allowed once, sets the flag and leaves the message alone |
| Sys.Context.SetMsg | src/sys.rs:92-96 | a message can be set once, only before completion, and leaves the flag alone |
| Sys.Context.GetMsg | src/sys.rs:99-102 | after completion, get_msg returns the stored message and changes nothing |
| Sys.Context.IsCompleted | src/sys.rs:107-109 | IsCompleted is true exactly when the context is completed |
| Sys.Context.CompletedSynchronously | src/sys.rs:112-114 | CompletedSynchronously is always false |
| Sys.Context.Callback | src/sys.rs:116-118 | Callback returns the callback the context was created with |
| Sys.Context.Cancel | src/sys.rs:120-123 | Cancel always succeeds |
| Sys.Context.Clone | src/sys.rs:46-52 | a clone is a new context with the same state and callback |
| ServerTransport.ProviderCallback.Invoke | src/server_tr.rs:43 | each invoke of the transport's callback adds the state of the context it receives to the record |
| ServerTransport.BeginCompleted | src/server_tr.rs:40-47 | a null callback is E_POINTER; otherwise the result is a fresh completed context without a message, and the callback was invoked once with that state |
| ServerTransport.EndCompleted | src/server_tr.rs:54-60 | a null context is E_POINTER, a present one Ok |
| ServerTransport.BeginProcessConnect | src/server_tr.rs:34-48 | a null callback is E_POINTER; otherwise the result is a fresh completed context without a message that keeps the given callback, and the callback was invoked once with it |
| ServerTransport.EndProcessConnect | src/server_tr.rs:50-61 | the result is E_POINTER exactly for a null context and Ok exactly for a present one |
| ServerTransport.BeginProcessDisconnect | src/server_tr.rs:63-77 | the same contract as connect, including the callback kept |
| ServerTransport.EndProcessDisconnect | src/server_tr.rs:79-90 | the same contract as connect |
| ServerTransport.EchoReply | src/server_tr.rs:121-132 | the echo reply's header and body are "hello: " followed by the request's viewed header and body |
| ServerTransport.BeginProcessRequest | src/server_tr.rs:105-139 | a null message or callback is E_POINTER and changes nothing; otherwise the result is a fresh completed context holding the echo reply, and the callback was invoked once with exactly that state |
| ServerTransport.EndProcessRequest | src/server_tr.rs:141-153 | a null context is E_POINTER; otherwise the result is the message the context stores |
| ServerTransport.HandleOneWay | src/server_tr.rs:155-161 | one-way messages are always acknowledged with Ok |
| ServerTransport.ProcessRequest | src/server_tr.rs:105-153 | begin then end yields exactly the echo reply that begin stored, and the callback sees it once |
| ServerTransport.EchoViewed | src/tests.rs:105-116 | for messages that fit, the viewed echo is "hello: " + header and "hello: " + body |
| Server.Server.constructor | src/server.rs:20-22 | a default server has no services |
| Server.Server.AddService | src/server.rs:33-35 | add_service appends the service after those already registered and keeps them |
| Server.FindFrom | src/server.rs:66-73 | the search returns the first index whose service name is a prefix of the path, and None only when there is none |
| Server.FindService | src/server.rs:66-74 | the result is the first match in registration order, and None exactly when no name is a prefix |
| Server.Dispatch | src/server.rs:71 | one `handle_request` call gives the handler's answer and replaces only the service's state |
| Server.Route | src/server.rs:59-74 | a URL that is empty or lacks the leading '/' is InvalidArgument "url not valid"; no prefix match is Unimplemented "url not found"; in both cases no state changes; otherwise the first match's handler answers with the full URL and body, and only that service's state changes; names and handlers never change |
| Server.Execute | src/server.rs:47-75 | an undecodable header is InvalidArgument "header invalid, failed to parse" followed by the decode error, and no state changes; otherwise the request is routed by the header's URL |
| Server.UndecodableHeaderIsInvalidArgument | src/server.rs:52-57 | whatever the services, an undecodable header yields InvalidArgument with the fixed message prefix and leaves every state as it was |
| Server.Frame | src/server.rs:147-159 | an error gives status (code number, message) and an empty body; success gives status (0, "Ok") and the content |
| Server.ServeStep | src/server.rs:137-164 | one round of the worker gives a readable reply message, and the services keep their names and handlers |
| Server.ServedAfter | src/server.rs:129-165 | after any sequence of requests, the services keep their names and handlers |
| Server.ServedAfterAppend | src/server.rs:129-165 | serving two batches of requests one after the other leaves the services as serving them as one batch |
| Server.ReplyTo | src/server.rs:145-164 | the reply to request i, computed on the services as requests 0..i-1 left them, is a readable message |
| Server.Respond | src/server.rs:137-164 | the worker's loop body computes exactly the services and the reply of one round |
| Server.ServeConnection | src/server.rs:129-165 | the worker completes each dequeued request, in order, with exactly one reply; reply i is computed on the services as requests 0..i-1 left them, and the services end as all requests leave them |
| Server.ParseProto | src/server.rs:175-183 | parse succeeds exactly when decoding does and yields its value; a failure is InvalidArgument "failed to parse proto: " followed by the error |
| Server.EncodeProto | src/server.rs:185-194 | encode succeeds exactly when encoding does and yields its bytes; a failure is Internal "failed to encode proto: " followed by the error |
| Server.ParseEncoded | src/server.rs:175-194 | with a round-tripping codec, parse_proto reads back what encode_proto wrote |
| Server.AddServiceKeepsRoutes | src/server.rs:33-35 | registering a service never redirects an already routed URL; an unrouted URL goes to the new service exactly when its name is a prefix |
| Server.FirstMatchUnique | src/server.rs:66-73 | the first match is unique and is what the search finds |
| Client.TransportFailure | src/client.rs:64-71 | a transport failure's message is "client transport failed code: ", then the HRESULT text, then " message:" and the error text |
| Client.Outgoing | src/client.rs:54-62 | the request message carries the encoded `RequestHeader{url}` as its header and the encoded request as its body |
| Client.Interpret | src/client.rs:63-99 | a transport error is Internal; an undecodable reply header is Internal; a non-zero status is returned as that code and message; otherwise the body is decoded, and a failure there is Internal |
| Client.Request | src/client.rs:48-100 | a transport failure is always an Internal status |
| Client.StatusTakesPrecedence | src/client.rs:86-92 | a non-Ok reply status is returned unchanged, whatever the body and the response type |
| Client.RequestThroughServer | src/client.rs:48-100 | over a transport delivering to the server, the client gets the routed handler's result: a non-Ok error unchanged, and success decoded from the handler's bytes |
| ProstBuild.Unary | fabric-rpc-build/src/server.rs:63-67 | the selected methods are no more than the declared ones |
| ProstBuild.UnaryStep | fabric-rpc-build/src/client.rs:37-43 | each loop step appends the next method unless it streams |
| ProstBuild.UnaryMembers | fabric-rpc-build/src/client.rs:37-43 | the methods selected are exactly the declared methods that stream in neither direction |
| ProstBuild.UnaryAppend | fabric-rpc-build/src/server.rs:81-96 | selection keeps declaration order: it distributes over concatenation |
| ProstBuild.StreamingOf | fabric-rpc-build/src/server.rs:64-67 | the skipped methods are declared methods that stream |
| ProstBuild.UnaryCount | fabric-rpc-build/src/server.rs:63-67 | every declared method is either generated or skipped as streaming, never both |
| ServerGen.GenerateServiceTraitMethods | fabric-rpc-build/src/server.rs:61-77 | one trait method per unary method, in declaration order, with the method's name and message types |
| ServerGen.GenerateRoutingBranches | fabric-rpc-build/src/server.rs:79-98 | one routing arm per unary method, in declaration order, matching `ServerGen.RouteUrl`, "/package.Service/Method" (line 87), and calling that method; `ServerGen.RouterName` is "package.Service" (line 11) |
| ServerGen.GenerateInternal | fabric-rpc-build/src/server.rs:6-59 | the trait is named Service+"Service", the router Service+"ServiceRouter", the router's name is "package.Service", with the trait methods and routes above |
| ServerGen.Branch | fabric-rpc-build/src/server.rs:89-93 | a routing arm returns the parse error with the state unchanged; otherwise it takes the call's new state and returns the method's error or the encoded response |
| ServerGen.MatchFrom | fabric-rpc-build/src/server.rs:50-53 | the match finds an arm whose URL equals the request URL with no earlier such arm, and None only when no arm has it |
| ServerGen.HandleRequest | fabric-rpc-build/src/server.rs:45-54 | a URL that no arm names is Unimplemented "url not found" with the state unchanged; otherwise the first arm with that URL runs its branch on the state |
| ServerGen.Router | fabric-rpc-build/src/server.rs:28-42 | the registered router answers to the name "package.Service" and holds the implementation's state |
| ServerGen.RouteUrlInjective | fabric-rpc-build/src/server.rs:87 | within one service, a route URL determines the method name |
| ServerGen.RouterDispatchesMethod | fabric-rpc-build/src/server.rs:86-93 | in every state, the router answers each unary method's URL with that method's branch |
| ServerGen.RouterRejectsUnknown | fabric-rpc-build/src/server.rs:50-53 | in every state, a URL that belongs to no unary method is answered Unimplemented "url not found" and the state stays |
| ClientGen.GenerateUnary | fabric-rpc-build/src/client.rs:47-61 | the emitted method carries the method's name and message types and sends `ClientGen.MethodUrl`, "/package.Service/Method" (line 51) |
| ClientGen.GenerateMethods | fabric-rpc-build/src/client.rs:34-45 | one client method per unary method, in declaration order |
| ClientGen.GenerateInternal | fabric-rpc-build/src/client.rs:7-32 | the client type is named Service+"Client" and carries the generated methods |
| ClientGen.Call | fabric-rpc-build/src/client.rs:53-59 | a generated method is `Client2::request` with the URL fixed at generation; a transport failure is Internal with the transport failure text |
| Agreement.SameUrl | fabric-rpc-build/src/client.rs:51 | the client and server generators derive the same URL for a method |
| Agreement.GeneratedSidesAlign | fabric-rpc-build/src/server.rs:61-98 | the generated client methods, trait methods and router arms correspond one to one, in order, by name, message types and URL |
| Agreement.RoutesUnderRouterName | fabric-rpc-build/src/server.rs:11 | every routed URL is valid and, after its '/', starts with the router's name, so the server can route it to this router |
| Agreement.RouteUnderRouterName | fabric-rpc-build/src/server.rs:87 | one method's route is valid and starts with the router's name |
| Agreement.ServerReachesMethod | src/server.rs:64-73 | if no earlier service claims the URL, the server runs the router's branch for the method on the router's state, and only that router's state changes |
| Agreement.GeneratedCallReturnsImplResult | fabric-rpc-build/src/client.rs:53-59 | when no earlier-registered router's name is a prefix of the call's URL, a generated client call through the server returns exactly what the method implementation returned in the router's current state, except a response that fails to encode (Internal) or an error coded Ok |
| Agreement.SlashAfterRouterName | fabric-rpc-build/src/server.rs:87 | a route URL is '/', the router's name, then '/' |
| Agreement.ShadowedRouter | src/server.rs:64-70 | when router A's name is a proper prefix of service B's name not followed by '/', and no earlier router claims the URL, every method URL of B reaches A and is answered Unimplemented "url not found" with no state changed |
| Agreement.GreeterShadowsGreeterAdmin | src/server.rs:64-70 | with demo.Greeter registered first, demo.GreeterAdmin's Reset URL is answered Unimplemented, although alone its router runs Reset's branch |
| HelloWorld.SayHello | tests/helloworld/src/lib.rs:13-24 | say_hello always succeeds with "Hello: " followed by the name |
| HelloWorld.SayHelloInjective | tests/helloworld/src/lib.rs:17-22 | different names get different greetings |
| HelloWorld.ProtoConversionsInverse | tests/helloworld/src/lib.rs:40-54 | into_proto and from_proto are mutually inverse and keep the id |
| HelloWorld.TodoSvcImpl.constructor | tests/helloworld/src/lib.rs:57-60 | a new to-do service is empty |
| HelloWorld.TodoSvcImpl.Find | tests/helloworld/src/lib.rs:63-66 | find returns each stored item exactly once and nothing else, with no id repeated |
| HelloWorld.TodoSvcImpl.AddOne | tests/helloworld/src/lib.rs:69-76 | add_one is true exactly for a new id and then stores the item under its id; otherwise it changes nothing |
| HelloWorld.TodoSvcImpl.DeleteOne | tests/helloworld/src/lib.rs:78-85 | delete_one returns the stored item or None for an absent id; the id is absent afterwards and nothing else changes |
| HelloWorld.TodoSvcImpl.FindRpc | tests/helloworld/src/lib.rs:90-97 | the find RPC returns one wire item per entry, exactly the entries' wire forms |
| HelloWorld.TodoSvcImpl.AddOneRpc | tests/helloworld/src/lib.rs:99-115 | a missing payload is InvalidArgument "empty payload"; a known id is AlreadyExists "entry already exist" and changes nothing; otherwise the item is stored and echoed |
| HelloWorld.TodoSvcImpl.DeleteOneRpc | tests/helloworld/src/lib.rs:117-128 | deleting a stored id returns it in wire form and removes it; an absent id is NotFound "id not found" |
| HelloWorld.TodoSession | tests/helloworld/src/lib.rs:193-259 | along the to-do test's session, the adds echo ids 1 and 2, find sees 2 items, the delete returns id 1, and find then sees 1 |

## Left out

- Connection setup, the listener, `serve_with_shutdown` and the shutdown signal are left out. They are I/O on the native transport.
- The connection and request API that the worker calls is not part of this model. That is `async_accept` on the listener and the connection, `get_request_msg` and `complete` (`src/server.rs:117,130,139,164`). The source defining it is not among the files modelled. `Server.ServeConnection` takes the sequence of dequeued requests as input and returns the replies in completion order.
- `Server.ServeConnection` models one connection's worker alone. Workers of different connections share the services and run concurrently, so another connection's requests could change a state between two requests of this one. The model does not capture that interleaving.
- Async execution, tokio tasks and the service's `Mutex` are left out: this is concurrency. Every operation is modelled as one atomic step.
- COM reference counting, `into()` casts, `from_interface` and `Dispose` are left out as foreign plumbing. A context's clone is a separate object with the same state.
- Prost's encoders, decoders and their error texts are parameters, not modelled. `RoundTrips` and `EncodesAll` are hypotheses, not proved facts.
- The client transport `src/client_tr.rs` is a function parameter of the client. Its begin/end protocol is not modelled.
- `Sys.AwaitableCallback.Invoke` does not model the panic (`unwrap`) when the receiver was already dropped. That is a channel failure outside the model.
- `ServerTransport.ProviderCallback.Invoke` records its invocations. What the native transport does on completion is not part of this model.
- `StringViewer` is left out. It is an HSTRING accessor used only by the transport's listen address.
- `Client.Request` does not model the `unwrap` panics on header or body encoding failure. It requires both encodings to succeed.
- `Client.Request` does not model a reply message whose buffers are not readable. It requires the transport to return readable replies.
- `ServerTransport.BeginProcessRequest` (`message.Readable()`), `Server.ServeConnection` (`AllReadable(requests)`), `Sys.NewViewer` and `Sys.ReadBuffers` (readable buffers) do not model a buffer whose `BufferSize` bytes are not addressable at `Buffer`. The native transport guarantees that, and in the source a violation is undefined behaviour, so the model requires it.
- The generated module names use convert_case's snake-case conversion, which is not modelled. Nor is the text of the generated tokens; the model keeps the names, methods and routes they determine.
- `ServerGen.Branch` models the routing arm's behaviour. It does not model the receiver-less `T::method` call style.
- `HelloWorld.TodoSvcImpl.Find` states no order for the items. The source collects a `HashMap`'s values, whose order is unspecified.
- The benchmarks under `src/benches` and the `add` placeholder in `fabric-rpc-build/src/lib.rs` are left out. They are not part of the RPC behaviour.
