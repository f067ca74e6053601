# A verified model of the GoTunnel gateway

GoTunnel publishes local HTTP services under subdomains of a public host. A
client keeps one WebSocket to the gateway and registers tunnels over it; the
gateway routes each public request by its Host header to a connection, opens a
stream on it, and waits for the client's answer. Connection handlers, proxy
handlers, read loops and client handlers all run concurrently over a few maps
and one-slot channels.

This project models that core in Dafny 4.11 and proves what it keeps in every
interleaving. `dafny verify dfyconfig.toml` checks all of it.

How the model is built:

- **Protocols are step machines.** A step is one lock-protected call or one
  channel operation of the Go code. A run is any sequence of labels, and a label
  that is not enabled changes nothing, so "for every sequence of labels" means
  "for every interleaving". Objects that the Go code shares by reference are
  positions in sequences, so that a stale reference keeps its meaning.
- **What a party cannot decide is a step of the environment**: the end of a
  caller's request body, the return of a socket write while `sendMu` is held, a
  socket that loses frames, a foreign client that sends any frame, an admin
  delete, an expiry. A client handler may answer with any body, and times are
  arguments in nanoseconds.
- **Objects that are updated in place are classes** (`MemoryRegistry`, `Broker`,
  `ClientConn`, `Stream`, `Server`, `TokenBucket`, `RateLimiter`, `Reader`).
  Their methods are proved against functions on values, and the theorems are
  about those functions.

| file | what it holds |
|---|---|
| `Registry.dfy`, `RegistryHistory.dfy`, `TunnelIds.dfy` | the tunnel registry as an index, what it stores told from its history, and the IDs it relies on |
| `Gateway.dfy` | connection handlers over registry, broker maps and gauge, call by call |
| `GatewayLock.dfy` | handlers alone: the registry entry as a lock on the subdomain |
| `GatewayCalls.dfy`, `GatewayWindows.dfy`, `GatewayAdmin.dfy`, `GatewayPieces.dfy` | the same with admin deletes and expiry: at any point, outside the handlers' windows, inside them, and with handlers that work in one piece |
| `GatewayHistory.dfy`, `GatewayFlow.dfy` | where the gateway's tunnels come from, over every run, and how a handler gets from its handshake to its end |
| `Handshake.dfy`, `HandshakeRuns.dfy` | `handleConnect` and `cleanupConnection` as methods, and as runs of those handlers |
| `Broker.dfy` | the broker object |
| `Streams.dfy` | stream multiplexing: proxy handlers, read loops, clients and their handlers |
| `StreamIds.dfy`, `StreamLifecycle.dfy`, `StreamProgress.dfy`, `StreamReplies.dfy`, `StreamDuty.dfy`, `StreamOutcomes.dfy`, `StreamAnswers.dfy` | what holds of runs of any length, whatever clients send: IDs and tables, Done channels, blocked read loops, buffered replies, the client's pending map, what callers are told, and what is put on the sockets |
| `StreamCorrelation.dfy`, `StreamCrossing.dfy`, `StreamCounts.dfy`, `StreamRecent.dfy`, `StreamDelivery.dfy` | what holds of runs of any length with this repository's clients: replies travel under the sender's ID, when they cross, nothing is anywhere twice, what follows while fewer than 2^32 streams are opened during one request, and request data finding its handler |
| `StreamWitnesses.dfy` | runs that show where these guarantees end |
| `RateLimit.dfy`, `RateEviction.dfy`, `RateBound.dfy`, `RateExact.dfy` | the rate limiter, its evictions, its bound, and when exactly it denies |
| `Reconnect.dfy`, `Frames.dfy` | the reconnect loop, the framing |
| `Strings.dfy`, `HostNames.dfy`, `Routing.dfy`, `HostToPort.dfy` | letter case and white space, Host header to subdomain, tunnel ID to port, and these over runs of the gateway |
| `Text.dfy`, `Results.dfy` | decimal text, `Option` and `Result` |

Properties one might expect that do not hold, with the exact condition under
which they do:

- A registered ID may be reused, which leaves an index entry that nothing can
  remove: exactly then the index is not exact (`Registry.RunIsExactIffFresh`).
- An admin delete or an expiry can misroute or unroute a subdomain: exactly when
  it removes a tunnel between a handler's `Register` and `MapSubdomain`, or
  between its `GetByID` and `UnmapSubdomain` (`GatewayAdmin.RemovalIsSafeIff`).
- A failed handshake can take left-over routes with it: exactly when it had
  enrolled their subdomains (`HandshakeRuns.FailedHandshakeRestoresIff`).
- A stream can leave its table without ever being done: exactly when a later
  open overwrites it there (`StreamLifecycle.StreamsAreAccountedFor`), which
  takes opens a multiple of 2^32 apart.
- A blocked read loop can depend on a caller or on the network
  (`StreamProgress.OwnStepIff`, `StreamProgress.StalledReadLoop`), and can be
  stuck for good: exactly when its stream was overwritten and the stream's
  handler is closing or finished (`StreamProgress.StuckForGoodIff`).
- A reply that is already buffered may be passed over: exactly after the
  handler's timer fired or its Done was closed (`StreamReplies.StepKeepsReplyIff`).
- Request data may find no handler: exactly when its handler has not registered
  since the client's last reset, or has ended (`StreamDelivery.RequestDroppedIff`).
- A reply can reach a handler whose request it does not answer: exactly when a
  read loop reads it while its table holds a stream a multiple of 2^32 opens away
  from the sender's (`StreamCrossing.RepliesMatchIff`); so not while fewer than
  2^32 streams are opened during the life of any one request
  (`StreamRecent.RepliesAnswerTheirRequest`).
- A client handler can lose its place in the pending map: exactly when another
  one of its client with the same wire ID registers or ends meanwhile
  (`StreamDuty.PendingIsDutyIff`).
- Evicting a visitor can be observed: exactly when requests may take longer than
  nine minutes and a nanosecond between their two calls
  (`RateEviction.EvictionUnobservableIff`).
- The limiter can allow more than its limit: exactly when requests may take
  longer than that (`RateBound.WindowBoundIff`).
- A request can reach the wrong port of the right client: exactly when an
  earlier tunnel's subdomain shadows the one asked for
  (`HostToPort.RequestReachesOwnPortIff`).
- The registry accepts subdomains that no Host header reaches
  (`HostNames.OnlyServableExtracted`).
- Expiry and backoff are exact only up to the durations that fit in int64
  (`Registry.ExpiryMeansAgeIff`, `Reconnect.WaitExactIff`).

Where code and comments disagree the model follows the code: `getStream` is
described as thread-safe but reads the map without its lock; the rate limiter is
described as allowing a number of requests per minute but allows twice that
number within one (`RateBound.MinuteBoundIsReached`).

## Model

| member | source | states |
|---|---|---|
| StreamCrossing.RepliesMatchIff | internal/proxy/proxy.go:91-182 | In every run of any length of any number of proxies, read loops and reconnecting clients of this repository: no reply is ever with a handler whose request it does not answer, or on its way there, if and only if no read loop ever reads a reply while its table holds a stream a multiple of 2^32 opens away from the sender's |
| StreamCrossing.ReadCrossesIff | internal/server/server.go:289-302 | A read pairs a reply with another handler's stream if and only if the table holds such a stream |
| StreamCrossing.StepMatchesIff | internal/server/server.go:272-302 | Where all replies are with their own handlers, or on their way there, only such a read changes that |
| StreamCrossing.RepliesAnswerSameId | internal/proxy/proxy.go:168-181 | In runs of any length a reply that a handler returns answers a request really made, by itself or by a handler whose stream is a multiple of 2^32 opens away; by itself if there is none |
| StreamCrossing.UncrossedRepliesAnswer | internal/proxy/proxy.go:168-181 | In a run without such reads every returned reply was computed from the returning handler's own request |
| StreamCrossing.CrossedReplyMayBeReturned | internal/proxy/proxy.go:168-170 | After any such read there is a continuation in which the wrong handler returns the reply, unless it has its outcome or another reply already |
| StreamRecent.RepliesAnswerTheirRequest | internal/proxy/proxy.go:91-182 | In every run in which fewer than 2^32 streams are opened while a handler is at work or its request, its data or its reply is anywhere, a returned reply was computed from the handler's own request, however late or over whichever socket it came |
| StreamRecent.EarlyRepliesAnswerTheirRequest | internal/broker/broker.go:129-142 | In particular in every run with at most 2^32 opens |
| StreamCorrelation.StepKeepsInv | internal/server/server.go:272-302 | In runs of any length every step of every party but a foreign client keeps each request, its data and its reply under the ID of its sender's stream, on both queues, in the client's pending map and handlers, and in the Response channels |
| StreamCorrelation.LookupFindsSameId | internal/server/server.go:289-310 | The stream the read loop finds under a reply's wire ID has the ID of the stream whose handler's envelope was answered |
| StreamWitnesses.RequestMayBeAnswered | internal/proxy/proxy.go:168-170 | For every request and reply body there is a run at whose end the caller has that reply to that request |
| StreamWitnesses.RepliesMayCrossAfterWrapAround | internal/broker/broker.go:129-142 | With 2^32 + 1 opens a proxy handler can return the reply to another request, so the 2^32 of the theorems is tight |
| StreamCounts.SentAtMostOnce | internal/client/client.go:266-355 | In every run of this repository's clients, of any length, a handler's open frame and the client handler spawned for it exist at most once, and so does its request's data on its way from the request frame to the Response channel |
| StreamCounts.StepCounts | internal/server/server.go:289-302 | No step but the return of a write makes such a frame or piece of data, and that makes one; all others move it or drop it |
| StreamRecent.OwnClientsNeverBlock | internal/server/server.go:298-301 | In runs of any length with this repository's clients a read loop does not wait on a full Response channel, unless the request, data or reply of a handler whose stream is a multiple of 2^32 opens away is somewhere |
| StreamRecent.EarlyReadLoopsNeverBlock | internal/server/server.go:298-301 | So never with at most 2^32 opens |
| StreamDuty.PendingIsDutyIff | internal/client/client.go:269-278 | In every run, whatever clients send, the pending maps hold exactly the handlers that have registered since the last reset and not ended, throughout, if and only if no handler ever registers or ends while another one of its client with its wire ID is among them |
| StreamDuty.StepKeepsDutyIff | internal/client/client.go:269-278 | A single step keeps that exactly when it is no such registration or end |
| StreamDelivery.RequestReachesHandlerIff | internal/client/client.go:358-367 | In runs of any length with fewer than 2^32 opens during any handler's life: when the client reads a request frame, a handler for its wire ID that has not ended was spawned for the open frame of the same proxy handler, and the data goes to a handler if and only if it registered since the last reset and has not ended |
| StreamDelivery.RequestDroppedIff | internal/client/client.go:358-365 | In such runs request data is dropped for want of a handler exactly when no handler for its wire ID is on duty |
| StreamDelivery.HandedDataIsTaken | internal/client/client.go:366-370 | In runs of any length, data that found its handler finds the handler's channel empty, unless another request with its ID is somewhere |
| StreamDelivery.FewOpensReachable | internal/broker/broker.go:129-142 | Runs with at most 2^32 opens are among those |
| StreamWitnesses.HandlersMayClash | internal/client/client.go:269-278 | With 2^32 + 1 opens there is a run in which a handler at work loses its place in the pending map to another one |
| StreamWitnesses.RequestMayBeDropped | internal/client/client.go:225-240 | There is a run in which the client has read both frames, its handler waits with an empty channel, and the caller gets 504 |
| StreamOutcomes.OutcomeOfRun | internal/proxy/proxy.go:95-182 | After any steps the caller has been told what the first deciding event told it: the reply if the `select` took it, 504 if the timer fired, 502 if the body could not be read, a frame could not be written or the `select` took Done; and the handler is closing or finished exactly if there was such an event |
| StreamOutcomes.OutcomeIff | internal/proxy/proxy.go:112-181 | The same for one step of anyone, each outcome exactly by its own kind of event |
| StreamOutcomes.EveryCallerIsTold | internal/proxy/proxy.go:91-182 | In every reachable state exactly the handlers that are closing or finished have told their caller something |
| StreamOutcomes.ArrivesIff | internal/proxy/proxy.go:83-92 | A handler comes into being exactly when a request arrives, with that request, on that connection |
| StreamOutcomes.ComesToIff | internal/proxy/proxy.go:91-182 | A handler comes from one stage to the next exactly by the event that ends the stage, and to its close by a deciding one |
| StreamAnswers.WritesIff | internal/broker/broker.go:162-166 | A frame reaches a socket exactly when the handler that holds its lock has written it: the open frame with its stream's ID, then the request under the same ID |
| StreamAnswers.SendsIff | internal/client/client.go:266-355 | A frame comes back exactly when a client handler answers the envelope it took, or closes its stream, on its client's current socket, or a foreign client sends it |
| StreamAnswers.ReaderComesToIff | internal/server/server.go:226-310 | A read loop starts a delivery exactly by reading a reply whose stream is in the table, is done with it when the channel takes the reply or Done is closed, and can end whenever it is idle |
| StreamAnswers.ReadTakesOne | internal/server/server.go:226-258 | Whatever a frame is, an idle read loop that reads takes it off the socket, and nothing else it does takes any |
| StreamAnswers.ClientComesToIff | internal/client/client.go:202-262 | A client's read loop comes to each point by exactly these steps, and its pending streams are reset and its socket replaced whenever it is idle and by nothing else |
| StreamAnswers.HandlerComesToIff | internal/client/client.go:266-355 | A client handler comes to each stage by exactly these steps; an answer that could not be sent is still followed by the close |
| StreamReplies.BufferedReplyIsKept | internal/proxy/proxy.go:168-181 | From every reachable state with a buffered reply, every continuation in which the handler's timer does not fire and its Done is not closed while it waits leaves the reply there or the handler with that reply |
| StreamReplies.StepKeepsReplyIff | internal/proxy/proxy.go:169-181 | One step, of whomever, keeps a buffered reply exactly when it neither fires the handler's timer nor closes its Done |
| StreamReplies.DisturbedReplyMayBePassedOver | internal/proxy/proxy.go:171-180 | After a timer the caller has 504, and after a close the handler's next step may give it 502 although the reply is buffered |
| StreamReplies.OnlyReadLoopCloses | internal/server/server.go:313-340 | Only the read loop of the handler's own connection closes its Done while it waits, by a close frame for its ID or by ending; or else the deferred close of a handler there whose stream is a multiple of 2^32 opens away |
| StreamWitnesses.BufferedReplyMayBePassedOver | internal/proxy/proxy.go:169-175 | There is a run in which the caller gets 502 while the reply to its request is in its Response channel |
| StreamIds.StreamIdsCollideIff | internal/broker/broker.go:130 | Two opens get the same ID exactly when they are a multiple of 2^32 opens apart |
| StreamIds.IdTakenIff | internal/broker/broker.go:129-142 | In a run of any length, `OpenStream` finds its ID taken exactly when the connection's table holds a stream a multiple of 2^32 opens away |
| StreamIds.OpenOverwritesNothing | internal/broker/broker.go:138-140 | In a run of any length, `OpenStream` overwrites nothing while fewer than 2^32 opens separate it from each stream in the table |
| StreamIds.StepKeepsBase | internal/broker/broker.go:64-159 | Every step, whatever clients send and however many streams were opened, keeps tables, Done channels, handlers and read loops consistent |
| Text.ParseOfDecimal | internal/server/server.go:279-285 | The decimal wire form is read back as the number exactly when the number fits in 32 bits |
| Text.DecimalInjective | internal/proxy/proxy.go:98 | Distinct stream IDs have distinct wire forms, so they are distinct keys in the client's map |
| StreamLifecycle.StreamsAreAccountedFor | internal/broker/broker.go:129-159 | In every run of any length, whatever clients send: no Done channel is closed twice and a finished handler's stream is in no table; a stream put in its table is still there or done, and a finished handler's is done, if and only if no later open overwrote it |
| StreamLifecycle.StepLoses | internal/broker/broker.go:138-140 | A step makes a stream neither present nor done exactly when it overwrites it in the table, and such a stream stays so |
| StreamLifecycle.NearOpensOverwriteNothing | internal/broker/broker.go:129-142 | A run of any length overwrites no stream while fewer than 2^32 opens happen during any stream's life |
| StreamLifecycle.FewOpensStayNear | internal/broker/broker.go:129-142 | In particular a gateway that has opened at most 2^32 streams overwrites none |
| StreamLifecycle.DoneClosesIff | internal/broker/broker.go:145-159 | An open stream's Done is closed by exactly these steps: a deferred close or a close frame for its ID on its connection while it is in the table, or the removal of the connection |
| StreamLifecycle.ResponseStaysUntilTaken | internal/proxy/proxy.go:168-170 | A buffered reply stays as it is until the handler of its own stream takes it |
| StreamLifecycle.RemovalClosesForGood | internal/broker/broker.go:79-87 | Every stream in the table when its connection is removed is done then and after any further steps |
| StreamWitnesses.StreamMayBeLost | internal/broker/broker.go:138-140 | With 2^32 + 1 opens a waiting handler's stream can be overwritten, and is then neither in its table nor done |
| StreamProgress.UnblocksIff | internal/server/server.go:298-301 | A blocked read loop is unblocked by exactly two kinds of step: its stream's handler takes the reply, or a deferred close for the stream's ID finds it in the table |
| StreamProgress.BlockedReadLoopGetsFree | internal/server/server.go:298-301 | In runs of any length, whatever clients send: the stream's handler has at most seven moves left, and every continuation in which it makes them frees the read loop if and only if the stream was not overwritten |
| StreamProgress.RunUsesUp | internal/proxy/proxy.go:92-181 | In every run each move of a proxy handler lowers what it has left, and no one else's step raises it |
| StreamProgress.OwnStepIff | internal/proxy/proxy.go:92-181 | An unfinished handler can take a step by itself exactly when it is not inside a write, reading its caller's body, or wanting a `sendMu` that is held; so always while it waits for the reply or closes |
| StreamProgress.StalledReadLoop | internal/proxy/proxy.go:112-126 | While its handler depends on its caller or on the network, and no other handler holds a stream with its ID, a read loop stays blocked in every continuation without the end of that body or of that write |
| StreamProgress.AwaitedCanHappen | internal/broker/broker.go:162-166 | What a dependent handler waits for can happen: a held `sendMu` is held by a handler inside a write on that connection |
| StreamProgress.OwnStepsFree | internal/proxy/proxy.go:168-181 | Once its handler waits or closes, the handler's own two steps free the read loop without anyone else, unless the stream was overwritten |
| StreamProgress.StuckForGoodIff | internal/server/server.go:298-301 | A blocked read loop stays blocked whatever anyone does exactly when its stream was overwritten and the stream's handler is closing or finished |
| StreamWitnesses.CallerMayStallReadLoop | internal/proxy/proxy.go:119-126 | There is a run in which a client answers twice and the read loop then waits for as long as the caller does not end its body, whatever else happens |
| StreamWitnesses.ReadLoopMayBeStuck | internal/server/server.go:298-301 | With 2^32 + 1 opens there is a run after which a read loop is blocked for good |
| GatewayLock.RoutesLeadToHolders | internal/server/server.go:190-215 | With handlers interleaved call by call and no outside removal, a routed subdomain is in the registry for exactly that connection, which is live |
| GatewayLock.ServedTunnelsAreRouted | internal/server/server.go:192-217 | In every such run, each tunnel a served connection asked for is registered to it and routed to it |
| GatewayLock.StepKeeps | internal/server/server.go:331-340 | Every single call of every handler keeps what each handler believes it holds and has routed equal to what the shared maps say |
| GatewayLock.NewIdFresh | internal/server/server.go:194-195 | Distinct generated connection IDs and the taken check make every new tunnel's ID unused |
| GatewayCalls.RoutesLeadToAskers | internal/broker/broker.go:64-117 | Call by call and with deletes and expiry at any point, a route leads to a live connection that asked for the subdomain |
| GatewayCalls.GaugeCountsTunnels | internal/server/server.go:206-214 | Call by call and with deletes and expiry at any point, the gauge plus the handlers that have registered a tunnel and not yet counted it is the number of registered tunnels plus those removed from outside |
| GatewayCalls.StepKeepsCore | internal/server/server.go:331-342 | Every call, delete and expiry keeps the registry in order, every tunnel remembered by its handler, and every route asked for |
| GatewayWindows.TunnelsStayRouted | internal/server/server.go:206-214 | Call by call, with deletes and expiry outside the handlers' windows, a registered tunnel is routed to its own live connection, or its handler is just about to map it or has just unmapped it |
| GatewayWindows.FormerOwnerLeavesOthersAlone | internal/server/server.go:331-340 | In every such run, no call of a handler, a former owner of the subdomain included, changes or unroutes another connection's tunnel |
| GatewayWindows.CallKeepsSound | internal/server/server.go:206-215 | Every single call of a handler keeps every registered tunnel routed or in its handler's hands |
| GatewayAdmin.RemovalIsSafeIff | internal/admin/admin.go:215 | After any run without removals in a window, an admin delete or expiry leaves registered tunnels routed in all that follows if and only if it removes no tunnel in its window |
| GatewayAdmin.RemovalInWindowMisroutes | internal/server/server.go:333-334 | After a removal in a window, a new connection that takes the subdomain over is misrouted by the handler's very next call |
| GatewayAdmin.DeleteBeforeMapMisroutes | internal/server/server.go:206-212 | For any two connections and any acceptable subdomain, a run with one delete between `Register` and `MapSubdomain` ends with the subdomain routed to the connection that does not hold it |
| GatewayAdmin.DeleteBeforeUnmapUnroutes | internal/server/server.go:333-334 | And a run with one delete between `GetByID` and `UnmapSubdomain` ends with a served connection that holds the subdomain and is not routed it |
| GatewayPieces.WorkInOnePieceIsSafe | internal/server/server.go:206-214 | If handlers do their calls on each tunnel in one piece, then with deletes and expiry at any other point every registered tunnel is routed to its own connection, and the gauge equals the registry's size plus outside removals |
| GatewayFlow.ComesToIff | internal/server/server.go:190-342 | A connection handler comes to each point of handshake, service and cleanup by exactly these calls of its own, whatever others, the admin API and expiry do meanwhile |
| GatewayFlow.LivesIff | internal/server/server.go:190-342 | It is there from its connection on until it has cleaned up its last tunnel, and not otherwise |
| GatewayFlow.WritesDownIff | internal/server/server.go:213 | It writes a tunnel's ID down exactly when it has mapped the tunnel, and forgets none |
| GatewayHistory.TunnelsAreAsAskedFor | internal/server/server.go:194-206 | In every run, deletes and expiry at any point, a stored tunnel is in every field the one a connection last asked for under its ID: subdomain, protocol, port, owner and creation time, with the default TTL, last heard of at its last heartbeat or else when it was registered |
| GatewayHistory.TunnelsAreOwned | internal/server/server.go:196-205 | In every run a stored tunnel belongs to a live connection whose request has that subdomain, protocol and port, and whose owner is the tunnel's |
| GatewayHistory.RegistryRuns | internal/server/server.go:190-342 | Over any steps the registry does what the calls of handlers, admin and expiry make it do |
| Handshake.FailureTakesBack | internal/server/server.go:206-211 | Whichever registration fails, the loop and the cleanup undo everything but the earlier routes of what had been enrolled |
| Handshake.FailureRestoresIff | internal/server/server.go:192-211 | A failed handshake restores registry, index, broker maps and gauge exactly if and only if nothing it had enrolled had a left-over route |
| Handshake.FailureRestoresConsistentState | internal/server/server.go:190-215 | Where every route has a registry entry, a failed handshake restores everything |
| Handshake.Server.HandleConnect | internal/server/server.go:190-214 | For any clock, the loop accepts a prefix of the request, reports why the next one failed, and leaves the shared state fully enrolled or cleaned up; if all are accepted each is stored and routed as asked for, field by field |
| Handshake.Server.RegisterAndMap | internal/server/server.go:206-214 | One tunnel is enrolled in registry, broker and gauge together, or nothing changes |
| Handshake.Server.CleanupConnection | internal/server/server.go:331-342 | Evicts the tunnels one after the other, in order, then removes the connection and its routes |
| HandshakeRuns.FailedHandshakeIsARun | internal/server/server.go:190-215 | Without interruption, the machine's handler leaves, call by call, the shared state that `handleConnect` leaves, and is gone |
| HandshakeRuns.FailedHandshakeRestoresIff | internal/server/server.go:190-215 | From every state of every run, deletes and expiry included, a new connection's failed handshake leaves everything as it was if and only if nothing it had enrolled had a left-over route |
| HandshakeRuns.FailedHandshakeMayUnroute | internal/server/server.go:331-340 | For any two connections and any acceptable subdomain there is a run in which a failed handshake removes the other connection's left-over route |
| HandshakeRuns.FailedHandshakeLeavesNoTrace | internal/server/server.go:190-215 | From every state handlers alone can reach, with others half way through, a new connection's failed handshake leaves registry, index, broker maps and gauge as they were |
| HandshakeRuns.RegistrationsEnroll | internal/server/server.go:192-215 | Any number of accepted registrations, uninterrupted, enrol the same prefix in the machine as in the method |
| HandshakeRuns.RegistrationsServe | internal/server/server.go:192-215 | After them each accepted tunnel is stored and routed with the subdomain, protocol, port, owner and times it was asked for |
| HandshakeRuns.CleanupIsARun | internal/server/server.go:331-342 | A handler that cleans up without interruption does what `cleanupConnection` does |
| Broker.Broker.AddConnection | internal/broker/broker.go:48-61 | A fresh connection without streams is entered under its ID |
| Broker.Broker.RemoveConnection | internal/broker/broker.go:64-90 | An unknown ID changes nothing; otherwise exactly the routes to it go, every stream in its table is done, and the entry goes |
| Broker.Broker.RemoveRoutes | internal/broker/broker.go:73-77 | In whatever order the map is visited, exactly the routes to the connection are deleted |
| Broker.Broker.CloseAll | internal/broker/broker.go:79-87 | In whatever order the table is visited, every stream ends up done and none is closed twice |
| Broker.Broker.GetConnectionBySubdomain | internal/broker/broker.go:107-117 | A connection is found exactly when the subdomain is routed and the route's connection is there |
| Broker.Broker.OpenStream | internal/broker/broker.go:129-142 | The n-th stream gets the ID that the protocol model gives it, wrap-around included, and replaces whatever the table had there |
| Broker.Broker.CloseStream | internal/broker/broker.go:145-159 | A stream that is there is done and leaves the table, closed once; otherwise nothing changes |
| RegistryHistory.StoredAsRegistered | internal/registry/registry.go:69-174 | After any operations a stored tunnel is the one last registered under its ID in every field, but for a TTL of 0, which is the default instead, and the time it was last heard of, which is that of its last heartbeat |
| RegistryHistory.SurvivesIff | internal/registry/registry.go:184-198 | After any operations, expiry keeps a stored tunnel if and only if it was registered without a lifetime, or its last heartbeat or else its registration is no longer ago than its lifetime |
| RegistryHistory.HeartbeatPutsOff | internal/registry/registry.go:164-174 | A heartbeat puts its own tunnel's expiry off until a lifetime later, and makes no difference to any other tunnel or field |
| RegistryHistory.LeavesIff | internal/registry/registry.go:92-198 | A tunnel leaves exactly when it is unregistered or expiry finds it overdue |
| RegistryHistory.RegistersIff | internal/registry/registry.go:69-90 | A registration changes the registry exactly when its subdomain is neither reserved nor too long nor taken |
| RegistryHistory.RefusedIff | internal/registry/registry.go:73-81 | Which of the three errors a refused subdomain gets |
| Registry.RunIsExactIffFresh | internal/registry/registry.go:69-103 | Over every sequence of operations stored tunnels keep their own index entry and acceptable subdomains, and the index is exact at the end if and only if no registration reused an ID |
| Registry.OpKeepsExactIffFresh | internal/registry/registry.go:87-88 | One operation keeps the index exact if and only if it does not reuse an ID |
| Registry.RunKeepsStale | internal/registry/registry.go:92-103 | Once an index entry is stale no sequence of operations removes it |
| Registry.LookupIsScan | internal/registry/registry.go:116-125 | After every run without reused IDs a lookup returns exactly the one tunnel a scan of all tunnels finds, and never a missing one |
| Registry.ReusedIdYieldsMissingTunnel | internal/registry/registry.go:116-125 | With a reused ID a lookup can return no tunnel and no error |
| Registry.SubdomainsDistinct | internal/registry/registry.go:79-81 | No two stored tunnels have the same subdomain |
| Registry.CleanExpiredFreesExactly | internal/registry/registry.go:184-198 | Expiry removes exactly the expired tunnels and frees exactly their subdomains, keeps the index exact, and a second call at the same instant does nothing |
| Registry.CleanedCounts | internal/registry/registry.go:184-198 | The registry shrinks by the number of expired tunnels and the others are untouched |
| Registry.ExpiryMeansAgeIff | internal/registry/registry.go:191 | "Expired" means a heartbeat older than the TTL, for every age that fits, exactly when the TTL is at most 9223372036 seconds |
| Registry.MemoryRegistry.constructor | internal/registry/registry.go:55-67 | An empty registry whose reserved names are exactly those given |
| Registry.MemoryRegistry.Register | internal/registry/registry.go:69-90 | The error in the order reserved, too long, taken, and the new contents of both maps |
| Registry.MemoryRegistry.Unregister | internal/registry/registry.go:92-103 | Not found exactly when the ID is unknown, and the new contents of both maps |
| Registry.MemoryRegistry.LookUp | internal/registry/registry.go:116-125 | The lookup through the index that the scan theorem is about |
| Registry.MemoryRegistry.UpdateHeartbeat | internal/registry/registry.go:164-174 | Only that tunnel's heartbeat changes |
| Registry.MemoryRegistry.CleanExpired | internal/registry/registry.go:184-198 | In whatever order the map is visited, the result is the cleaned registry and the count is the number of expired tunnels |
| TunnelIds.GeneratedDecodable | internal/server/server.go:185-195 | For IDs the server makes up, the tunnel ID determines connection and subdomain, whatever dashes the subdomain has |
| TunnelIds.CollideIff | internal/server/server.go:185-195 | Two connection IDs can give the same tunnel ID exactly when one of them with a dash starts the other |
| TunnelIds.ChosenIdsCollide | internal/server/server.go:185-195 | Connection IDs that clients choose can collide |
| TunnelIds.GeneratedFromClock | internal/server/server.go:187 | Every clock reading gives an ID of the generated form |
| RateEviction.EvictionUnobservableIff | internal/server/ratelimit.go:67-79 | Whatever the rate, the requests and the cleanups, the decisions equal those of a limiter that never evicts, exactly as long as requests take at most nine minutes and a nanosecond between their locked call and their draw |
| RateEviction.EvictionUnobservable | internal/server/ratelimit.go:39-49 | For every timeline of such requests, interleaved in any way between their two calls, eviction changes no decision |
| RateExact.DeniedIff | internal/server/ratelimit.go:39-49 | After any run, a request that draws is denied if and only if one more request of its IP than were allowed since some moment would exceed the rate plus what refills from that moment on: without eviction always, with eviction for requests that draw in time |
| RateExact.TightestWindow | internal/server/ratelimit.go:31-48 | What an IP may still draw is exactly what the tightest window leaves |
| RateBound.WindowBoundIff | internal/server/ratelimit.go:39-79 | Whatever the rate, the run, the window and the IP, the evicting limiter allows at most the rate plus the rate times the window in minutes, rounded down, exactly as long as requests take at most nine minutes and a nanosecond between their locked call and their draw |
| RateBound.WindowBound | internal/server/ratelimit.go:31-48 | In any window of any run at most the rate plus the rate times the window in minutes, rounded down, requests of one IP are allowed: without eviction always, with eviction for requests that draw in time |
| RateBound.MinuteBound | internal/server/ratelimit.go:31-48 | In any minute at most twice the rate is allowed, under the same conditions |
| RateBound.MinuteBoundIsReached | internal/server/ratelimit.go:28-36 | That bound is reached for every rate of at least one |
| RateBound.StalledRequestBreaksBound | internal/server/ratelimit.go:47-48 | One nanosecond more breaks the bound: at a rate of one, two requests are allowed within less than a minute |
| RateBound.StepCosts | internal/server/ratelimit.go:39-49 | An allowed request costs its own IP exactly one token; a denied one and another IP's cost nothing |
| RateLimit.TokenBucket.Allow | internal/server/ratelimit.go:48 | Allows exactly when there is a token after the refill, and takes one then |
| RateLimit.RateLimiter.Note | internal/server/ratelimit.go:40-47 | The locked part: the visitor's own bucket, or a new full one, and the time of the visit |
| RateLimit.RateLimiter.Allow | internal/server/ratelimit.go:39-49 | At two readings of the clock, allows exactly when the bucket of the visit has a token at the draw, and records the visit either way |
| RateLimit.RateLimiter.Cleanup | internal/server/ratelimit.go:70-77 | In whatever order the map is visited, exactly the visitors idle for more than ten minutes go |
| Reconnect.RunLoop | internal/client/client.go:436-483 | The loop's outcome, number of attempts and list of waits, for every script of the environment |
| Reconnect.LoopEndsLike | internal/client/client.go:443-483 | For every script the loop ends with the first round in which `Close` is called or the retries are used up, with an error exactly if they are and `Close` was not called before the wait, and has waited after every round but a last one that ended before its wait |
| Reconnect.RunStartsWith | internal/client/client.go:438-441 | The first wait of a run is the configured back-off, if that fits in int64, or one second if none is configured |
| Reconnect.RefusedRunStops | internal/client/client.go:467-470 | With a retry limit m, no success and any base, exactly m attempts; the total wait is base*(2^(m-1)-1), or base*(2047+1024*(m-12)) beyond m = 12, if and only if the last wait fits in int64 |
| Reconnect.WaitsOfEveryRun | internal/client/client.go:467-482 | In every run and for any base, a wait is the one meant exactly when that fits in int64; it then is between one and 1024 times the base, doubles after a failure up to that cap, and starts over after a success |
| Reconnect.WaitExactIff | internal/client/client.go:473-474 | The int64 wait is never longer than the capped power of two times the base, and equal to it exactly when that fits |
| Reconnect.WaitIsExactIff | internal/client/client.go:473-474 | It is equal for every attempt exactly when the base is at most 9007199254 ms |
| Frames.DecodeOfEncodeIff | internal/protocol/protocol.go:95-118 | A frame is read back, and what follows it is left, exactly when its payload is shorter than 2^32 bytes |
| Frames.DecodesIff | internal/protocol/protocol.go:95-118 | Bytes decode to a frame and a rest exactly when they are the type byte, the length in four bytes, highest first, the payload and the rest |
| Frames.EncodeOfDecode | internal/protocol/protocol.go:104-118 | Whatever decodes re-encodes to exactly the bytes consumed |
| Frames.PrefixesRejected | internal/protocol/protocol.go:104-118 | Every strict prefix of a frame is rejected, with the error for the part that is short |
| Frames.FramesRoundTrip | internal/protocol/protocol.go:95-118 | A concatenation of frames decodes to the same frames and leaves no byte |
| Frames.DecodeAllConsumes | internal/protocol/protocol.go:104-118 | For any bytes, the frames decoded encode to exactly the bytes consumed |
| Frames.EncodeFrame | internal/protocol/protocol.go:95-101 | The filled buffer is the encoding the round trips are about |
| Frames.Reader.DecodeFrame | internal/protocol/protocol.go:104-118 | The frame, and the reader left right after it; on an error the reader is used up |
| HostNames.ExtractIff | internal/proxy/proxy.go:222-255 | A subdomain comes out exactly when it is one label without capitals, and the host without port and surrounding white space differs at most in letter case from that label, a dot and the public name |
| HostNames.CaseMakesNoDifference | internal/proxy/proxy.go:232-233 | Hosts and public names that differ in letter case at most, letter by letter of the alphabet, give the same subdomain |
| HostNames.PortNumberIsStripped | internal/proxy/proxy.go:224-230 | After any host, a colon and any port number are dropped |
| HostNames.DecimalIsIntIff | internal/proxy/proxy.go:227 | What follows the last colon counts as a port, for decimal numbers with a sign or without, exactly when it fits in 64 bits |
| HostNames.OtherHostsStay | internal/proxy/proxy.go:224-230 | Anything with a non-digit, and an empty port, is left on |
| Strings.ToLowerIff | internal/proxy/proxy.go:232-233 | Two strings have the same lower case exactly when they differ in letter case at most |
| Strings.TrimmedOff | internal/proxy/proxy.go:232-233 | White space around a string that neither starts nor ends with any is trimmed off, and nothing else |
| HostNames.NamedHostExtracts | internal/proxy/proxy.go:222-255 | A host that names the subdomain in any letter case, with a numeric port or without, yields it |
| HostNames.ServableIsExtracted | internal/proxy/proxy.go:222-255 | Every lower-case subdomain without a dot or leading white space is reached by some Host header |
| HostNames.OnlyServableExtracted | internal/proxy/proxy.go:232-252 | No Host header reaches any other subdomain |
| Routing.ResolvePort | internal/client/client.go:375-385 | The port of the first tunnel whose subdomain ends the ID after a dash, else the first tunnel's, else 0 |
| Routing.ResolvesIffUnshadowed | internal/client/client.go:375-380 | The client picks the tunnel the ID was made for exactly when no earlier one is equal to it, ends it after a dash, or is the connection's number, a dash and it |
| Routing.DashedSubdomainsCanCross | internal/client/client.go:375-380 | With a dash in a subdomain an earlier tunnel wins, on every connection |
| HostToPort.RequestReachesOwnPortIff | internal/proxy/proxy.go:74-92 | In every run, with any steps between the registry lookup and the broker lookup, a change of owner included, the request goes to a live connection that asked for the subdomain, and its client resolves the first lookup's tunnel ID to its own tunnel for it exactly when no earlier one shadows it |
| HostToPort.HostReachesServedPort | internal/proxy/proxy.go:66-92 | In every run of handlers alone, a request for a served tunnel's host, in any letter case and with or without a port, finds its connection in both lookups and reaches its port exactly when no earlier tunnel shadows it, without dashes always |

## Left out

- WebSocket upgrade and dialling, TLS, HTTP listening, shutdown and signals: a socket is two queues that may lose their tails.
- JSON encoding and decoding: messages are datatypes, so a payload that does not parse, and a reply with status 0, are not modelled.
- Token authentication, configuration, logging, the command line, and all metrics but the active-tunnels gauge.
- Admin handlers other than the deletion of a tunnel.
- `GetByOwner`, `GetByConnID`, `List`, `IsSubdomainReserved`, `GetConnection`: one-line lookups and filters.
- The tunnels map holds values: that `GetByID` hands out a reference to the stored tunnel is not captured.
- Go's memory model: the unlocked read of a stream table is one atomic step, and a lookup or an update of a map is always one.
- Unicode: letter case and white space are ASCII, and a string is a sequence of bytes.
- Client-chosen connection IDs in the gateway protocol: connection IDs are generated and those of live connections distinct; `TunnelIds.CollideIff` says what goes wrong otherwise.
- The proxy's choice of connection in the stream protocol: a request may arrive at any connection, live or not, which covers every lookup result.
- Heartbeat frames, unknown frame types and frames that do not decode: the read loops skip them without touching streams.
- A write that fails after its frame has reached the client: a failed write sends nothing.
- The client's write lock and its writes that block: a client handler's frame is sent or refused in one step.
- Gateway.DoMap and Gateway.DoUnregister: the gauge moves in the same step as the map, because no handler reads it.
- Handshake.Server.HandleConnect: the register frame, the token check and the control response are not part of it.
- StreamProgress.BlockedReadLoopGetsFree: says that the handler's moves free the read loop, and not that a scheduler, the 30-second timer, the caller and the network let it make them; `StreamProgress.OwnStepIff` says which of these it needs.
- RateEviction.EvictionUnobservable: buckets are exact integers where the rate library rounds floats, time does not go back, and the rate is not negative.
