# Verified model of the tunnel data plane

myNgrok exposes a local HTTP service through a public gateway. A public request
is cut into messages, multiplexed with all others over one WebSocket to an
agent, replayed against the local service, and the response travels back the
same way. This project models that data plane in Dafny, together with the
stateful components around it, and proves what it promises over every
interleaving of its goroutines.

The design has three layers.

* **Specification state machines.** `Protocol`, `HeaderFilters`, `Requests`,
  `Responses`, `Agents`, `Connections`, `Replies` and `Tunnels` describe the
  messages, what happens to headers on the way, the agent's reader and worker
  pool, the gateway's session loop, the session manager at the granularity of its
  lock, and finally the whole system: any number of public handlers and agent
  sessions. One event is one step of one goroutine, and `Tunnels.SystemRun`
  accepts any sequence of possible events. A FIFO queue and its socket are a log with two cursors. The invariant reads
  each request's own messages out of the interleaved log (`Protocol.Project`)
  and says that every map entry on either side is what that request's own
  stream implies.
* **Theorems about all runs.** `ConnectionProofs` and `TunnelProofs` hold the
  invariant's preservation and the main results: end-to-end correlation of
  answers and of errors, reassembly, compatibility of the two sides, exactly one
  reply, bounded dispatch, cancellation. `Histories` ties the states they speak
  of to the events of the run, `Peers` says what either side accepts from any
  peer at all, and `Exchanges` shows that every exchange the tunnel is for can
  happen. `Limits` and `Endings` build the runs that show where these results
  stop. `Lifecycle`, `Overlaps` and `Restarts` do the same for tunnel rows and
  routes.
* **Imperative code against the specification.** `AgentReaders`,
  `GatewaySessions`, `Streaming`, `Frames`, `RateLimiter`, `Registries`,
  `Lifecycle` and `Traffic` hold the classes and loops of the source, proved
  against the functions the theorems are about. `SessionManagers` carries a
  ghost history instead: each critical section and each send outside the lock
  appends the event of `Replies` that it is, so the theorems about runs of
  `Replies` hold of the object, and one of them is what lets its sends be made.

`dafny verify dfyconfig.toml` checks everything.

## Assumptions

* Request ids, session ids and the ids of new tunnel rows are fresh, and a
  request id has 1 to 65535 bytes, so that a frame can carry it.
* `net/http` reports end-of-file only after exactly `ContentLength` bytes when
  the length is known, and never more than 32 MiB.
* Text messages fit the 64 KiB read limit; the channel neither loses nor
  reorders messages.
* The text of a local error is never empty.
* Once a session's context is done at the agent, that agent puts nothing more on
  the wire. A queue of a removed session may still take messages, which nobody
  drains.
* The rate limiter's clock does not run backwards between lock acquisitions and
  is past Go's zero time; its window is a `time.Duration`.
* The theorems about the registry alone take id/subdomain pairs as stable, each
  tunnel id with one subdomain of its own; `Overlaps.PairsAreStable` shows that
  the gateway keeps them so.
* A local call is one call of the agent's HTTP client, which follows redirects:
  the local status and body may come from a later hop.
* For the lifecycle theorems: each session opens at most one tunnel and, except
  in `Overlaps`, one agent's sessions do not overlap. The gateway may restart
  and a closing statement may fail at any point; a failed statement while
  opening a tunnel ends the session.
* One goroutine flushes traffic (`backend/cmd/server/main.go`, lines 96 to 109),
  so a drained map is worked off before the next is drained.
* The local service, clocks, random ids, map iteration order and the success of
  database statements are parameters of the events and methods.

## Where the sides do not fit

Some properties one might expect, or that the documentation promises, are false
of the code. Each has its exact condition and families of failing runs from the
initial state.

* The agent accepts 32 open request streams, the gateway has no such limit. A
  message is rejected if and only if it starts a 33rd upload that, in the log of
  what the gateway sent, is neither ended nor cancelled
  (`TunnelProofs.RequestsCompatible`). Any 33 handlers get there
  (`Limits.StreamLimitReached`), and because a cancel is dropped when the queue
  is full, so do 33 requests one after the other (`Limits.LeakReachesLimit`).
* The agent may be configured with up to 64 workers, the gateway accepts 32
  response streams. 32 workers suffice (`TunnelProofs.ResponsesCompatible`);
  every larger pool has a run that fails (`Limits.WorkerLimitReached`).
* The agent caps no local body, the gateway caps it at 32 MiB by ending the whole
  session: bodies within the limit always pass (`TunnelProofs.ResponsesCompatible`),
  every longer one has a run that fails (`Limits.BodyLimitReached`).
* A forwarded body may be a truncated one. It is a prefix of the local body, all
  of it if the local read reached end-of-file (`TunnelProofs.EndToEnd`), and every
  cut of every prefix is forwarded in some run, with the local status and without
  a sign of it (`Endings.TruncationReached`).
* The documentation has the gateway release the requests of a closed connection
  immediately. A handler that waits for room in the session's queue is not
  released: its disconnect is in its channel (`Endings.BlockedReached`), and
  nothing but its own giving up ends the wait (`Endings.BlockedForever`).
* The documentation has every reconnect preserve the subdomain. That holds while
  the gateway stays up and its closing statements succeed
  (`Lifecycle.SameTunnelAgain`). Otherwise rows are left open, and an agent gets
  the one tunnel it had for an address back if and only if its row is not one of
  them (`Lifecycle.TunnelAgainExactly`); `Restarts.SubdomainChanges` and
  `Restarts.SubdomainUndecided` are the runs. For the same reason routed tunnels
  and open rows agree between operations if and only if no row was left open
  (`Lifecycle.RoutedAreOpen`).
* With overlapping sessions of one agent a tunnel can end up routed but closed in
  the table. Over every run it stays open if and only if no step closes the rows
  of an agent with a routed tunnel or enters the route of a claimed row that has
  been closed (`Overlaps.OverlapSafeExactly`); three families of runs do one or
  the other (`Overlaps.OverlapBreaks`). A fourth gives an agent a new tunnel
  although its old one could be reopened (`Overlaps.RaceLosesTunnel`).

The comment on ReopenForSession speaks of the most recently closed tunnel; the
statement picks the most recently updated closed row, and so does the model.
The two frame parsers accept the same byte strings, but report different errors
for an unknown type (`Frames.ParsersAgree`).

## Model

| member | source | states |
|---|---|---|
| TunnelProofs.EndToEnd | backend/internal/tunnels/public_handler.go:61-105 | In every run, a handler that forwards a response forwards the outcome of the local call made for its own request on its own session. The call was made with the method and path of the public request that arrived under that id and with exactly the body its handler sent; of the headers it got the client's values for every one that is neither hop-by-hop nor about forwarding, the request's host, scheme and id, its client's address exactly if there is one, and nothing else. The client gets the status of the answer the local service gave to that call, its headers without hop-by-hop ones, and a prefix of its body, all of it if the local read reached end-of-file |
| TunnelProofs.ErrorsAreOwn | backend/internal/tunnels/public_handler.go:84-89 | In every run, an error a handler reports is the one the local call for its own request failed with, or "tunnel agent disconnected" after its own session has ended and been removed |
| TunnelProofs.ShownExactly | backend/internal/tunnels/public_handler.go:84-98 | A handler that receives a reply with an error shows that error, and forwards any other with its status, body and headers but the hop-by-hop ones |
| Exchanges.ExchangeReached | backend/internal/tunnels/public_handler.go:56-98 | For every public request, announced length and cut of a fitting body, and for every local answer and every cut of any prefix of its body within 32 MiB, a run in which the agent calls the local service with that request, headers spelled out as above, and the client gets that answer |
| Exchanges.FailureReached | agent/internal/gatewayclient/client.go:317-322 | For every such request and every error, a run in which the agent calls the local service with that request and the client is shown that error |
| Histories.HandlerHistory | backend/internal/tunnels/public_handler.go:61-105 | In every run a handler serves the request that arrived under its id; the parts it has sent are those of its own send events, in order; it has started, ended, cancelled, given up, received and returned exactly when the run has that event for it |
| Histories.CallHistory | agent/internal/gatewayclient/client.go:295-323 | In every run the answer or error of a call is the one its own local call had on that session, and it ended as the last read said; a session's worker pool is the one it connected with |
| Histories.NoWaiterLeft | backend/internal/tunnels/public_handler.go:68-69 | In every run, a request whose handler has returned is no longer waited for: the table of waiters leaks nothing |
| TunnelProofs.SessionCounters | backend/internal/gateway/session_manager.go:130-156 | In every run, where session ids are fresh, total connections are total disconnections plus live sessions |
| TunnelProofs.RequestReassembly | agent/internal/gatewayclient/client.go:270-285 | In every run, a dispatched request carries its handler's head and exactly the bytes its handler's events sent, up to end-of-file, however cut and interleaved, and its 32-bit chunk counter has not wrapped |
| TunnelProofs.RequestsCompatible | agent/internal/gatewayclient/client.go:222-284 | In every run, with senders failing and cancelling at any point, the agent rejects the next gateway message if and only if it is a start arriving while 32 streams are open; equivalently, if and only if it starts a 33rd upload neither ended nor cancelled in what the gateway has sent |
| TunnelProofs.ResponsesCompatible | backend/internal/gateway/agent_connect.go:159-236 | In every run, heartbeats and tunnel requests included, the gateway rejects the next agent message if and only if it starts a 33rd response, takes a body past 32 MiB, or asks for a tunnel that cannot be opened; with at most 32 workers and 32 MiB bodies only the last can happen |
| Peers.AnyAgent | backend/internal/gateway/agent_connect.go:159-236 | Against any agent: after any accepted messages, the next is accepted if and only if it fits them (limits, ids, announced lengths and chunk numbers counted in what that agent sent); an end delivers the response since its last start, byte for byte, and nothing else delivers anything |
| Peers.AnyGateway | agent/internal/gatewayclient/client.go:217-284 | Against any gateway: after any accepted messages, the next is accepted if and only if it fits them; an end dispatches the request since its start, byte for byte, and nothing else dispatches anything |
| Peers.AnyCancel | agent/internal/gatewayclient/client.go:331-339 | Against any gateway: a dispatched request's context is cancelled exactly when a cancel for it came since |
| Limits.StreamLimitReached | agent/internal/gatewayclient/client.go:258-260 | For any 33 request ids, a run whose handlers are exactly those of the ids, each having sent its start and nothing else, and in which the agent ends the session |
| Limits.LeakReachesLimit | backend/internal/tunnels/public_handler.go:144-149 | For any 33 request ids, a run whose handlers are exactly those of the ids, never more than one of them unfinished and each that breaks off trying to cancel on a full queue, and in which the agent ends the session: all but the last have finished, the last has just sent its start |
| Limits.WorkerLimitReached | backend/internal/gateway/agent_connect.go:190-193 | For every pool of more than 32 workers and any 33 request ids, a run whose handlers and local calls are exactly those of the ids, every call answered with an empty body, and in which the gateway rejects a response start |
| Limits.BodyLimitReached | backend/internal/gateway/agent_connect.go:160-166 | For every local answer longer than 32 MiB, a run of one request on one worker in which the gateway ends the session |
| Endings.TruncationReached | agent/internal/gatewayclient/client.go:317-322 | For every local answer and every cut of any prefix of its body within 32 MiB, a run in which the handler forwards exactly that prefix with the local status and headers, the local read having ended or broken off there |
| Endings.BlockedReached | backend/internal/gateway/session_manager.go:74-79 | A run after which the session is gone, the handler is still sending on its full queue of 32 messages, and its disconnect is in its channel |
| Endings.BlockedForever | backend/internal/gateway/session_manager.go:67-80 | Whatever happens after that, as long as the handler does not give up by itself, it stays blocked |
| Endings.StillPending | backend/internal/gateway/session_manager.go:104-110 | An unfinished handler whose session is not gone and has delivered nothing for it is still pending |
| TunnelProofs.NoReplyLost | backend/internal/gateway/session_manager.go:104-128 | In every run, for a handler that has not finished, exactly one of these holds: its request is pending, one reply is on its way to its channel, one reply was sent into it |
| TunnelProofs.DispatchedOnce | agent/internal/gatewayclient/client.go:277-290 | In every run, a request about to be dispatched was never dispatched before on any session |
| TunnelProofs.DispatchAndCancel | agent/internal/gatewayclient/client.go:286-339 | In every run, cancel entries are exactly the queued, running and held jobs, at most 2W+1; at most 32 streams are pending; a request whose cancel was read is not being assembled and its unfinished job is cancelled |
| TunnelProofs.WireTransparent | backend/internal/tunnels/public_handler.go:117-126 | In every run, each chunk ever queued in either direction has a wire form that both parsers read back as that chunk |
| TunnelProofs.HappenKeeps | backend/internal/gateway/session_manager.go:67-80 | Every event of handlers, sessions and manager keeps the system invariant |
| ConnectionProofs.StepKeeps | agent/internal/gatewayclient/client.go:204-322 | Every step of writer, reader, job queue, worker and session loop keeps the connection invariant |
| ConnectionProofs.ReaderRejectsExactly | agent/internal/gatewayclient/client.go:251-268 | On any log whose per-request streams are proper, the reader fails only by its stream limit |
| ConnectionProofs.ReaderRejectsByLog | backend/internal/tunnels/public_handler.go:70-75 | The gateway could tell: the reader's pending streams are the uploads started and neither ended nor cancelled in the log up to its cursor |
| ConnectionProofs.GatewayRejectsExactly | backend/internal/gateway/agent_connect.go:184-225 | On an honest agent's log, the session loop fails only by its stream limit, the body limit, or a tunnel it cannot open |
| ConnectionProofs.ResponsesAccepted | agent/internal/gatewayclient/client.go:296-322 | At most as many response streams are open in any prefix of the agent's output as it has workers, so the replies of 32 workers are always accepted |
| ConnectionProofs.ExactDispatch | agent/internal/gatewayclient/client.go:204-215 | The cancel entries are the ids of the unfinished jobs, one each |
| ConnectionProofs.CancelEffective | agent/internal/gatewayclient/client.go:331-339 | After the reader has processed the cancel of a request, it is not being assembled and any unfinished job of it is cancelled, for good |
| ConnectionProofs.ReadLocal | agent/internal/gatewayclient/client.go:332-338 | A message, a cancel included, leaves the assembly and the context of every other request alone |
| TunnelProofs.DeliveredIsOutcome | backend/internal/gateway/agent_connect.go:213-225 | What a session has delivered for a request is the finished outcome of that request's call |
| TunnelProofs.CallCarriesRequest | agent/internal/gatewayclient/client.go:285 | A call made on a session belongs to a handler of that session and carries its request |
| Requests.ReadTracks | agent/internal/gatewayclient/client.go:217-340 | One turn of the reader moves each request as that request's own stream says |
| Requests.ReadRejects | agent/internal/gatewayclient/client.go:251-284 | A message that continues a proper stream is rejected only by the stream limit |
| Requests.ChunksReassemble | agent/internal/gatewayclient/chunk_assembler.go:24-34 | For every cut of a body of at most 32 MiB, the assembler holds the concatenation and the number of chunks, unwrapped |
| Requests.UploadViewed | backend/internal/tunnels/public_handler.go:112-149 | Every upload a handler can produce, complete, broken off or cancelled, is a proper stream and leads the agent where it should |
| Requests.DispatchedIsFinal | agent/internal/gatewayclient/client.go:284-291 | A dispatched request never changes its content, and a cancel is never forgotten |
| Responses.SessionMemoryBound | backend/internal/gateway/agent_connect.go:22-27 | Whatever any agent sends, a live session holds at most 32 assemblies, each within 32 MiB and its announced length, at most 1 GiB in all |
| Responses.AcceptTracks | backend/internal/gateway/agent_connect.go:159-225 | One accepted message moves each response as its own stream says and delivers exactly the stream it ends |
| Responses.AcceptRejects | backend/internal/gateway/agent_connect.go:160-194 | An in-order stream can fail only the stream limit and the body limit |
| Responses.PartsReassemble | backend/internal/gateway/agent_connect.go:160-170 | For every cut of a body of any size, the assembly holds the concatenation and its counter the number of chunks modulo 2^32 |
| Connections.ReplyViewed | agent/internal/gatewayclient/client.go:296-322 | What a job sends up to any stage is a proper response stream; ended, it delivers the job's outcome |
| Agents.BoundedDispatch | agent/internal/gatewayclient/client.go:163-169 | Against any gateway, repeated ids included, at most 2W+1 cancel entries and 32 pending streams |
| Agents.ActKeepsInv | agent/internal/gatewayclient/client.go:204-215 | Reader, queue and workers keep every cancel entry's job unfinished and the queue and pool within W |
| Replies.ExactlyOneReply | backend/internal/gateway/session_manager.go:104-128 | In every interleaving at lock boundaries, repeated ids included, each reply channel's one reply is awaited, on its way, sent or given up: exactly one of these, and never two sends |
| Replies.SendsNeverBlock | backend/internal/gateway/session_manager.go:126-126 | A send made outside the lock always finds its capacity-one channel empty |
| Replies.CountersBalance | backend/internal/gateway/session_manager.go:177-181 | Total connections are total disconnections plus live sessions plus registrations that reused a live id |
| Replies.RemoveEffect | backend/internal/gateway/session_manager.go:151-168 | In any map order, Remove takes out exactly the requests pending on the session, puts one disconnect per request on its way in that order, and changes nothing else but the session |
| SessionManagers.SessionManager.RegisterRequest | backend/internal/gateway/session_manager.go:104-110 | A new empty channel of its own becomes the request's, others keep theirs; the object has taken the Await event |
| SessionManagers.SessionManager.CancelRequest | backend/internal/gateway/session_manager.go:111-115 | Only that request stops being pending; the Withdraw event |
| SessionManagers.SessionManager.Claim | backend/internal/gateway/session_manager.go:117-122 | The critical section of DeliverResponse takes the request and its channel out; the Deliver event, whatever other replies are on their way |
| SessionManagers.SessionManager.Answer | backend/internal/gateway/session_manager.go:126-126 | A send of any reply on its way finds its channel empty; the Post event |
| SessionManagers.SessionManager.DeliverResponse | backend/internal/gateway/session_manager.go:116-128 | The response goes to the request's own channel and to no other, as a Deliver and then a Post; false exactly for unknown requests |
| SessionManagers.SessionManager.Collect | backend/internal/tunnels/public_handler.go:84-85 | The handler receives the oldest reply of its channel; the Collect event |
| SessionManagers.SessionManager.Register | backend/internal/gateway/session_manager.go:130-138 | The session is live and counted modulo 2^64; the Register event |
| SessionManagers.SessionManager.Walk | backend/internal/gateway/session_manager.go:157-163 | Deleting while walking the map, in any order, removes exactly the session's requests and collects their channels in that order |
| SessionManagers.SessionManager.Evict | backend/internal/gateway/session_manager.go:152-164 | The critical section of Remove: the Remove event, in the order of the walk |
| SessionManagers.SessionManager.AnswerAll | backend/internal/gateway/session_manager.go:165-167 | Each disconnect is sent into its own empty channel, one Post per request, leaving the replies others hold alone |
| SessionManagers.SessionManager.Remove | backend/internal/gateway/session_manager.go:151-168 | All requests of the session get one disconnect each, others stay pending and no other channel is touched: a Remove and then its Posts |
| SessionManagers.SessionManager.OneReply | backend/internal/gateway/session_manager.go:107-126 | In every state of the object a channel's one reply is awaited, on its way, sent or given up, and its buffer holds at most one |
| SessionManagers.SessionManager.Counters | backend/internal/gateway/session_manager.go:177-181 | The totals behind the 64-bit counters balance with the live sessions |
| AgentReaders.ChunkAssembler.Create | agent/internal/gatewayclient/chunk_assembler.go:13-22 | Fails exactly on lengths below -1; otherwise a new, empty assembler that expects the announced length |
| AgentReaders.ChunkAssembler.Add | agent/internal/gatewayclient/chunk_assembler.go:24-34 | Accepts exactly an in-order request chunk within the announced length, appends it, and reports when the length is reached; otherwise changes nothing |
| AgentReaders.ChunkAssembler.Complete | agent/internal/gatewayclient/chunk_assembler.go:36-41 | Succeeds exactly when an announced length has been met |
| AgentReaders.AgentReader.Handle | agent/internal/gatewayclient/client.go:217-340 | The reader's maps and in-place assemblers follow the specified reader on every message; a rejected message changes nothing |
| AgentReaders.AgentReader.HandleChunk | agent/internal/gatewayclient/client.go:222-236 | Adding to one stream's assembler in place leaves all others alone |
| AgentReaders.AgentReader.HandleStart | agent/internal/gatewayclient/client.go:251-269 | Opens a stream exactly under the specified conditions, with an assembler shared with no other |
| AgentReaders.AgentReader.HandleEnd | agent/internal/gatewayclient/client.go:270-291 | Dispatches the assembled request exactly when it is complete |
| AgentReaders.AgentReader.HandleCancel | agent/internal/gatewayclient/client.go:331-339 | Drops the stream and cancels the active request, if there are any |
| GatewaySessions.GatewaySession.Append | backend/internal/gateway/agent_connect.go:160-170 | Appends exactly an in-order response chunk within both limits, in place, leaving other assemblies alone |
| GatewaySessions.GatewaySession.HandleStart | backend/internal/gateway/agent_connect.go:184-194 | Starts or restarts an assembly exactly when the head is valid and there is room |
| GatewaySessions.GatewaySession.HandleEnd | backend/internal/gateway/agent_connect.go:213-225 | Delivers and forgets exactly a complete assembly |
| GatewaySessions.GatewaySession.Handle | backend/internal/gateway/agent_connect.go:159-236 | The in-place assemblies follow the specified session loop on every message; a rejected message changes nothing |
| HeaderFilters.WithoutHopByHopHeaders | agent/internal/gatewayclient/local_http.go:94-105 | A name stays exactly when it is neither one of the nine fixed names nor listed in a Connection header, and keeps its values |
| HeaderFilters.FilteredForAnyHop | backend/internal/tunnels/public_handler.go:190-192 | Filtering takes away the nine names that concern a single connection, those the Connection header lists, and nothing else |
| HeaderFilters.ListedExactly | backend/internal/tunnels/public_handler.go:185-189 | A name is listed exactly when it is the canonical form of a trimmed part of some Connection value |
| HeaderFilters.SplitExact | backend/internal/tunnels/public_handler.go:186 | The parts of a value contain no comma and, joined by commas, are the value |
| HeaderFilters.TrimmedExact | backend/internal/tunnels/public_handler.go:187 | Trimming removes the spaces at both ends and nothing else |
| HeaderFilters.CanonicalExact | agent/internal/gatewayclient/local_http.go:98 | A name of token characters is looked up in the one spelling with capitals at the start and after dashes, any other as it is |
| HeaderFilters.FilterTwice | backend/internal/tunnels/public_handler.go:183-194 | Filtering an already filtered map changes nothing |
| HeaderFilters.PublicHeadersPass | backend/internal/tunnels/public_handler.go:151-170 | The agent's filter leaves the headers the gateway builds alone |
| HeaderFilters.ToldExactly | backend/internal/tunnels/public_handler.go:151-170 | What the local service is told, name by name: the client's own headers except hop-by-hop and forwarding ones, the host, scheme and id of the request, the client's address exactly if there is one, and nothing else |
| HeaderFilters.ForwardingExactly | backend/internal/tunnels/public_handler.go:154 | A header is about forwarding exactly when its name, in whatever case, begins with x-forwarded- or is forwarded |
| HeaderFilters.ForwardingIsTheGateways | backend/internal/tunnels/public_handler.go:152-167 | No forwarding header of the client survives: those present carry the address, host and scheme the gateway saw |
| Streaming.Pump | agent/internal/gatewayclient/local_http.go:77-91 | Whatever the reads, what is queued decodes at the end of the loop to the chunks of the non-empty reads, up to the first that found no place: later reads into the reused buffer changed none of it |
| Streaming.ReadExactly | agent/internal/gatewayclient/local_http.go:77-91 | The body is all the data up to and including that of the first read that reports an error, and that error decides how it ended |
| Streaming.SendRequestBody | backend/internal/tunnels/public_handler.go:112-142 | Queues the front of chunks and end message; success exactly when the body reached end-of-file and all found a place; a read error is reported exactly when reading broke off |
| Streaming.SendRequest | backend/internal/tunnels/public_handler.go:70-83 | Whatever becomes of a handler's sends, its queue decodes to exactly the stream of an upload, and of a sound one whenever the body is proper. Anything sent begins with the start of the given head and length; the end is there exactly when the body was read to end-of-file and all of it fitted; the cancel is there exactly when it fits, something was sent, and the wait was given up or the end is missing |
| Streaming.SendCancel | backend/internal/tunnels/public_handler.go:144-149 | The cancel is queued behind what was sent exactly if it fits; nothing else changes |
| Streaming.StreamLocal | agent/internal/gatewayclient/local_http.go:59-92 | An answered call queues the front of start, with the hop-by-hop headers filtered out, chunks and end, for any number of places |
| Streaming.AnswerLocally | agent/internal/gatewayclient/client.go:295-323 | What a job queues decodes to the front of: for an answer, a start with its status, its headers without hop-by-hop ones, no length and no error, the chunks of every part that was read, and the end, even after a broken local read; for a failure, a start with status 502, no headers, length 0 and exactly its error, and the end. That is the reply stream of the call's outcome |
| Frames.MarshalBinary | agent/internal/gatewayclient/frame.go:23-41 | Succeeds exactly on valid frames; the result is a new buffer with the wire layout, copied out of the caller's buffer |
| Frames.FormatExactly | backend/internal/protocol/frame.go:26-63 | A valid frame is marshalled into the bytes that spell it, field by field in big-endian order, and either parser accepts a byte string if and only if it spells some frame, which is the frame returned |
| Frames.ParsersAgree | backend/internal/protocol/frame.go:46-63 | Both parsers accept the same byte strings with the same frame; their results differ if and only if a proper header names an unknown type |
| Frames.ParseLayout | agent/internal/gatewayclient/frame.go:43-55 | Parsing undoes marshalling on every valid frame, in both implementations |
| Frames.LayoutParse | backend/internal/protocol/frame.go:26-44 | Marshalling undoes parsing on every accepted byte string |
| RateLimiter.Limiter.Allow | backend/internal/tunnels/rate_limiter.go:31-50 | Whatever order the map is swept in, the new entries and the decision are those of the specification the theorems below are about |
| RateLimiter.DecidesAsAlone | backend/internal/auth/rate_limiter.go:31-50 | In every history the shared, sweeping limiter decides each call as one that never evicts and only saw that key |
| RateLimiter.HoldsExactly | backend/internal/tunnels/rate_limiter.go:34-38 | After every history the table holds exactly the keys whose window is still running |
| RateLimiter.RetryRange | backend/internal/tunnels/rate_limiter.go:40-49 | An allowed call gets no retry time, a denied one a positive one of at most a window |
| RateLimiter.RateBound | backend/internal/tunnels/rate_limiter.go:39-49 | For every limit, window and history, any half-open interval one window long has at most 2*limit-1 allowed calls of a key; at most the limit for a window of one nanosecond, none for an empty one (limits below one act as one) |
| RateLimiter.RateBoundTight | backend/internal/tunnels/rate_limiter.go:40-43 | For every limit and every window some history reaches exactly that bound |
| RateLimiter.WithinWindow | backend/internal/tunnels/rate_limiter.go:44-49 | The recorded counter is exactly the number of calls allowed since the window started, at most the limit (or one) |
| RateLimiter.RetryExact | backend/internal/tunnels/rate_limiter.go:44-46 | After a denial at t with retry r, whatever else is called, the key's next call is allowed if and only if it comes at t+r or later |
| Registries.OpenKeepsExactly | backend/internal/tunnels/registry.go:28-33 | Opening a tunnel keeps the two indexes inverse if and only if its id and subdomain are paired with each other or unused |
| Registries.Registry.Open | backend/internal/tunnels/registry.go:28-33 | Both indexes gain the tunnel, and stay inverse under exactly that condition |
| Registries.Registry.Get | backend/internal/tunnels/registry.go:34-39 | Returns what the subdomain routes to |
| Registries.Registry.Close | backend/internal/tunnels/registry.go:40-50 | Removes exactly that tunnel from both indexes, which stay inverse |
| Registries.Registry.CloseSession | backend/internal/tunnels/registry.go:51-60 | In any iteration order, on any indexes, a subdomain goes exactly when it routes to the session and some id leads to it, and no id of another session goes; on inverse indexes exactly the session's routes go and the indexes stay inverse |
| Registries.RoutingExact | backend/internal/tunnels/registry.go:28-60 | In every run with stable id/subdomain pairs the indexes are inverse and each subdomain routes to the last tunnel opened on it, unless that tunnel or its session was closed since |
| Registries.LateCleanup | backend/internal/gateway/agent_connect.go:96-101 | A routed tunnel stays routed through any events about other tunnels, subdomains and sessions, the cleanup of older sessions however late included |
| Registries.AccountExactly | backend/internal/tunnels/registry.go:66-77 | On inverse indexes the account of a routed tunnel's id is that tunnel's user, and an id has none exactly when nothing is routed under it |
| Registries.AccountOfRun | backend/internal/tunnels/registry.go:28-77 | In every run with stable pairs an id is accounted to the user of the last tunnel opened under it, and to nobody exactly when that or its session was closed since, or none was opened |
| Registries.Registry.RecordTraffic | backend/internal/tunnels/registry.go:63-88 | An id that is not routed counts nothing; any other counts one request and its positive byte counts globally and, exactly when the tunnel at its subdomain has a user, for that user and nobody else, in 64-bit arithmetic |
| Registries.Registry.DrainUserDeltas | backend/internal/tunnels/registry.go:96-105 | Hands over all deltas and leaves none |
| Lifecycle.TunnelTable.CloseAgentTunnels | backend/internal/tunnels/service.go:26-33 | Afterwards the agent has no open row, each row that changed would be reopened as it was, and every other row, or all rows for the empty agent, are untouched |
| Lifecycle.TunnelTable.ReopenForSession | backend/internal/tunnels/service.go:35-55 | Gives the agent an open row for the address, stamped now, and touches no other. If a closed row of agent and address exists, it is one such that none was updated later, with its subdomain and user; otherwise, and only then, it is a new row for the owner and the generated subdomain, or nothing for an unknown agent or a taken subdomain |
| Lifecycle.RoutedAreOpen | backend/cmd/server/main.go:69-79 | In every run, restarts and failed closing statements included, at each single step the indexes are inverse and every routed tunnel is open in the table, with the subdomain, agent, user and address of its row and a live session of that agent; between operations the open rows are the routed tunnels and, apart from them, the rows left open, so the two sets are equal if and only if no row was left open |
| Lifecycle.CleanHasNoOrphans | backend/internal/gateway/agent_connect.go:96-101 | Without a restart and a failed closing statement no row is ever left open |
| Lifecycle.TunnelAgainExactly | backend/internal/tunnels/service.go:37-55 | In every run, a tunnel an agent once had for an address keeps its row and subdomain; while it is the only one for that address, the agent gets it, and no other, whenever it asks if and only if its row is not left open, and a new one is made otherwise |
| Lifecycle.SameTunnelAgain | backend/internal/tunnels/service.go:35-41 | In every run without a restart and a failed closing statement, an agent that ever had a tunnel for an address gets that tunnel and subdomain, and no other, whenever it asks again |
| Restarts.UniqueExactly | backend/internal/tunnels/service.go:43-53 | In every run an agent has one row for each address if and only if no row was ever inserted over an existing one |
| Lifecycle.RepeatsOverOrphan | backend/internal/tunnels/service.go:46-50 | A row is inserted over an existing one only if that was left open |
| Restarts.OrphanIsLost | backend/internal/tunnels/service.go:28-33 | For any names, after a restart or a failed closing statement, a returning agent's row is open and not routed, and the reopening statement finds none |
| Restarts.SubdomainChanges | backend/internal/tunnels/service.go:46-54 | The same agent is then given another tunnel under another subdomain |
| Restarts.SubdomainUndecided | backend/internal/tunnels/service.go:39-41 | After a proper disconnect, either of the two may be reopened, because one statement closed both |
| Lifecycle.RowsStay | backend/migrations/005_create_tunnels.up.sql:5 | A row keeps its subdomain, agent, user and address through every run |
| Overlaps.StepBreaksExactly | backend/cmd/server/main.go:69-77 | In any state overlapping sessions reach, a single statement or registry call leaves every routed tunnel open if and only if it is neither closing the rows of an agent with a routed tunnel nor entering the route of a claimed row closed since |
| Overlaps.OverlapSafeExactly | backend/cmd/server/main.go:69-79 | Over every run with overlapping sessions, restarts and failed closing statements included and the reopening and inserting statements apart, routed tunnels are open after each step if and only if no step is one of those two |
| Overlaps.RuleIsSpecial | backend/internal/gateway/agent_connect.go:95-105 | Runs that keep one session per agent are among them |
| Overlaps.PairsAreStable | backend/cmd/server/main.go:69-77 | In every run with overlapping sessions, restarts and failed closing statements, the registry calls since the last start have stable id/subdomain pairs, each subdomain routes as its own history says, and a routed tunnel is accounted to the user its row was inserted for |
| Overlaps.RowHistory | backend/internal/tunnels/service.go:50 | In every such run a row has the subdomain, user and address it was inserted with and the agent of the session it was inserted by |
| Overlaps.OverlapBreaks | backend/internal/gateway/agent_connect.go:96-105 | For any agent, sessions and names, three runs from the empty world end with a tunnel routed but closed: cleanup after the newer session routed, the newer session routing between the cleanup's two calls, and the cleanup between its claim and its route |
| Overlaps.RaceLosesTunnel | backend/internal/tunnels/service.go:39-50 | For any agent, sessions and names, a run in which the older session's row is closed between the newer one's two statements, and the agent is given a second tunnel although the first could be reopened |
| Traffic.TotalsTable.AddDelta | backend/internal/traffic/service.go:28-44 | Adds to the sum of the user's deltas and to nobody else's, creating the row at need; fails and changes nothing exactly when the statement fails or a column would leave its range; every row stays the sum of the deltas that reached it |
| Traffic.TotalsTable.GetTotals | backend/internal/traffic/service.go:46-57 | Returns the sum of all deltas ever added for the user, zero if none was, or the statement's error |
| Traffic.FlushTraffic | backend/cmd/server/main.go:138-148 | In any order, each drained user's row grows by exactly its delta or, if that statement fails, not at all; no delta is left and no other row changes |
| Traffic.UserConservation | backend/internal/tunnels/registry.go:63-105 | In every run of record, drain and flush, persisted plus lost plus being flushed plus waiting plus wrapped traffic of a user is what was recorded for them, and nothing wraps below 2^64. With stable id/subdomain pairs, what was recorded is the traffic under ids whose last opened tunnel, not closed since, belongs to the user |
| Traffic.LostIsFailures | backend/cmd/server/main.go:142-147 | In every run what counts as lost for a user is the sum of the drained deltas whose flush failed |
| Traffic.NothingLost | backend/internal/tunnels/registry.go:96-105 | In every run in which the user's statements succeed and their traffic fits a BIGINT, nothing is lost or wrapped: stored, draining and waiting traffic are together everything recorded, and with stable pairs that is everything recorded on the user's own tunnels |
| Traffic.GlobalCounter | backend/internal/tunnels/registry.go:63-76 | In every run the global counter is the sum over all users plus the traffic of tunnels without a user, modulo 2^64 |
| Traffic.RecordedIsHistory | backend/internal/tunnels/registry.go:66-87 | What counts as recorded for a user is the sum over the run's requests, each attributed by the routes of its own time; with stable pairs, to the owner of the last tunnel opened under the id and not closed since |

## Left out

- TunnelProofs.ResponsesCompatible: whether a tunnel can be opened is a parameter of the agent's message; its effect on rows and routes is modelled in `Lifecycle`.
- GatewaySessions.GatewaySession.Handle: takes the same parameter.
- Streaming.SendRequestBody: a failing or cancelled send is modelled by the number of messages that find a place, not by contexts.
- Streaming.StreamLocal: the call to the local service, its address and its errors are parameters.
- SessionManagers.SessionManager.Remove: runs its critical section and its sends back to back; what other goroutines do in between is covered by its parts, which hold in any state with replies on their way.
- Liveness and deadlock freedom: both loops can block on each other's writes, so only safety is claimed.
- The early exits of ServeHTTP (unknown host, rate limit, body too large by header) and its error texts; how the client address is taken from the connection.
- `LastSeen`, `Touch`, closing all sessions or those of one token; heartbeats only as messages on the wire.
- WebSocket, TCP, JSON encoding, HTTP parsing and context internals, beyond the assumptions above.
- Public host parsing and subdomain generation; reconnect backoff.
- Accounts, JSON web tokens, agent tokens, configuration, migrations, metrics output, middleware.
- The web frontend, deployment files and scripts.
