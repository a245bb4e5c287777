/** One agent connection as a state machine: two bounded FIFO channels, the
    agent's reader and workers, and the gateway's session loop. Every event is
    one step of one goroutine, so a run is an arbitrary interleaving. */
module Connections {
  import opened Protocol
  import opened Requests
  import opened Responses
  import opened Agents
  import H = HeaderFilters

  /** A FIFO channel drained by a writer, kept as everything ever enqueued plus
      two cursors: the outbound queue is log[written..], what the socket holds
      is log[read..written]. */
  datatype Channel = Channel(log: seq<Message>, written: nat, read: nat)

  predicate ChannelOk(ch: Channel) {
    ch.read <= ch.written <= |ch.log| <= ch.written + QUEUE_CAPACITY
  }

  predicate HasRoom(ch: Channel) { |ch.log| < ch.written + QUEUE_CAPACITY }

  function Push(ch: Channel, m: Message): Channel { ch.(log := ch.log + [m]) }

  /** A message written to the socket directly, ahead of everything queued. */
  function SlipIn(ch: Channel, m: Message): Channel
    requires ChannelOk(ch)
  {
    Channel(ch.log[..ch.written] + [m] + ch.log[ch.written..], ch.written + 1, ch.read)
  }

  function Seen(ch: Channel): seq<Message>
    requires ChannelOk(ch)
  {
    ch.log[..ch.read]
  }

  // ----- Calls to the local service -----

  datatype Local = Local(status: int, headers: Headers, body: Bytes)
  datatype Outcome = Answered(local: Local, parts: seq<Bytes>, eof: bool) | Failed(error: string)
  datatype Stage =
    | Waiting
    | Running
    | Streaming(local: Local, parts: seq<Bytes>)
    | Failing(error: string)
    | Ended(outcome: Outcome)
  datatype Call = Call(request: Request, stage: Stage, retired: bool)

  predicate PartsSound(local: Local, parts: seq<Bytes>) {
    Cut(parts) && Join(parts) <= local.body
  }

  predicate StageSound(s: Stage) {
    match s
    case Streaming(local, parts) => PartsSound(local, parts)
    case Failing(error) => error != ""
    case Ended(Answered(local, parts, eof)) => PartsSound(local, parts) && (eof ==> Join(parts) == local.body)
    case Ended(Failed(error)) => error != ""
    case _ => true
  }

  function AnswerHead(local: Local): ResponseHead {
    ResponseHead(local.status, H.WithoutHopByHop(local.headers), -1, "")
  }

  function ErrorHead(error: string): ResponseHead { ResponseHead(502, map[], 0, error) }

  /** What the agent has sent about a call that reached stage `s`. */
  function Reply(r: Id, s: Stage): seq<Message> {
    match s
    case Streaming(local, parts) => [ResponseStart(r, AnswerHead(local))] + Chunks(r, ResponseChunk, parts)
    case Failing(error) => [ResponseStart(r, ErrorHead(error))]
    case Ended(Answered(local, parts, _)) =>
      [ResponseStart(r, AnswerHead(local))] + Chunks(r, ResponseChunk, parts) + [ResponseEnd(r)]
    case Ended(Failed(error)) => [ResponseStart(r, ErrorHead(error)), ResponseEnd(r)]
    case _ => []
  }

  function Result(o: Outcome): Response {
    match o
    case Answered(local, parts, _) => Response(local.status, H.WithoutHopByHop(local.headers), Join(parts), "")
    case Failed(error) => Response(502, map[], [], error)
  }

  function StageView(s: Stage): ReplyView {
    match s
    case Streaming(local, parts) => Open(Assembly(AnswerHead(local), |parts| % SEQUENCE_MOD, Join(parts)))
    case Failing(error) => Open(Assembly(ErrorHead(error), 0, []))
    case Ended(outcome) => Delivered(Result(outcome))
    case _ => Unopened
  }

  lemma AnswerViewed(r: Id, local: Local, parts: seq<Bytes>, eof: bool)
    requires r != []
    ensures ReplyViewOf(Reply(r, Ended(Answered(local, parts, eof)))) == StageView(Ended(Answered(local, parts, eof)))
  {
    var sent := [ResponseStart(r, AnswerHead(local))] + Chunks(r, ResponseChunk, parts);
    PartsReassemble(r, AnswerHead(local), parts);
    ReplyPush(sent, ResponseEnd(r));
  }

  lemma FailureViewed(r: Id, error: string)
    requires r != []
    ensures ReplyViewOf(Reply(r, Failing(error))) == StageView(Failing(error))
    ensures ReplyViewOf(Reply(r, Ended(Failed(error)))) == StageView(Ended(Failed(error)))
  {
    FirstReplies(ResponseStart(r, ErrorHead(error)), ResponseEnd(r));
  }

  lemma ReplyViewed(r: Id, s: Stage)
    requires r != []
    ensures ReplyViewOf(Reply(r, s)) == StageView(s)
  {
    match s
    case Streaming(local, parts) => PartsReassemble(r, AnswerHead(local), parts);
    case Failing(error) => FailureViewed(r, error);
    case Ended(Answered(local, parts, eof)) => AnswerViewed(r, local, parts, eof);
    case Ended(Failed(error)) => FailureViewed(r, error);
    case _ =>
  }

  // ----- State and events -----

  datatype Conn = Conn(
    hasLocal: bool, down: Channel, agent: Agent, calls: map<Id, Call>, agentDone: bool,
    up: Channel, responses: Assemblies, delivered: map<Id, Response>, gatewayDone: bool)

  datatype ConnEvent =
    | WriteDown                       // session loop moves one queued message to the socket
    | ReadDown                        // agent reader handles one message
    | EnqueueJob                      // reader hands its job to the queue
    | TakeJob                         // a worker takes the oldest job
    | Begin(r: Id, local: Local)      // local service answered; response start sent
    | Fail(r: Id, error: string)      // no local answer; 502 start sent
    | Emit(r: Id, n: nat)             // one local read of n bytes, forwarded
    | Seal(r: Id, eof: bool)          // local read ended; response end sent
    | RetireJob(i: nat)               // worker finishes the job
    | WriteUp                         // agent writer
    | ReadUp                          // session loop handles one message
    | NoteUp(m: Message)              // agent queues a pong or an open-tunnel request
    | NoteDown                        // session loop queues its answer to an open-tunnel request
    | PingDown                        // session loop writes a ping or pong past the queue
    | StopAgent
    | StopGateway

  function StageOf(c: Conn, r: Id): Stage { if r in c.calls then c.calls[r].stage else Waiting }

  predicate CanSend(c: Conn, r: Id) { r in c.calls && !c.agentDone && c.hasLocal && HasRoom(c.up) }

  predicate CanStep(c: Conn, e: ConnEvent) {
    && ChannelOk(c.down) && ChannelOk(c.up)
    && match e
       case WriteDown => !c.gatewayDone && c.down.written < |c.down.log|
       case ReadDown => !c.agentDone && c.down.read < c.down.written && c.agent.pool.held.None?
       case EnqueueJob => !c.agentDone && CanAct(c.agent, Enqueue)
       case TakeJob => !c.agentDone && CanAct(c.agent, Take) && c.agent.pool.jobs[0].id in c.calls
       case Begin(r, local) => CanSend(c, r) && StageOf(c, r).Running? && !c.calls[r].retired
       case Fail(r, error) => CanSend(c, r) && StageOf(c, r).Running? && !c.calls[r].retired && error != ""
       case Emit(r, n) =>
         && CanSend(c, r) && StageOf(c, r).Streaming? && 0 < n <= CHUNK_SIZE
         && |Join(StageOf(c, r).parts)| + n <= |StageOf(c, r).local.body|
       case Seal(r, eof) =>
         && CanSend(c, r)
         && (StageOf(c, r).Failing?
             || (StageOf(c, r).Streaming? && (eof ==> Join(StageOf(c, r).parts) == StageOf(c, r).local.body)))
       case RetireJob(i) =>
         && !c.agentDone && CanAct(c.agent, Retire(i)) && c.agent.pool.running[i].id in c.calls
         && (StageOf(c, c.agent.pool.running[i].id).Ended? || !c.hasLocal)
       case WriteUp => !c.agentDone && c.up.written < |c.up.log|
       case ReadUp => !c.gatewayDone && c.up.read < c.up.written
       case NoteUp(m) => !c.agentDone && HasRoom(c.up) && Note(m)
       case NoteDown => !c.gatewayDone && HasRoom(c.down)
       case PingDown => !c.gatewayDone
       case StopAgent => true
       case StopGateway => true
  }

  /** A worker sends `m` and moves its call to `s`. */
  function Send(c: Conn, r: Id, m: Message, s: Stage): Conn
    requires r in c.calls
  {
    c.(up := Push(c.up, m), calls := c.calls[r := c.calls[r].(stage := s)])
  }

  function NextPart(s: Stage, n: nat): Bytes
    requires s.Streaming? && |Join(s.parts)| + n <= |s.local.body|
  {
    var k := |Join(s.parts)|;
    s.local.body[k..k + n]
  }

  /** The agent reader handles its next message; a rejected one ends the session. */
  function TakeDown(c: Conn): Conn
    requires ChannelOk(c.down) && c.down.read < c.down.written && c.agent.pool.held.None?
  {
    var m := c.down.log[c.down.read];
    var next := Read(c.agent.reader, m);
    if next.Broken? then c.(agentDone := true)
    else c.(down := c.down.(read := c.down.read + 1), agent := Act(c.agent, Receive(m)),
            calls := CallsAfter(c.calls, next.job))
  }

  function CallsAfter(calls: map<Id, Call>, job: Option<Request>): map<Id, Call> {
    if job.Some? then calls[job.value.id := Call(job.value, Waiting, false)] else calls
  }

  /** The session loop handles its next message; a rejected one ends the session. */
  function TakeUp(c: Conn): Conn
    requires ChannelOk(c.up) && c.up.read < c.up.written
  {
    var next := Accept(c.responses, c.up.log[c.up.read]);
    if next.Rejected? then c.(gatewayDone := true)
    else c.(up := c.up.(read := c.up.read + 1), responses := next.responses,
            delivered := DeliveredAfter(c.delivered, next.delivery))
  }

  function DeliveredAfter(delivered: map<Id, Response>, d: Option<Delivery>): map<Id, Response> {
    if d.Some? then delivered[d.value.id := d.value.response] else delivered
  }

  function StepConn(c: Conn, e: ConnEvent): Conn
    requires CanStep(c, e)
  {
    match e
    case WriteDown => c.(down := c.down.(written := c.down.written + 1))
    case ReadDown => TakeDown(c)
    case EnqueueJob => c.(agent := Act(c.agent, Enqueue))
    case TakeJob =>
      var r := c.agent.pool.jobs[0].id;
      c.(agent := Act(c.agent, Take), calls := c.calls[r := c.calls[r].(stage := Running)])
    case Begin(r, local) => Send(c, r, ResponseStart(r, AnswerHead(local)), Streaming(local, []))
    case Fail(r, error) => Send(c, r, ResponseStart(r, ErrorHead(error)), Failing(error))
    case Emit(r, n) =>
      var s := StageOf(c, r);
      var part := NextPart(s, n);
      Send(c, r, Chunk(r, ResponseChunk, |s.parts| % SEQUENCE_MOD, part), Streaming(s.local, s.parts + [part]))
    case Seal(r, eof) =>
      var s := StageOf(c, r);
      Send(c, r, ResponseEnd(r), Ended(if s.Failing? then Failed(s.error) else Answered(s.local, s.parts, eof)))
    case RetireJob(i) =>
      var r := c.agent.pool.running[i].id;
      c.(agent := Act(c.agent, Retire(i)), calls := c.calls[r := c.calls[r].(retired := true)])
    case WriteUp => c.(up := c.up.(written := c.up.written + 1))
    case ReadUp => TakeUp(c)
    case NoteUp(m) => c.(up := Push(c.up, m))
    case NoteDown => c.(down := Push(c.down, Other))
    case PingDown => c.(down := SlipIn(c.down, Other))
    case StopAgent => c.(agentDone := true)
    case StopGateway => c.(gatewayDone := true)
  }

  function NewConn(hasLocal: bool, workers: nat): Conn {
    Conn(hasLocal, Channel([], 0, 0), Start(workers), map[], false, Channel([], 0, 0), map[], map[], false)
  }

  // ----- Invariant -----

  /** The agent's state about `r` is what r's own messages, read so far, imply. */
  ghost predicate RequestInv(seen: seq<Message>, rd: Reader, calls: map<Id, Call>, r: Id) {
    var v := ViewOf(Project(seen, r));
    && Tracks(rd, r, v)
    && (r == [] ==> v.Absent?)
    && (r in calls <==> v.Dispatched?)
    && (r in calls ==> calls[r].request == v.request && v.request.id == r && StageSound(calls[r].stage))
    && (r in rd.active <==> r in calls && !calls[r].retired)
  }

  ghost predicate RequestsInv(seen: seq<Message>, rd: Reader, calls: map<Id, Call>) {
    forall r :: RequestInv(seen, rd, calls, r)
  }

  /** The agent has sent about each request what its call's stage says. */
  function SentOf(calls: map<Id, Call>, r: Id): seq<Message> {
    if r in calls then Reply(r, calls[r].stage) else []
  }

  ghost predicate SentInv(log: seq<Message>, calls: map<Id, Call>) {
    && (forall m :: m in log ==> FromAgent(m))
    && (forall r :: Project(log, r) == SentOf(calls, r))
  }

  /** The gateway's state about `r` is what r's own replies, read so far, imply. */
  ghost predicate ReplyInv(seen: seq<Message>, responses: Assemblies, delivered: map<Id, Response>, r: Id) {
    var g := ReplyViewOf(Project(seen, r));
    && TracksReply(responses, r, g)
    && (r in delivered <==> g.Delivered?)
    && (r in delivered ==> delivered[r] == g.response)
  }

  ghost predicate RepliesInv(seen: seq<Message>, responses: Assemblies, delivered: map<Id, Response>) {
    forall r :: ReplyInv(seen, responses, delivered, r)
  }

  /** No request is in the agent's pool twice. */
  predicate Distinct(line: seq<Request>) {
    forall i, j :: 0 <= i < j < |line| ==> line[i].id != line[j].id
  }

  /** The pool holds exactly the unfinished calls, each at a fitting stage. */
  ghost predicate CallsInv(p: Pool, calls: map<Id, Call>, hasLocal: bool) {
    && Distinct(Line(p))
    && (forall j :: j in Line(p) ==> j.id in calls && j == calls[j.id].request && !calls[j.id].retired)
    && (forall r :: r in calls && !calls[r].retired ==> r in Ids(Line(p)))
    && (forall j :: j in p.jobs ==> calls[j.id].stage.Waiting?)
    && (p.held.Some? ==> calls[p.held.value.id].stage.Waiting?)
    && (forall j :: j in p.running ==> !calls[j.id].stage.Waiting?)
    && (forall r :: r in calls && calls[r].retired ==> calls[r].stage.Ended? || (calls[r].stage.Running? && !hasLocal))
    && (forall r :: r in calls && !hasLocal ==> calls[r].stage.Waiting? || calls[r].stage.Running?)
  }

  ghost predicate PoolInv(c: Conn) {
    AgentInv(c.agent) && CallsInv(c.agent.pool, c.calls, c.hasLocal)
  }

  /** Streams started but not ended in a log of agent messages. */
  ghost function OpenStreams(log: seq<Message>): set<Id> {
    set m | m in log && m.ResponseStart? && ReplyViewOf(Project(log, m.id)).Open? :: m.id
  }

  ghost predicate OpenBound(log: seq<Message>, workers: nat) {
    forall n :: 0 <= n <= |log| ==> |OpenStreams(log[..n])| <= workers
  }

  ghost predicate ConnInv(c: Conn) {
    && ChannelOk(c.down) && ChannelOk(c.up)
    && Honest(c.down.log)
    && PoolInv(c)
    && OpenBound(c.up.log, c.agent.pool.workers)
    && RequestsInv(Seen(c.down), c.agent.reader, c.calls)
    && SentInv(c.up.log, c.calls)
    && RepliesInv(Seen(c.up), c.responses, c.delivered)
  }
}
