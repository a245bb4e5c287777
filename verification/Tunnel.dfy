/** The whole data plane: any number of public handlers and agent sessions,
    joined by the session manager. A run is any interleaving of their steps. */
module Tunnels {
  import opened Protocol
  import opened Requests
  import opened Connections
  import opened Replies
  import R = Responses
  import H = HeaderFilters

  datatype Phase = Registered | Sending | Awaiting | Finishing | Finished
  datatype Verdict = Forwarded(response: Response) | AgentError(error: string) | Abandoned

  /** One run of the public handler for one request. */
  datatype Handler = Handler(public: H.PublicRequest, sid: Sid, channel: nat, upload: Upload, phase: Phase,
                             verdict: Option<Verdict>)

  datatype System = System(manager: Manager, conns: map<Sid, Conn>, handlers: map<Id, Handler>)

  datatype Event =
    | Connect(sid: Sid, hasLocal: bool, workers: nat)
    | Arrive(r: Id, sid: Sid, public: H.PublicRequest, contentLength: int)
    | SendStart(r: Id)
    | SendChunk(r: Id, data: Bytes)
    | SendEnd(r: Id)
    | GiveUp(r: Id, notified: bool)       // error, client gone or timeout; `notified`: cancel_request was queued
    | ReceiveReply(r: Id)
    | Finish(r: Id)                       // the deferred CancelRequest
    | Inside(sid: Sid, e: ConnEvent)
    | Leave(sid: Sid, order: seq<Id>)     // critical section of Remove, after the session loop returned
    | PostReply(i: nat)

  /** A handler may enqueue on its session whenever the queue has room. The
      session lookup may precede its removal, so a removed session's queue,
      which nobody drains any more, still takes messages. */
  predicate CanEnqueue(s: System, r: Id) {
    && r in s.handlers && s.handlers[r].sid in s.conns
    && ChannelOk(s.conns[s.handlers[r].sid].down) && HasRoom(s.conns[s.handlers[r].sid].down)
  }

  predicate MayRead(u: Upload, data: Bytes) {
    && 0 < |data| <= CHUNK_SIZE
    && |Join(u.parts)| + |data| <= MAX_BODY
    && (u.contentLength >= 0 ==> |Join(u.parts)| + |data| <= u.contentLength)
  }

  predicate CanHappen(s: System, e: Event) {
    match e
    case Connect(sid, _, _) => sid !in s.conns
    case Arrive(r, _, _, contentLength) => r !in s.handlers && 0 < |r| < 65536 && -1 <= contentLength <= MAX_BODY
    case SendStart(r) => CanEnqueue(s, r) && s.handlers[r].phase.Registered?
    case SendChunk(r, data) => CanEnqueue(s, r) && s.handlers[r].phase.Sending? && MayRead(s.handlers[r].upload, data)
    case SendEnd(r) =>
      && CanEnqueue(s, r) && s.handlers[r].phase.Sending?
      && var u := s.handlers[r].upload; (u.contentLength >= 0 ==> |Join(u.parts)| == u.contentLength)
    case GiveUp(r, notified) =>
      && r in s.handlers
      && (if notified then CanEnqueue(s, r) && (s.handlers[r].phase.Sending? || s.handlers[r].phase.Awaiting?)
          else s.handlers[r].phase.Registered? || s.handlers[r].phase.Sending? || s.handlers[r].phase.Awaiting?)
    case ReceiveReply(r) =>
      && r in s.handlers && s.handlers[r].phase.Awaiting?
      && CanDo(s.manager, Collect(s.handlers[r].channel))
    case Finish(r) => r in s.handlers && s.handlers[r].phase.Finishing?
    case Inside(sid, e) => sid in s.conns && CanStep(s.conns[sid], e)
    case Leave(sid, order) => sid in s.conns && s.conns[sid].gatewayDone && CanDo(s.manager, Remove(sid, order))
    case PostReply(i) => CanDo(s.manager, Post(i))
  }

  function Enqueue(s: System, r: Id, m: Message, h: Handler): System
    requires CanEnqueue(s, r)
  {
    var sid := s.handlers[r].sid;
    var c := s.conns[sid];
    s.(conns := s.conns[sid := c.(down := Push(c.down, m))], handlers := s.handlers[r := h])
  }

  /** What the session loop hands to DeliverResponse on this event, if anything. */
  function Delivers(c: Conn, e: ConnEvent): Option<R.Delivery>
    requires CanStep(c, e)
  {
    if !e.ReadUp? then None
    else
      var next := R.Accept(c.responses, c.up.log[c.up.read]);
      if next.Continue? then next.delivery else None
  }

  function NewHandler(r: Id, sid: Sid, channel: nat, public: H.PublicRequest, contentLength: int): Handler {
    Handler(public, sid, channel, Upload(H.HeadOf(public, r), contentLength, false, [], false, false), Registered, None)
  }

  function VerdictOn(response: Response): Verdict {
    if response.error != "" then AgentError(response.error)
    else Forwarded(response.(headers := H.WithoutHopByHop(response.headers)))
  }

  function Happen(s: System, e: Event): System
    requires CanHappen(s, e)
  {
    match e
    case Connect(sid, hasLocal, workers) =>
      s.(manager := Do(s.manager, Register(sid)), conns := s.conns[sid := NewConn(hasLocal, workers)])
    case Arrive(r, sid, public, contentLength) =>
      s.(manager := Do(s.manager, Await(sid, r)),
         handlers := s.handlers[r := NewHandler(r, sid, |s.manager.boxes|, public, contentLength)])
    case SendStart(r) =>
      var h := s.handlers[r];
      Enqueue(s, r, RequestStart(r, h.upload.head, h.upload.contentLength),
              h.(upload := h.upload.(started := true), phase := Sending))
    case SendChunk(r, data) =>
      var h := s.handlers[r];
      Enqueue(s, r, Chunk(r, RequestChunk, |h.upload.parts| % SEQUENCE_MOD, data),
              h.(upload := h.upload.(parts := h.upload.parts + [data])))
    case SendEnd(r) =>
      var h := s.handlers[r];
      Enqueue(s, r, RequestEnd(r), h.(upload := h.upload.(ended := true), phase := Awaiting))
    case GiveUp(r, notified) =>
      var h := s.handlers[r];
      var done := h.(phase := Finishing, verdict := Some(Abandoned));
      if notified then Enqueue(s, r, CancelRequest(r), done.(upload := h.upload.(cancelled := true)))
      else s.(handlers := s.handlers[r := done])
    case ReceiveReply(r) =>
      var h := s.handlers[r];
      var b := s.manager.boxes[h.channel];
      s.(manager := Do(s.manager, Collect(h.channel)),
         handlers := s.handlers[r := h.(phase := Finishing, verdict := Some(VerdictOn(b.sent[b.received])))])
    case Finish(r) =>
      s.(manager := Do(s.manager, Withdraw(r)), handlers := s.handlers[r := s.handlers[r].(phase := Finished)])
    case Inside(sid, e) =>
      var d := Delivers(s.conns[sid], e);
      s.(conns := s.conns[sid := StepConn(s.conns[sid], e)],
         manager := if d.Some? then Do(s.manager, Deliver(d.value.id, d.value.response)) else s.manager)
    case Leave(sid, order) => s.(manager := Do(s.manager, Remove(sid, order)))
    case PostReply(i) => s.(manager := Do(s.manager, Post(i)))
  }

  const IDLE := System(EMPTY, map[], map[])

  function SystemRun(events: seq<Event>): Option<System> {
    if events == [] then Some(IDLE)
    else
      var before := SystemRun(events[..|events| - 1]);
      if before.Some? && CanHappen(before.value, events[|events| - 1])
      then Some(Happen(before.value, events[|events| - 1])) else None
  }

  // ----- Invariant -----

  /** The part of a session's traffic that belongs to request `r`. */
  function DownOf(handlers: map<Id, Handler>, sid: Sid, r: Id): seq<Message> {
    if r in handlers && handlers[r].sid == sid then Stream(r, handlers[r].upload) else []
  }

  predicate PhaseFits(h: Handler) {
    match h.phase
    case Registered => !h.upload.started && h.verdict.None?
    case Sending => h.upload.started && !h.upload.ended && !h.upload.cancelled && h.verdict.None?
    case Awaiting => h.upload.started && h.upload.ended && !h.upload.cancelled && h.verdict.None?
    case _ => h.verdict.Some?
  }

  predicate HandlerOk(r: Id, h: Handler) {
    0 < |r| < 65536 && Sound(h.upload) && PhaseFits(h) && h.upload.head == H.HeadOf(h.public, r)
  }

  ghost predicate HandlersInv(handlers: map<Id, Handler>, sids: set<Sid>, channels: nat) {
    && (forall r :: r in handlers ==> HandlerOk(r, handlers[r]))
    && (forall r :: r in handlers ==> handlers[r].channel < channels)
    && (forall r :: r in handlers && handlers[r].upload.started ==> handlers[r].sid in sids)
    && (forall a, b :: a in handlers && b in handlers && handlers[a].channel == handlers[b].channel ==> a == b)
  }

  ghost predicate ConnsInv(conns: map<Sid, Conn>) {
    forall sid :: sid in conns ==> ConnInv(conns[sid])
  }

  ghost predicate DownInv(conns: map<Sid, Conn>, handlers: map<Id, Handler>) {
    forall sid, r :: sid in conns ==> Project(conns[sid].down.log, r) == DownOf(handlers, sid, r)
  }

  ghost predicate WaitersInv(pending: map<Id, Waiter>, handlers: map<Id, Handler>) {
    forall r :: r in pending ==> r in handlers && pending[r] == Waiter(handlers[r].sid, handlers[r].channel)
  }

  /** A session that ended and was removed; its id never comes back. */
  predicate Gone(conns: map<Sid, Conn>, sessions: set<Sid>, sid: Sid) {
    sid in conns && conns[sid].gatewayDone && sid !in sessions
  }

  /** A reply that may reach the handler of `r` on session `sid`: a disconnect
      after that session is gone, or what that session itself delivered for `r`. */
  predicate Legit(conns: map<Sid, Conn>, sessions: set<Sid>, sid: Sid, r: Id, response: Response) {
    || (response == DISCONNECTED && Gone(conns, sessions, sid))
    || (sid in conns && r in conns[sid].delivered && conns[sid].delivered[r] == response)
  }

  ghost predicate LegitOn(conns: map<Sid, Conn>, sessions: set<Sid>, handlers: map<Id, Handler>, channel: nat,
                          response: Response) {
    forall r :: r in handlers && handlers[r].channel == channel ==> Legit(conns, sessions, handlers[r].sid, r, response)
  }

  ghost predicate MailInv(inflight: seq<Letter>, boxes: seq<Mailbox>, sessions: set<Sid>, conns: map<Sid, Conn>,
                          handlers: map<Id, Handler>) {
    && (forall l :: l in inflight ==> LegitOn(conns, sessions, handlers, l.channel, l.response))
    && (forall ch, x :: 0 <= ch < |boxes| && x in boxes[ch].sent ==> LegitOn(conns, sessions, handlers, ch, x))
  }

  /** A handler that did not give up acted on a legitimate reply. */
  ghost predicate VerdictOk(conns: map<Sid, Conn>, sessions: set<Sid>, r: Id, h: Handler) {
    h.verdict.Some? && !h.verdict.value.Abandoned? ==>
      exists x :: Legit(conns, sessions, h.sid, r, x) && h.verdict.value == VerdictOn(x)
  }

  ghost predicate VerdictsInv(conns: map<Sid, Conn>, sessions: set<Sid>, handlers: map<Id, Handler>) {
    forall r :: r in handlers ==> VerdictOk(conns, sessions, r, handlers[r])
  }

  /** Session ids are fresh, so no registration ever replaced another. */
  predicate SessionsInv(m: Manager, sids: set<Sid>) {
    m.replaced == 0 && m.sessions <= sids
  }

  /** A handler's channel is given up only by its own deferred CancelRequest. */
  ghost predicate OpenInv(withdrawn: set<nat>, handlers: map<Id, Handler>) {
    forall r :: r in handlers && !handlers[r].phase.Finished? ==> handlers[r].channel !in withdrawn
  }

  ghost predicate SystemInv(s: System) {
    && ManagerInv(s.manager) && SessionsInv(s.manager, s.conns.Keys)
    && OpenInv(s.manager.withdrawn, s.handlers)
    && ConnsInv(s.conns)
    && HandlersInv(s.handlers, s.conns.Keys, |s.manager.boxes|)
    && DownInv(s.conns, s.handlers)
    && WaitersInv(s.manager.pending, s.handlers)
    && MailInv(s.manager.inflight, s.manager.boxes, s.manager.sessions, s.conns, s.handlers)
    && VerdictsInv(s.conns, s.manager.sessions, s.handlers)
  }
}
