/** Every exchange the tunnel is for can happen: any public request, its body cut in
    any way, reaches a worker as it was sent, and any answer or failure of the local
    service reaches the client. What the safety theorems say of all runs is
    therefore not said of nothing. */
module Exchanges {
  import opened Protocol
  import opened Requests
  import opened Agents
  import opened Connections
  import opened ConnectionProofs
  import opened Tunnels
  import opened TunnelProofs
  import opened Limits
  import opened Endings
  import H = HeaderFilters

  // ----- A request on its way to a worker -----

  /** A public request as its handler sees it, and the reads its body comes in. */
  datatype Post = Post(public: H.PublicRequest, contentLength: int, parts: seq<Bytes>)

  /** What one loop over a 32 KiB buffer makes of a body. */
  predicate InReads(parts: seq<Bytes>) { forall i :: 0 <= i < |parts| ==> 0 < |parts[i]| <= 32768 }

  /** net/http keeps the body within the announced length and the limit. */
  predicate Sendable(p: Post) {
    && -1 <= p.contentLength <= 33554432 && InReads(p.parts) && |Join(p.parts)| <= 33554432
    && (p.contentLength >= 0 ==> |Join(p.parts)| == p.contentLength)
  }

  /** The handler has sent the first `n` parts. */
  predicate HasSent(s: System, r: Id, p: Post, n: nat) {
    && r in s.handlers && n <= |p.parts| && s.handlers[r].sid == SID && s.handlers[r].public == p.public
    && s.handlers[r].phase.Sending? && s.handlers[r].verdict.None?
    && s.handlers[r].upload.contentLength == p.contentLength && s.handlers[r].upload.parts == p.parts[..n]
  }

  predicate Posted(h: Handler, p: Post) {
    h.public == p.public && h.upload.contentLength == p.contentLength && h.upload.parts == p.parts
  }

  /** The agent has nothing to do but this one request. */
  ghost predicate Quiet(c: Conn, ids: set<Id>) {
    && c.hasLocal && !c.agentDone && !c.gatewayDone && ChannelOk(c.down) && ChannelOk(c.up) && Drained(c.up)
    && c.agent.pool.workers == 1 && c.agent.pool.running == [] && c.agent.pool.jobs == []
    && c.agent.pool.held.None? && c.responses == map[] && c.agent.reader.pending.Keys == ids
  }

  /** ... and the next message is on the wire. */
  ghost predicate Facing(c: Conn, ids: set<Id>, m: Message) {
    Quiet(c, ids) && c.down.read + 1 == c.down.written == |c.down.log| && c.down.log[c.down.read] == m
  }

  lemma Written(c: Conn, ids: set<Id>, m: Message)
    requires Quiet(c, ids) && Drained(c.down)
    ensures HasRoom(c.down)
    ensures var d := c.(down := Push(c.down, m)); CanStep(d, WriteDown) && Facing(StepConn(d, WriteDown), ids, m)
  {
  }

  /** A message the handler has put in the queue goes on the wire. */
  lemma PutOnWire(s: System, c: Conn, r: Id, ids: set<Id>, m: Message) returns (t: System, d: Conn)
    requires Quiet(c, ids) && Drained(c.down) && At(s, c.(down := Push(c.down, m)), [r], 1, false)
    ensures At(t, d, [r], 1, false) && Facing(d, ids, m) && t.handlers == s.handlers
  {
    Written(c, ids, m);
    var pushed := c.(down := Push(c.down, m));
    t := Inner(s, pushed, WriteDown, [r], 1, false);
    d := StepConn(pushed, WriteDown);
  }

  // ----- The agent takes it in -----

  lemma StartTaken(c: Conn, r: Id, head: RequestHead, contentLength: int)
    requires Facing(c, {}, RequestStart(r, head, contentLength)) && r != [] && contentLength >= -1
    ensures CanStep(c, ReadDown) && Quiet(StepConn(c, ReadDown), {r}) && Drained(StepConn(c, ReadDown).down)
  {
    assert c.agent.reader.pending == map[];
  }

  lemma ChunkTaken(c: Conn, r: Id, m: Message)
    requires ConnInv(c)
    requires Facing(c, {r}, m) && m.Chunk? && m.id == r
    ensures CanStep(c, ReadDown) && Quiet(StepConn(c, ReadDown), {r}) && Drained(StepConn(c, ReadDown).down)
  {
    ReaderRejectsExactly(c);
  }

  lemma EndTaken(c: Conn, r: Id)
    requires ConnInv(c)
    requires Facing(c, {r}, RequestEnd(r)) && Fresh([r])
    ensures CanStep(c, ReadDown) && Dispatching(StepConn(c, ReadDown), 1, [r], 0)
  {
    ReaderRejectsExactly(c);
    assert StepConn(c, ReadDown).agent.reader.pending == map[];
  }

  lemma TakeMessage(s: System, c: Conn, r: Id, ids: set<Id>, m: Message) returns (t: System, d: Conn)
    requires At(s, c, [r], 1, false) && Facing(c, ids, m)
    requires m.RequestStart? ==> ids == {} && m.id == r && m.contentLength >= -1
    requires m.Chunk? ==> ids == {r} && m.id == r
    requires m.RequestStart? || m.Chunk?
    ensures At(t, d, [r], 1, false) && Quiet(d, {r}) && Drained(d.down) && t.handlers == s.handlers
  {
    if m.RequestStart? {
      assert [r][0] != [];
      StartTaken(c, r, m.head, m.contentLength);
    } else {
      AtConnInv(s, c, [r], 1, false);
      ChunkTaken(c, r, m);
    }
    t := Inner(s, c, ReadDown, [r], 1, false);
    d := StepConn(c, ReadDown);
  }

  // ----- The handler sends it -----

  lemma Arrives(r: Id, p: Post) returns (t: System, c: Conn)
    requires Fresh([r]) && Sendable(p)
    ensures At(t, c, [r], 1, false) && Quiet(c, {}) && Drained(c.down)
    ensures r in t.handlers && exists channel: nat :: t.handlers[r] == NewHandler(r, SID, channel, p.public,
                                                                                  p.contentLength)
  {
    var s := Connected(1, [r], false);
    c := NewConn(true, 1);
    assert 0 < |[r][0]| < 65536 && [r][..0] == [] && [r][..1] == [r];
    t := Happen(s, Arrive(r, SID, p.public, p.contentLength));
    ReachableNext(s, Arrive(r, SID, p.public, p.contentLength), false);
  }

  lemma SendsStart(s: System, c: Conn, r: Id, p: Post) returns (t: System, m: Message)
    requires At(s, c, [r], 1, false) && Quiet(c, {}) && Drained(c.down) && p.contentLength >= -1
    requires r in s.handlers && exists channel: nat :: s.handlers[r] == NewHandler(r, SID, channel, p.public,
                                                                                   p.contentLength)
    ensures m.RequestStart? && m.id == r && m.contentLength == p.contentLength
    ensures At(t, c.(down := Push(c.down, m)), [r], 1, false) && HasSent(t, r, p, 0)
  {
    m := RequestStart(r, s.handlers[r].upload.head, p.contentLength);
    t := Happen(s, SendStart(r));
    ReachableNext(s, SendStart(r), false);
  }

  lemma MaySend(p: Post, n: nat)
    requires Sendable(p) && n < |p.parts|
    ensures Join(p.parts[..n + 1]) == Join(p.parts[..n]) + p.parts[n]
    ensures |Join(p.parts[..n + 1])| <= |Join(p.parts)| && 0 < |p.parts[n]| <= CHUNK_SIZE
  {
    assert p.parts[..n + 1] == p.parts[..n] + [p.parts[n]];
    JoinPush(p.parts[..n], p.parts[n]);
    JoinFront(p.parts, n + 1);
  }

  lemma {:induction false} JoinFront(parts: seq<Bytes>, n: nat)
    requires n <= |parts|
    ensures |Join(parts[..n])| <= |Join(parts)|
    decreases |parts|
  {
    if n == |parts| {
      assert parts[..n] == parts;
    } else {
      var init := parts[..|parts| - 1];
      JoinFront(init, n);
      assert init[..n] == parts[..n];
    }
  }

  lemma SendsPart(s: System, c: Conn, r: Id, p: Post, n: nat) returns (t: System, m: Message)
    requires At(s, c, [r], 1, false) && Quiet(c, {r}) && Drained(c.down)
    requires Sendable(p) && n < |p.parts| && HasSent(s, r, p, n)
    ensures m.Chunk? && m.id == r && At(t, c.(down := Push(c.down, m)), [r], 1, false) && HasSent(t, r, p, n + 1)
  {
    MaySend(p, n);
    m := Chunk(r, RequestChunk, |s.handlers[r].upload.parts| % SEQUENCE_MOD, p.parts[n]);
    assert p.parts[..n + 1] == p.parts[..n] + [p.parts[n]];
    t := Happen(s, SendChunk(r, p.parts[n]));
    ReachableNext(s, SendChunk(r, p.parts[n]), false);
  }

  lemma SendsEnd(s: System, c: Conn, r: Id, p: Post) returns (t: System)
    requires At(s, c, [r], 1, false) && Quiet(c, {r}) && Drained(c.down)
    requires Sendable(p) && HasSent(s, r, p, |p.parts|)
    ensures At(t, c.(down := Push(c.down, RequestEnd(r))), [r], 1, false) && AwaitingNow(t, r)
    ensures Posted(t.handlers[r], p)
  {
    assert p.parts[..|p.parts|] == p.parts;
    t := Happen(s, SendEnd(r));
    ReachableNext(s, SendEnd(r), false);
  }

  lemma {:induction false} Uploads(r: Id, p: Post, n: nat) returns (s: System, c: Conn)
    requires Fresh([r]) && Sendable(p) && n <= |p.parts|
    ensures At(s, c, [r], 1, false) && Quiet(c, {r}) && Drained(c.down) && HasSent(s, r, p, n)
    decreases n
  {
    if n == 0 {
      var a, b := Arrives(r, p);
      var x, m := SendsStart(a, b, r, p);
      var y, wired := PutOnWire(x, b, r, {}, m);
      s, c := TakeMessage(y, wired, r, {}, m);
    } else {
      var a, b := Uploads(r, p, n - 1);
      var x, m := SendsPart(a, b, r, p, n - 1);
      var y, wired := PutOnWire(x, b, r, {r}, m);
      s, c := TakeMessage(y, wired, r, {r}, m);
    }
  }

  lemma TakeEnd(s: System, c: Conn, r: Id) returns (t: System, d: Conn)
    requires At(s, c, [r], 1, false) && Facing(c, {r}, RequestEnd(r))
    ensures At(t, d, [r], 1, false) && Dispatching(d, 1, [r], 0) && t.handlers == s.handlers
  {
    AtConnInv(s, c, [r], 1, false);
    EndTaken(c, r);
    t := Inner(s, c, ReadDown, [r], 1, false);
    d := StepConn(c, ReadDown);
  }

  /** The whole request is at a worker. */
  lemma RequestAtWork(r: Id, p: Post) returns (s: System, c: Conn)
    requires Fresh([r]) && Sendable(p)
    ensures AtWork(s, c, r) && Posted(s.handlers[r], p)
  {
    var a, b := Uploads(r, p, |p.parts|);
    var x := SendsEnd(a, b, r, p);
    var y, wired := PutOnWire(x, b, r, {r}, RequestEnd(r));
    var z, held := TakeEnd(y, wired, r);
    s, c := TakeRequest(z, held, 1, [r], 0);
  }

  // ----- Whole exchanges -----

  /** The call the agent makes for a request that went out as `p`. */
  ghost predicate Carries(s: System, r: Id, p: Post) {
    && r in s.handlers && s.handlers[r].sid == SID && SID in s.conns && r in s.conns[SID].calls
    && s.handlers[r].public == p.public
    && var q := s.conns[SID].calls[r].request;
       q.id == r && q.head.verb == p.public.verb && q.head.path == p.public.path && q.body == Join(p.parts)
       && ToldTheLocal(p.public, r, H.WithoutHopByHop(q.head.headers))
  }

  lemma CarriesAll(s: System, r: Id, p: Post)
    requires Reachable(s, false) && r in s.handlers && SID in s.conns && r in s.conns[SID].calls
    requires Posted(s.handlers[r], p)
    ensures Carries(s, r, p)
  {
    ReachableInv(s, false);
    CallCarriesRequest(s, SID, r);
    assert HandlerOk(r, s.handlers[r]);
    Told(p.public, r);
  }

  /** For every public request, however its body is cut, and every local answer,
      however it is cut, some run calls the local service with that request and
      forwards that answer. */
  lemma ExchangeReached(r: Id, p: Post, local: Local, parts: seq<Bytes>, eof: bool) returns (events: seq<Event>)
    requires 0 < |r| < 65536 && Sendable(p)
    requires InReads(parts) && Join(parts) <= local.body && |Join(parts)| <= 33554432
    requires eof ==> Join(parts) == local.body
    ensures SystemRun(events).Some? && Carries(SystemRun(events).value, r, p)
    ensures SystemRun(events).value.handlers[r].verdict
            == Some(Forwarded(Response(local.status, H.WithoutHopByHop(local.headers), Join(parts), "")))
  {
    var from, at := RequestAtWork(r, p);
    var s := AnswerReaches(from, at, r, local, parts, eof);
    CarriesAll(s, r, p);
    H.FilterTwice(local.headers);
    events :| Reached(events, s, false);
  }

  // ----- Failures -----

  /** The gateway has the error of the one call. */
  ghost predicate Failing(c: Conn, r: Id, error: string) {
    && c.hasLocal && !c.agentDone && !c.gatewayDone && ChannelOk(c.down) && ChannelOk(c.up) && Drained(c.up)
    && c.calls.Keys == {r} && c.calls[r].stage == Connections.Failing(error)
  }

  lemma BeginFailing(c: Conn, r: Id, error: string)
    requires Working(c, 1, [r], 0) && c.calls.Keys == {r} && r != [] && error != ""
    ensures CanStep(c, Fail(r, error))
    ensures var d := StepConn(c, Fail(r, error));
            && CanStep(d, WriteUp)
            && var e := StepConn(d, WriteUp); CanStep(e, ReadUp) && Failing(StepConn(e, ReadUp), r, error)
  {
  }

  lemma FailureBegun(from: System, at: Conn, r: Id, error: string) returns (s: System, c: Conn)
    requires AtWork(from, at, r) && error != ""
    ensures At(s, c, [r], 1, false) && Failing(c, r, error) && s.handlers == from.handlers
  {
    OnlyCall(from, at, r);
    BeginFailing(at, r, error);
    var z := Inner(from, at, Fail(r, error), [r], 1, false);
    var begun := StepConn(at, Fail(r, error));
    var w := Inner(z, begun, WriteUp, [r], 1, false);
    var written := StepConn(begun, WriteUp);
    s := Inner(w, written, ReadUp, [r], 1, false);
    c := StepConn(written, ReadUp);
  }

  lemma SealsFailure(c: Conn, r: Id, error: string)
    requires Failing(c, r, error)
    ensures CanStep(c, Seal(r, false))
    ensures var d := StepConn(c, Seal(r, false));
            CanStep(d, WriteUp) && Sealed(StepConn(d, WriteUp), r, Failed(error))
  {
  }

  lemma SealFailure(s: System, c: Conn, r: Id, error: string) returns (t: System, d: Conn)
    requires At(s, c, [r], 1, false) && Failing(c, r, error)
    ensures At(t, d, [r], 1, false) && Sealed(d, r, Failed(error)) && t.handlers == s.handlers
  {
    SealsFailure(c, r, error);
    var x := Inner(s, c, Seal(r, false), [r], 1, false);
    var sealed := StepConn(c, Seal(r, false));
    t := Inner(x, sealed, WriteUp, [r], 1, false);
    d := StepConn(sealed, WriteUp);
  }

  /** For every public request and every error, some run calls the local service with
      that request and shows the client that error. */
  lemma FailureReached(r: Id, p: Post, error: string) returns (events: seq<Event>)
    requires 0 < |r| < 65536 && Sendable(p) && error != ""
    ensures SystemRun(events).Some? && Carries(SystemRun(events).value, r, p)
    ensures SystemRun(events).value.handlers[r].verdict == Some(AgentError(error))
  {
    var from, at := RequestAtWork(r, p);
    var a, c := FailureBegun(from, at, r, error);
    var b, d := SealFailure(a, c, r, error);
    var s := OutcomeReaches(b, d, r, Failed(error));
    CarriesAll(s, r, p);
    events :| Reached(events, s, false);
  }
}
