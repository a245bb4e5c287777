/** The limits the sides do not share are really reached: families of runs, for
    any request ids, in which every handler and the agent behave, and a peer
    still rejects a message. */
module Limits {
  import opened Protocol
  import opened Requests
  import opened Agents
  import opened Connections
  import opened ConnectionProofs
  import opened Replies
  import opened Tunnels
  import opened TunnelProofs
  import R = Responses
  import H = HeaderFilters

  const SID: Sid := "s"
  const PUBLIC := H.PublicRequest("GET", "/", map[], "192.0.2.1", "example.org", true)
  const LOCAL := Local(200, map[], [])

  /** Request ids as the gateway generates them: any, but no two the same. */
  predicate Fresh(ids: seq<Id>) {
    && (forall i :: 0 <= i < |ids| ==> 0 < |ids[i]| < 65536)
    && (forall i, j :: 0 <= i < j < |ids| ==> ids[i] != ids[j])
  }

  function StartOf(r: Id): Message { RequestStart(r, H.HeadOf(PUBLIC, r), -1) }

  // ----- Reachable states -----

  /** Handlers that still have something to do. */
  predicate AtMostOne(handlers: map<Id, Handler>) {
    forall a, b :: a in handlers && b in handlers && !handlers[a].phase.Finished? && !handlers[b].phase.Finished?
        ==> a == b
  }

  /** A cancel is not sent only because the queue it was tried on is full. */
  predicate Earnest(s: System, e: Event) {
    e.GiveUp? && !e.notified ==>
      e.r in s.handlers && s.handlers[e.r].sid in s.conns && !HasRoom(s.conns[s.handlers[e.r].sid].down)
  }

  /** Runs with one request after the other, each cancel tried. */
  function SoloRun(events: seq<Event>): Option<System> {
    if events == [] then Some(IDLE)
    else
      var before, e := SoloRun(events[..|events| - 1]), events[|events| - 1];
      if before.Some? && CanHappen(before.value, e) && Earnest(before.value, e)
          && AtMostOne(Happen(before.value, e).handlers)
      then Some(Happen(before.value, e)) else None
  }

  ghost predicate Reached(events: seq<Event>, s: System, solo: bool) {
    SystemRun(events) == Some(s) && (solo ==> SoloRun(events) == Some(s) && AtMostOne(s.handlers))
  }

  ghost predicate Reachable(s: System, solo: bool) {
    exists events :: Reached(events, s, solo)
  }

  lemma ReachableIdle(solo: bool)
    ensures Reachable(IDLE, solo)
  {
    assert Reached([], IDLE, solo);
  }

  lemma ReachableNext(s: System, e: Event, solo: bool)
    requires Reachable(s, solo) && CanHappen(s, e)
    requires solo ==> Earnest(s, e) && AtMostOne(Happen(s, e).handlers)
    ensures Reachable(Happen(s, e), solo)
  {
    var events :| Reached(events, s, solo);
    assert (events + [e])[..|events|] == events;
    assert Reached(events + [e], Happen(s, e), solo);
  }

  lemma ReachableInv(s: System, solo: bool)
    requires Reachable(s, solo)
    ensures SystemInv(s)
  {
    var events :| Reached(events, s, solo);
    SystemRunKeeps(events);
  }

  /** In a reachable state the session is at `c`, and the handlers are those of
      the first `k` ids. */
  ghost predicate At(s: System, c: Conn, ids: seq<Id>, k: nat, solo: bool) {
    && Reachable(s, solo) && k <= |ids| && Fresh(ids) && (solo ==> AtMostOne(s.handlers))
    && SID in s.conns && s.conns[SID] == c && forall r :: r in s.handlers <==> r in ids[..k]
  }

  lemma AtConnInv(s: System, c: Conn, ids: seq<Id>, k: nat, solo: bool)
    requires At(s, c, ids, k, solo)
    ensures ConnInv(c)
  {
    ReachableInv(s, solo);
  }

  predicate AllFinished(s: System) { forall r :: r in s.handlers ==> s.handlers[r].phase.Finished? }

  lemma Inner(s: System, c: Conn, e: ConnEvent, ids: seq<Id>, k: nat, solo: bool) returns (t: System)
    requires At(s, c, ids, k, solo) && CanStep(c, e)
    ensures At(t, StepConn(c, e), ids, k, solo) && t.handlers == s.handlers && (!e.ReadUp? ==> t.manager == s.manager)
  {
    t := Happen(s, Inside(SID, e));
    ReachableNext(s, Inside(SID, e), solo);
  }

  lemma Connected(workers: nat, ids: seq<Id>, solo: bool) returns (s: System)
    requires Fresh(ids)
    ensures At(s, NewConn(true, workers), ids, 0, solo) && AllFinished(s)
  {
    ReachableIdle(solo);
    ReachableNext(IDLE, Connect(SID, true, workers), solo);
    s := Happen(IDLE, Connect(SID, true, workers));
  }

  /** The handler of the k-th id is sending, `sent` bytes of its body so far. */
  predicate SendingNow(s: System, r: Id, sent: nat) {
    && r in s.handlers && s.handlers[r].phase.Sending? && s.handlers[r].sid == SID
    && s.handlers[r].upload.contentLength == -1 && |Join(s.handlers[r].upload.parts)| == sent
  }

  lemma NewId(ids: seq<Id>, k: nat)
    requires Fresh(ids) && k < |ids|
    ensures ids[k] !in ids[..k] && ids[..k + 1] == ids[..k] + [ids[k]]
  {
  }

  lemma ArriveNext(s: System, c: Conn, ids: seq<Id>, k: nat, solo: bool) returns (t: System)
    requires At(s, c, ids, k, solo) && k < |ids| && (solo ==> AllFinished(s))
    ensures At(t, c, ids, k + 1, solo)
    ensures t.handlers == s.handlers[ids[k] := NewHandler(ids[k], SID, |s.manager.boxes|, PUBLIC, -1)]
  {
    NewId(ids, k);
    t := Happen(s, Arrive(ids[k], SID, PUBLIC, -1));
    ReachableNext(s, Arrive(ids[k], SID, PUBLIC, -1), solo);
  }

  /** A handler that has sent its start and nothing else. */
  predicate JustStarted(h: Handler) {
    h.phase.Sending? && h.sid == SID && h.upload.contentLength == -1 && h.upload.parts == []
  }

  /** A fresh handler sends its request start. */
  lemma StartRequest(s: System, c: Conn, ids: seq<Id>, k: nat, solo: bool) returns (t: System)
    requires At(s, c, ids, k, solo) && k < |ids| && (solo ==> AllFinished(s)) && ChannelOk(c.down) && HasRoom(c.down)
    ensures At(t, c.(down := Push(c.down, StartOf(ids[k]))), ids, k + 1, solo)
    ensures ids[k] in t.handlers && JustStarted(t.handlers[ids[k]])
            && t.handlers == s.handlers[ids[k] := t.handlers[ids[k]]]
  {
    var a := ArriveNext(s, c, ids, k, solo);
    t := SendFirst(a, c, ids, k, solo);
    MapTwice(s.handlers, ids[k], a.handlers[ids[k]], t.handlers[ids[k]]);
  }

  lemma SendFirst(s: System, c: Conn, ids: seq<Id>, k: nat, solo: bool) returns (t: System)
    requires At(s, c, ids, k + 1, solo) && ChannelOk(c.down) && HasRoom(c.down)
    requires ids[k] in s.handlers
             && exists channel: nat :: s.handlers[ids[k]] == NewHandler(ids[k], SID, channel, PUBLIC, -1)
    ensures At(t, c.(down := Push(c.down, StartOf(ids[k]))), ids, k + 1, solo)
    ensures ids[k] in t.handlers && JustStarted(t.handlers[ids[k]])
            && t.handlers == s.handlers[ids[k] := t.handlers[ids[k]]]
  {
    var r := ids[k];
    assert CanHappen(s, SendStart(r));
    t := Happen(s, SendStart(r));
    assert solo ==> AtMostOne(t.handlers);
    ReachableNext(s, SendStart(r), solo);
  }

  predicate Drained(ch: Channel) { ch.read == ch.written == |ch.log| }

  // ----- Stream limit -----

  /** The agent is live, has read everything, and `k` request streams are open. */
  ghost predicate Opened(c: Conn, k: nat) {
    && ChannelOk(c.down) && ChannelOk(c.up) && Drained(c.down)
    && !c.agentDone && !c.gatewayDone && c.agent.pool.held.None?
    && |c.agent.reader.pending| == k
  }

  /** The next message on the wire to the agent is a start; what follows it, if
      anything, are chunks. */
  ghost predicate Offered(c: Conn, r: Id, k: nat) {
    && CanStep(c, ReadDown) && c.down.written == |c.down.log|
    && c.down.log[c.down.read] == StartOf(r)
    && (forall i :: c.down.read < i < |c.down.log| ==> c.down.log[i].Chunk?)
    && !c.gatewayDone && |c.agent.reader.pending| == k
  }

  lemma OfferStream(s: System, c: Conn, ids: seq<Id>, k: nat, solo: bool) returns (t: System, d: Conn)
    requires At(s, c, ids, k, solo) && k < |ids| && (solo ==> AllFinished(s)) && Opened(c, k)
    ensures At(t, d, ids, k + 1, solo) && Offered(d, ids[k], k) && d.down.read + 1 == |d.down.log|
    ensures ids[k] in t.handlers && JustStarted(t.handlers[ids[k]])
            && t.handlers == s.handlers[ids[k] := t.handlers[ids[k]]]
  {
    var x := StartRequest(s, c, ids, k, solo);
    var sent := c.(down := Push(c.down, StartOf(ids[k])));
    t := Inner(x, sent, WriteDown, ids, k + 1, solo);
    d := StepConn(sent, WriteDown);
  }

  /** Reading on, with chunks to come: still live, one more stream open. */
  ghost predicate Catching(c: Conn, k: nat) {
    && ChannelOk(c.down) && ChannelOk(c.up) && c.down.written == |c.down.log|
    && !c.agentDone && !c.gatewayDone && c.agent.pool.held.None?
    && |c.agent.reader.pending| == k
    && (forall i :: c.down.read <= i < |c.down.log| ==> c.down.log[i].Chunk?)
  }

  lemma OpenStream(c: Conn, r: Id, k: nat)
    requires ConnInv(c) && Offered(c, r, k) && k < STREAM_LIMIT
    ensures Catching(StepConn(c, ReadDown), k + 1)
  {
    ReaderRejectsExactly(c);
    MapGrown(c.agent.reader.pending, r, Pending(H.HeadOf(PUBLIC, r), Assembler(-1, 0, [])));
  }

  lemma ReadStart(s: System, c: Conn, ids: seq<Id>, k: nat) returns (t: System, d: Conn)
    requires At(s, c, ids, k + 1, false) && Offered(c, ids[k], k) && k < STREAM_LIMIT && c.down.read + 1 == |c.down.log|
    ensures At(t, d, ids, k + 1, false) && Opened(d, k + 1) && t.handlers == s.handlers
  {
    AtConnInv(s, c, ids, k + 1, false);
    OpenStream(c, ids[k], k);
    t := Inner(s, c, ReadDown, ids, k + 1, false);
    d := StepConn(c, ReadDown);
  }

  predicate AllJustStarted(s: System) { forall r :: r in s.handlers ==> JustStarted(s.handlers[r]) }

  lemma {:induction false} StreamsOpen(ids: seq<Id>, k: nat) returns (s: System, c: Conn)
    requires Fresh(ids) && k <= STREAM_LIMIT && k < |ids|
    ensures At(s, c, ids, k, false) && Opened(c, k) && AllJustStarted(s)
  {
    if k == 0 {
      s := Connected(1, ids, false);
      c := NewConn(true, 1);
    } else {
      var before, b := StreamsOpen(ids, k - 1);
      var offered, d := OfferStream(before, b, ids, k - 1, false);
      s, c := ReadStart(offered, d, ids, k - 1);
    }
  }

  /** The handlers of the run are those of `ids`. */
  ghost predicate Uses(s: System, ids: seq<Id>) { forall r :: r in s.handlers <==> r in ids }

  lemma AtUses(s: System, c: Conn, ids: seq<Id>, solo: bool)
    requires At(s, c, ids, |ids|, solo)
    ensures Uses(s, ids)
  {
    assert ids[..|ids|] == ids;
  }

  /** The agent's reader is about to end the session. */
  ghost predicate ReaderFails(s: System) {
    && SID in s.conns && CanStep(s.conns[SID], ReadDown)
    && Read(s.conns[SID].agent.reader, s.conns[SID].down.log[s.conns[SID].down.read]).Broken?
    && !s.conns[SID].agentDone && StepConn(s.conns[SID], ReadDown).agentDone
  }

  /** The gateway has no limit to match the agent's: any 33 handlers that have just
      sent their starts, and nothing else, make the agent end the session. */
  lemma StreamLimitReached(ids: seq<Id>) returns (events: seq<Event>)
    requires Fresh(ids) && |ids| == STREAM_LIMIT + 1
    ensures SystemRun(events).Some? && ReaderFails(SystemRun(events).value)
    ensures Uses(SystemRun(events).value, ids) && AllJustStarted(SystemRun(events).value)
  {
    var full, c := StreamsOpen(ids, STREAM_LIMIT);
    var s, d := OfferStream(full, c, ids, STREAM_LIMIT, false);
    AtUses(s, d, ids, false);
    events :| Reached(events, s, false);
  }

  // ----- The same limit, one request at a time -----

  /** Nothing has been written yet: a start and `j` chunks fill the queue. */
  ghost predicate Filling(c: Conn, r: Id, k: nat, j: nat) {
    && ChannelOk(c.down) && ChannelOk(c.up) && c.down.read == c.down.written && |c.down.log| == c.down.read + 1 + j
    && c.down.log[c.down.read] == StartOf(r)
    && (forall i :: c.down.read < i < |c.down.log| ==> c.down.log[i].Chunk?)
    && !c.agentDone && !c.gatewayDone && c.agent.pool.held.None? && |c.agent.reader.pending| == k
  }

  lemma SendByte(s: System, c: Conn, ids: seq<Id>, k: nat, j: nat) returns (t: System, m: Message)
    requires At(s, c, ids, k, true) && k > 0 && SendingNow(s, ids[k - 1], j) && j < MAX_BODY && ChannelOk(c.down)
             && HasRoom(c.down)
    ensures m.Chunk? && At(t, c.(down := Push(c.down, m)), ids, k, true) && SendingNow(t, ids[k - 1], j + 1)
  {
    var r := ids[k - 1];
    var h := s.handlers[r];
    m := Chunk(r, RequestChunk, |h.upload.parts| % SEQUENCE_MOD, [0]);
    JoinPush(h.upload.parts, [0]);
    assert CanHappen(s, SendChunk(r, [0]));
    t := Happen(s, SendChunk(r, [0]));
    assert AtMostOne(t.handlers);
    ReachableNext(s, SendChunk(r, [0]), true);
  }

  lemma {:induction false} FillQueue(s: System, c: Conn, ids: seq<Id>, k: nat, j: nat) returns (t: System, d: Conn)
    requires At(s, c, ids, k, true) && k < |ids| && AllFinished(s) && Opened(c, k) && j < QUEUE_CAPACITY
    ensures At(t, d, ids, k + 1, true) && Filling(d, ids[k], k, j) && SendingNow(t, ids[k], j)
    decreases j
  {
    if j == 0 {
      t := StartRequest(s, c, ids, k, true);
      d := c.(down := Push(c.down, StartOf(ids[k])));
    } else {
      var x, b := FillQueue(s, c, ids, k, j - 1);
      var m;
      t, m := SendByte(x, b, ids, k + 1, j - 1);
      d := b.(down := Push(b.down, m));
    }
  }

  /** The handler gives up, its cancel finding the queue full, and is done. */
  lemma Abandon(s: System, c: Conn, ids: seq<Id>, k: nat, j: nat) returns (t: System)
    requires At(s, c, ids, k, true) && k > 0 && SendingNow(s, ids[k - 1], j) && !HasRoom(c.down)
    ensures At(t, c, ids, k, true) && AllFinished(t)
  {
    var r := ids[k - 1];
    assert CanHappen(s, GiveUp(r, false)) && Earnest(s, GiveUp(r, false));
    var a := Happen(s, GiveUp(r, false));
    assert AtMostOne(a.handlers);
    ReachableNext(s, GiveUp(r, false), true);
    t := Happen(a, Finish(r));
    assert AllFinished(t);
    ReachableNext(a, Finish(r), true);
  }

  lemma {:induction false} WriteAll(s: System, c: Conn, ids: seq<Id>, k: nat) returns (t: System)
    requires At(s, c, ids, k, true) && !c.gatewayDone && ChannelOk(c.down) && ChannelOk(c.up)
    ensures At(t, c.(down := c.down.(written := |c.down.log|)), ids, k, true) && t.handlers == s.handlers
    decreases |c.down.log| - c.down.written
  {
    if c.down.written == |c.down.log| {
      t := s;
    } else {
      var x := Inner(s, c, WriteDown, ids, k, true);
      t := WriteAll(x, StepConn(c, WriteDown), ids, k);
    }
  }

  lemma CatchChunk(c: Conn, n: nat)
    requires ConnInv(c) && Catching(c, n) && c.down.read < |c.down.log|
    ensures CanStep(c, ReadDown) && Catching(StepConn(c, ReadDown), n)
    ensures StepConn(c, ReadDown).down == c.down.(read := c.down.read + 1)
  {
    var m := c.down.log[c.down.read];
    ReaderRejectsExactly(c);
    var p := c.agent.reader.pending[m.id];
    MapGrown(c.agent.reader.pending, m.id, p.(assembler := Add(p.assembler, m.payload)));
  }

  lemma {:induction false} CatchUp(s: System, c: Conn, ids: seq<Id>, k: nat, n: nat) returns (t: System, d: Conn)
    requires At(s, c, ids, k, true) && Catching(c, n)
    ensures At(t, d, ids, k, true) && Opened(d, n) && t.handlers == s.handlers
    decreases |c.down.log| - c.down.read
  {
    if c.down.read == |c.down.log| {
      t, d := s, c;
    } else {
      AtConnInv(s, c, ids, k, true);
      CatchChunk(c, n);
      var x := Inner(s, c, ReadDown, ids, k, true);
      t, d := CatchUp(x, StepConn(c, ReadDown), ids, k, n);
    }
  }

  lemma ReadRequest(s: System, c: Conn, ids: seq<Id>, k: nat) returns (t: System, d: Conn)
    requires At(s, c, ids, k + 1, true) && Offered(c, ids[k], k) && k < STREAM_LIMIT
    ensures At(t, d, ids, k + 1, true) && Opened(d, k + 1) && t.handlers == s.handlers
  {
    AtConnInv(s, c, ids, k + 1, true);
    OpenStream(c, ids[k], k);
    var x := Inner(s, c, ReadDown, ids, k + 1, true);
    t, d := CatchUp(x, StepConn(c, ReadDown), ids, k + 1, k + 1);
  }

  /** One handler comes and goes, and its stream stays open at the agent. */
  lemma LeakOne(s: System, c: Conn, ids: seq<Id>, k: nat) returns (t: System, d: Conn)
    requires At(s, c, ids, k, true) && k < |ids| && AllFinished(s) && Opened(c, k) && k < STREAM_LIMIT
    ensures At(t, d, ids, k + 1, true) && AllFinished(t) && Opened(d, k + 1)
  {
    var x, full := FillQueue(s, c, ids, k, QUEUE_CAPACITY - 1);
    var y := Abandon(x, full, ids, k + 1, QUEUE_CAPACITY - 1);
    var z := WriteAll(y, full, ids, k + 1);
    t, d := ReadRequest(z, full.(down := full.down.(written := |full.down.log|)), ids, k);
  }

  lemma {:induction false} StreamsLeaked(ids: seq<Id>, k: nat) returns (s: System, c: Conn)
    requires Fresh(ids) && k <= STREAM_LIMIT && k < |ids|
    ensures At(s, c, ids, k, true) && AllFinished(s) && Opened(c, k)
  {
    if k == 0 {
      s := Connected(1, ids, true);
      c := NewConn(true, 1);
    } else {
      var before, b := StreamsLeaked(ids, k - 1);
      s, c := LeakOne(before, b, ids, k - 1);
    }
  }

  /** A dropped cancel leaks a stream: although never more than one handler is
      unfinished and every one that breaks off tries to cancel, any 33 requests
      in a row can make the agent end the session. */
  lemma LeakReachesLimit(ids: seq<Id>) returns (events: seq<Event>)
    requires Fresh(ids) && |ids| == STREAM_LIMIT + 1
    ensures SoloRun(events).Some? && SystemRun(events) == SoloRun(events) && ReaderFails(SystemRun(events).value)
    ensures var s := SystemRun(events).value;
            && Uses(s, ids) && JustStarted(s.handlers[ids[STREAM_LIMIT]])
            && forall r :: r in s.handlers && r != ids[STREAM_LIMIT] ==> s.handlers[r].phase.Finished?
  {
    var full, c := StreamsLeaked(ids, STREAM_LIMIT);
    var s, d := OfferStream(full, c, ids, STREAM_LIMIT, true);
    AtUses(s, d, ids, true);
    events :| Reached(events, s, true);
  }

  // ----- Worker limit -----

  /** A live connection with `running` jobs at the workers and `k` responses in
      progress at the gateway; none of its local bodies has a byte. */
  ghost predicate Busy(c: Conn, workers: nat, running: nat, ids: seq<Id>, k: nat) {
    && c.hasLocal && !c.agentDone && !c.gatewayDone && ChannelOk(c.down) && ChannelOk(c.up)
    && c.agent.pool.workers == workers && |c.agent.pool.running| == running
    && |c.responses| == k <= |ids| && (forall r :: r in c.responses ==> r in ids[..k])
    && (forall i :: 0 <= i < k ==> Begun(c.calls, ids[i]))
  }

  /** The call has sent the start of its answer, whose body has no byte. */
  predicate Begun(calls: map<Id, Call>, r: Id) { r in calls && calls[r].stage == Streaming(LOCAL, []) }

  ghost predicate Unoccupied(a: Agent) {
    a.pool.held.None? && a.pool.jobs == [] && a.reader.pending == map[]
  }

  /** `k` requests have been dispatched and their response starts accepted. */
  ghost predicate Serving(c: Conn, workers: nat, ids: seq<Id>, k: nat) {
    Busy(c, workers, k, ids, k) && Unoccupied(c.agent) && Drained(c.down) && Drained(c.up)
  }

  /** The next request is on the wire to the agent. */
  ghost predicate Sent(c: Conn, workers: nat, ids: seq<Id>, k: nat) {
    && k < |ids| && Busy(c, workers, k, ids, k) && Unoccupied(c.agent) && Drained(c.up)
    && c.down.read + 2 == c.down.written == |c.down.log|
    && c.down.log[c.down.read] == StartOf(ids[k])
    && c.down.log[c.down.read + 1] == RequestEnd(ids[k])
  }

  ghost predicate Started(c: Conn, workers: nat, ids: seq<Id>, k: nat) {
    && k < |ids| && Busy(c, workers, k, ids, k) && Drained(c.up) && c.agent.pool.held.None? && c.agent.pool.jobs == []
    && c.agent.reader.pending == map[ids[k] := Pending(H.HeadOf(PUBLIC, ids[k]), Assembler(-1, 0, []))]
    && c.down.read + 1 == c.down.written == |c.down.log|
    && c.down.log[c.down.read] == RequestEnd(ids[k])
  }

  ghost predicate Dispatching(c: Conn, workers: nat, ids: seq<Id>, k: nat) {
    && k < |ids| && Busy(c, workers, k, ids, k) && Drained(c.up) && Drained(c.down)
    && c.agent.pool.jobs == [] && c.agent.reader.pending == map[]
    && c.agent.pool.held.Some? && c.agent.pool.held.value.id == ids[k]
    && ids[k] in c.calls && !c.calls[ids[k]].retired
  }

  ghost predicate Working(c: Conn, workers: nat, ids: seq<Id>, k: nat) {
    && k < |ids| && Busy(c, workers, k + 1, ids, k) && Unoccupied(c.agent) && Drained(c.up) && Drained(c.down)
    && ids[k] in c.calls && c.calls[ids[k]].stage.Running? && !c.calls[ids[k]].retired
  }

  /** A worker's response start is on the wire to the gateway. */
  ghost predicate Replied(c: Conn, workers: nat, ids: seq<Id>, k: nat) {
    && k < |ids| && Busy(c, workers, k + 1, ids, k) && Begun(c.calls, ids[k]) && Unoccupied(c.agent) && Drained(c.down)
    && c.up.read + 1 == c.up.written == |c.up.log|
    && c.up.log[c.up.read] == ResponseStart(ids[k], AnswerHead(LOCAL))
  }

  lemma StartRead(c: Conn, workers: nat, ids: seq<Id>, k: nat)
    requires Sent(c, workers, ids, k) && Fresh(ids)
    ensures CanStep(c, ReadDown) && Started(StepConn(c, ReadDown), workers, ids, k)
  {
  }

  lemma EndRead(c: Conn, workers: nat, ids: seq<Id>, k: nat)
    requires Started(c, workers, ids, k) && Fresh(ids)
    ensures CanStep(c, ReadDown) && Dispatching(StepConn(c, ReadDown), workers, ids, k)
  {
    NewId(ids, k);
    assert StepConn(c, ReadDown).agent.reader.pending == map[];
  }

  lemma JobTaken(c: Conn, workers: nat, ids: seq<Id>, k: nat)
    requires Dispatching(c, workers, ids, k) && k < workers && Fresh(ids)
    ensures CanStep(c, EnqueueJob)
    ensures var d := StepConn(c, EnqueueJob); CanStep(d, TakeJob) && Working(StepConn(d, TakeJob), workers, ids, k)
  {
  }

  lemma ReplyStarted(c: Conn, workers: nat, ids: seq<Id>, k: nat)
    requires Working(c, workers, ids, k) && Fresh(ids)
    ensures CanStep(c, Begin(ids[k], LOCAL))
    ensures var d := StepConn(c, Begin(ids[k], LOCAL));
            CanStep(d, WriteUp) && Replied(StepConn(d, WriteUp), workers, ids, k)
  {
  }

  lemma ReplyAccepted(c: Conn, workers: nat, ids: seq<Id>, k: nat)
    requires Replied(c, workers, ids, k) && k < STREAM_LIMIT && Fresh(ids)
    ensures CanStep(c, ReadUp) && Serving(StepConn(c, ReadUp), workers, ids, k + 1)
  {
    NewId(ids, k);
    MapGrown(c.responses, ids[k], R.Assembly(AnswerHead(LOCAL), 0, []));
  }

  lemma ReplyRejected(c: Conn, workers: nat, ids: seq<Id>, k: nat)
    requires Replied(c, workers, ids, k) && k >= STREAM_LIMIT && Fresh(ids)
    ensures CanStep(c, ReadUp) && R.Accept(c.responses, c.up.log[c.up.read]).Rejected?
    ensures forall i :: 0 <= i <= k ==> Begun(c.calls, ids[i])
  {
    NewId(ids, k);
  }

  predicate AwaitingNow(s: System, r: Id) {
    r in s.handlers && s.handlers[r].phase.Awaiting? && s.handlers[r].sid == SID
  }

  lemma SendRequest(s: System, c: Conn, workers: nat, ids: seq<Id>, k: nat) returns (t: System, d: Conn)
    requires At(s, c, ids, k, false) && k < |ids| && Serving(c, workers, ids, k)
    ensures d == c.(down := Push(Push(c.down, StartOf(ids[k])), RequestEnd(ids[k])))
    ensures At(t, d, ids, k + 1, false) && AwaitingNow(t, ids[k])
  {
    var started := StartRequest(s, c, ids, k, false);
    var sent := c.(down := Push(c.down, StartOf(ids[k])));
    t := EndRequest(started, sent, ids, k);
    d := sent.(down := Push(sent.down, RequestEnd(ids[k])));
  }

  lemma EndRequest(s: System, c: Conn, ids: seq<Id>, k: nat) returns (t: System)
    requires At(s, c, ids, k + 1, false) && ChannelOk(c.down) && HasRoom(c.down)
    requires ids[k] in s.handlers && JustStarted(s.handlers[ids[k]])
    ensures At(t, c.(down := Push(c.down, RequestEnd(ids[k]))), ids, k + 1, false) && AwaitingNow(t, ids[k])
  {
    var r := ids[k];
    assert CanHappen(s, SendEnd(r));
    t := Happen(s, SendEnd(r));
    ReachableNext(s, SendEnd(r), false);
  }

  lemma WriteRequest(s: System, c: Conn, workers: nat, ids: seq<Id>, k: nat) returns (t: System, d: Conn)
    requires At(s, c, ids, k, false) && k < |ids| && Serving(c, workers, ids, k)
    ensures At(t, d, ids, k + 1, false) && Sent(d, workers, ids, k) && AwaitingNow(t, ids[k])
  {
    var x, first := SendRequest(s, c, workers, ids, k);
    var y := Inner(x, first, WriteDown, ids, k + 1, false);
    var second := StepConn(first, WriteDown);
    t := Inner(y, second, WriteDown, ids, k + 1, false);
    d := StepConn(second, WriteDown);
  }

  lemma DispatchRequest(s: System, c: Conn, workers: nat, ids: seq<Id>, k: nat) returns (t: System, d: Conn)
    requires At(s, c, ids, k + 1, false) && Sent(c, workers, ids, k)
    ensures At(t, d, ids, k + 1, false) && Dispatching(d, workers, ids, k) && t.handlers == s.handlers
  {
    StartRead(c, workers, ids, k);
    var x := Inner(s, c, ReadDown, ids, k + 1, false);
    var half := StepConn(c, ReadDown);
    EndRead(half, workers, ids, k);
    t := Inner(x, half, ReadDown, ids, k + 1, false);
    d := StepConn(half, ReadDown);
  }

  lemma TakeRequest(s: System, c: Conn, workers: nat, ids: seq<Id>, k: nat) returns (t: System, d: Conn)
    requires At(s, c, ids, k + 1, false) && Dispatching(c, workers, ids, k) && k < workers
    ensures At(t, d, ids, k + 1, false) && Working(d, workers, ids, k) && t.handlers == s.handlers
  {
    JobTaken(c, workers, ids, k);
    var x := Inner(s, c, EnqueueJob, ids, k + 1, false);
    var queued := StepConn(c, EnqueueJob);
    t := Inner(x, queued, TakeJob, ids, k + 1, false);
    d := StepConn(queued, TakeJob);
  }

  /** The next request reaches a worker. */
  lemma RunRequest(s: System, c: Conn, workers: nat, ids: seq<Id>, k: nat) returns (t: System, d: Conn)
    requires At(s, c, ids, k, false) && k < |ids| && Serving(c, workers, ids, k) && k < workers
    ensures At(t, d, ids, k + 1, false) && Working(d, workers, ids, k) && AwaitingNow(t, ids[k])
  {
    var x, sent := WriteRequest(s, c, workers, ids, k);
    var y, held := DispatchRequest(x, sent, workers, ids, k);
    t, d := TakeRequest(y, held, workers, ids, k);
  }

  lemma OfferReply(s: System, c: Conn, workers: nat, ids: seq<Id>, k: nat) returns (t: System, d: Conn)
    requires At(s, c, ids, k, false) && k < |ids| && Serving(c, workers, ids, k) && k < workers
    ensures At(t, d, ids, k + 1, false) && Replied(d, workers, ids, k)
  {
    var x, taken := RunRequest(s, c, workers, ids, k);
    ReplyStarted(taken, workers, ids, k);
    var y := Inner(x, taken, Begin(ids[k], LOCAL), ids, k + 1, false);
    var begun := StepConn(taken, Begin(ids[k], LOCAL));
    t := Inner(y, begun, WriteUp, ids, k + 1, false);
    d := StepConn(begun, WriteUp);
  }

  lemma {:induction false} RepliesOpen(workers: nat, ids: seq<Id>, k: nat) returns (s: System, c: Conn)
    requires Fresh(ids) && k < |ids| && k <= STREAM_LIMIT && k <= workers
    ensures At(s, c, ids, k, false) && Serving(c, workers, ids, k)
  {
    if k == 0 {
      s := Connected(workers, ids, false);
      c := NewConn(true, workers);
    } else {
      var before, b := RepliesOpen(workers, ids, k - 1);
      var offered, d := OfferReply(before, b, workers, ids, k - 1);
      ReplyAccepted(d, workers, ids, k - 1);
      s := Inner(offered, d, ReadUp, ids, k, false);
      c := StepConn(d, ReadUp);
    }
  }

  lemma CallsUsed(s: System, c: Conn, ids: seq<Id>, solo: bool)
    requires At(s, c, ids, |ids|, solo)
    ensures forall r :: r in c.calls ==> r in ids
  {
    ReachableInv(s, solo);
    forall r | r in c.calls ensures r in ids {
      CalledHere(s.conns, s.handlers, SID, r);
    }
  }

  /** The gateway's session loop is about to end the session. */
  ghost predicate GatewayFails(s: System) {
    && SID in s.conns && CanStep(s.conns[SID], ReadUp)
    && R.Accept(s.conns[SID].responses, s.conns[SID].up.log[s.conns[SID].up.read]).Rejected?
    && !s.conns[SID].gatewayDone && StepConn(s.conns[SID], ReadUp).gatewayDone
  }

  /** The bound of 32 workers is necessary as well as sufficient: with any larger
      pool, some run of any 33 requests with empty local bodies makes the gateway
      reject a response start. */
  lemma WorkerLimitReached(workers: nat, ids: seq<Id>) returns (events: seq<Event>)
    requires workers > STREAM_LIMIT && Fresh(ids) && |ids| == STREAM_LIMIT + 1
    ensures SystemRun(events).Some? && GatewayFails(SystemRun(events).value)
    ensures Uses(SystemRun(events).value, ids)
    ensures var c := SystemRun(events).value.conns[SID];
            && c.agent.pool.workers == workers
            && (forall r :: r in c.calls <==> r in ids) && (forall r :: r in ids ==> Begun(c.calls, r))
  {
    var full, c := RepliesOpen(workers, ids, STREAM_LIMIT);
    var s, d := OfferReply(full, c, workers, ids, STREAM_LIMIT);
    ReplyRejected(d, workers, ids, STREAM_LIMIT);
    AtUses(s, d, ids, false);
    CallsUsed(s, d, ids, false);
    events :| Reached(events, s, false);
  }

  // ----- Body limit -----

  /** One call is streaming `local`; the gateway has all `parts` of it so far. */
  ghost predicate Streamed(c: Conn, r: Id, local: Local, parts: seq<Bytes>) {
    && c.hasLocal && !c.agentDone && !c.gatewayDone && ChannelOk(c.down) && ChannelOk(c.up) && Drained(c.up)
    && c.agent.pool.workers == 1 && c.calls.Keys == {r} && c.calls[r].stage == Streaming(local, parts)
    && r in c.responses && |c.responses[r].body| == |Join(parts)|
  }

  /** ... and the next part is on the wire. */
  ghost predicate Emitting(c: Conn, r: Id, local: Local, parts: seq<Bytes>, part: Bytes) {
    && c.hasLocal && !c.agentDone && !c.gatewayDone && ChannelOk(c.down) && ChannelOk(c.up)
    && c.up.read + 1 == c.up.written == |c.up.log|
    && c.agent.pool.workers == 1 && c.calls.Keys == {r} && c.calls[r].stage == Streaming(local, parts + [part])
    && c.up.log[c.up.read].Chunk? && c.up.log[c.up.read].id == r && c.up.log[c.up.read].payload == part
    && r in c.responses && |c.responses[r].body| == |Join(parts)|
  }

  /** A next part of the local body, as one read may return it. */
  predicate NextOf(local: Local, parts: seq<Bytes>, part: Bytes) {
    0 < |part| <= CHUNK_SIZE && Join(parts) + part <= local.body
  }

  lemma EmitPart(c: Conn, r: Id, local: Local, parts: seq<Bytes>, part: Bytes)
    requires Streamed(c, r, local, parts) && NextOf(local, parts, part)
    ensures CanStep(c, Emit(r, |part|))
    ensures var d := StepConn(c, Emit(r, |part|));
            CanStep(d, WriteUp) && Emitting(StepConn(d, WriteUp), r, local, parts, part)
  {
    assert (Join(parts) + part)[|Join(parts)|..] == part;
    assert NextPart(c.calls[r].stage, |part|) == part;
  }

  lemma PartAccepted(c: Conn, r: Id, local: Local, parts: seq<Bytes>, part: Bytes)
    requires ConnInv(c)
    requires Emitting(c, r, local, parts, part) && |Join(parts)| + |part| <= MAX_BODY
    ensures CanStep(c, ReadUp) && Streamed(StepConn(c, ReadUp), r, local, parts + [part])
  {
    GatewayRejectsExactly(c);
    JoinPush(parts, part);
  }

  lemma PartRejected(c: Conn, r: Id, local: Local, parts: seq<Bytes>, part: Bytes)
    requires ConnInv(c)
    requires Emitting(c, r, local, parts, part) && |Join(parts)| + |part| > MAX_BODY
    ensures CanStep(c, ReadUp) && R.Accept(c.responses, c.up.log[c.up.read]).Rejected?
  {
    GatewayRejectsExactly(c);
  }

  lemma OfferPart(s: System, c: Conn, r: Id, local: Local, parts: seq<Bytes>, part: Bytes) returns (t: System, d: Conn)
    requires At(s, c, [r], 1, false) && Streamed(c, r, local, parts) && NextOf(local, parts, part)
    ensures At(t, d, [r], 1, false) && Emitting(d, r, local, parts, part) && t.handlers == s.handlers
  {
    EmitPart(c, r, local, parts, part);
    var x := Inner(s, c, Emit(r, |part|), [r], 1, false);
    var emitted := StepConn(c, Emit(r, |part|));
    t := Inner(x, emitted, WriteUp, [r], 1, false);
    d := StepConn(emitted, WriteUp);
  }

  lemma AcceptPart(s: System, c: Conn, r: Id, local: Local, parts: seq<Bytes>, part: Bytes) returns (t: System, d: Conn)
    requires At(s, c, [r], 1, false) && Emitting(c, r, local, parts, part) && |Join(parts)| + |part| <= MAX_BODY
    ensures At(t, d, [r], 1, false) && Streamed(d, r, local, parts + [part]) && t.handlers == s.handlers
  {
    AtConnInv(s, c, [r], 1, false);
    PartAccepted(c, r, local, parts, part);
    t := Inner(s, c, ReadUp, [r], 1, false);
    d := StepConn(c, ReadUp);
  }

  /** Nobody else has ever called: the agent knows only the one request. */
  lemma OnlyCall(s: System, c: Conn, r: Id)
    requires At(s, c, [r], 1, false) && r in c.calls
    ensures c.calls.Keys == {r}
  {
    CallsUsed(s, c, [r], false);
  }

  lemma BeginStreaming(c: Conn, r: Id, local: Local)
    requires Working(c, 1, [r], 0) && c.calls.Keys == {r} && r != []
    ensures CanStep(c, Begin(r, local))
    ensures var d := StepConn(c, Begin(r, local));
            && CanStep(d, WriteUp)
            && var e := StepConn(d, WriteUp); CanStep(e, ReadUp) && Streamed(StepConn(e, ReadUp), r, local, [])
  {
  }

  /** The session has one request, and a worker has just taken it. */
  ghost predicate AtWork(s: System, c: Conn, r: Id) {
    At(s, c, [r], 1, false) && Working(c, 1, [r], 0) && AwaitingNow(s, r)
  }

  lemma PlainAtWork(r: Id) returns (s: System, c: Conn)
    requires Fresh([r])
    ensures AtWork(s, c, r)
  {
    var x := Connected(1, [r], false);
    s, c := RunRequest(x, NewConn(true, 1), 1, [r], 0);
  }

  lemma StreamBegun(from: System, at: Conn, r: Id, local: Local) returns (s: System, c: Conn)
    requires AtWork(from, at, r)
    ensures At(s, c, [r], 1, false) && Streamed(c, r, local, []) && s.handlers == from.handlers
  {
    OnlyCall(from, at, r);
    BeginStreaming(at, r, local);
    var z := Inner(from, at, Begin(r, local), [r], 1, false);
    var begun := StepConn(at, Begin(r, local));
    var w := Inner(z, begun, WriteUp, [r], 1, false);
    var written := StepConn(begun, WriteUp);
    s := Inner(w, written, ReadUp, [r], 1, false);
    c := StepConn(written, ReadUp);
  }

  /** Any cut of the front of a local body reaches the gateway, up to its limit. */
  lemma {:induction false} StreamParts(from: System, at: Conn, r: Id, local: Local, parts: seq<Bytes>)
    returns (s: System, c: Conn)
    requires AtWork(from, at, r) && Cut(parts) && Join(parts) <= local.body && |Join(parts)| <= MAX_BODY
    ensures At(s, c, [r], 1, false) && Streamed(c, r, local, parts) && s.handlers == from.handlers
    decreases |parts|
  {
    if parts == [] {
      s, c := StreamBegun(from, at, r, local);
    } else {
      var init, part := parts[..|parts| - 1], parts[|parts| - 1];
      var before, b := StreamParts(from, at, r, local, init);
      var offered, d := OfferPart(before, b, r, local, init, part);
      s, c := AcceptPart(offered, d, r, local, init, part);
      WithoutLast(parts);
    }
  }

  /** A body cut as large as the buffer allows. */
  function Slices(body: Bytes): (parts: seq<Bytes>)
    ensures Cut(parts) && Join(parts) == body
  {
    if body == [] then []
    else
      var k := if |body| > CHUNK_SIZE then |body| - CHUNK_SIZE else 0;
      JoinPush(Slices(body[..k]), body[k..]);
      Slices(body[..k]) + [body[k..]]
  }

  /** The agent caps no local body: for every local answer longer than 32 MiB, one
      request on one worker makes the gateway end the session. */
  lemma BodyLimitReached(r: Id, local: Local) returns (events: seq<Event>)
    requires 0 < |r| < 65536 && |local.body| > MAX_BODY
    ensures SystemRun(events).Some? && GatewayFails(SystemRun(events).value)
    ensures var c := SystemRun(events).value.conns[SID];
            && c.agent.pool.workers == 1 && c.calls.Keys == {r}
            && c.calls[r].stage.Streaming? && c.calls[r].stage.local == local
  {
    var parts, part := Slices(local.body[..MAX_BODY]), local.body[MAX_BODY..MAX_BODY + 1];
    var from, at := PlainAtWork(r);
    var full, c := StreamParts(from, at, r, local, parts);
    assert Join(parts) + part == local.body[..MAX_BODY + 1];
    var s, d := OfferPart(full, c, r, local, parts, part);
    AtConnInv(s, d, [r], 1, false);
    PartRejected(d, r, local, parts, part);
    events :| Reached(events, s, false);
  }
}
