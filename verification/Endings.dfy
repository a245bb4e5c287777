/** How a request can end although nothing was rejected: runs in which the local
    body is truncated without a sign of it, and in which a handler is not woken by
    the end of its session. */
module Endings {
  import opened Protocol
  import opened Connections
  import opened ConnectionProofs
  import opened Replies
  import opened Tunnels
  import opened TunnelProofs
  import opened Limits
  import R = Responses
  import H = HeaderFilters

  // ----- A reply on its way to a waiting handler -----

  /** Nothing has been sent, or is on its way, to a handler for which nothing would
      be legitimate. */
  lemma NoMail(m: Manager, conns: map<Sid, Conn>, handlers: map<Id, Handler>, r: Id)
    requires MailInv(m.inflight, m.boxes, m.sessions, conns, handlers)
    requires r in handlers && handlers[r].channel < |m.boxes|
    requires forall x :: !Legit(conns, m.sessions, handlers[r].sid, r, x)
    ensures Flying(m.inflight, handlers[r].channel) == 0 && m.boxes[handlers[r].channel].sent == []
  {
    var ch := handlers[r].channel;
    assert forall x :: !LegitOn(conns, m.sessions, handlers, ch, x);
    FlyingAbsent(m.inflight, ch);
    var sent := m.boxes[ch].sent;
    HasFirst(sent);
    assert forall x :: x in sent ==> LegitOn(conns, m.sessions, handlers, ch, x);
  }

  lemma HasFirst<T>(s: seq<T>)
    ensures s != [] ==> exists x :: x in s
  {
    assert s != [] ==> s[0] in s;
  }

  lemma OwnWaiter(m: Manager, handlers: map<Id, Handler>, sids: set<Sid>, r: Id)
    requires WaitersInv(m.pending, handlers) && HandlersInv(handlers, sids, |m.boxes|)
    requires r in handlers && Awaited(m.pending, handlers[r].channel)
    ensures r in m.pending && m.pending[r] == Waiter(handlers[r].sid, handlers[r].channel)
  {
    var id :| id in m.pending && m.pending[id].channel == handlers[r].channel;
    assert handlers[id].channel == handlers[r].channel;
  }

  /** No reply can have been sent to a handler whose session is up and has delivered
      nothing for it: its request is still pending. */
  lemma StillPending(s: System, r: Id)
    requires SystemInv(s) && r in s.handlers && !s.handlers[r].phase.Finished?
    requires var sid := s.handlers[r].sid;
             sid in s.conns && !Gone(s.conns, s.manager.sessions, sid) && r !in s.conns[sid].delivered
    ensures r in s.manager.pending && s.manager.pending[r] == Waiter(s.handlers[r].sid, s.handlers[r].channel)
  {
    NoMail(s.manager, s.conns, s.handlers, r);
    assert Balance(s.manager, s.handlers[r].channel) == 1;
    OwnWaiter(s.manager, s.handlers, s.conns.Keys, r);
  }

  lemma ReachedPending(s: System, r: Id, solo: bool)
    requires Reachable(s, solo) && r in s.handlers && !s.handlers[r].phase.Finished?
    requires var sid := s.handlers[r].sid; sid in s.conns && !s.conns[sid].gatewayDone && r !in s.conns[sid].delivered
    ensures r in s.manager.pending && s.manager.pending[r] == Waiter(s.handlers[r].sid, s.handlers[r].channel)
  {
    ReachableInv(s, solo);
    StillPending(s, r);
  }

  lemma ReachedManager(s: System, solo: bool)
    requires Reachable(s, solo)
    ensures ManagerInv(s.manager)
  {
    ReachableInv(s, solo);
  }

  lemma PostEffect(m: Manager, i: nat)
    requires ManagerInv(m) && i < |m.inflight|
    ensures CanDo(m, Post(i))
    ensures var n := Do(m, Post(i));
            && n.sessions == m.sessions && m.inflight[i].channel < |n.boxes|
            && n.boxes[m.inflight[i].channel] == Mailbox([m.inflight[i].response], 0)
  {
    PostReady(m, i);
  }

  /** A reply on its way is sent. */
  lemma HandOver(s: System, r: Id, i: nat, solo: bool) returns (t: System)
    requires Reachable(s, solo) && (solo ==> AtMostOne(s.handlers))
    requires r in s.handlers && i < |s.manager.inflight| && s.manager.inflight[i].channel == s.handlers[r].channel
    ensures Reachable(t, solo) && t.conns == s.conns && t.handlers == s.handlers
            && t.manager.sessions == s.manager.sessions
    ensures t.handlers[r].channel < |t.manager.boxes|
    ensures t.manager.boxes[t.handlers[r].channel] == Mailbox([s.manager.inflight[i].response], 0)
  {
    assert CanDo(s.manager, Post(i)) by {
      ReachedManager(s, solo);
      PostEffect(s.manager, i);
    }
    t := Happen(s, PostReply(i));
    ReachableNext(s, PostReply(i), solo);
    assert t.manager.boxes[t.handlers[r].channel] == Mailbox([s.manager.inflight[i].response], 0) by {
      ReachedManager(s, solo);
      PostEffect(s.manager, i);
    }
  }

  lemma Received(s: System, r: Id, x: Response) returns (t: System)
    requires Reachable(s, false) && AwaitingNow(s, r) && s.handlers[r].channel < |s.manager.boxes|
    requires s.manager.boxes[s.handlers[r].channel] == Mailbox([x], 0)
    ensures Reachable(t, false) && t.conns == s.conns && r in t.handlers
    ensures t.handlers[r] == s.handlers[r].(phase := Finishing, verdict := Some(VerdictOn(x)))
  {
    t := Happen(s, ReceiveReply(r));
    ReachableNext(s, ReceiveReply(r), false);
  }

  // ----- Truncation -----

  /** The call has ended, and its end message is on the wire. */
  ghost predicate Sealed(c: Conn, r: Id, outcome: Outcome) {
    && c.hasLocal && !c.agentDone && !c.gatewayDone && ChannelOk(c.down) && ChannelOk(c.up)
    && c.up.read + 1 == c.up.written == |c.up.log| && c.up.log[c.up.read] == ResponseEnd(r)
    && r in c.calls && c.calls[r].stage == Ended(outcome)
  }

  lemma SealsOff(c: Conn, r: Id, local: Local, parts: seq<Bytes>, eof: bool)
    requires Streamed(c, r, local, parts) && (eof ==> Join(parts) == local.body)
    ensures CanStep(c, Seal(r, eof))
    ensures var d := StepConn(c, Seal(r, eof));
            CanStep(d, WriteUp) && Sealed(StepConn(d, WriteUp), r, Answered(local, parts, eof))
  {
  }

  lemma SealStream(s: System, c: Conn, r: Id, local: Local, parts: seq<Bytes>, eof: bool) returns (t: System, d: Conn)
    requires At(s, c, [r], 1, false) && Streamed(c, r, local, parts) && (eof ==> Join(parts) == local.body)
    ensures At(t, d, [r], 1, false) && Sealed(d, r, Answered(local, parts, eof)) && t.handlers == s.handlers
  {
    SealsOff(c, r, local, parts, eof);
    var x := Inner(s, c, Seal(r, eof), [r], 1, false);
    var sealed := StepConn(c, Seal(r, eof));
    t := Inner(x, sealed, WriteUp, [r], 1, false);
    d := StepConn(sealed, WriteUp);
  }

  /** The session loop delivers the outcome. */
  lemma EndDelivers(c: Conn, r: Id, outcome: Outcome)
    requires ConnInv(c)
    requires Sealed(c, r, outcome)
    ensures CanStep(c, ReadUp) && r !in c.delivered
    ensures Delivers(c, ReadUp) == Some(R.Delivery(r, Result(outcome)))
    ensures StepConn(c, ReadUp).calls == c.calls
  {
    GatewayRejectsExactly(c);
    NotDeliveredYet(c);
    StepKeeps(c, ReadUp);
    DeliveriesStand(c, ReadUp);
    R.AcceptDelivery(c.responses, c.up.log[c.up.read]);
    DeliveredIsOutcome(StepConn(c, ReadUp), r);
  }

  lemma DeliverEnd(s: System, c: Conn, r: Id, outcome: Outcome) returns (t: System, i: nat)
    requires At(s, c, [r], 1, false) && Sealed(c, r, outcome) && AwaitingNow(s, r)
    ensures Reachable(t, false) && t.handlers == s.handlers && SID in t.conns && t.conns[SID].calls == c.calls
    ensures i < |t.manager.inflight|
    ensures t.manager.inflight[i] == Letter(s.handlers[r].channel, Result(outcome))
  {
    AtConnInv(s, c, [r], 1, false);
    EndDelivers(c, r, outcome);
    ReachedPending(s, r, false);
    t, i := TakeIn(s, c, r, Result(outcome));
  }

  /** A call that has ended: its handler is told the outcome. */
  lemma OutcomeReaches(from: System, at: Conn, r: Id, outcome: Outcome) returns (s: System)
    requires At(from, at, [r], 1, false) && Sealed(at, r, outcome) && AwaitingNow(from, r)
    ensures Reachable(s, false) && r in s.handlers && SID in s.conns && s.conns[SID].calls == at.calls
    ensures s.handlers[r] == from.handlers[r].(phase := Finishing, verdict := Some(VerdictOn(Result(outcome))))
  {
    var a, i := DeliverEnd(from, at, r, outcome);
    var b := HandOver(a, r, i, false);
    s := Received(b, r, Result(outcome));
  }

  lemma TakeIn(s: System, c: Conn, r: Id, x: Response) returns (t: System, i: nat)
    requires At(s, c, [r], 1, false) && CanStep(c, ReadUp) && Delivers(c, ReadUp) == Some(R.Delivery(r, x))
    requires r in s.manager.pending
    ensures Reachable(t, false) && t.handlers == s.handlers && SID in t.conns && t.conns[SID] == StepConn(c, ReadUp)
    ensures i < |t.manager.inflight| && t.manager.inflight[i] == Letter(s.manager.pending[r].channel, x)
  {
    t := Happen(s, Inside(SID, ReadUp));
    ReachableNext(s, Inside(SID, ReadUp), false);
    i := |s.manager.inflight|;
  }

  /** A taken request whose local answer is cut anywhere: the handler gets that front. */
  lemma AnswerReaches(from: System, at: Conn, r: Id, local: Local, parts: seq<Bytes>, eof: bool) returns (s: System)
    requires AtWork(from, at, r) && Cut(parts) && Join(parts) <= local.body && |Join(parts)| <= MAX_BODY
    requires eof ==> Join(parts) == local.body
    ensures Reachable(s, false) && r in s.handlers && SID in s.conns && r in s.conns[SID].calls
    ensures s.conns[SID].calls[r].stage == Ended(Answered(local, parts, eof))
    ensures s.handlers[r] == from.handlers[r].(phase := Finishing, verdict := Some(VerdictOn(Shown(local, parts))))
  {
    var a, c := StreamParts(from, at, r, local, parts);
    var b, d := SealStream(a, c, r, local, parts, eof);
    s := OutcomeReaches(b, d, r, Answered(local, parts, eof));
  }

  function Shown(local: Local, parts: seq<Bytes>): Response {
    Response(local.status, H.WithoutHopByHop(local.headers), Join(parts), "")
  }

  /** For every local answer, and every cut of any front of its body that the gateway
      has room for, some run forwards exactly that front with the local status. Only
      the agent knows whether the local read had come to its end. */
  lemma TruncationReached(r: Id, local: Local, parts: seq<Bytes>, eof: bool) returns (events: seq<Event>)
    requires 0 < |r| < 65536 && Cut(parts) && Join(parts) <= local.body && |Join(parts)| <= MAX_BODY
    requires eof ==> Join(parts) == local.body
    ensures SystemRun(events).Some?
    ensures var s := SystemRun(events).value;
            && r in s.handlers && SID in s.conns && r in s.conns[SID].calls
            && s.conns[SID].calls[r].stage == Ended(Answered(local, parts, eof))
            && s.handlers[r].verdict
               == Some(Forwarded(Response(local.status, H.WithoutHopByHop(local.headers), Join(parts), "")))
  {
    var from, at := PlainAtWork(r);
    var s := AnswerReaches(from, at, r, local, parts, eof);
    H.FilterTwice(local.headers);
    events :| Reached(events, s, false);
  }

  // ----- A handler that is not woken -----

  /** The handler waits for room in a queue that nobody drains any more. */
  predicate Blocked(s: System, r: Id) {
    && r in s.handlers && s.handlers[r].phase.Sending? && s.handlers[r].sid in s.conns
    && s.conns[s.handlers[r].sid].gatewayDone && !HasRoom(s.conns[s.handlers[r].sid].down)
  }

  lemma DoneStays(c: Conn, e: ConnEvent)
    requires c.gatewayDone && CanStep(c, e)
    ensures StepConn(c, e).gatewayDone && HasRoom(StepConn(c, e).down) == HasRoom(c.down)
  {
  }

  /** Nothing but its own giving up ends the wait. */
  lemma BlockedStays(s: System, e: Event, r: Id)
    requires CanHappen(s, e) && Blocked(s, r) && e != GiveUp(r, false)
    ensures Blocked(Happen(s, e), r)
  {
    if e.Inside? && e.sid == s.handlers[r].sid {
      DoneStays(s.conns[e.sid], e.e);
    }
  }

  lemma {:induction false} BlockedForever(events: seq<Event>, more: seq<Event>, r: Id)
    requires SystemRun(events).Some? && Blocked(SystemRun(events).value, r)
    requires SystemRun(events + more).Some? && GiveUp(r, false) !in more
    ensures Blocked(SystemRun(events + more).value, r)
    decreases |more|
  {
    if more == [] {
      Associates(events, [], []);
    } else {
      var init, last := more[..|more| - 1], more[|more| - 1];
      ConcatLast(events, more);
      assert (events + more)[..|events + more| - 1] == events + init;
      assert last in more;
      BlockedForever(events, init, r);
      BlockedStays(SystemRun(events + init).value, last, r);
    }
  }

  lemma EndSession(s: System, c: Conn, r: Id) returns (t: System, i: nat)
    requires At(s, c, [r], 1, true) && ChannelOk(c.down) && ChannelOk(c.up) && !c.gatewayDone
    requires SendingNow(s, r, QUEUE_CAPACITY - 1)
    ensures Reachable(t, true) && t.handlers == s.handlers && AtMostOne(t.handlers) && SID in t.conns
    ensures t.conns[SID].down == c.down && Gone(t.conns, t.manager.sessions, SID)
    ensures i < |t.manager.inflight| && t.manager.inflight[i] == Letter(s.handlers[r].channel, DISCONNECTED)
  {
    ReachedUnanswered(s, r);
    ReachedPending(s, r, true);
    var x := Inner(s, c, StopGateway, [r], 1, true);
    t, i := LeaveSession(x, StepConn(c, StopGateway), r);
  }

  lemma ReachedUnanswered(s: System, r: Id)
    requires Reachable(s, true) && SendingNow(s, r, QUEUE_CAPACITY - 1) && SID in s.conns
    ensures r !in s.conns[SID].delivered
  {
    ReachableInv(s, true);
    assert HandlerOk(r, s.handlers[r]);
    NothingDelivered(s, r);
  }

  lemma OnlyWaiter(s: System, c: Conn, r: Id)
    requires At(s, c, [r], 1, true) && r in s.manager.pending && s.manager.pending[r].session == SID
    ensures CanDo(s.manager, Remove(SID, [r]))
  {
    ReachableInv(s, true);
    assert forall id :: id in s.manager.pending ==> id in s.handlers;
  }

  lemma LeaveSession(s: System, c: Conn, r: Id) returns (t: System, i: nat)
    requires At(s, c, [r], 1, true) && c.gatewayDone && r in s.manager.pending && s.manager.pending[r].session == SID
    ensures Reachable(t, true) && t.handlers == s.handlers && t.conns == s.conns
            && Gone(t.conns, t.manager.sessions, SID)
    ensures i < |t.manager.inflight| && t.manager.inflight[i] == Letter(s.manager.pending[r].channel, DISCONNECTED)
  {
    OnlyWaiter(s, c, r);
    RemoveEffect(s.manager, SID, [r]);
    t := Happen(s, Leave(SID, [r]));
    ReachableNext(s, Leave(SID, [r]), true);
    i := |s.manager.inflight|;
  }

  /** A request that has not been sent completely cannot have been answered. */
  lemma NothingDelivered(s: System, r: Id)
    requires SystemInv(s) && r in s.handlers && !s.handlers[r].upload.ended && s.handlers[r].sid in s.conns
    ensures r !in s.conns[s.handlers[r].sid].delivered
  {
    if r in s.conns[s.handlers[r].sid].delivered {
      DeliveredIsOutcome(s.conns[s.handlers[r].sid], r);
      CallCarriesRequest(s, s.handlers[r].sid, r);
    }
  }

  /** A handler can be blocked on a full queue when its session ends. The session is
      gone and its disconnect is in its channel, but it does not look there, and by
      BlockedForever it never will. */
  lemma BlockedReached(r: Id) returns (events: seq<Event>)
    requires 0 < |r| < 65536
    ensures SystemRun(events).Some?
    ensures var s := SystemRun(events).value;
            && Blocked(s, r) && s.handlers[r].sid == SID && Gone(s.conns, s.manager.sessions, SID)
            && |s.conns[SID].down.log| == s.conns[SID].down.written + 32
            && s.handlers[r].channel < |s.manager.boxes|
            && s.manager.boxes[s.handlers[r].channel] == Mailbox([DISCONNECTED], 0)
  {
    var a := Connected(1, [r], true);
    var b, c := FillQueue(a, NewConn(true, 1), [r], 0, QUEUE_CAPACITY - 1);
    var d, i := EndSession(b, c, r);
    var s := HandOver(d, r, i, true);
    events :| Reached(events, s, true);
  }
}
