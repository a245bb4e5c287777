/** The state of the data plane read off the events that led to it: which request
    a handler serves and what of it has been sent, and where a call's outcome
    comes from. Nothing here looks into a step's body; it is what ties the
    theorems about states to what clients, handlers and local services did. */
module Histories {
  import opened Protocol
  import opened Requests
  import opened Connections
  import opened Replies
  import opened Tunnels

  /** The body data the handler of `r` sent, read by read. */
  function PartsSent(events: seq<Event>, r: Id): seq<Bytes> {
    if events == [] then []
    else
      var last := events[|events| - 1];
      PartsSent(events[..|events| - 1], r) + (if last.SendChunk? && last.r == r then [last.data] else [])
  }

  /** What the handler of `r` did, by the events so far. */
  ghost predicate HandlerFits(events: seq<Event>, r: Id, h: Handler) {
    && Arrive(r, h.sid, h.public, h.upload.contentLength) in events
    && h.upload.parts == PartsSent(events, r)
    && (h.upload.started <==> SendStart(r) in events)
    && (h.upload.ended <==> SendEnd(r) in events)
    && (h.upload.cancelled <==> GiveUp(r, true) in events)
    && (h.phase.Finishing? || h.phase.Finished? <==> h.verdict.Some?)
    && (h.verdict == Some(Abandoned) <==> GiveUp(r, true) in events || GiveUp(r, false) in events)
    && (h.verdict.Some? && h.verdict != Some(Abandoned) <==> ReceiveReply(r) in events)
    && (h.phase.Finished? <==> Finish(r) in events)
  }

  /** Before `r` arrives nothing happens to it. */
  ghost predicate Untouched(events: seq<Event>, r: Id) {
    && PartsSent(events, r) == [] && SendStart(r) !in events && SendEnd(r) !in events && GiveUp(r, true) !in events
    && GiveUp(r, false) !in events && ReceiveReply(r) !in events && Finish(r) !in events
  }

  predicate OfHandler(e: Event, r: Id) { !e.Connect? && !e.Inside? && !e.Leave? && !e.PostReply? && e.r == r }

  /** What of handler `h` an event changes; the rest it keeps. */
  predicate Moved(h: Handler, e: Event, after: Handler) {
    && after.sid == h.sid && after.public == h.public && after.upload.contentLength == h.upload.contentLength
    && after.upload.parts == h.upload.parts + (if e.SendChunk? then [e.data] else [])
    && after.upload.started == (h.upload.started || e.SendStart?)
    && after.upload.ended == (h.upload.ended || e.SendEnd?)
    && after.upload.cancelled == (h.upload.cancelled || (e.GiveUp? && e.notified))
    && (after.phase.Finishing? || after.phase.Finished? <==> h.verdict.Some? || e.GiveUp? || e.ReceiveReply?)
    && (e.GiveUp? ==> h.verdict.None? && after.verdict == Some(Abandoned))
    && (e.ReceiveReply? ==> h.verdict.None? && after.verdict.Some? && after.verdict != Some(Abandoned))
    && (!e.GiveUp? && !e.ReceiveReply? ==> after.verdict == h.verdict)
    && (after.phase.Finished? <==> h.phase.Finished? || e.Finish?)
  }

  lemma OthersStay(s: System, e: Event, r: Id)
    requires CanHappen(s, e) && !OfHandler(e, r)
    ensures r in Happen(s, e).handlers <==> r in s.handlers
    ensures r in s.handlers ==> Happen(s, e).handlers[r] == s.handlers[r]
  {
  }

  lemma OwnMoves(s: System, e: Event, r: Id)
    requires CanHappen(s, e) && OfHandler(e, r) && !e.Arrive?
    requires r in s.handlers ==>
               (s.handlers[r].phase.Finishing? || s.handlers[r].phase.Finished? <==> s.handlers[r].verdict.Some?)
    ensures r in s.handlers && r in Happen(s, e).handlers && Moved(s.handlers[r], e, Happen(s, e).handlers[r])
  {
  }

  lemma FitsMoved(events: seq<Event>, r: Id, h: Handler, e: Event, after: Handler)
    requires HandlerFits(events, r, h) && OfHandler(e, r) && !e.Arrive? && Moved(h, e, after)
    ensures HandlerFits(events + [e], r, after)
  {
    var grown := events + [e];
    assert grown[..|events|] == events;
    assert forall x :: x in grown <==> x in events || x == e;
  }

  lemma StaysUntouched(events: seq<Event>, r: Id, e: Event)
    requires Untouched(events, r) && (e.Arrive? || !OfHandler(e, r))
    ensures Untouched(events + [e], r)
  {
    var grown := events + [e];
    assert grown[..|events|] == events;
    assert forall x :: x in grown <==> x in events || x == e;
  }

  lemma FitsUnmoved(events: seq<Event>, r: Id, h: Handler, e: Event)
    requires HandlerFits(events, r, h) && !OfHandler(e, r)
    ensures HandlerFits(events + [e], r, h)
  {
    var grown := events + [e];
    assert grown[..|events|] == events;
    assert forall x :: x in grown <==> x in events || x == e;
  }

  lemma FitsNew(events: seq<Event>, e: Event, channel: nat)
    requires e.Arrive? && Untouched(events, e.r)
    ensures HandlerFits(events + [e], e.r, NewHandler(e.r, e.sid, channel, e.public, e.contentLength))
  {
    StaysUntouched(events, e.r, e);
    assert e in events + [e];
  }

  lemma HandlerStep(events: seq<Event>, s: System, e: Event, r: Id)
    requires CanHappen(s, e)
    requires r in s.handlers ==> HandlerFits(events, r, s.handlers[r])
    requires r !in s.handlers ==> Untouched(events, r)
    ensures r in Happen(s, e).handlers ==> HandlerFits(events + [e], r, Happen(s, e).handlers[r])
    ensures r !in Happen(s, e).handlers ==> Untouched(events + [e], r)
  {
    if !OfHandler(e, r) {
      OthersStay(s, e, r);
      if r in s.handlers {
        FitsUnmoved(events, r, s.handlers[r], e);
      } else {
        StaysUntouched(events, r, e);
      }
    } else if e.Arrive? {
      FitsNew(events, e, |s.manager.boxes|);
    } else {
      OwnMoves(s, e, r);
      FitsMoved(events, r, s.handlers[r], e, Happen(s, e).handlers[r]);
    }
  }

  /** Every handler is the one of the public request that arrived under its id, and
      the part of the request it has sent is exactly what its own events sent. */
  lemma {:induction false} HandlerHistory(events: seq<Event>, r: Id)
    requires SystemRun(events).Some?
    ensures r in SystemRun(events).value.handlers ==> HandlerFits(events, r, SystemRun(events).value.handlers[r])
    ensures r !in SystemRun(events).value.handlers ==> Untouched(events, r)
  {
    if events != [] {
      var n := |events| - 1;
      HandlerHistory(events[..n], r);
      HandlerStep(events[..n], SystemRun(events[..n]).value, events[n], r);
      assert events == events[..n] + [events[n]];
    }
  }

  // ----- Calls -----

  /** Where the stage of call `r` on session `sid` comes from. */
  ghost predicate StageFits(events: seq<Event>, sid: Sid, r: Id, stage: Stage) {
    match stage
    case Streaming(local, _) => Inside(sid, Begin(r, local)) in events
    case Failing(error) => Inside(sid, Fail(r, error)) in events
    case Ended(Answered(local, _, eof)) =>
      Inside(sid, Begin(r, local)) in events && Inside(sid, Seal(r, eof)) in events
    case Ended(Failed(error)) => Inside(sid, Fail(r, error)) in events
    case _ => true
  }

  ghost predicate ConnFits(events: seq<Event>, sid: Sid, r: Id, c: Conn) {
    && Connect(sid, c.hasLocal, c.agent.pool.workers) in events
    && (r in c.calls ==> StageFits(events, sid, r, c.calls[r].stage))
  }

  /** A stage is kept, or comes from the event of its own call that leads to it. */
  predicate StageFrom(before: Option<Stage>, e: ConnEvent, r: Id, after: Stage) {
    || before == Some(after) || after.Waiting? || after.Running?
    || (after.Streaming? && before.Some? && before.value.Streaming? && before.value.local == after.local)
    || (after.Streaming? && e == Begin(r, after.local))
    || (after.Failing? && e == Fail(r, after.error))
    || (after.Ended? && after.outcome.Failed? && before == Some(Failing(after.outcome.error)))
    || (after.Ended? && after.outcome.Answered? && e == Seal(r, after.outcome.eof)
        && before.Some? && before.value.Streaming? && before.value.local == after.outcome.local)
  }

  lemma StageMoves(c: Conn, e: ConnEvent, r: Id)
    requires CanStep(c, e) && r in StepConn(c, e).calls
    ensures StageFrom(if r in c.calls then Some(c.calls[r].stage) else None, e, r, StepConn(c, e).calls[r].stage)
  {
  }

  lemma FitsFrom(events: seq<Event>, sid: Sid, e: ConnEvent, r: Id, before: Option<Stage>, after: Stage)
    requires before.Some? ==> StageFits(events, sid, r, before.value)
    requires StageFrom(before, e, r, after)
    ensures StageFits(events + [Inside(sid, e)], sid, r, after)
  {
    var grown := events + [Inside(sid, e)];
    assert forall x :: x in events ==> x in grown;
    assert Inside(sid, e) in grown;
  }

  lemma WorkersStay(c: Conn, e: ConnEvent)
    requires CanStep(c, e)
    ensures StepConn(c, e).hasLocal == c.hasLocal && StepConn(c, e).agent.pool.workers == c.agent.pool.workers
  {
  }

  lemma ConnStep(events: seq<Event>, sid: Sid, c: Conn, e: ConnEvent, r: Id)
    requires CanStep(c, e) && ConnFits(events, sid, r, c)
    ensures ConnFits(events + [Inside(sid, e)], sid, r, StepConn(c, e))
  {
    WorkersStay(c, e);
    var after := StepConn(c, e);
    assert Connect(sid, after.hasLocal, after.agent.pool.workers) in events + [Inside(sid, e)];
    if r in after.calls {
      StageMoves(c, e, r);
      FitsFrom(events, sid, e, r, if r in c.calls then Some(c.calls[r].stage) else None, after.calls[r].stage);
    }
  }

  /** A session's connection changes by its own steps; the queues towards it only grow besides. */
  lemma ConnMoves(s: System, e: Event, sid: Sid)
    requires CanHappen(s, e) && sid in Happen(s, e).conns
    ensures var after := Happen(s, e).conns[sid];
            || (sid in s.conns && e.Inside? && e.sid == sid && after == StepConn(s.conns[sid], e.e))
            || (sid in s.conns && after == s.conns[sid].(down := after.down))
            || (e.Connect? && e.sid == sid && after == NewConn(e.hasLocal, e.workers))
  {
  }

  lemma FitsLater(events: seq<Event>, sid: Sid, r: Id, c: Conn, e: Event)
    requires ConnFits(events, sid, r, c)
    ensures ConnFits(events + [e], sid, r, c)
  {
    assert forall x :: x in events ==> x in events + [e];
  }

  /** Every outcome of a call is one its own local service had on its own session:
      the response streamed is the one it answered with, the error the one it
      failed with, and the stream ended as the last read said. */
  lemma {:induction false} CallHistory(events: seq<Event>, sid: Sid, r: Id)
    requires SystemRun(events).Some? && sid in SystemRun(events).value.conns
    ensures ConnFits(events, sid, r, SystemRun(events).value.conns[sid])
  {
    var n := |events| - 1;
    var before, e := SystemRun(events[..n]).value, events[n];
    assert events == events[..n] + [e];
    ConnMoves(before, e, sid);
    if sid in before.conns {
      CallHistory(events[..n], sid, r);
      if e.Inside? && e.sid == sid {
        ConnStep(events[..n], sid, before.conns[sid], e.e, r);
      } else {
        FitsLater(events[..n], sid, r, before.conns[sid], e);
      }
    }
  }

  // ----- Waiters -----

  lemma {:induction false} EvictShrinks(m: Manager, order: seq<Id>)
    ensures Evict(m, order).pending.Keys <= m.pending.Keys
  {
    if order != [] {
      EvictShrinks(m, order[..|order| - 1]);
    }
  }

  lemma WaitersShrink(s: System, e: Event)
    requires CanHappen(s, e) && !e.Arrive?
    ensures Happen(s, e).manager.pending.Keys <= s.manager.pending.Keys
  {
    if e.Leave? {
      EvictShrinks(Closed(s.manager, e.sid), e.order);
    }
  }

  lemma WaiterStep(s: System, e: Event, r: Id)
    requires CanHappen(s, e)
    requires r in s.handlers && s.handlers[r].phase.Finished? ==> r !in s.manager.pending
    ensures var t := Happen(s, e); r in t.handlers && t.handlers[r].phase.Finished? ==> r !in t.manager.pending
  {
    if !e.Arrive? {
      WaitersShrink(s, e);
    }
    if !OfHandler(e, r) {
      OthersStay(s, e, r);
    }
  }

  /** Nothing is left behind in the table of waiters: in every run, a request whose
      handler has returned is not waited for. */
  lemma NoWaiterLeft(events: seq<Event>, r: Id)
    requires SystemRun(events).Some? && Finish(r) in events
    ensures r !in SystemRun(events).value.manager.pending
  {
    HandlerHistory(events, r);
    NoWaiterLeftInRun(events, r);
  }

  lemma {:induction false} NoWaiterLeftInRun(events: seq<Event>, r: Id)
    requires SystemRun(events).Some?
    ensures var s := SystemRun(events).value;
            r in s.handlers && s.handlers[r].phase.Finished? ==> r !in s.manager.pending
  {
    if events != [] {
      NoWaiterLeftInRun(events[..|events| - 1], r);
      WaiterStep(SystemRun(events[..|events| - 1]).value, events[|events| - 1], r);
    }
  }
}
