/** Every step of the data plane keeps its invariant; the end-to-end theorems. */
module TunnelProofs {
  import opened Protocol
  import opened Requests
  import opened Agents
  import opened Connections
  import opened Replies
  import opened Tunnels
  import opened Histories
  import opened ConnectionProofs
  import R = Responses
  import F = Frames
  import H = HeaderFilters

  // ----- Replies stay legitimate as connections advance -----

  /** Deliveries are never taken back or changed, and what is gone stays gone. */
  ghost predicate Later(before: map<Sid, Conn>, sessions: set<Sid>, after: map<Sid, Conn>, sessions': set<Sid>) {
    forall sid :: sid in before ==>
      && sid in after
      && (Gone(before, sessions, sid) ==> Gone(after, sessions', sid))
      && forall r :: r in before[sid].delivered ==>
           r in after[sid].delivered && after[sid].delivered[r] == before[sid].delivered[r]
  }

  lemma LegitLater(before: map<Sid, Conn>, sessions: set<Sid>, after: map<Sid, Conn>, sessions': set<Sid>, sid: Sid,
                   r: Id, x: Response)
    requires Later(before, sessions, after, sessions') && Legit(before, sessions, sid, r, x)
    ensures Legit(after, sessions', sid, r, x)
  {
  }

  lemma LegitOnLater(before: map<Sid, Conn>, sessions: set<Sid>, after: map<Sid, Conn>, sessions': set<Sid>,
                     handlers: map<Id, Handler>, channel: nat, x: Response)
    requires Later(before, sessions, after, sessions') && LegitOn(before, sessions, handlers, channel, x)
    ensures LegitOn(after, sessions', handlers, channel, x)
  {
    forall r | r in handlers && handlers[r].channel == channel ensures Legit(after, sessions', handlers[r].sid, r, x) {
      LegitLater(before, sessions, after, sessions', handlers[r].sid, r, x);
    }
  }

  lemma MailLater(inflight: seq<Letter>, boxes: seq<Mailbox>, before: map<Sid, Conn>, sessions: set<Sid>,
                  after: map<Sid, Conn>, sessions': set<Sid>, handlers: map<Id, Handler>)
    requires Later(before, sessions, after, sessions') && MailInv(inflight, boxes, sessions, before, handlers)
    ensures MailInv(inflight, boxes, sessions', after, handlers)
  {
    forall l | l in inflight ensures LegitOn(after, sessions', handlers, l.channel, l.response) {
      LegitOnLater(before, sessions, after, sessions', handlers, l.channel, l.response);
    }
    forall ch, x | 0 <= ch < |boxes| && x in boxes[ch].sent ensures LegitOn(after, sessions', handlers, ch, x) {
      LegitOnLater(before, sessions, after, sessions', handlers, ch, x);
    }
  }

  lemma VerdictsLater(before: map<Sid, Conn>, sessions: set<Sid>, after: map<Sid, Conn>, sessions': set<Sid>,
                      handlers: map<Id, Handler>)
    requires Later(before, sessions, after, sessions') && VerdictsInv(before, sessions, handlers)
    ensures VerdictsInv(after, sessions', handlers)
  {
    forall r | r in handlers ensures VerdictOk(after, sessions', r, handlers[r]) {
      var h := handlers[r];
      assert VerdictOk(before, sessions, r, h);
      if h.verdict.Some? && !h.verdict.value.Abandoned? {
        var x :| Legit(before, sessions, h.sid, r, x) && h.verdict.value == VerdictOn(x);
        LegitLater(before, sessions, after, sessions', h.sid, r, x);
      }
    }
  }

  /** Handler updates that keep session and channel keep the mail. */
  lemma MailReaddressed(inflight: seq<Letter>, boxes: seq<Mailbox>, sessions: set<Sid>, conns: map<Sid, Conn>,
                        handlers: map<Id, Handler>, r: Id, h: Handler)
    requires MailInv(inflight, boxes, sessions, conns, handlers) && r in handlers
    requires h.sid == handlers[r].sid && h.channel == handlers[r].channel
    ensures MailInv(inflight, boxes, sessions, conns, handlers[r := h])
  {
    var after := handlers[r := h];
    forall ch, x | LegitOn(conns, sessions, handlers, ch, x) ensures LegitOn(conns, sessions, after, ch, x) {
    }
  }

  // ----- Handler steps -----

  lemma ConnPut(conns: map<Sid, Conn>, sid: Sid, c: Conn)
    requires ConnsInv(conns) && ConnInv(c)
    ensures ConnsInv(conns[sid := c])
  {
  }

  /** A log whose projections are the handlers' streams is honest. */
  lemma StreamsHonest(log: seq<Message>, sid: Sid, handlers: map<Id, Handler>)
    requires Malformed !in log
    requires forall r :: r in handlers ==> HandlerOk(r, handlers[r])
    requires forall r :: Project(log, r) == DownOf(handlers, sid, r)
    ensures Honest(log)
  {
    forall r ensures ViewOf(Project(log, r)) != Bad {
      if r in handlers {
        UploadViewed(r, handlers[r].upload);
      }
    }
  }

  lemma DownPush(conns: map<Sid, Conn>, handlers: map<Id, Handler>, r: Id, m: Message, h: Handler)
    requires DownInv(conns, handlers) && r in handlers && handlers[r].sid in conns && h.sid == handlers[r].sid
    requires Concerns(m, r) && Stream(r, h.upload) == Stream(r, handlers[r].upload) + [m]
    ensures var c := conns[h.sid];
            DownInv(conns[h.sid := c.(down := Push(c.down, m))], handlers[r := h])
  {
    var c := conns[h.sid];
    var conns', handlers' := conns[h.sid := c.(down := Push(c.down, m))], handlers[r := h];
    forall sid, x | sid in conns' ensures Project(conns'[sid].down.log, x) == DownOf(handlers', sid, x) {
      assert Project(conns[sid].down.log, x) == DownOf(handlers, sid, x);
      if sid == h.sid {
        StreamPush(c.down.log, handlers, r, m, h, x);
      }
    }
  }

  lemma StreamPush(log: seq<Message>, handlers: map<Id, Handler>, r: Id, m: Message, h: Handler, x: Id)
    requires Project(log, x) == DownOf(handlers, h.sid, x) && r in handlers && h.sid == handlers[r].sid
    requires Concerns(m, r) && Stream(r, h.upload) == Stream(r, handlers[r].upload) + [m]
    ensures Project(log + [m], x) == DownOf(handlers[r := h], h.sid, x)
  {
    ProjectPush(log, m, x);
    assert x != r ==> !Concerns(m, x);
  }

  lemma HandlerPut(handlers: map<Id, Handler>, sids: set<Sid>, channels: nat, r: Id, h: Handler)
    requires HandlersInv(handlers, sids, channels) && r in handlers && HandlerOk(r, h)
    requires h.sid == handlers[r].sid && h.channel == handlers[r].channel && (h.upload.started ==> h.sid in sids)
    ensures HandlersInv(handlers[r := h], sids, channels)
  {
  }

  lemma PushedConn(conns: map<Sid, Conn>, handlers: map<Id, Handler>, sid: Sid, m: Message)
    requires sid in conns && ConnInv(conns[sid]) && HasRoom(conns[sid].down) && !m.Malformed?
    requires var c := conns[sid]; DownInv(conns[sid := c.(down := Push(c.down, m))], handlers)
    requires forall r :: r in handlers ==> HandlerOk(r, handlers[r])
    ensures var c := conns[sid]; ConnInv(c.(down := Push(c.down, m)))
  {
    var c := conns[sid];
    var after := conns[sid := c.(down := Push(c.down, m))];
    forall r ensures Project(c.down.log + [m], r) == DownOf(handlers, sid, r) {
      assert Project(after[sid].down.log, r) == DownOf(handlers, sid, r);
    }
    StreamsHonest(c.down.log + [m], sid, handlers);
    PushDownKeeps(c, m);
  }

  lemma VerdictPut(conns: map<Sid, Conn>, sessions: set<Sid>, handlers: map<Id, Handler>, r: Id, h: Handler)
    requires VerdictsInv(conns, sessions, handlers) && VerdictOk(conns, sessions, r, h)
    ensures VerdictsInv(conns, sessions, handlers[r := h])
  {
    var after := handlers[r := h];
    forall x | x in after ensures VerdictOk(conns, sessions, x, after[x]) {
      assert x != r ==> VerdictOk(conns, sessions, x, handlers[x]);
    }
  }

  lemma WaiterPut(pending: map<Id, Waiter>, handlers: map<Id, Handler>, r: Id, h: Handler)
    requires WaitersInv(pending, handlers) && r in handlers
    requires h.sid == handlers[r].sid && h.channel == handlers[r].channel
    ensures WaitersInv(pending, handlers[r := h])
  {
  }

  lemma OpenPut(withdrawn: set<nat>, handlers: map<Id, Handler>, r: Id, h: Handler)
    requires OpenInv(withdrawn, handlers) && r in handlers && !handlers[r].phase.Finished?
             && h.channel == handlers[r].channel
    ensures OpenInv(withdrawn, handlers[r := h])
  {
  }

  lemma DownUnmoved(conns: map<Sid, Conn>, handlers: map<Id, Handler>, r: Id, h: Handler)
    requires DownInv(conns, handlers) && r in handlers && h.sid == handlers[r].sid && h.upload == handlers[r].upload
    ensures DownInv(conns, handlers[r := h])
  {
    var after := handlers[r := h];
    forall sid, x | sid in conns ensures Project(conns[sid].down.log, x) == DownOf(after, sid, x) {
      assert Project(conns[sid].down.log, x) == DownOf(handlers, sid, x);
    }
  }

  lemma PushLater(conns: map<Sid, Conn>, sessions: set<Sid>, sid: Sid, m: Message)
    requires sid in conns
    ensures var c := conns[sid]; Later(conns, sessions, conns[sid := c.(down := Push(c.down, m))], sessions)
  {
  }

  /** The next message of a stream, and the handler that has sent it. */
  ghost predicate NextSend(r: Id, h: Handler, m: Message, after: Handler) {
    && !h.phase.Finished? && after.sid == h.sid && after.channel == h.channel && HandlerOk(r, after)
    && (after.verdict.None? || after.verdict.value.Abandoned?)
    && Concerns(m, r) && Stream(r, after.upload) == Stream(r, h.upload) + [m]
  }

  lemma EnqueueDown(conns: map<Sid, Conn>, handlers: map<Id, Handler>, channels: nat, r: Id, m: Message, h: Handler)
    requires DownInv(conns, handlers) && HandlersInv(handlers, conns.Keys, channels)
    requires r in handlers && handlers[r].sid in conns && NextSend(r, handlers[r], m, h)
    ensures var c := conns[h.sid];
            DownInv(conns[h.sid := c.(down := Push(c.down, m))], handlers[r := h])
                && HandlersInv(handlers[r := h], conns.Keys, channels)
  {
    HandlerPut(handlers, conns.Keys, channels, r, h);
    DownPush(conns, handlers, r, m, h);
  }

  lemma EnqueueConns(conns: map<Sid, Conn>, handlers: map<Id, Handler>, sid: Sid, m: Message)
    requires ConnsInv(conns) && sid in conns && HasRoom(conns[sid].down) && !m.Malformed?
    requires forall r :: r in handlers ==> HandlerOk(r, handlers[r])
    requires var c := conns[sid]; DownInv(conns[sid := c.(down := Push(c.down, m))], handlers)
    ensures var c := conns[sid];
            var after := conns[sid := c.(down := Push(c.down, m))];
            after.Keys == conns.Keys && ConnsInv(after)
  {
    var c := conns[sid];
    PushedConn(conns, handlers, sid, m);
    ConnPut(conns, sid, c.(down := Push(c.down, m)));
  }

  lemma EnqueueReplies(m: Manager, conns: map<Sid, Conn>, handlers: map<Id, Handler>, r: Id, x: Message, h: Handler)
    requires r in handlers && handlers[r].sid in conns && NextSend(r, handlers[r], x, h)
    requires MailInv(m.inflight, m.boxes, m.sessions, conns, handlers) && VerdictsInv(conns, m.sessions, handlers)
    ensures var c := conns[h.sid];
            var after := conns[h.sid := c.(down := Push(c.down, x))];
            && MailInv(m.inflight, m.boxes, m.sessions, after, handlers[r := h])
            && VerdictsInv(after, m.sessions, handlers[r := h])
  {
    var c := conns[h.sid];
    var after := conns[h.sid := c.(down := Push(c.down, x))];
    PushLater(conns, m.sessions, h.sid, x);
    MailReaddressed(m.inflight, m.boxes, m.sessions, conns, handlers, r, h);
    MailLater(m.inflight, m.boxes, conns, m.sessions, after, m.sessions, handlers[r := h]);
    VerdictPut(conns, m.sessions, handlers, r, h);
    VerdictsLater(conns, m.sessions, after, m.sessions, handlers[r := h]);
  }

  /** The manager's own part of the invariant, for a handler that has not finished. */
  lemma HandlerMoves(m: Manager, handlers: map<Id, Handler>, r: Id, h: Handler)
    requires OpenInv(m.withdrawn, handlers) && WaitersInv(m.pending, handlers)
    requires r in handlers && !handlers[r].phase.Finished? && h.sid == handlers[r].sid
             && h.channel == handlers[r].channel
    ensures OpenInv(m.withdrawn, handlers[r := h]) && WaitersInv(m.pending, handlers[r := h])
  {
    WaiterPut(m.pending, handlers, r, h);
    OpenPut(m.withdrawn, handlers, r, h);
  }

  /** A handler that sends the next message of its stream keeps the invariant. */
  lemma EnqueueKeeps(s: System, r: Id, m: Message, h: Handler)
    requires CanEnqueue(s, r) && SystemInv(s) && NextSend(r, s.handlers[r], m, h)
    ensures SystemInv(Tunnels.Enqueue(s, r, m, h))
  {
    EnqueueDown(s.conns, s.handlers, |s.manager.boxes|, r, m, h);
    EnqueueConns(s.conns, s.handlers[r := h], h.sid, m);
    EnqueueReplies(s.manager, s.conns, s.handlers, r, m, h);
    HandlerMoves(s.manager, s.handlers, r, h);
  }

  /** A handler that only moves on, and perhaps gets its verdict. */
  ghost predicate MovesOn(conns: map<Sid, Conn>, sessions: set<Sid>, r: Id, h: Handler, after: Handler) {
    && !h.phase.Finished? && after.sid == h.sid && after.channel == h.channel && after.upload == h.upload
    && HandlerOk(r, after) && VerdictOk(conns, sessions, r, after)
  }

  lemma MovedWorld(conns: map<Sid, Conn>, handlers: map<Id, Handler>, channels: nat, sessions: set<Sid>, r: Id,
                   h: Handler)
    requires HandlersInv(handlers, conns.Keys, channels) && DownInv(conns, handlers)
    requires r in handlers && MovesOn(conns, sessions, r, handlers[r], h)
    ensures HandlersInv(handlers[r := h], conns.Keys, channels) && DownInv(conns, handlers[r := h])
  {
    HandlerPut(handlers, conns.Keys, channels, r, h);
    DownUnmoved(conns, handlers, r, h);
  }

  lemma MovedReplies(m: Manager, conns: map<Sid, Conn>, handlers: map<Id, Handler>, r: Id, h: Handler)
    requires r in handlers && MovesOn(conns, m.sessions, r, handlers[r], h)
    requires MailInv(m.inflight, m.boxes, m.sessions, conns, handlers) && VerdictsInv(conns, m.sessions, handlers)
    ensures MailInv(m.inflight, m.boxes, m.sessions, conns, handlers[r := h])
            && VerdictsInv(conns, m.sessions, handlers[r := h])
  {
    MailReaddressed(m.inflight, m.boxes, m.sessions, conns, handlers, r, h);
    VerdictPut(conns, m.sessions, handlers, r, h);
  }

  lemma MoveKeeps(s: System, r: Id, h: Handler)
    requires SystemInv(s) && r in s.handlers && MovesOn(s.conns, s.manager.sessions, r, s.handlers[r], h)
    ensures SystemInv(s.(handlers := s.handlers[r := h]))
  {
    MovedWorld(s.conns, s.handlers, |s.manager.boxes|, s.manager.sessions, r, h);
    MovedReplies(s.manager, s.conns, s.handlers, r, h);
    HandlerMoves(s.manager, s.handlers, r, h);
  }

  lemma StartNext(r: Id, h: Handler)
    requires HandlerOk(r, h) && h.phase.Registered?
    ensures NextSend(r, h, RequestStart(r, h.upload.head, h.upload.contentLength),
                     h.(upload := h.upload.(started := true), phase := Sending))
  {
    assert Chunks(r, RequestChunk, []) == [];
  }

  lemma ChunkNext(r: Id, h: Handler, data: Bytes)
    requires HandlerOk(r, h) && h.phase.Sending? && MayRead(h.upload, data)
    ensures NextSend(r, h, Chunk(r, RequestChunk, |h.upload.parts| % SEQUENCE_MOD, data),
                     h.(upload := h.upload.(parts := h.upload.parts + [data])))
  {
    JoinPush(h.upload.parts, data);
    ChunksPush(r, RequestChunk, h.upload.parts, data);
  }

  lemma EndNext(r: Id, h: Handler)
    requires HandlerOk(r, h) && h.phase.Sending?
    requires h.upload.contentLength >= 0 ==> |Join(h.upload.parts)| == h.upload.contentLength
    ensures NextSend(r, h, RequestEnd(r), h.(upload := h.upload.(ended := true), phase := Awaiting))
  {
  }

  lemma CancelNext(r: Id, h: Handler)
    requires HandlerOk(r, h) && (h.phase.Sending? || h.phase.Awaiting?)
    ensures NextSend(r, h, CancelRequest(r),
                     h.(upload := h.upload.(cancelled := true), phase := Finishing, verdict := Some(Abandoned)))
  {
  }

  lemma SendStartKeeps(s: System, r: Id)
    requires SystemInv(s) && CanHappen(s, SendStart(r))
    ensures SystemInv(Happen(s, SendStart(r)))
  {
    var h := s.handlers[r];
    assert HandlerOk(r, h);
    StartNext(r, h);
    EnqueueKeeps(s, r, RequestStart(r, h.upload.head, h.upload.contentLength),
                 h.(upload := h.upload.(started := true), phase := Sending));
  }

  lemma SendChunkKeeps(s: System, r: Id, data: Bytes)
    requires SystemInv(s) && CanHappen(s, SendChunk(r, data))
    ensures SystemInv(Happen(s, SendChunk(r, data)))
  {
    var h := s.handlers[r];
    assert HandlerOk(r, h);
    ChunkNext(r, h, data);
    EnqueueKeeps(s, r, Chunk(r, RequestChunk, |h.upload.parts| % SEQUENCE_MOD, data),
                 h.(upload := h.upload.(parts := h.upload.parts + [data])));
  }

  lemma SendEndKeeps(s: System, r: Id)
    requires SystemInv(s) && CanHappen(s, SendEnd(r))
    ensures SystemInv(Happen(s, SendEnd(r)))
  {
    var h := s.handlers[r];
    assert HandlerOk(r, h);
    EndNext(r, h);
    EnqueueKeeps(s, r, RequestEnd(r), h.(upload := h.upload.(ended := true), phase := Awaiting));
  }

  lemma SendCancelKeeps(s: System, r: Id)
    requires SystemInv(s) && CanHappen(s, GiveUp(r, true))
    ensures SystemInv(Happen(s, GiveUp(r, true)))
  {
    var h := s.handlers[r];
    assert HandlerOk(r, h);
    CancelNext(r, h);
    EnqueueKeeps(s, r, CancelRequest(r),
                 h.(upload := h.upload.(cancelled := true), phase := Finishing, verdict := Some(Abandoned)));
  }

  lemma GivenUp(conns: map<Sid, Conn>, sessions: set<Sid>, r: Id, h: Handler)
    requires HandlerOk(r, h) && !h.phase.Finished?
    ensures MovesOn(conns, sessions, r, h, h.(phase := Finishing, verdict := Some(Abandoned)))
  {
  }

  lemma GiveUpKeeps(s: System, r: Id)
    requires SystemInv(s) && CanHappen(s, GiveUp(r, false))
    ensures SystemInv(Happen(s, GiveUp(r, false)))
  {
    var h := s.handlers[r];
    assert HandlerOk(r, h);
    GivenUp(s.conns, s.manager.sessions, r, h);
    MoveKeeps(s, r, h.(phase := Finishing, verdict := Some(Abandoned)));
  }

  lemma CollectMail(m: Manager, conns: map<Sid, Conn>, handlers: map<Id, Handler>, channel: nat)
    requires CanDo(m, Collect(channel)) && MailInv(m.inflight, m.boxes, m.sessions, conns, handlers)
    ensures var n := Do(m, Collect(channel)); MailInv(n.inflight, n.boxes, n.sessions, conns, handlers)
    ensures LegitOn(conns, m.sessions, handlers, channel, m.boxes[channel].sent[m.boxes[channel].received])
  {
    var n := Do(m, Collect(channel));
    assert m.boxes[channel].sent[m.boxes[channel].received] in m.boxes[channel].sent;
    assert forall ch :: 0 <= ch < |m.boxes| ==> n.boxes[ch].sent == m.boxes[ch].sent;
  }

  /** The manager alone moves, its sessions staying. */
  lemma ManagerMoves(s: System, m: Manager)
    requires SystemInv(s) && ManagerInv(m) && |m.boxes| == |s.manager.boxes|
    requires m.sessions == s.manager.sessions && m.replaced == s.manager.replaced
    requires WaitersInv(m.pending, s.handlers) && OpenInv(m.withdrawn, s.handlers)
    requires MailInv(m.inflight, m.boxes, m.sessions, s.conns, s.handlers)
    ensures SystemInv(s.(manager := m))
  {
  }

  lemma Received(conns: map<Sid, Conn>, sessions: set<Sid>, handlers: map<Id, Handler>, r: Id, x: Response)
    requires r in handlers && HandlerOk(r, handlers[r]) && handlers[r].phase.Awaiting?
    requires LegitOn(conns, sessions, handlers, handlers[r].channel, x)
    ensures MovesOn(conns, sessions, r, handlers[r], handlers[r].(phase := Finishing, verdict := Some(VerdictOn(x))))
  {
    assert Legit(conns, sessions, handlers[r].sid, r, x);
  }

  lemma Collected(s: System, channel: nat)
    requires SystemInv(s) && CanDo(s.manager, Collect(channel))
    ensures SystemInv(s.(manager := Do(s.manager, Collect(channel))))
    ensures LegitOn(s.conns, s.manager.sessions, s.handlers, channel,
                    s.manager.boxes[channel].sent[s.manager.boxes[channel].received])
  {
    DoKeeps(s.manager, Collect(channel));
    CollectMail(s.manager, s.conns, s.handlers, channel);
    ManagerMoves(s, Do(s.manager, Collect(channel)));
  }

  /** The reply a waiting handler finds first. */
  function FirstReply(s: System, r: Id): Response
    requires CanHappen(s, ReceiveReply(r))
  {
    var b := s.manager.boxes[s.handlers[r].channel];
    b.sent[b.received]
  }

  function Informed(s: System, r: Id): Handler
    requires CanHappen(s, ReceiveReply(r))
  {
    s.handlers[r].(phase := Finishing, verdict := Some(VerdictOn(FirstReply(s, r))))
  }

  /** A reply with an error is shown as that error; one without is forwarded, with
      its status, its body, and its headers but those meant for one hop only. */
  lemma ShownExactly(s: System, r: Id)
    requires CanHappen(s, ReceiveReply(r))
    ensures var b := s.manager.boxes[s.handlers[r].channel];
            var x := b.sent[b.received];
            Happen(s, ReceiveReply(r)).handlers[r].verdict
              == Some(if x.error != "" then AgentError(x.error)
                      else Forwarded(Response(x.status, H.WithoutHopByHop(x.headers), x.body, "")))
  {
    assert Happen(s, ReceiveReply(r)).handlers[r] == Informed(s, r);
  }

  lemma ReceiveMoves(s: System, r: Id)
    requires CanHappen(s, ReceiveReply(r))
    requires SystemInv(s)
    ensures MovesOn(s.conns, s.manager.sessions, r, s.handlers[r], Informed(s, r))
  {
    assert HandlerOk(r, s.handlers[r]);
    Collected(s, s.handlers[r].channel);
    Received(s.conns, s.manager.sessions, s.handlers, r, FirstReply(s, r));
  }

  lemma ReceiveCollects(s: System, r: Id)
    requires CanHappen(s, ReceiveReply(r))
    requires SystemInv(s)
    ensures SystemInv(s.(manager := Do(s.manager, Collect(s.handlers[r].channel))))
  {
    Collected(s, s.handlers[r].channel);
  }

  lemma ReceiveKeeps(s: System, r: Id)
    requires CanHappen(s, ReceiveReply(r))
    requires SystemInv(s)
    ensures SystemInv(Happen(s, ReceiveReply(r)))
  {
    var t := s.(manager := Do(s.manager, Collect(s.handlers[r].channel)));
    var h := Informed(s, r);
    assert SystemInv(t) by {
      ReceiveCollects(s, r);
    }
    assert MovesOn(t.conns, t.manager.sessions, r, t.handlers[r], h) by {
      ReceiveMoves(s, r);
    }
    MoveKeeps(t, r, h);
    assert Happen(s, ReceiveReply(r)) == t.(handlers := t.handlers[r := h]);
  }

  lemma WithdrawOwn(m: Manager, handlers: map<Id, Handler>, r: Id, sids: set<Sid>)
    requires OpenInv(m.withdrawn, handlers) && WaitersInv(m.pending, handlers) && HandlersInv(handlers, sids, |m.boxes|)
    requires r in handlers && handlers[r].phase.Finished?
    ensures var n := Do(m, Withdraw(r)); OpenInv(n.withdrawn, handlers) && WaitersInv(n.pending, handlers)
  {
  }

  lemma FinishedMoves(conns: map<Sid, Conn>, sessions: set<Sid>, r: Id, h: Handler)
    requires HandlerOk(r, h) && h.phase.Finishing? && VerdictOk(conns, sessions, r, h)
    ensures MovesOn(conns, sessions, r, h, h.(phase := Finished))
  {
  }

  lemma WithdrawKeepsSystem(s: System, r: Id)
    requires SystemInv(s) && r in s.handlers && s.handlers[r].phase.Finished?
    ensures SystemInv(s.(manager := Do(s.manager, Withdraw(r))))
  {
    DoKeeps(s.manager, Withdraw(r));
    WithdrawOwn(s.manager, s.handlers, r, s.conns.Keys);
    ManagerMoves(s, Do(s.manager, Withdraw(r)));
  }

  lemma FinishKeeps(s: System, r: Id)
    requires SystemInv(s) && CanHappen(s, Finish(r))
    ensures SystemInv(Happen(s, Finish(r)))
  {
    var h := s.handlers[r];
    assert HandlerOk(r, h) && VerdictOk(s.conns, s.manager.sessions, r, h);
    FinishedMoves(s.conns, s.manager.sessions, r, h);
    MoveKeeps(s, r, h.(phase := Finished));
    WithdrawKeepsSystem(s.(handlers := s.handlers[r := h.(phase := Finished)]), r);
  }

  lemma ArriveHandlers(conns: map<Sid, Conn>, handlers: map<Id, Handler>, channels: nat, r: Id, h: Handler)
    requires DownInv(conns, handlers) && HandlersInv(handlers, conns.Keys, channels)
    requires r !in handlers && HandlerOk(r, h) && h.phase.Registered? && h.channel == channels
    ensures DownInv(conns, handlers[r := h]) && HandlersInv(handlers[r := h], conns.Keys, channels + 1)
  {
    var after := handlers[r := h];
    forall sid, x | sid in conns ensures Project(conns[sid].down.log, x) == DownOf(after, sid, x) {
      assert Project(conns[sid].down.log, x) == DownOf(handlers, sid, x);
    }
  }

  lemma ArriveMail(m: Manager, conns: map<Sid, Conn>, handlers: map<Id, Handler>, r: Id, h: Handler)
    requires BoxesInv(m) && MailInv(m.inflight, m.boxes, m.sessions, conns, handlers) && r !in handlers
             && h.channel == |m.boxes|
    ensures var n := Do(m, Await(h.sid, r)); MailInv(n.inflight, n.boxes, n.sessions, conns, handlers[r := h])
  {
    var n, after := Do(m, Await(h.sid, r)), handlers[r := h];
    forall l | l in n.inflight ensures LegitOn(conns, n.sessions, after, l.channel, l.response) {
      assert LegitOn(conns, m.sessions, handlers, l.channel, l.response);
    }
    forall ch, x | 0 <= ch < |n.boxes| && x in n.boxes[ch].sent ensures LegitOn(conns, n.sessions, after, ch, x) {
      assert ch < |m.boxes| && LegitOn(conns, m.sessions, handlers, ch, x);
    }
  }

  lemma ArriveWaiters(m: Manager, handlers: map<Id, Handler>, r: Id, h: Handler)
    requires WaitersInv(m.pending, handlers) && OpenInv(m.withdrawn, handlers) && BoxesInv(m) && r !in handlers
             && h.channel == |m.boxes|
    ensures WaitersInv(Do(m, Await(h.sid, r)).pending, handlers[r := h])
    ensures OpenInv(Do(m, Await(h.sid, r)).withdrawn, handlers[r := h])
  {
  }

  lemma Arrived(r: Id, sid: Sid, channel: nat, public: H.PublicRequest, contentLength: int)
    requires 0 < |r| < 65536 && -1 <= contentLength <= MAX_BODY
    ensures HandlerOk(r, NewHandler(r, sid, channel, public, contentLength))
  {
  }

  lemma ArriveKeeps(s: System, r: Id, sid: Sid, public: H.PublicRequest, contentLength: int)
    requires SystemInv(s) && CanHappen(s, Arrive(r, sid, public, contentLength))
    ensures SystemInv(Happen(s, Arrive(r, sid, public, contentLength)))
  {
    var h := NewHandler(r, sid, |s.manager.boxes|, public, contentLength);
    Arrived(r, sid, |s.manager.boxes|, public, contentLength);
    DoKeeps(s.manager, Await(sid, r));
    ArriveHandlers(s.conns, s.handlers, |s.manager.boxes|, r, h);
    ArriveMail(s.manager, s.conns, s.handlers, r, h);
    ArriveWaiters(s.manager, s.handlers, r, h);
    VerdictPut(s.conns, s.manager.sessions, s.handlers, r, h);
  }

  // ----- Sessions -----

  lemma ConnectConns(conns: map<Sid, Conn>, handlers: map<Id, Handler>, channels: nat, sid: Sid, c: Conn)
    requires ConnsInv(conns) && DownInv(conns, handlers) && HandlersInv(handlers, conns.Keys, channels)
    requires sid !in conns && ConnInv(c) && c.down.log == []
    ensures var after := conns[sid := c];
            ConnsInv(after) && DownInv(after, handlers) && HandlersInv(handlers, after.Keys, channels)
  {
    var after := conns[sid := c];
    ConnPut(conns, sid, c);
    forall d, x | d in after ensures Project(after[d].down.log, x) == DownOf(handlers, d, x) {
      if d != sid {
        assert Project(conns[d].down.log, x) == DownOf(handlers, d, x);
      }
    }
  }

  lemma ConnectReplies(m: Manager, conns: map<Sid, Conn>, handlers: map<Id, Handler>, sid: Sid, c: Conn)
    requires MailInv(m.inflight, m.boxes, m.sessions, conns, handlers) && VerdictsInv(conns, m.sessions, handlers)
    requires sid !in conns
    ensures var n, after := Do(m, Register(sid)), conns[sid := c];
            MailInv(n.inflight, n.boxes, n.sessions, after, handlers) && VerdictsInv(after, n.sessions, handlers)
  {
    var n, after := Do(m, Register(sid)), conns[sid := c];
    assert Later(conns, m.sessions, after, n.sessions);
    MailLater(m.inflight, m.boxes, conns, m.sessions, after, n.sessions, handlers);
    VerdictsLater(conns, m.sessions, after, n.sessions, handlers);
  }

  lemma ConnectKeeps(s: System, sid: Sid, hasLocal: bool, workers: nat)
    requires SystemInv(s) && CanHappen(s, Connect(sid, hasLocal, workers))
    ensures SystemInv(Happen(s, Connect(sid, hasLocal, workers)))
  {
    var c := NewConn(hasLocal, workers);
    NewConnInv(hasLocal, workers);
    DoKeeps(s.manager, Register(sid));
    ConnectConns(s.conns, s.handlers, |s.manager.boxes|, sid, c);
    ConnectReplies(s.manager, s.conns, s.handlers, sid, c);
  }

  /** A disconnect is legitimate for the handler whose request it answers. */
  lemma FarewellLegit(m: Manager, sessions: set<Sid>, conns: map<Sid, Conn>, handlers: map<Id, Handler>, sid: Sid,
                      id: Id)
    requires WaitersInv(m.pending, handlers) && HandlersInv(handlers, conns.Keys, |m.boxes|)
             && Gone(conns, sessions, sid)
    requires id in m.pending && m.pending[id].session == sid
    ensures LegitOn(conns, sessions, handlers, m.pending[id].channel, DISCONNECTED)
  {
  }

  lemma RemoveMail(m: Manager, sessions: set<Sid>, conns: map<Sid, Conn>, handlers: map<Id, Handler>, sid: Sid,
                   order: seq<Id>)
    requires CanDo(m, Remove(sid, order)) && WaitersInv(m.pending, handlers)
             && HandlersInv(handlers, conns.Keys, |m.boxes|)
    requires MailInv(m.inflight, m.boxes, sessions, conns, handlers) && Gone(conns, sessions, sid)
    ensures MailInv(m.inflight + Farewells(m.pending, order), m.boxes, sessions, conns, handlers)
  {
    var letters := Farewells(m.pending, order);
    forall l | l in letters ensures LegitOn(conns, sessions, handlers, l.channel, l.response) {
      var k :| 0 <= k < |order| && letters[k] == l;
      assert order[k] in order;
      FarewellLegit(m, sessions, conns, handlers, sid, order[k]);
    }
  }

  lemma LeaveReplies(m: Manager, conns: map<Sid, Conn>, handlers: map<Id, Handler>, sid: Sid, order: seq<Id>)
    requires CanDo(m, Remove(sid, order)) && sid in conns && conns[sid].gatewayDone
    requires WaitersInv(m.pending, handlers) && HandlersInv(handlers, conns.Keys, |m.boxes|)
    requires MailInv(m.inflight, m.boxes, m.sessions, conns, handlers) && VerdictsInv(conns, m.sessions, handlers)
    ensures var n := Do(m, Remove(sid, order));
            && MailInv(n.inflight, n.boxes, n.sessions, conns, handlers) && VerdictsInv(conns, n.sessions, handlers)
            && WaitersInv(n.pending, handlers)
  {
    var sessions := m.sessions - {sid};
    RemoveEffect(m, sid, order);
    assert Later(conns, m.sessions, conns, sessions);
    MailLater(m.inflight, m.boxes, conns, m.sessions, conns, sessions, handlers);
    VerdictsLater(conns, m.sessions, conns, sessions, handlers);
    RemoveMail(m, sessions, conns, handlers, sid, order);
  }

  lemma LeaveKeeps(s: System, sid: Sid, order: seq<Id>)
    requires SystemInv(s) && CanHappen(s, Leave(sid, order))
    ensures SystemInv(Happen(s, Leave(sid, order)))
  {
    DoKeeps(s.manager, Remove(sid, order));
    RemoveEffect(s.manager, sid, order);
    LeaveReplies(s.manager, s.conns, s.handlers, sid, order);
  }

  lemma PostMail(m: Manager, conns: map<Sid, Conn>, handlers: map<Id, Handler>, i: nat)
    requires MailInv(m.inflight, m.boxes, m.sessions, conns, handlers) && CanDo(m, Post(i))
    ensures var n := Do(m, Post(i)); MailInv(n.inflight, n.boxes, n.sessions, conns, handlers)
  {
    var n := Do(m, Post(i));
    assert m.inflight[i] in m.inflight;
    forall l | l in n.inflight ensures LegitOn(conns, n.sessions, handlers, l.channel, l.response) {
      assert l in m.inflight;
    }
    forall ch, x | 0 <= ch < |n.boxes| && x in n.boxes[ch].sent ensures LegitOn(conns, n.sessions, handlers, ch, x) {
    }
  }

  lemma PostReplyKeeps(s: System, i: nat)
    requires SystemInv(s) && CanHappen(s, PostReply(i))
    ensures SystemInv(Happen(s, PostReply(i)))
  {
    DoKeeps(s.manager, Post(i));
    PostMail(s.manager, s.conns, s.handlers, i);
    ManagerMoves(s, Do(s.manager, Post(i)));
  }

  // ----- Inside a connection -----

  /** No step of a connection adds to or takes from any request's stream to the agent. */
  lemma StreamsStand(c: Conn, e: ConnEvent)
    requires ChannelOk(c.down) && CanStep(c, e)
    ensures SameStreams(c.down.log, StepConn(c, e).down.log)
  {
    if e.NoteDown? {
      NotePushed(c.down.log, Other);
    } else if e.PingDown? {
      NoteSlipped(c.down.log, c.down.written);
    } else {
      assert StepConn(c, e).down.log == c.down.log;
    }
  }

  /** Reading up never changes a past delivery, and records the one it makes. */
  lemma DeliveryStands(c: Conn)
    requires ConnInv(c) && CanStep(c, ReadUp)
    ensures var c' := TakeUp(c);
            var d := Delivers(c, ReadUp);
            && (forall r :: r in c.delivered ==> r in c'.delivered && c'.delivered[r] == c.delivered[r])
            && (d.Some?
                ==> d.value.id in c.calls && d.value.id in c'.delivered && c'.delivered[d.value.id] == d.value.response)
  {
    var m := c.up.log[c.up.read];
    var next := R.Accept(c.responses, m);
    if next.Continue? && next.delivery.Some? {
      R.AcceptDelivery(c.responses, m);
      AnsweredOnly(c, m.id);
      NotDeliveredYet(c);
    }
  }

  lemma DeliveriesStand(c: Conn, e: ConnEvent)
    requires ConnInv(c) && CanStep(c, e)
    ensures var c' := StepConn(c, e);
            var d := Delivers(c, e);
            && (forall r :: r in c.delivered ==> r in c'.delivered && c'.delivered[r] == c.delivered[r])
            && (d.Some?
                ==> d.value.id in c.calls && d.value.id in c'.delivered && c'.delivered[d.value.id] == d.value.response)
            && (c.gatewayDone ==> c'.gatewayDone)
  {
    if e.ReadUp? {
      DeliveryStands(c);
    }
  }

  lemma NotDeliveredYet(c: Conn)
    requires ConnInv(c) && CanStep(c, ReadUp) && c.up.log[c.up.read].ResponseEnd?
    ensures c.up.log[c.up.read].id !in c.delivered
  {
    var r := c.up.log[c.up.read].id;
    AllProper(c);
    NextReply(c.up, r);
    assert ReplyInv(Seen(c.up), c.responses, c.delivered, r);
  }

  /** A session can only answer requests that were sent to it. */
  lemma CalledHere(conns: map<Sid, Conn>, handlers: map<Id, Handler>, sid: Sid, r: Id)
    requires DownInv(conns, handlers) && sid in conns && ConnInv(conns[sid]) && r in conns[sid].calls
    ensures r in handlers && handlers[r].sid == sid
  {
    var c := conns[sid];
    assert RequestInv(Seen(c.down), c.agent.reader, c.calls, r);
    ProjectPrefix(c.down.log, c.down.read, r);
    assert Project(c.down.log, r) == DownOf(handlers, sid, r);
  }

  lemma SameDown(conns: map<Sid, Conn>, handlers: map<Id, Handler>, sid: Sid, c: Conn)
    requires DownInv(conns, handlers) && sid in conns && SameStreams(conns[sid].down.log, c.down.log)
    ensures DownInv(conns[sid := c], handlers)
  {
    var after := conns[sid := c];
    forall d, x | d in after ensures Project(after[d].down.log, x) == DownOf(handlers, d, x) {
      assert Project(conns[d].down.log, x) == DownOf(handlers, d, x);
    }
  }

  lemma InsideConns(conns: map<Sid, Conn>, handlers: map<Id, Handler>, sid: Sid, e: ConnEvent)
    requires sid in conns && CanStep(conns[sid], e)
    requires ConnsInv(conns) && DownInv(conns, handlers)
    ensures var after := conns[sid := StepConn(conns[sid], e)];
            ConnsInv(after) && DownInv(after, handlers) && after.Keys == conns.Keys
  {
    var c' := StepConn(conns[sid], e);
    StepKeeps(conns[sid], e);
    StreamsStand(conns[sid], e);
    ConnPut(conns, sid, c');
    SameDown(conns, handlers, sid, c');
  }

  lemma InsideLater(conns: map<Sid, Conn>, sessions: set<Sid>, sid: Sid, e: ConnEvent)
    requires sid in conns && CanStep(conns[sid], e) && ConnInv(conns[sid])
    ensures Later(conns, sessions, conns[sid := StepConn(conns[sid], e)], sessions)
  {
    DeliveriesStand(conns[sid], e);
  }

  lemma InsideDelivery(conns: map<Sid, Conn>, sessions: set<Sid>, handlers: map<Id, Handler>, sid: Sid, e: ConnEvent)
    requires sid in conns && CanStep(conns[sid], e)
    requires ConnInv(conns[sid]) && DownInv(conns, handlers)
    ensures var d := Delivers(conns[sid], e);
            d.Some? ==> d.value.id in handlers && handlers[d.value.id].sid == sid
                        && Legit(conns[sid := StepConn(conns[sid], e)], sessions, sid, d.value.id, d.value.response)
  {
    DeliveriesStand(conns[sid], e);
    var d := Delivers(conns[sid], e);
    if d.Some? {
      CalledHere(conns, handlers, sid, d.value.id);
    }
  }

  lemma InsideReplies(m: Manager, conns: map<Sid, Conn>, handlers: map<Id, Handler>, sid: Sid, e: ConnEvent)
    requires sid in conns && CanStep(conns[sid], e) && ConnInv(conns[sid])
    requires MailInv(m.inflight, m.boxes, m.sessions, conns, handlers) && VerdictsInv(conns, m.sessions, handlers)
    ensures var after := conns[sid := StepConn(conns[sid], e)];
            MailInv(m.inflight, m.boxes, m.sessions, after, handlers) && VerdictsInv(after, m.sessions, handlers)
  {
    var after := conns[sid := StepConn(conns[sid], e)];
    InsideLater(conns, m.sessions, sid, e);
    MailLater(m.inflight, m.boxes, conns, m.sessions, after, m.sessions, handlers);
    VerdictsLater(conns, m.sessions, after, m.sessions, handlers);
  }

  lemma DeliverMail(m: Manager, conns: map<Sid, Conn>, handlers: map<Id, Handler>, r: Id, x: Response)
    requires MailInv(m.inflight, m.boxes, m.sessions, conns, handlers) && WaitersInv(m.pending, handlers)
    requires HandlersInv(handlers, conns.Keys, |m.boxes|)
    requires r in handlers && Legit(conns, m.sessions, handlers[r].sid, r, x)
    ensures var n := Do(m, Deliver(r, x));
            MailInv(n.inflight, n.boxes, n.sessions, conns, handlers) && WaitersInv(n.pending, handlers)
  {
    if r in m.pending {
      assert LegitOn(conns, m.sessions, handlers, m.pending[r].channel, x);
    }
  }

  /** The connection's part of an inner step. */
  lemma InsideSteps(s: System, sid: Sid, e: ConnEvent)
    requires sid in s.conns && CanStep(s.conns[sid], e)
    requires SystemInv(s)
    ensures SystemInv(s.(conns := s.conns[sid := StepConn(s.conns[sid], e)]))
  {
    InsideConns(s.conns, s.handlers, sid, e);
    InsideReplies(s.manager, s.conns, s.handlers, sid, e);
  }

  lemma DeliverOnly(m: Manager, r: Id, x: Response)
    ensures var n := Do(m, Deliver(r, x));
            |n.boxes| == |m.boxes| && n.sessions == m.sessions && n.replaced == m.replaced && n.withdrawn == m.withdrawn
  {
  }

  /** The manager's part: what the session loop hands over is put on its way. */
  lemma DeliverKeeps(s: System, r: Id, x: Response)
    requires SystemInv(s) && r in s.handlers && Legit(s.conns, s.manager.sessions, s.handlers[r].sid, r, x)
    ensures SystemInv(s.(manager := Do(s.manager, Deliver(r, x))))
  {
    var m := Do(s.manager, Deliver(r, x));
    DeliverOnly(s.manager, r, x);
    DeliverMail(s.manager, s.conns, s.handlers, r, x);
    assert ManagerInv(m) by {
      DoKeeps(s.manager, Deliver(r, x));
    }
    ManagerMoves(s, m);
  }

  lemma InsideKeeps(s: System, sid: Sid, e: ConnEvent)
    requires CanHappen(s, Inside(sid, e)) && SystemInv(s)
    ensures SystemInv(Happen(s, Inside(sid, e)))
  {
    var d := Delivers(s.conns[sid], e);
    InsideSteps(s, sid, e);
    if d.Some? {
      InsideDelivery(s.conns, s.manager.sessions, s.handlers, sid, e);
      DeliverKeeps(s.(conns := s.conns[sid := StepConn(s.conns[sid], e)]), d.value.id, d.value.response);
    }
  }

  lemma SendEventKeeps(s: System, e: Event)
    requires SystemInv(s) && CanHappen(s, e)
    requires e.SendStart? || e.SendChunk? || e.SendEnd?
    ensures SystemInv(Happen(s, e))
  {
    if e.SendStart? {
      SendStartKeeps(s, e.r);
    } else if e.SendChunk? {
      SendChunkKeeps(s, e.r, e.data);
    } else {
      SendEndKeeps(s, e.r);
    }
  }

  lemma OutcomeEventKeeps(s: System, e: Event)
    requires SystemInv(s) && CanHappen(s, e)
    requires e.GiveUp? || e.ReceiveReply? || e.Finish?
    ensures SystemInv(Happen(s, e))
  {
    if e.ReceiveReply? {
      ReceiveKeeps(s, e.r);
    } else if e.Finish? {
      FinishKeeps(s, e.r);
    } else if e.notified {
      SendCancelKeeps(s, e.r);
    } else {
      GiveUpKeeps(s, e.r);
    }
  }

  lemma SessionEventKeeps(s: System, e: Event)
    requires SystemInv(s) && CanHappen(s, e) && (e.Connect? || e.Leave? || e.PostReply?)
    ensures SystemInv(Happen(s, e))
  {
    if e.Connect? {
      ConnectKeeps(s, e.sid, e.hasLocal, e.workers);
    } else if e.Leave? {
      LeaveKeeps(s, e.sid, e.order);
    } else {
      PostReplyKeeps(s, e.i);
    }
  }

  lemma HappenKeeps(s: System, e: Event)
    requires SystemInv(s) && CanHappen(s, e)
    ensures SystemInv(Happen(s, e))
  {
    if e.Arrive? {
      ArriveKeeps(s, e.r, e.sid, e.public, e.contentLength);
    } else if e.Inside? {
      InsideKeeps(s, e.sid, e.e);
    } else if e.Connect? || e.Leave? || e.PostReply? {
      SessionEventKeeps(s, e);
    } else if e.SendStart? || e.SendChunk? || e.SendEnd? {
      SendEventKeeps(s, e);
    } else {
      OutcomeEventKeeps(s, e);
    }
  }

  lemma {:induction false} SystemRunKeeps(events: seq<Event>)
    requires SystemRun(events).Some?
    ensures SystemInv(SystemRun(events).value)
  {
    if events != [] {
      var init := events[..|events| - 1];
      SystemRunKeeps(init);
      HappenKeeps(SystemRun(init).value, events[|events| - 1]);
    }
  }

  lemma RunConn(events: seq<Event>, sid: Sid)
    requires SystemRun(events).Some? && sid in SystemRun(events).value.conns
    ensures ConnInv(SystemRun(events).value.conns[sid])
  {
    SystemRunKeeps(events);
  }

  // ----- End to end -----

  /** A delivered response is the finished outcome of that request's call. */
  lemma DeliveredIsOutcome(c: Conn, r: Id)
    requires ConnInv(c) && r in c.delivered
    ensures r in c.calls && c.calls[r].stage.Ended? && StageSound(c.calls[r].stage)
    ensures c.delivered[r] == Result(c.calls[r].stage.outcome)
  {
    assert ReplyInv(Seen(c.up), c.responses, c.delivered, r);
    RepliesProper(c, r);
    ProjectPrefix(c.up.log, c.up.read, r);
    R.DeliveredIsFinal(Project(Seen(c.up), r), Project(c.up.log, r));
    assert RequestInv(Seen(c.down), c.agent.reader, c.calls, r);
  }

  /** A dispatched call carries exactly its handler's request: the same head and
      all bytes the handler read up to end-of-file. */
  lemma CallCarriesRequest(s: System, sid: Sid, r: Id)
    requires SystemInv(s) && sid in s.conns && r in s.conns[sid].calls
    ensures r in s.handlers && s.handlers[r].sid == sid && s.handlers[r].upload.ended
    ensures s.conns[sid].calls[r].request == Request(r, s.handlers[r].upload.head, Join(s.handlers[r].upload.parts))
  {
    var c := s.conns[sid];
    CalledHere(s.conns, s.handlers, sid, r);
    var u := s.handlers[r].upload;
    assert HandlerOk(r, s.handlers[r]);
    assert Project(c.down.log, r) == DownOf(s.handlers, sid, r);
    UploadViewed(r, u);
    ProjectPrefix(c.down.log, c.down.read, r);
    assert RequestInv(Seen(c.down), c.agent.reader, c.calls, r);
    DispatchedIsFinal(Project(Seen(c.down), r), Project(c.down.log, r));
  }

  /** Request reassembly: in every run, every request the agent dispatches is
      its handler's, byte for byte, and no chunk counter has wrapped. */
  lemma RequestReassembly(events: seq<Event>, sid: Sid, r: Id)
    requires SystemRun(events).Some?
    requires var s := SystemRun(events).value; sid in s.conns && r in s.conns[sid].calls
    ensures var s := SystemRun(events).value;
            && r in s.handlers && s.handlers[r].sid == sid && s.handlers[r].upload.ended
            && s.conns[sid].calls[r].request == Request(r, s.handlers[r].upload.head, Join(PartsSent(events, r)))
            && |PartsSent(events, r)| < SEQUENCE_MOD
  {
    SystemRunKeeps(events);
    var s := SystemRun(events).value;
    CallCarriesRequest(s, sid, r);
    HandlerHistory(events, r);
    assert HandlerOk(r, s.handlers[r]);
    CutCount(s.handlers[r].upload.parts);
  }

  /** What a forwarded reply is: the outcome of an answered call. */
  lemma ForwardedIsAnswered(conns: map<Sid, Conn>, sessions: set<Sid>, r: Id, h: Handler)
    requires ConnsInv(conns) && VerdictOk(conns, sessions, r, h) && h.verdict.Some? && h.verdict.value.Forwarded?
    ensures h.sid in conns && r in conns[h.sid].calls
    ensures var stage := conns[h.sid].calls[r].stage;
            && stage.Ended? && stage.outcome.Answered? && StageSound(stage)
            && h.verdict.value.response == VerdictOn(Result(stage.outcome)).response
  {
    var x :| Legit(conns, sessions, h.sid, r, x) && h.verdict.value == VerdictOn(x);
    DeliveredIsOutcome(conns[h.sid], r);
  }

  /** The headers the local service gets, one by one: the client's values for every
      header that is not for one hop only and claims nothing about forwarding, what
      the gateway saw of the request, and nothing else. */
  ghost predicate ToldTheLocal(p: H.PublicRequest, r: Id, told: Headers) {
    && "X-Forwarded-Host" in told && told["X-Forwarded-Host"] == [p.host]
    && "X-Forwarded-Proto" in told && told["X-Forwarded-Proto"] == [if p.tls then "https" else "http"]
    && "X-Tunnel-Request-Id" in told && told["X-Tunnel-Request-Id"] == [H.IdText(r)]
    && ("X-Forwarded-For" in told <==> p.clientIP != "")
    && (p.clientIP != "" ==> told["X-Forwarded-For"] == [p.clientIP])
    && "Forwarded" !in told && H.ForAnyHop(told)
    && forall name :: name !in ["X-Forwarded-Host", "X-Forwarded-Proto", "X-Tunnel-Request-Id", "X-Forwarded-For"] ==>
         && (name in told <==> name in p.headers && !H.HopByHop(p.headers, name) && !H.Forwarding(name))
         && (name in told ==> told[name] == p.headers[name])
  }

  lemma Told(p: H.PublicRequest, r: Id)
    ensures ToldTheLocal(p, r, H.WithoutHopByHop(H.HeadOf(p, r).headers))
  {
    forall name { H.ToldExactly(p, r, name); }
    H.FilteredForAnyHop(H.HeadOf(p, r).headers);
  }

  /** End-to-end correlation: in every interleaving, a handler that forwards an
      agent response forwards the outcome of the local call made for its own
      request, on its own session: that call was made with exactly the method and
      path of the public request that arrived, the body its handler sent, and the
      headers spelled out in ToldTheLocal. The status is the one the local service
      answered with, the headers are its headers without those meant for one hop
      only, and the body is a prefix of its body, all of it when the local read
      reached end-of-file. */
  lemma EndToEnd(events: seq<Event>, r: Id)
    requires SystemRun(events).Some?
    requires var s := SystemRun(events).value;
             r in s.handlers && s.handlers[r].verdict.Some? && s.handlers[r].verdict.value.Forwarded?
    ensures var s := SystemRun(events).value;
            var h := s.handlers[r];
            var x := h.verdict.value.response;
            && h.upload.ended
            && h.sid in s.conns && r in s.conns[h.sid].calls
            && var call := s.conns[h.sid].calls[r];
            && call.request.id == r && call.request.body == Join(PartsSent(events, r))
            && Arrive(r, h.sid, h.public, h.upload.contentLength) in events
            && call.request.head.verb == h.public.verb && call.request.head.path == h.public.path
            && ToldTheLocal(h.public, r, H.WithoutHopByHop(call.request.head.headers))
            && call.stage.Ended? && call.stage.outcome.Answered?
            && var o := call.stage.outcome;
            && Inside(h.sid, Begin(r, o.local)) in events && Inside(h.sid, Seal(r, o.eof)) in events
            && x.error == "" && x.status == o.local.status && x.headers == H.WithoutHopByHop(o.local.headers)
            && H.ForAnyHop(x.headers)
            && x.body <= o.local.body && (o.eof ==> x.body == o.local.body)
  {
    SystemRunKeeps(events);
    var s := SystemRun(events).value;
    var h := s.handlers[r];
    assert HandlerOk(r, h) && VerdictOk(s.conns, s.manager.sessions, r, h);
    ForwardedIsAnswered(s.conns, s.manager.sessions, r, h);
    CallCarriesRequest(s, h.sid, r);
    HandlerHistory(events, r);
    CallHistory(events, h.sid, r);
    Told(h.public, r);
    H.FilteredForAnyHop(s.conns[h.sid].calls[r].stage.outcome.local.headers);
    H.FilterTwice(s.conns[h.sid].calls[r].stage.outcome.local.headers);
  }

  lemma ErrorIsOwn(conns: map<Sid, Conn>, sessions: set<Sid>, r: Id, h: Handler)
    requires ConnsInv(conns) && VerdictOk(conns, sessions, r, h) && h.verdict.Some? && h.verdict.value.AgentError?
    ensures var error := h.verdict.value.error;
            && error != ""
            && ((error == DISCONNECTED.error && Gone(conns, sessions, h.sid))
                || (h.sid in conns && r in conns[h.sid].calls && conns[h.sid].calls[r].stage == Ended(Failed(error))))
  {
    var x :| Legit(conns, sessions, h.sid, r, x) && h.verdict.value == VerdictOn(x);
    if !(x == DISCONNECTED && Gone(conns, sessions, h.sid)) {
      DeliveredError(conns[h.sid], r);
    }
  }

  lemma DeliveredError(c: Conn, r: Id)
    requires ConnInv(c) && r in c.delivered && c.delivered[r].error != ""
    ensures r in c.calls && c.calls[r].stage == Ended(Failed(c.delivered[r].error))
  {
    DeliveredIsOutcome(c, r);
  }

  lemma CallMade(events: seq<Event>, sid: Sid, r: Id)
    requires SystemRun(events).Some?
    requires var s := SystemRun(events).value; sid in s.conns && r in s.conns[sid].calls
    ensures var s := SystemRun(events).value;
            && r in s.handlers
            && s.conns[sid].calls[r].request == Request(r, s.handlers[r].upload.head, Join(PartsSent(events, r)))
            && StageFits(events, sid, r, s.conns[sid].calls[r].stage)
  {
    RequestReassembly(events, sid, r);
    CallHistory(events, sid, r);
  }

  /** Error correlation: in every interleaving, an error a handler reports is that
      of the failed local call for its own request, or the disconnect of its own
      session, which has ended and been removed. */
  lemma ErrorsAreOwn(events: seq<Event>, r: Id)
    requires SystemRun(events).Some?
    requires var s := SystemRun(events).value;
             r in s.handlers && s.handlers[r].verdict.Some? && s.handlers[r].verdict.value.AgentError?
    ensures var s := SystemRun(events).value;
            var h := s.handlers[r];
            var error := h.verdict.value.error;
            && error != ""
            && ((error == "tunnel agent disconnected" && h.sid in s.conns && s.conns[h.sid].gatewayDone
                 && h.sid !in s.manager.sessions)
                || (&& h.sid in s.conns && r in s.conns[h.sid].calls
                    && s.conns[h.sid].calls[r].stage == Ended(Failed(error))
                    && Inside(h.sid, Fail(r, error)) in events
                    && s.conns[h.sid].calls[r].request == Request(r, h.upload.head, Join(PartsSent(events, r)))))
  {
    SystemRunKeeps(events);
    var s := SystemRun(events).value;
    var h := s.handlers[r];
    assert VerdictOk(s.conns, s.manager.sessions, r, h);
    ErrorIsOwn(s.conns, s.manager.sessions, r, h);
    if h.sid in s.conns && r in s.conns[h.sid].calls {
      CallMade(events, h.sid, r);
    }
  }

  /** Session counters: with fresh session ids, connections are disconnections
      plus live sessions in every run, and only sessions that connected are live. */
  lemma SessionCounters(events: seq<Event>)
    requires SystemRun(events).Some?
    ensures var s := SystemRun(events).value;
            && s.manager.connections == s.manager.disconnections + |s.manager.sessions|
            && s.manager.sessions <= s.conns.Keys
  {
    SystemRunKeeps(events);
  }

  /** Request-direction compatibility over whole runs, on the agent's map and on
      the log of what the gateway has sent. */
  lemma RequestsCompatible(events: seq<Event>, sid: Sid)
    requires SystemRun(events).Some? && sid in SystemRun(events).value.conns
    requires var c := SystemRun(events).value.conns[sid]; c.down.read < c.down.written <= |c.down.log|
    ensures var c := SystemRun(events).value.conns[sid];
            var m := c.down.log[c.down.read];
            && (Read(c.agent.reader, m).Broken? <==> m.RequestStart? && |c.agent.reader.pending| >= 32)
            && (Read(c.agent.reader, m).Broken? <==>
                  m.RequestStart? && |OpenUploads(c.down.log[..c.down.read + 1])| > 32)
  {
    RunConn(events, sid);
    ReaderRejectsByLog(SystemRun(events).value.conns[sid]);
  }

  /** Response-direction compatibility over whole runs: the exact condition, and
      that 32 workers and 32 MiB bodies always meet it. */
  lemma ResponsesCompatible(events: seq<Event>, sid: Sid)
    requires SystemRun(events).Some? && sid in SystemRun(events).value.conns
    requires var c := SystemRun(events).value.conns[sid]; c.up.read < c.up.written <= |c.up.log|
    ensures var c := SystemRun(events).value.conns[sid];
            var m := c.up.log[c.up.read];
            && (m.Chunk? ==> m.id in c.responses)
            && (R.Accept(c.responses, m).Rejected? <==> Excessive(c.responses, m) || m == OpenTunnel(false))
            && (c.agent.pool.workers <= 32 && LocalBodiesFit(c.calls) ==>
                  R.Accept(c.responses, m).Continue? || m == OpenTunnel(false))
  {
    RunConn(events, sid);
    var c := SystemRun(events).value.conns[sid];
    GatewayRejectsExactly(c);
    if c.agent.pool.workers <= STREAM_LIMIT && LocalBodiesFit(c.calls) {
      ResponsesAccepted(c);
    }
  }

  /** Bounded dispatch and cancellation over whole runs. */
  lemma DispatchAndCancel(events: seq<Event>, sid: Sid, r: Id)
    requires SystemRun(events).Some? && sid in SystemRun(events).value.conns
    ensures var c := SystemRun(events).value.conns[sid];
            && c.agent.reader.active.Keys == Ids(Line(c.agent.pool))
            && |c.agent.reader.active| <= 2 * c.agent.pool.workers + 1
            && |c.agent.reader.pending| <= 32
            && c.down.read <= |c.down.log|
            && (CancelRequest(r) in c.down.log[..c.down.read] ==>
                  && r !in c.agent.reader.pending
                  && (r in Ids(Line(c.agent.pool)) ==> r in c.agent.reader.active && c.agent.reader.active[r]))
  {
    RunConn(events, sid);
    var c := SystemRun(events).value.conns[sid];
    ExactDispatch(c);
    if CancelRequest(r) in c.down.log[..c.down.read] {
      CancelEffective(c, r);
    }
  }

  /** Each request is dispatched at most once in a whole run: when a reader is
      about to dispatch `r`, no session has ever called the local service for it. */
  lemma DispatchedOnce(events: seq<Event>, sid: Sid, other: Sid)
    requires SystemRun(events).Some? && sid in SystemRun(events).value.conns && other in SystemRun(events).value.conns
    requires CanStep(SystemRun(events).value.conns[sid], ReadDown)
    ensures var s := SystemRun(events).value;
            var next := Read(s.conns[sid].agent.reader, s.conns[sid].down.log[s.conns[sid].down.read]);
            next.Next? && next.job.Some? ==> next.job.value.id !in s.conns[other].calls
  {
    SystemRunKeeps(events);
    var s := SystemRun(events).value;
    var c := s.conns[sid];
    var m := c.down.log[c.down.read];
    var next := Read(c.agent.reader, m);
    if next.Next? && next.job.Some? {
      ReadJob(c.agent.reader, m);
      PendingNotCalled(Seen(c.down), c.agent.reader, c.calls);
      PendingHere(s.conns, s.handlers, sid, m.id);
      if m.id in s.conns[other].calls {
        CalledHere(s.conns, s.handlers, other, m.id);
      }
    }
  }

  lemma PendingHere(conns: map<Sid, Conn>, handlers: map<Id, Handler>, sid: Sid, r: Id)
    requires DownInv(conns, handlers) && sid in conns && ConnInv(conns[sid]) && r in conns[sid].agent.reader.pending
    ensures r in handlers && handlers[r].sid == sid
  {
    var c := conns[sid];
    assert RequestInv(Seen(c.down), c.agent.reader, c.calls, r);
    ProjectPrefix(c.down.log, c.down.read, r);
    assert Project(c.down.log, r) == DownOf(handlers, sid, r);
  }

  /** A handler that has not finished will find exactly one reply: its request is
      still pending, or one reply is on its way to it, or one is in its channel. */
  lemma NoReplyLost(events: seq<Event>, r: Id)
    requires SystemRun(events).Some? && r in SystemRun(events).value.handlers
    requires !SystemRun(events).value.handlers[r].phase.Finished?
    ensures var s := SystemRun(events).value;
            var ch := s.handlers[r].channel;
            && ch < |s.manager.boxes|
            && (if r in s.manager.pending then 1 else 0) + Flying(s.manager.inflight, ch) + |s.manager.boxes[ch].sent|
                  == 1
  {
    SystemRunKeeps(events);
    var s := SystemRun(events).value;
    var ch := s.handlers[r].channel;
    assert Balance(s.manager, ch) == 1;
    if Awaited(s.manager.pending, ch) {
      var id :| id in s.manager.pending && s.manager.pending[id].channel == ch;
      assert s.handlers[id].channel == ch;
    }
  }

  // ----- On the wire -----

  lemma {:induction false} ChunksValid(r: Id, kind: ChunkKind, parts: seq<Bytes>, m: Message)
    requires m in Chunks(r, kind, parts) && Cut(parts) && 0 < |r| < 65536
    ensures m.Chunk? && F.Valid(F.FrameOf(m))
  {
    var n := |parts| - 1;
    if m != Chunk(r, kind, n % SEQUENCE_MOD, parts[n]) {
      ChunksValid(r, kind, parts[..n], m);
    }
  }

  lemma StreamChunk(r: Id, u: Upload, m: Message)
    requires m in Stream(r, u) && m.Chunk? && Sound(u) && 0 < |r| < 65536
    ensures F.Valid(F.FrameOf(m))
  {
    ChunksValid(r, RequestChunk, u.parts, m);
  }

  lemma ReplyChunk(r: Id, stage: Connections.Stage, m: Message)
    requires m in Reply(r, stage) && m.Chunk? && StageSound(stage) && 0 < |r| < 65536
    ensures F.Valid(F.FrameOf(m))
  {
    ChunksValid(r, ResponseChunk, if stage.Streaming? then stage.parts else stage.outcome.parts, m);
  }

  lemma DownChunk(conns: map<Sid, Conn>, handlers: map<Id, Handler>, sid: Sid, m: Message)
    requires DownInv(conns, handlers) && sid in conns && m in conns[sid].down.log && m.Chunk?
    requires forall r :: r in handlers ==> HandlerOk(r, handlers[r])
    ensures F.Valid(F.FrameOf(m))
  {
    ProjectKeeps(conns[sid].down.log, m, m.id);
    assert Project(conns[sid].down.log, m.id) == DownOf(handlers, sid, m.id);
    StreamChunk(m.id, handlers[m.id].upload, m);
  }

  lemma UpChunk(c: Conn, m: Message)
    requires ConnInv(c) && m in c.up.log && m.Chunk? && (m.id in c.calls ==> 0 < |m.id| < 65536)
    ensures F.Valid(F.FrameOf(m))
  {
    ProjectKeeps(c.up.log, m, m.id);
    assert Project(c.up.log, m.id) == SentOf(c.calls, m.id);
    assert RequestInv(Seen(c.down), c.agent.reader, c.calls, m.id);
    ReplyChunk(m.id, c.calls[m.id].stage, m);
  }

  lemma CallIds(conns: map<Sid, Conn>, handlers: map<Id, Handler>, sid: Sid, r: Id)
    requires DownInv(conns, handlers) && sid in conns && ConnInv(conns[sid])
    requires forall x :: x in handlers ==> HandlerOk(x, handlers[x])
    ensures r in conns[sid].calls ==> 0 < |r| < 65536
  {
    if r in conns[sid].calls {
      CalledHere(conns, handlers, sid, r);
    }
  }

  /** Every chunk ever queued in either direction has a wire form, and the parser
      at the other end reads it back as it was queued. */
  lemma WireTransparent(events: seq<Event>, sid: Sid, m: Message)
    requires SystemRun(events).Some? && sid in SystemRun(events).value.conns && m.Chunk?
    requires var c := SystemRun(events).value.conns[sid]; m in c.down.log || m in c.up.log
    ensures F.Valid(F.FrameOf(m))
    ensures F.Received(F.ParseAgent(F.Layout(F.FrameOf(m)))) == m
            && F.Received(F.ParseGateway(F.Layout(F.FrameOf(m)))) == m
  {
    SystemRunKeeps(events);
    var s := SystemRun(events).value;
    if m in s.conns[sid].down.log {
      DownChunk(s.conns, s.handlers, sid, m);
    } else {
      CallIds(s.conns, s.handlers, sid, m.id);
      UpChunk(s.conns[sid], m);
    }
    F.ChunkArrives(m);
  }
}
