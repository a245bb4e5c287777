/** The connection invariant is kept by every step, and what follows from it. */
module ConnectionProofs {
  import opened Protocol
  import opened Requests
  import opened Responses
  import opened Agents
  import opened Connections

  lemma NewConnInv(hasLocal: bool, workers: nat)
    ensures ConnInv(NewConn(hasLocal, workers))
  {
    var c := NewConn(hasLocal, workers);
    assert forall n :: 0 <= n <= |c.up.log| ==> OpenStreams(c.up.log[..n]) == {};
  }

  /** Handlers may append anything that keeps every request's stream proper. */
  lemma PushDownKeeps(c: Conn, m: Message)
    requires ConnInv(c) && HasRoom(c.down) && Honest(c.down.log + [m])
    ensures ConnInv(c.(down := Push(c.down, m)))
  {
    assert Seen(Push(c.down, m)) == Seen(c.down);
  }

  // ----- Messages about no request -----

  /** Adding a message about no request to a log leaves every stream as it was. */
  ghost predicate SameStreams(before: seq<Message>, after: seq<Message>) {
    forall r :: Project(after, r) == Project(before, r)
  }

  lemma HonestStays(before: seq<Message>, after: seq<Message>)
    requires Honest(before) && SameStreams(before, after) && Malformed !in after
    ensures Honest(after)
  {
    assert forall r :: ViewOf(Project(after, r)) == ViewOf(Project(before, r));
  }

  lemma NotePushed(log: seq<Message>, m: Message)
    requires Note(m)
    ensures SameStreams(log, log + [m])
  {
    forall r ensures Project(log + [m], r) == Project(log, r) {
      ProjectPush(log, m, r);
    }
  }

  lemma NoteSlipped(log: seq<Message>, n: nat)
    requires n <= |log|
    ensures SameStreams(log, log[..n] + [Other] + log[n..])
  {
    var after := log[..n] + [Other] + log[n..];
    forall r ensures Project(after, r) == Project(log, r) {
      ProjectInsert(log, n, Other, r);
    }
  }

  lemma NoteDownKeeps(c: Conn)
    requires ConnInv(c) && HasRoom(c.down)
    ensures ConnInv(c.(down := Push(c.down, Other)))
  {
    NotePushed(c.down.log, Other);
    HonestStays(c.down.log, c.down.log + [Other]);
    PushDownKeeps(c, Other);
  }

  lemma PingKeeps(c: Conn)
    requires ConnInv(c)
    ensures ConnInv(c.(down := SlipIn(c.down, Other)))
  {
    var after := SlipIn(c.down, Other);
    NoteSlipped(c.down.log, c.down.written);
    HonestStays(c.down.log, after.log);
    assert Seen(after) == Seen(c.down);
  }

  lemma NoteOpens(log: seq<Message>, m: Message)
    requires Note(m)
    ensures OpenStreams(log + [m]) == OpenStreams(log)
  {
    NotePushed(log, m);
    assert forall x :: x in log + [m] && x.ResponseStart? <==> x in log && x.ResponseStart?;
  }

  lemma SentStays(log: seq<Message>, m: Message, calls: map<Id, Call>)
    requires SentInv(log, calls) && Note(m)
    ensures SentInv(log + [m], calls)
  {
    NotePushed(log, m);
  }

  lemma NoteUpKeeps(c: Conn, m: Message)
    requires ConnInv(c) && HasRoom(c.up) && Note(m)
    ensures ConnInv(c.(up := Push(c.up, m)))
  {
    SentStays(c.up.log, m, c.calls);
    NoteOpens(c.up.log, m);
    assert c.up.log[..|c.up.log|] == c.up.log;
    BoundPush(c.up.log, m, c.agent.pool.workers);
    UpAdvanced(c, m, c.calls);
  }

  // ----- Agent reader -----

  lemma SeenNext(ch: Channel, r: Id)
    requires ChannelOk(ch) && ch.read < ch.written
    ensures var m := ch.log[ch.read];
            Project(Seen(ch.(read := ch.read + 1)), r)
            == if Concerns(m, r) then Project(Seen(ch), r) + [m] else Project(Seen(ch), r)
  {
    var before, after := ch.log[..ch.read], ch.log[..ch.read + 1];
    assert Seen(ch) == before && Seen(ch.(read := ch.read + 1)) == after;
    ProjectNext(ch.log, ch.read, r);
  }

  lemma SeenNotBad(ch: Channel, r: Id)
    requires ChannelOk(ch) && Honest(ch.log)
    ensures ViewOf(Project(Seen(ch), r)) != Bad
  {
    ProjectPrefix(ch.log, ch.read, r);
    BadIsFinal(Project(Seen(ch), r), Project(ch.log, r));
  }

  /** The view of `r` moves by one step when the next message concerns it. */
  lemma NextView(ch: Channel, r: Id)
    requires ChannelOk(ch) && Honest(ch.log) && ch.read < ch.written
    ensures var after := ViewOf(Project(Seen(ch.(read := ch.read + 1)), r));
            && after != Bad
            && after == ViewAfter(ViewOf(Project(Seen(ch), r)), ch.log[ch.read], r)
  {
    SeenNext(ch, r);
    SeenNotBad(ch.(read := ch.read + 1), r);
    ViewPush(Project(Seen(ch), r), ch.log[ch.read]);
  }

  lemma NextMessage(ch: Channel)
    requires ChannelOk(ch) && Honest(ch.log) && ch.read < ch.written
    ensures FromGateway(ch.log[ch.read])
  {
    var m := ch.log[ch.read];
    assert m in ch.log;
    if m.ResponseStart? || m.ResponseEnd? {
      NextView(ch, m.id);
    }
  }

  /** Request-direction compatibility, exactly: on the gateway's traffic the
      reader rejects a message if and only if it starts a stream while 32 are
      already open. */
  lemma ReaderRejectsExactly(c: Conn)
    requires ConnInv(c) && c.down.read < c.down.written
    ensures var m := c.down.log[c.down.read];
            Read(c.agent.reader, m).Broken? <==> m.RequestStart? && |c.agent.reader.pending| >= STREAM_LIMIT
  {
    var m := c.down.log[c.down.read];
    NextMessage(c.down);
    if m.RequestStart? || m.Chunk? || m.RequestEnd? {
      NextView(c.down, m.id);
      assert RequestInv(Seen(c.down), c.agent.reader, c.calls, m.id);
      ReadRejects(c.agent.reader, m, ViewOf(Project(Seen(c.down), m.id)));
    }
  }

  // ----- The same condition, read off the gateway's own log -----

  /** Uploads started in the log and neither ended nor cancelled there. */
  function OpenUploads(log: seq<Message>): set<Id> {
    set m | m in log && m.RequestStart? && RequestEnd(m.id) !in log && CancelRequest(m.id) !in log :: m.id
  }

  lemma {:induction false} StreamStarts(p: seq<Message>)
    requires ViewOf(p) != Bad && p != []
    ensures p[0].RequestStart? && ViewOf(p) != Absent
  {
    var init := p[..|p| - 1];
    if init != [] {
      StreamStarts(init);
      assert p[0] == init[0];
    }
  }

  lemma {:induction false} StreamCloses(p: seq<Message>, r: Id)
    requires ViewOf(p) != Bad && p != [] && forall i :: 0 <= i < |p| ==> Concerns(p[i], r)
    ensures ViewOf(p).Assembling? <==> forall i :: 0 <= i < |p| ==> p[i] != RequestEnd(r) && p[i] != CancelRequest(r)
  {
    var init, last := p[..|p| - 1], p[|p| - 1];
    if init != [] {
      assert forall i :: 0 <= i < |init| ==> init[i] == p[i];
      StreamStarts(init);
      StreamCloses(init, r);
    }
  }

  lemma StreamShape(p: seq<Message>, r: Id)
    requires ViewOf(p) != Bad && forall m :: m in p ==> Concerns(m, r)
    ensures ViewOf(p).Assembling? <==> p != [] && RequestEnd(r) !in p && CancelRequest(r) !in p
    ensures p != [] ==> p[0].RequestStart?
  {
    if p != [] {
      StreamStarts(p);
      assert forall i :: 0 <= i < |p| ==> p[i] in p;
      StreamCloses(p, r);
    }
  }

  lemma ProjectHas(log: seq<Message>, m: Message, r: Id)
    requires Concerns(m, r)
    ensures m in log <==> m in Project(log, r)
  {
    if m in log {
      ProjectKeeps(log, m, r);
    }
  }

  lemma OpenUploadsMember(log: seq<Message>, r: Id)
    requires ViewOf(Project(log, r)) != Bad
    ensures r in OpenUploads(log) <==> ViewOf(Project(log, r)).Assembling?
  {
    var p := Project(log, r);
    StreamShape(p, r);
    ProjectHas(log, RequestEnd(r), r);
    ProjectHas(log, CancelRequest(r), r);
    if r in OpenUploads(log) {
      var m :| m in log && m.RequestStart? && m.id == r;
      ProjectHas(log, m, r);
    } else if p != [] {
      assert p[0] in log && Concerns(p[0], r);
    }
  }

  lemma PendingIsOpen(ch: Channel, rd: Reader, calls: map<Id, Call>)
    requires ChannelOk(ch) && Honest(ch.log) && RequestsInv(Seen(ch), rd, calls)
    ensures rd.pending.Keys == OpenUploads(Seen(ch))
  {
    var open := OpenUploads(Seen(ch));
    forall r ensures r in rd.pending <==> r in open {
      SeenNotBad(ch, r);
      OpenUploadsMember(Seen(ch), r);
      assert RequestInv(Seen(ch), rd, calls, r);
    }
  }

  lemma StartOpensUpload(ch: Channel, r: Id)
    requires ChannelOk(ch) && Honest(ch.log) && ch.read < ch.written && ch.log[ch.read].RequestStart?
    ensures r in OpenUploads(Seen(ch.(read := ch.read + 1))) <==> r in OpenUploads(Seen(ch)) || r == ch.log[ch.read].id
    ensures r == ch.log[ch.read].id ==> r !in OpenUploads(Seen(ch))
  {
    NextView(ch, r);
    SeenNotBad(ch, r);
    OpenUploadsMember(Seen(ch), r);
    OpenUploadsMember(Seen(ch.(read := ch.read + 1)), r);
  }

  lemma StartCounts(ch: Channel)
    requires ChannelOk(ch) && Honest(ch.log) && ch.read < ch.written && ch.log[ch.read].RequestStart?
    ensures |OpenUploads(ch.log[..ch.read + 1])| == |OpenUploads(Seen(ch))| + 1
  {
    var before, after, id := OpenUploads(Seen(ch)), OpenUploads(Seen(ch.(read := ch.read + 1))), ch.log[ch.read].id;
    forall r ensures (r in after <==> r in before || r == id) && (r == id ==> r !in before) {
      StartOpensUpload(ch, r);
    }
    assert after == before + {id};
  }

  /** The gateway could tell from what it has sent: the reader rejects a message
      if and only if it is the start of a 33rd upload neither ended nor cancelled. */
  lemma ReaderRejectsByLog(c: Conn)
    requires ConnInv(c) && c.down.read < c.down.written
    ensures var m := c.down.log[c.down.read];
            && (Read(c.agent.reader, m).Broken? <==> m.RequestStart? && |c.agent.reader.pending| >= STREAM_LIMIT)
            && (Read(c.agent.reader, m).Broken? <==>
                  m.RequestStart? && |OpenUploads(c.down.log[..c.down.read + 1])| > STREAM_LIMIT)
  {
    ReaderRejectsExactly(c);
    if c.down.log[c.down.read].RequestStart? {
      PendingCount(c.down, c.agent.reader, c.calls);
      StartCounts(c.down);
    }
  }

  lemma PendingCount(ch: Channel, rd: Reader, calls: map<Id, Call>)
    requires ChannelOk(ch) && Honest(ch.log) && RequestsInv(Seen(ch), rd, calls)
    ensures |rd.pending| == |OpenUploads(Seen(ch))|
  {
    PendingIsOpen(ch, rd, calls);
    assert |rd.pending| == |rd.pending.Keys|;
  }

  lemma ReadDownRequest(ch: Channel, rd: Reader, calls: map<Id, Call>, r: Id)
    requires ChannelOk(ch) && Honest(ch.log) && ch.read < ch.written && Read(rd, ch.log[ch.read]).Next?
    requires RequestInv(Seen(ch), rd, calls, r)
    ensures var next := Read(rd, ch.log[ch.read]);
            RequestInv(Seen(ch.(read := ch.read + 1)), next.reader, CallsAfter(calls, next.job), r)
  {
    var m := ch.log[ch.read];
    NextView(ch, r);
    NextMessage(ch);
    ReadTracks(rd, m, r, ViewOf(Project(Seen(ch), r)));
    ReadJob(rd, m);
  }

  lemma ReadDownRequests(ch: Channel, rd: Reader, calls: map<Id, Call>)
    requires ChannelOk(ch) && Honest(ch.log) && ch.read < ch.written && Read(rd, ch.log[ch.read]).Next?
    requires RequestsInv(Seen(ch), rd, calls)
    ensures var next := Read(rd, ch.log[ch.read]);
            RequestsInv(Seen(ch.(read := ch.read + 1)), next.reader, CallsAfter(calls, next.job))
  {
    var next := Read(rd, ch.log[ch.read]);
    var seen, after := Seen(ch.(read := ch.read + 1)), CallsAfter(calls, next.job);
    forall r ensures RequestInv(seen, next.reader, after, r) {
      ReadDownRequest(ch, rd, calls, r);
    }
  }

  lemma CallsJoin(p: Pool, calls: map<Id, Call>, hasLocal: bool, job: Request)
    requires CallsInv(p, calls, hasLocal) && p.held.None? && job.id !in calls
    ensures CallsInv(p.(held := Some(job)), calls[job.id := Call(job, Waiting, false)], hasLocal)
  {
    var q := p.(held := Some(job));
    assert Line(q) == Line(p) + [job];
    IdsPush(Line(p), job);
    assert forall i :: 0 <= i < |Line(p)| ==> Line(p)[i] in Line(p);
  }

  lemma ReadDownPool(a: Agent, m: Message, calls: map<Id, Call>, hasLocal: bool)
    requires AgentInv(a) && CallsInv(a.pool, calls, hasLocal) && CanAct(a, Receive(m))
    requires m.RequestEnd? && m.id in a.reader.pending ==> m.id !in calls
    ensures var job := Read(a.reader, m).job;
            && AgentInv(Act(a, Receive(m)))
            && CallsInv(a.pool.(held := job), CallsAfter(calls, job), hasLocal)
            && (forall log :: SentInv(log, calls) ==> SentInv(log, CallsAfter(calls, job)))
  {
    ActKeepsInv(a, Receive(m));
    ReadJob(a.reader, m);
    var job := Read(a.reader, m).job;
    if job.Some? {
      CallsJoin(a.pool, calls, hasLocal, job.value);
    } else {
      assert a.pool.(held := job) == a.pool;
    }
  }

  lemma PendingNotCalled(seen: seq<Message>, rd: Reader, calls: map<Id, Call>)
    requires RequestsInv(seen, rd, calls)
    ensures rd.pending.Keys !! calls.Keys
  {
    forall r | r in rd.pending ensures r !in calls {
      assert RequestInv(seen, rd, calls, r);
    }
  }

  lemma ReadDownAgent(ch: Channel, a: Agent, calls: map<Id, Call>, hasLocal: bool, sent: seq<Message>)
    requires ChannelOk(ch) && Honest(ch.log) && ch.read < ch.written && CanAct(a, Receive(ch.log[ch.read]))
    requires AgentInv(a) && CallsInv(a.pool, calls, hasLocal) && SentInv(sent, calls)
    requires RequestsInv(Seen(ch), a.reader, calls)
    ensures var m := ch.log[ch.read];
            var agent, after := Act(a, Receive(m)), CallsAfter(calls, Read(a.reader, m).job);
            && AgentInv(agent) && CallsInv(agent.pool, after, hasLocal) && SentInv(sent, after)
            && RequestsInv(Seen(ch.(read := ch.read + 1)), agent.reader, after)
  {
    PendingNotCalled(Seen(ch), a.reader, calls);
    ReadDownPool(a, ch.log[ch.read], calls, hasLocal);
    ReadDownRequests(ch, a.reader, calls);
  }

  lemma AgentAdvanced(c: Conn, agent: Agent, calls: map<Id, Call>)
    requires ConnInv(c) && c.down.read < c.down.written && agent.pool.workers == c.agent.pool.workers
    requires AgentInv(agent) && CallsInv(agent.pool, calls, c.hasLocal) && SentInv(c.up.log, calls)
    requires RequestsInv(Seen(c.down.(read := c.down.read + 1)), agent.reader, calls)
    ensures ConnInv(c.(down := c.down.(read := c.down.read + 1), agent := agent, calls := calls))
  {
  }

  lemma ReadDownKeeps(c: Conn)
    requires ConnInv(c) && c.down.read < c.down.written && c.agent.pool.held.None?
    ensures ConnInv(TakeDown(c))
  {
    var m := c.down.log[c.down.read];
    var next := Read(c.agent.reader, m);
    if next.Next? {
      ReadDownAdvances(c, Act(c.agent, Receive(m)), CallsAfter(c.calls, next.job));
    }
  }

  lemma ReadDownAdvances(c: Conn, agent: Agent, calls: map<Id, Call>)
    requires ConnInv(c) && c.down.read < c.down.written && CanAct(c.agent, Receive(c.down.log[c.down.read]))
    requires agent == Act(c.agent, Receive(c.down.log[c.down.read]))
    requires calls == CallsAfter(c.calls, Read(c.agent.reader, c.down.log[c.down.read]).job)
    ensures ConnInv(c.(down := c.down.(read := c.down.read + 1), agent := agent, calls := calls))
  {
    ReadDownAgent(c.down, c.agent, c.calls, c.hasLocal, c.up.log);
    AgentAdvanced(c, agent, calls);
  }

  // ----- Job queue and workers -----

  lemma CallsEnqueue(p: Pool, calls: map<Id, Call>, hasLocal: bool)
    requires CallsInv(p, calls, hasLocal) && p.held.Some?
    ensures CallsInv(p.(held := None, jobs := p.jobs + [p.held.value]), calls, hasLocal)
  {
    EnqueueKeepsLine(p);
  }

  lemma CallsTake(p: Pool, calls: map<Id, Call>, hasLocal: bool)
    requires CallsInv(p, calls, hasLocal) && |p.jobs| > 0 && p.jobs[0].id in calls
    ensures var r := p.jobs[0].id;
            && calls[r].stage.Waiting?
            && CallsInv(p.(jobs := p.jobs[1..], running := p.running + [p.jobs[0]]),
                        calls[r := calls[r].(stage := Running)], hasLocal)
  {
    var q := p.(jobs := p.jobs[1..], running := p.running + [p.jobs[0]]);
    var first, k := p.jobs[0], |p.running|;
    TakeKeepsLine(p);
    assert Line(p)[k] == first && first in Line(p);
    forall j | j in q.jobs ensures j.id != first.id {
      var i :| 0 <= i < |q.jobs| && q.jobs[i] == j;
      assert Line(p)[k + 1 + i] == j;
    }
    if q.held.Some? {
      assert Line(p)[|Line(p)| - 1] == q.held.value;
    }
  }

  lemma CallsRetire(p: Pool, calls: map<Id, Call>, hasLocal: bool, i: nat)
    requires CallsInv(p, calls, hasLocal) && i < |p.running| && p.running[i].id in calls
    requires calls[p.running[i].id].stage.Ended? || !hasLocal
    ensures var r := p.running[i].id;
            CallsInv(p.(running := p.running[..i] + p.running[i + 1..]), calls[r := calls[r].(retired := true)],
                     hasLocal)
  {
    var q := p.(running := p.running[..i] + p.running[i + 1..]);
    RetireIds(p, i);
    RetireLine(p, i);
    assert p.running[i] in p.running;
  }

  lemma RetireLine(p: Pool, i: nat)
    requires Distinct(Line(p)) && i < |p.running|
    ensures var q := p.(running := p.running[..i] + p.running[i + 1..]);
            && Distinct(Line(q))
            && (forall j :: j in Line(q) ==> j in Line(p) && j.id != p.running[i].id)
  {
    var q := p.(running := p.running[..i] + p.running[i + 1..]);
    assert Line(p)[i] == p.running[i];
    assert forall k :: 0 <= k < |Line(q)| ==> Line(q)[k] == Line(p)[if k < i then k else k + 1];
  }

  /** Changing one call's stage or retirement keeps the agent's request side. */
  lemma CallChanged(seen: seq<Message>, rd: Reader, calls: map<Id, Call>, r: Id, call: Call)
    requires RequestsInv(seen, rd, calls) && r in calls
    requires call.request == calls[r].request && call.retired == calls[r].retired && StageSound(call.stage)
    ensures RequestsInv(seen, rd, calls[r := call])
  {
    var after := calls[r := call];
    forall x ensures RequestInv(seen, rd, after, x) {
      assert RequestInv(seen, rd, calls, x);
    }
  }

  lemma CallRetired(seen: seq<Message>, rd: Reader, calls: map<Id, Call>, r: Id)
    requires RequestsInv(seen, rd, calls) && r in calls
    ensures RequestsInv(seen, rd.(active := rd.active - {r}), calls[r := calls[r].(retired := true)])
  {
    var idle, after := rd.(active := rd.active - {r}), calls[r := calls[r].(retired := true)];
    forall x ensures RequestInv(seen, idle, after, x) {
      assert RequestInv(seen, rd, calls, x);
    }
  }

  lemma EnqueueKeeps(c: Conn)
    requires ConnInv(c) && CanStep(c, EnqueueJob)
    ensures ConnInv(StepConn(c, EnqueueJob))
  {
    ActKeepsInv(c.agent, Enqueue);
    CallsEnqueue(c.agent.pool, c.calls, c.hasLocal);
  }

  lemma TakeKeeps(c: Conn)
    requires ConnInv(c) && CanStep(c, TakeJob)
    ensures ConnInv(StepConn(c, TakeJob))
  {
    var r := c.agent.pool.jobs[0].id;
    var call := c.calls[r].(stage := Running);
    ActKeepsInv(c.agent, Take);
    CallsTake(c.agent.pool, c.calls, c.hasLocal);
    CallChanged(Seen(c.down), c.agent.reader, c.calls, r, call);
    assert SentInv(c.up.log, c.calls[r := call]);
  }

  lemma RetireKeeps(c: Conn, i: nat)
    requires ConnInv(c) && CanStep(c, RetireJob(i))
    ensures ConnInv(StepConn(c, RetireJob(i)))
  {
    var r := c.agent.pool.running[i].id;
    ActKeepsInv(c.agent, Retire(i));
    CallsRetire(c.agent.pool, c.calls, c.hasLocal, i);
    CallRetired(Seen(c.down), c.agent.reader, c.calls, r);
    assert SentInv(c.up.log, c.calls[r := c.calls[r].(retired := true)]);
  }

  // ----- Workers sending -----

  lemma {:induction false} OpenHasStart(p: seq<Message>)
    requires ReplyViewOf(p).Open?
    ensures exists m :: m in p && m.ResponseStart?
  {
    if !p[|p| - 1].ResponseStart? {
      OpenHasStart(p[..|p| - 1]);
      var m :| m in p[..|p| - 1] && m.ResponseStart?;
      assert m in p;
    }
  }

  lemma OpenStreamsMember(log: seq<Message>, r: Id)
    ensures r in OpenStreams(log) <==> ReplyViewOf(Project(log, r)).Open?
  {
    if ReplyViewOf(Project(log, r)).Open? {
      OpenHasStart(Project(log, r));
      var m :| m in Project(log, r) && m.ResponseStart?;
      assert m in log && m.id == r;
    }
  }

  lemma SentProper(log: seq<Message>, calls: map<Id, Call>, r: Id)
    requires SentInv(log, calls) && (r in calls ==> r != [])
    ensures ReplyViewOf(Project(log, r)) == if r in calls then StageView(calls[r].stage) else Unopened
  {
    if r in calls {
      ReplyViewed(r, calls[r].stage);
    }
  }

  /** A stream that is started but not ended belongs to a running job. */
  lemma OpenIsRunning(p: Pool, calls: map<Id, Call>, hasLocal: bool, log: seq<Message>, r: Id)
    requires CallsInv(p, calls, hasLocal) && SentInv(log, calls) && (r in calls ==> r != [])
    requires r in OpenStreams(log)
    ensures r in Ids(p.running)
  {
    OpenStreamsMember(log, r);
    SentProper(log, calls, r);
    var j :| j in Line(p) && j.id == r;
    assert j in p.running;
  }

  lemma OpenCount(p: Pool, calls: map<Id, Call>, hasLocal: bool, log: seq<Message>)
    requires CallsInv(p, calls, hasLocal) && SentInv(log, calls) && [] !in calls
    ensures |OpenStreams(log)| <= |p.running|
  {
    forall r | r in OpenStreams(log) ensures r in Ids(p.running) {
      OpenIsRunning(p, calls, hasLocal, log, r);
    }
    Contained(OpenStreams(log), Ids(p.running));
    IdsCount(p.running);
  }

  lemma BoundPush(log: seq<Message>, m: Message, workers: nat)
    requires OpenBound(log, workers) && |OpenStreams(log + [m])| <= workers
    ensures OpenBound(log + [m], workers)
  {
    forall n | 0 <= n <= |log| + 1 ensures |OpenStreams((log + [m])[..n])| <= workers {
      if n <= |log| {
        assert (log + [m])[..n] == log[..n];
      } else {
        assert (log + [m])[..n] == log + [m];
      }
    }
  }

  lemma CallsSend(p: Pool, calls: map<Id, Call>, r: Id, s: Stage)
    requires CallsInv(p, calls, true) && r in calls && !calls[r].retired
    requires !calls[r].stage.Waiting? && !s.Waiting?
    ensures CallsInv(p, calls[r := calls[r].(stage := s)], true)
  {
  }

  lemma SentPush(log: seq<Message>, calls: map<Id, Call>, r: Id, m: Message, s: Stage)
    requires SentInv(log, calls) && r in calls && Concerns(m, r) && FromAgent(m)
    requires Reply(r, s) == Reply(r, calls[r].stage) + [m]
    ensures SentInv(log + [m], calls[r := calls[r].(stage := s)])
  {
    var after := calls[r := calls[r].(stage := s)];
    forall x ensures Project(log + [m], x) == SentOf(after, x) {
      ProjectPush(log, m, x);
      assert Project(log, x) == SentOf(calls, x);
      assert x != r ==> !Concerns(m, x);
    }
  }

  lemma SendKeeps(c: Conn, r: Id, m: Message, s: Stage)
    requires ConnInv(c) && r in c.calls && !c.calls[r].retired && c.hasLocal && HasRoom(c.up)
    requires !c.calls[r].stage.Waiting? && !s.Waiting? && StageSound(s)
    requires Concerns(m, r) && FromAgent(m) && Reply(r, s) == Reply(r, c.calls[r].stage) + [m]
    ensures ConnInv(Send(c, r, m, s))
  {
    var calls := c.calls[r := c.calls[r].(stage := s)];
    CallChanged(Seen(c.down), c.agent.reader, c.calls, r, calls[r]);
    assert RequestInv(Seen(c.down), c.agent.reader, c.calls, []);
    SendParts(c.agent.pool, c.calls, c.up.log, r, m, s);
    UpAdvanced(c, m, calls);
  }

  lemma SendParts(p: Pool, calls: map<Id, Call>, log: seq<Message>, r: Id, m: Message, s: Stage)
    requires CallsInv(p, calls, true) && SentInv(log, calls) && OpenBound(log, p.workers) && |p.running| <= p.workers
    requires r in calls && [] !in calls && !calls[r].retired && !calls[r].stage.Waiting? && !s.Waiting?
    requires Concerns(m, r) && FromAgent(m) && Reply(r, s) == Reply(r, calls[r].stage) + [m]
    ensures var after := calls[r := calls[r].(stage := s)];
            CallsInv(p, after, true) && SentInv(log + [m], after) && OpenBound(log + [m], p.workers)
  {
    CallsSend(p, calls, r, s);
    SentPush(log, calls, r, m, s);
    OpenCount(p, calls[r := calls[r].(stage := s)], true, log + [m]);
    BoundPush(log, m, p.workers);
  }

  lemma UpAdvanced(c: Conn, m: Message, calls: map<Id, Call>)
    requires ConnInv(c) && HasRoom(c.up) && CallsInv(c.agent.pool, calls, c.hasLocal)
    requires SentInv(c.up.log + [m], calls) && OpenBound(c.up.log + [m], c.agent.pool.workers)
    requires RequestsInv(Seen(c.down), c.agent.reader, calls)
    ensures ConnInv(c.(up := Push(c.up, m), calls := calls))
  {
    assert Seen(Push(c.up, m)) == Seen(c.up);
  }

  lemma BeginKeeps(c: Conn, r: Id, local: Local)
    requires ConnInv(c) && CanStep(c, Begin(r, local))
    ensures ConnInv(StepConn(c, Begin(r, local)))
  {
    var m := ResponseStart(r, AnswerHead(local));
    assert Reply(r, Streaming(local, [])) == Reply(r, c.calls[r].stage) + [m];
    SendKeeps(c, r, m, Streaming(local, []));
  }

  lemma FailKeeps(c: Conn, r: Id, error: string)
    requires ConnInv(c) && CanStep(c, Fail(r, error))
    ensures ConnInv(StepConn(c, Fail(r, error)))
  {
    SendKeeps(c, r, ResponseStart(r, ErrorHead(error)), Failing(error));
  }

  lemma Emitted(r: Id, s: Stage, n: nat)
    requires s.Streaming? && StageSound(s) && 0 < n <= CHUNK_SIZE && |Join(s.parts)| + n <= |s.local.body|
    ensures var part := NextPart(s, n);
            var next := Streaming(s.local, s.parts + [part]);
            && StageSound(next)
            && Reply(r, next) == Reply(r, s) + [Chunk(r, ResponseChunk, |s.parts| % SEQUENCE_MOD, part)]
  {
    var part := NextPart(s, n);
    JoinPush(s.parts, part);
    ChunksPush(r, ResponseChunk, s.parts, part);
    Associates([ResponseStart(r, AnswerHead(s.local))], Chunks(r, ResponseChunk, s.parts),
               [Chunk(r, ResponseChunk, |s.parts| % SEQUENCE_MOD, part)]);
  }

  lemma EmitKeeps(c: Conn, r: Id, n: nat)
    requires ConnInv(c) && CanStep(c, Emit(r, n))
    ensures ConnInv(StepConn(c, Emit(r, n)))
  {
    var s := c.calls[r].stage;
    var part := NextPart(s, n);
    assert RequestInv(Seen(c.down), c.agent.reader, c.calls, r);
    Emitted(r, s, n);
    SendKeeps(c, r, Chunk(r, ResponseChunk, |s.parts| % SEQUENCE_MOD, part), Streaming(s.local, s.parts + [part]));
  }

  lemma SealKeeps(c: Conn, r: Id, eof: bool)
    requires ConnInv(c) && CanStep(c, Seal(r, eof))
    ensures ConnInv(StepConn(c, Seal(r, eof)))
  {
    var s := c.calls[r].stage;
    assert RequestInv(Seen(c.down), c.agent.reader, c.calls, r);
    SendKeeps(c, r, ResponseEnd(r), Ended(if s.Failing? then Failed(s.error) else Answered(s.local, s.parts, eof)));
  }

  // ----- Gateway session loop -----

  lemma NextReply(ch: Channel, r: Id)
    requires ChannelOk(ch) && ch.read < ch.written && ReplyViewOf(Project(ch.log, r)) != Garbled
    ensures var after := ReplyViewOf(Project(Seen(ch.(read := ch.read + 1)), r));
            && after != Garbled
            && after == ReplyAfter(ReplyViewOf(Project(Seen(ch), r)), ch.log[ch.read], r)
  {
    var next := ch.(read := ch.read + 1);
    SeenNext(ch, r);
    ReplyPush(Project(Seen(ch), r), ch.log[ch.read]);
    ProjectPrefix(ch.log, next.read, r);
    GarbledIsFinal(Project(Seen(next), r), Project(ch.log, r));
  }

  lemma RepliesProper(c: Conn, r: Id)
    requires ConnInv(c)
    ensures ReplyViewOf(Project(c.up.log, r)) == if r in c.calls then StageView(c.calls[r].stage) else Unopened
  {
    assert RequestInv(Seen(c.down), c.agent.reader, c.calls, r);
    SentProper(c.up.log, c.calls, r);
  }

  lemma AllProper(c: Conn)
    requires ConnInv(c)
    ensures forall r :: ReplyViewOf(Project(c.up.log, r)) != Garbled
  {
    assert RequestInv(Seen(c.down), c.agent.reader, c.calls, []);
    SentAllProper(c.up.log, c.calls);
  }

  lemma SentAllProper(log: seq<Message>, calls: map<Id, Call>)
    requires SentInv(log, calls) && [] !in calls
    ensures forall r :: ReplyViewOf(Project(log, r)) != Garbled
  {
    forall r ensures ReplyViewOf(Project(log, r)) != Garbled {
      SentProper(log, calls, r);
    }
  }

  /** A message over one of the gateway's two limits: a 33rd open stream, or a body
      past 32 MiB. */
  predicate Excessive(responses: Assemblies, m: Message) {
    || (m.ResponseStart? && |responses| >= 32)
    || (m.Chunk? && m.id in responses && |responses[m.id].body| + |m.payload| > 33554432)
  }

  lemma RejectsExactly(ch: Channel, responses: Assemblies, delivered: map<Id, Response>)
    requires ChannelOk(ch) && ch.read < ch.written && FromAgent(ch.log[ch.read])
    requires RepliesInv(Seen(ch), responses, delivered)
    requires forall r :: ReplyViewOf(Project(ch.log, r)) != Garbled
    ensures var m := ch.log[ch.read];
            && (m.Chunk? ==> m.id in responses)
            && (Accept(responses, m).Rejected? <==> Excessive(responses, m) || m == OpenTunnel(false))
  {
    var m := ch.log[ch.read];
    if Replying(m) {
      NextReply(ch, m.id);
      assert ReplyInv(Seen(ch), responses, delivered, m.id);
      AcceptRejects(responses, m, ReplyViewOf(Project(Seen(ch), m.id)));
    }
  }

  /** Response-direction compatibility, exactly: on an honest agent's traffic the
      session loop rejects a message if and only if it is over one of the two
      limits, or asks for a tunnel the gateway cannot open. */
  lemma GatewayRejectsExactly(c: Conn)
    requires ConnInv(c) && c.up.read < c.up.written
    ensures var m := c.up.log[c.up.read];
            && (m.Chunk? ==> m.id in c.responses)
            && (Accept(c.responses, m).Rejected? <==> Excessive(c.responses, m) || m == OpenTunnel(false))
  {
    assert FromAgent(c.up.log[c.up.read]);
    AllProper(c);
    RejectsExactly(c.up, c.responses, c.delivered);
  }

  lemma ReadUpReply(ch: Channel, responses: Assemblies, delivered: map<Id, Response>, r: Id)
    requires ChannelOk(ch) && ch.read < ch.written && FromAgent(ch.log[ch.read])
    requires Accept(responses, ch.log[ch.read]).Continue?
    requires ReplyInv(Seen(ch), responses, delivered, r) && ReplyViewOf(Project(ch.log, r)) != Garbled
    ensures var next := Accept(responses, ch.log[ch.read]);
            ReplyInv(Seen(ch.(read := ch.read + 1)), next.responses, DeliveredAfter(delivered, next.delivery), r)
  {
    var m := ch.log[ch.read];
    NextReply(ch, r);
    AcceptTracks(responses, m, r, ReplyViewOf(Project(Seen(ch), r)));
    AcceptDelivery(responses, m);
  }

  lemma ReadUpReplies(ch: Channel, responses: Assemblies, delivered: map<Id, Response>)
    requires ChannelOk(ch) && ch.read < ch.written && FromAgent(ch.log[ch.read])
    requires Accept(responses, ch.log[ch.read]).Continue?
    requires RepliesInv(Seen(ch), responses, delivered)
    requires forall r :: ReplyViewOf(Project(ch.log, r)) != Garbled
    ensures var next := Accept(responses, ch.log[ch.read]);
            RepliesInv(Seen(ch.(read := ch.read + 1)), next.responses, DeliveredAfter(delivered, next.delivery))
  {
    var next := Accept(responses, ch.log[ch.read]);
    var seen, after := Seen(ch.(read := ch.read + 1)), DeliveredAfter(delivered, next.delivery);
    forall r ensures ReplyInv(seen, next.responses, after, r) {
      ReadUpReply(ch, responses, delivered, r);
    }
  }

  lemma GatewayAdvanced(c: Conn, responses: Assemblies, delivered: map<Id, Response>)
    requires ConnInv(c) && c.up.read < c.up.written
    requires RepliesInv(Seen(c.up.(read := c.up.read + 1)), responses, delivered)
    ensures ConnInv(c.(up := c.up.(read := c.up.read + 1), responses := responses, delivered := delivered))
  {
  }

  lemma ReadUpKeeps(c: Conn)
    requires ConnInv(c) && c.up.read < c.up.written
    ensures ConnInv(TakeUp(c))
  {
    var m := c.up.log[c.up.read];
    assert FromAgent(m);
    var next := Accept(c.responses, m);
    if next.Continue? {
      AllProper(c);
      ReadUpReplies(c.up, c.responses, c.delivered);
      GatewayAdvanced(c, next.responses, DeliveredAfter(c.delivered, next.delivery));
    }
  }

  lemma StepKeeps(c: Conn, e: ConnEvent)
    requires ConnInv(c) && CanStep(c, e)
    ensures ConnInv(StepConn(c, e))
  {
    if e.ReadDown? || e.EnqueueJob? || e.TakeJob? || e.RetireJob? {
      AgentStepKeeps(c, e);
    } else if e.Begin? || e.Fail? || e.Emit? || e.Seal? {
      WorkerStepKeeps(c, e);
    } else {
      LinkStepKeeps(c, e);
    }
  }

  lemma AgentStepKeeps(c: Conn, e: ConnEvent)
    requires ConnInv(c) && CanStep(c, e) && (e.ReadDown? || e.EnqueueJob? || e.TakeJob? || e.RetireJob?)
    ensures ConnInv(StepConn(c, e))
  {
    match e
    case ReadDown => ReadDownKeeps(c);
    case EnqueueJob => EnqueueKeeps(c);
    case TakeJob => TakeKeeps(c);
    case RetireJob(i) => RetireKeeps(c, i);
  }

  lemma WorkerStepKeeps(c: Conn, e: ConnEvent)
    requires ConnInv(c) && CanStep(c, e) && (e.Begin? || e.Fail? || e.Emit? || e.Seal?)
    ensures ConnInv(StepConn(c, e))
  {
    match e
    case Begin(r, local) => BeginKeeps(c, r, local);
    case Fail(r, error) => FailKeeps(c, r, error);
    case Emit(r, n) => EmitKeeps(c, r, n);
    case Seal(r, eof) => SealKeeps(c, r, eof);
  }

  lemma LinkStepKeeps(c: Conn, e: ConnEvent)
    requires ConnInv(c) && CanStep(c, e)
    requires e.WriteDown? || e.WriteUp? || e.ReadUp? || e.NoteUp? || e.NoteDown? || e.PingDown? || e.StopAgent?
             || e.StopGateway?
    ensures ConnInv(StepConn(c, e))
  {
    match e
    case ReadUp => ReadUpKeeps(c);
    case NoteUp(m) => NoteUpKeeps(c, m);
    case NoteDown => NoteDownKeeps(c);
    case PingDown => PingKeeps(c);
    case _ =>
  }

  // ----- Consequences -----

  /** A stream's body only grows. */
  lemma {:induction false} BodyGrows(p: seq<Message>, q: seq<Message>)
    requires p <= q && ReplyViewOf(p).Open? && ReplyViewOf(q) != Garbled
    ensures var g := ReplyViewOf(q);
            && (g.Open? ==> ReplyViewOf(p).assembly.body <= g.assembly.body)
            && (g.Delivered? ==> ReplyViewOf(p).assembly.body <= g.response.body)
            && !g.Unopened?
    decreases |q|
  {
    if p != q {
      var init := q[..|q| - 1];
      assert p <= init && init <= q;
      GarbledIsFinal(init, q);
      BodyGrows(p, init);
    }
  }

  ghost predicate LocalBodiesFit(calls: map<Id, Call>) {
    forall r :: r in calls ==>
      && (calls[r].stage.Streaming? ==> |calls[r].stage.local.body| <= MAX_BODY)
      && (calls[r].stage.Ended? && calls[r].stage.outcome.Answered? ==> |calls[r].stage.outcome.local.body| <= MAX_BODY)
  }

  lemma ChunkFits(ch: Channel, calls: map<Id, Call>, responses: Assemblies, delivered: map<Id, Response>)
    requires ChannelOk(ch) && ch.read < ch.written && ch.log[ch.read].Chunk?
    requires RepliesInv(Seen(ch), responses, delivered) && ch.log[ch.read].id in responses
    requires var r := ch.log[ch.read].id;
             && r in calls && StageSound(calls[r].stage) && LocalBodiesFit(calls)
             && ReplyViewOf(Project(ch.log, r)) == StageView(calls[r].stage)
    ensures var m := ch.log[ch.read]; |responses[m.id].body| + |m.payload| <= MAX_BODY
  {
    var m := ch.log[ch.read];
    var next := ch.(read := ch.read + 1);
    NextReply(ch, m.id);
    assert ReplyInv(Seen(ch), responses, delivered, m.id);
    ProjectPrefix(ch.log, next.read, m.id);
    BodyGrows(Project(Seen(next), m.id), Project(ch.log, m.id));
  }

  lemma StartOpens(ch: Channel, responses: Assemblies, delivered: map<Id, Response>, r: Id)
    requires ChannelOk(ch) && ch.read < ch.written && ch.log[ch.read].ResponseStart?
    requires RepliesInv(Seen(ch), responses, delivered)
    requires ReplyViewOf(Project(ch.log, r)) != Garbled
    requires r in responses || r == ch.log[ch.read].id
    ensures r in OpenStreams(Seen(ch.(read := ch.read + 1)))
    ensures !(r in responses && r == ch.log[ch.read].id)
  {
    NextReply(ch, r);
    assert ReplyInv(Seen(ch), responses, delivered, r);
    OpenStreamsMember(Seen(ch.(read := ch.read + 1)), r);
  }

  lemma StartOpensAll(ch: Channel, responses: Assemblies, delivered: map<Id, Response>)
    requires ChannelOk(ch) && ch.read < ch.written && ch.log[ch.read].ResponseStart?
    requires RepliesInv(Seen(ch), responses, delivered)
    requires forall r :: ReplyViewOf(Project(ch.log, r)) != Garbled
    ensures ch.log[ch.read].id !in responses
    ensures responses.Keys + {ch.log[ch.read].id} <= OpenStreams(Seen(ch.(read := ch.read + 1)))
  {
    var started, open := ch.log[ch.read].id, OpenStreams(Seen(ch.(read := ch.read + 1)));
    StartOpens(ch, responses, delivered, started);
    forall r | r in responses ensures r in open {
      StartOpens(ch, responses, delivered, r);
    }
  }

  lemma StartFits(ch: Channel, responses: Assemblies, delivered: map<Id, Response>, workers: nat)
    requires ChannelOk(ch) && ch.read < ch.written && ch.log[ch.read].ResponseStart?
    requires RepliesInv(Seen(ch), responses, delivered) && OpenBound(ch.log, workers)
    requires forall r :: ReplyViewOf(Project(ch.log, r)) != Garbled
    ensures |responses| < workers
  {
    StartOpensAll(ch, responses, delivered);
    RoomForOne(responses.Keys, ch.log[ch.read].id, OpenStreams(ch.log[..ch.read + 1]));
    assert |responses.Keys| == |responses|;
  }

  lemma RoomForOne<T>(s: set<T>, x: T, t: set<T>)
    requires x !in s && s + {x} <= t
    ensures |s| < |t|
  {
    Contained(s + {x}, t);
  }

  /** Response-direction compatibility: with at most 32 workers and local bodies
      of at most 32 MiB the session loop accepts everything the agent sends, but
      for a tunnel it cannot open. */
  lemma ResponsesAccepted(c: Conn)
    requires ConnInv(c) && c.up.read < c.up.written
    requires c.agent.pool.workers <= STREAM_LIMIT && LocalBodiesFit(c.calls)
    ensures Accept(c.responses, c.up.log[c.up.read]).Continue? || c.up.log[c.up.read] == OpenTunnel(false)
  {
    var m := c.up.log[c.up.read];
    GatewayRejectsExactly(c);
    AllProper(c);
    if m.ResponseStart? {
      StartFits(c.up, c.responses, c.delivered, c.agent.pool.workers);
    } else if m.Chunk? {
      AnsweredOnly(c, m.id);
      ChunkFits(c.up, c.calls, c.responses, c.delivered);
    }
  }

  /** The agent replies only to requests it was given. */
  lemma AnsweredOnly(c: Conn, r: Id)
    requires ConnInv(c) && c.up.read < c.up.written && Concerns(c.up.log[c.up.read], r)
    ensures r in c.calls && StageSound(c.calls[r].stage)
    ensures ReplyViewOf(Project(c.up.log, r)) == StageView(c.calls[r].stage)
  {
    RepliesProper(c, r);
    NextReply(c.up, r);
    ProjectPrefix(c.up.log, c.up.read + 1, r);
    SeenNext(c.up, r);
    assert Project(c.up.log, r) == SentOf(c.calls, r);
    assert RequestInv(Seen(c.down), c.agent.reader, c.calls, r);
  }

  /** Bounded dispatch, exactly: with distinct request ids the cancel entries are
      the queued jobs, the running jobs and the one the reader holds. */
  lemma ExactDispatch(c: Conn)
    requires ConnInv(c)
    ensures c.agent.reader.active.Keys == Ids(Line(c.agent.pool))
    ensures |c.agent.reader.active| == |Line(c.agent.pool)| <= 2 * c.agent.pool.workers + 1
  {
    var p := c.agent.pool;
    forall r ensures r in c.agent.reader.active <==> r in Ids(Line(p)) {
      assert RequestInv(Seen(c.down), c.agent.reader, c.calls, r);
    }
    assert c.agent.reader.active.Keys == Ids(Line(p));
    DistinctCount(Line(p));
  }

  lemma {:induction false} DistinctCount(line: seq<Request>)
    requires Distinct(line)
    ensures |Ids(line)| == |line|
  {
    if line != [] {
      var n := |line| - 1;
      assert line == line[..n] + [line[n]];
      IdsPush(line[..n], line[n]);
      DistinctCount(line[..n]);
    } else {
      assert Ids(line) == {};
    }
  }

  lemma {:induction false} CancelSticks(p: seq<Message>, r: Id)
    requires CancelRequest(r) in p && ViewOf(p) != Bad
    ensures ViewOf(p).Dropped? || (ViewOf(p).Dispatched? && ViewOf(p).cancelled)
  {
    var init := p[..|p| - 1];
    if CancelRequest(r) in init {
      BadIsFinal(init, p);
      CancelSticks(init, r);
    } else {
      assert p == init + [p[|p| - 1]];
    }
  }

  /** Cancellation: in every state after the reader has processed the cancel of
      `r`, `r` is not being assembled and an unfinished job of `r` is cancelled. */
  lemma CancelEffective(c: Conn, r: Id)
    requires ConnInv(c) && CancelRequest(r) in Seen(c.down)
    ensures r !in c.agent.reader.pending
    ensures r in c.agent.reader.active ==> c.agent.reader.active[r]
    ensures r in Ids(Line(c.agent.pool)) ==> r in c.agent.reader.active
  {
    ProjectKeeps(Seen(c.down), CancelRequest(r), r);
    SeenNotBad(c.down, r);
    CancelSticks(Project(Seen(c.down), r), r);
    assert RequestInv(Seen(c.down), c.agent.reader, c.calls, r);
    ExactDispatch(c);
  }

  /** No message, a cancel included, touches any request but its own. */
  lemma ReadLocal(rd: Reader, m: Message, x: Id)
    requires !Concerns(m, x) && Read(rd, m).Next?
    ensures var after := Read(rd, m).reader;
            && (x in after.pending <==> x in rd.pending) && (x in rd.pending ==> after.pending[x] == rd.pending[x])
            && (x in after.active <==> x in rd.active) && (x in rd.active ==> after.active[x] == rd.active[x])
  {
  }
}
