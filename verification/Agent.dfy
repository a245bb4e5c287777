/** Dispatch inside the agent: the reader, the job queue and the worker pool
    (agent/internal/gatewayclient/client.go). */
module Agents {
  import opened Protocol
  import opened Requests

  /** `held` is the job the reader is blocked on while the job queue is full. */
  datatype Pool = Pool(workers: nat, held: Option<Request>, jobs: seq<Request>, running: seq<Request>)
  datatype Agent = Agent(reader: Reader, pool: Pool)

  datatype AgentEvent = Receive(m: Message) | Enqueue | Take | Retire(i: nat)

  predicate CanAct(a: Agent, e: AgentEvent) {
    match e
    case Receive(m) => a.pool.held.None? && Read(a.reader, m).Next?
    case Enqueue => a.pool.held.Some? && |a.pool.jobs| < a.pool.workers
    case Take => |a.pool.jobs| > 0 && |a.pool.running| < a.pool.workers
    case Retire(i) => i < |a.pool.running|
  }

  function Act(a: Agent, e: AgentEvent): Agent
    requires CanAct(a, e)
  {
    match e
    case Receive(m) =>
      var next := Read(a.reader, m);
      Agent(next.reader, a.pool.(held := next.job))
    case Enqueue =>
      a.(pool := a.pool.(held := None, jobs := a.pool.jobs + [a.pool.held.value]))
    case Take =>
      a.(pool := a.pool.(jobs := a.pool.jobs[1..], running := a.pool.running + [a.pool.jobs[0]]))
    case Retire(i) =>
      var done := a.pool.running[i];
      Agent(a.reader.(active := a.reader.active - {done.id}),
            a.pool.(running := a.pool.running[..i] + a.pool.running[i + 1..]))
  }

  /** Every unfinished job, oldest first. */
  function Line(p: Pool): seq<Request> {
    p.running + p.jobs + (if p.held.Some? then [p.held.value] else [])
  }

  function Ids(line: seq<Request>): (ids: set<Id>) {
    set j | j in line :: j.id
  }

  lemma IdsPush(line: seq<Request>, j: Request)
    ensures Ids(line + [j]) == Ids(line) + {j.id}
  {
    assert forall x :: x in line + [j] <==> x in line || x == j;
  }

  lemma {:induction false} IdsCount(line: seq<Request>)
    ensures |Ids(line)| <= |line|
  {
    if line != [] {
      var n := |line| - 1;
      assert line == line[..n] + [line[n]];
      IdsPush(line[..n], line[n]);
      IdsCount(line[..n]);
    } else {
      assert Ids(line) == {};
    }
  }

  ghost predicate AgentInv(a: Agent) {
    && |a.reader.pending| <= STREAM_LIMIT
    && |a.pool.jobs| <= a.pool.workers
    && |a.pool.running| <= a.pool.workers
    && a.reader.active.Keys <= Ids(Line(a.pool))
  }

  lemma ReadKeepsPending(rd: Reader, m: Message)
    requires |rd.pending| <= STREAM_LIMIT && Read(rd, m).Next?
    ensures |Read(rd, m).reader.pending| <= STREAM_LIMIT
  {
    match m
    case RequestStart(id, head, contentLength) =>
      MapGrown(rd.pending, id, Pending(head, NewAssembler(contentLength).value));
    case Chunk(id, _, _, payload) =>
      MapGrown(rd.pending, id, rd.pending[id].(assembler := Add(rd.pending[id].assembler, payload)));
    case RequestEnd(id) => MapShrunk(rd.pending, id);
    case CancelRequest(id) => MapShrunk(rd.pending, id);
    case _ =>
  }

  lemma EnqueueKeepsLine(p: Pool)
    requires p.held.Some?
    ensures Line(p.(held := None, jobs := p.jobs + [p.held.value])) == Line(p)
  {
  }

  lemma TakeKeepsLine(p: Pool)
    requires |p.jobs| > 0
    ensures Line(p.(jobs := p.jobs[1..], running := p.running + [p.jobs[0]])) == Line(p)
  {
    assert p.jobs == [p.jobs[0]] + p.jobs[1..];
  }

  lemma RetireIds(p: Pool, i: nat)
    requires i < |p.running|
    ensures var q := p.(running := p.running[..i] + p.running[i + 1..]);
            Ids(Line(p)) - {p.running[i].id} <= Ids(Line(q))
  {
    var q := p.(running := p.running[..i] + p.running[i + 1..]);
    forall x | x in Ids(Line(p)) && x != p.running[i].id
      ensures x in Ids(Line(q))
    {
      var j :| j in Line(p) && j.id == x;
      var k :| 0 <= k < |Line(p)| && Line(p)[k] == j;
      assert Line(q)[if k < i then k else k - 1] == j;
    }
  }

  lemma ActKeepsInv(a: Agent, e: AgentEvent)
    requires AgentInv(a) && CanAct(a, e)
    ensures AgentInv(Act(a, e))
  {
    match e
    case Receive(m) =>
      ReadKeepsPending(a.reader, m);
      var job := Read(a.reader, m).job;
      if job.Some? {
        assert Line(Act(a, e).pool) == Line(a.pool) + [job.value];
        IdsPush(Line(a.pool), job.value);
      } else {
        assert Line(Act(a, e).pool) == Line(a.pool);
      }
    case Enqueue => EnqueueKeepsLine(a.pool);
    case Take => TakeKeepsLine(a.pool);
    case Retire(i) => RetireIds(a.pool, i);
  }

  lemma ActiveBound(a: Agent)
    requires AgentInv(a)
    ensures |a.reader.active| <= 2 * a.pool.workers + 1
  {
    IdsCount(Line(a.pool));
    Contained(a.reader.active.Keys, Ids(Line(a.pool)));
  }

  lemma {:induction false} Contained<T>(s: set<T>, t: set<T>)
    requires s <= t
    ensures |s| <= |t|
    decreases |s|
  {
    if s != {} {
      var x :| x in s;
      Contained(s - {x}, t - {x});
    }
  }

  function Start(workers: nat): Agent {
    Agent(Reader(map[], map[]), Pool(workers, None, [], []))
  }

  /** A run of the agent; `None` when some event was not possible. */
  function AgentRun(workers: nat, events: seq<AgentEvent>): Option<Agent> {
    if events == [] then Some(Start(workers))
    else
      var before := AgentRun(workers, events[..|events| - 1]);
      if before.Some? && CanAct(before.value, events[|events| - 1])
      then Some(Act(before.value, events[|events| - 1])) else None
  }

  lemma {:induction false} RunKeepsInv(workers: nat, events: seq<AgentEvent>)
    requires AgentRun(workers, events).Some?
    ensures AgentInv(AgentRun(workers, events).value)
  {
    if events != [] {
      var init := events[..|events| - 1];
      RunKeepsInv(workers, init);
      ActKeepsInv(AgentRun(workers, init).value, events[|events| - 1]);
    }
  }

  /** Bounded dispatch against any gateway, repeated request ids included: at
      most 2W+1 cancel entries and 32 streams under assembly. */
  lemma BoundedDispatch(workers: nat, events: seq<AgentEvent>)
    requires AgentRun(workers, events).Some?
    ensures var a := AgentRun(workers, events).value;
            && |a.reader.active| <= 2 * workers + 1
            && |a.reader.pending| <= STREAM_LIMIT
  {
    RunKeepsInv(workers, events);
    WorkersFixed(workers, events);
    ActiveBound(AgentRun(workers, events).value);
  }

  lemma {:induction false} WorkersFixed(workers: nat, events: seq<AgentEvent>)
    requires AgentRun(workers, events).Some?
    ensures AgentRun(workers, events).value.pool.workers == workers
  {
    if events != [] {
      WorkersFixed(workers, events[..|events| - 1]);
    }
  }
}
