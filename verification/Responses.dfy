/** Response streams: how the gateway session loop reassembles and delivers
    them (backend/internal/gateway/agent_connect.go). */
module Responses {
  import opened Protocol

  datatype Assembly = Assembly(head: ResponseHead, next: nat, body: Bytes)
  type Assemblies = map<Id, Assembly>
  datatype Delivery = Delivery(id: Id, response: Response)
  datatype GatewayResult = Continue(responses: Assemblies, delivery: Option<Delivery>) | Rejected

  predicate CanAppend(a: Assembly, kind: ChunkKind, sequence: nat, payload: Bytes) {
    && kind.ResponseChunk? && sequence == a.next
    && |a.body| + |payload| <= MAX_BODY
    && (a.head.contentLength >= 0 ==> |a.body| + |payload| <= a.head.contentLength)
  }

  function Append(a: Assembly, payload: Bytes): Assembly {
    Assembly(a.head, (a.next + 1) % SEQUENCE_MOD, a.body + payload)
  }

  function Finished(a: Assembly): Response {
    Response(a.head.status, a.head.headers, a.body, a.head.error)
  }

  /** One inbound message of the session loop. `Rejected` ends the session. */
  function Accept(responses: Assemblies, m: Message): GatewayResult {
    match m
    case Chunk(id, kind, sequence, payload) =>
      if id !in responses || !CanAppend(responses[id], kind, sequence, payload) then Rejected
      else Continue(responses[id := Append(responses[id], payload)], None)
    case ResponseStart(id, head) =>
      if id == [] || head.contentLength < -1 || head.contentLength > MAX_BODY then Rejected
      else if id !in responses && |responses| >= STREAM_LIMIT then Rejected
      else Continue(responses[id := Assembly(head, 0, [])], None)
    case ResponseEnd(id) =>
      if id !in responses then Rejected
      else
        var a := responses[id];
        if a.head.contentLength >= 0 && |a.body| != a.head.contentLength then Rejected
        else Continue(responses - {id}, Some(Delivery(id, Finished(a))))
    case OpenTunnel(accepted) => if accepted then Continue(responses, None) else Rejected
    case Malformed => Rejected
    case _ => Continue(responses, None)
  }

  // ----- Memory bound, for arbitrary agents -----

  ghost predicate Bounded(responses: Assemblies) {
    && |responses| <= STREAM_LIMIT
    && forall r :: r in responses ==>
         && |responses[r].body| <= MAX_BODY
         && (responses[r].head.contentLength >= 0 ==> |responses[r].body| <= responses[r].head.contentLength)
  }

  /** The session loop over any inbound messages, stopping at a rejection. */
  function Serve(inbound: seq<Message>): GatewayResult {
    if inbound == [] then Continue(map[], None)
    else
      var before := Serve(inbound[..|inbound| - 1]);
      if before.Rejected? then Rejected else Accept(before.responses, inbound[|inbound| - 1])
  }

  lemma AcceptKeepsBounded(responses: Assemblies, m: Message)
    requires Bounded(responses)
    ensures var after := Accept(responses, m); after.Continue? ==> Bounded(after.responses)
  {
    if m.ResponseEnd? && m.id in responses {
      MapShrunk(responses, m.id);
    } else if m.ResponseStart? {
      MapGrown(responses, m.id, Assembly(m.reply, 0, []));
    } else if m.Chunk? && m.id in responses {
      MapGrown(responses, m.id, Append(responses[m.id], m.payload));
    }
  }

  /** Total body bytes buffered by a session. */
  ghost function Buffered(responses: Assemblies): nat
    decreases |responses|
  {
    if responses == map[] then 0
    else
      var r :| r in responses;
      MapShrunk(responses, r);
      |responses[r].body| + Buffered(responses - {r})
  }

  lemma {:induction false} BufferedBound(responses: Assemblies)
    requires forall r :: r in responses ==> |responses[r].body| <= MAX_BODY
    ensures Buffered(responses) <= |responses| * MAX_BODY
    decreases |responses|
  {
    if responses != map[] {
      var r :| r in responses
          && Buffered(responses) == (MapShrunk(responses, r); |responses[r].body| + Buffered(responses - {r}));
      MapShrunk(responses, r);
      BufferedBound(responses - {r});
      assert |responses| * MAX_BODY == |responses - {r}| * MAX_BODY + MAX_BODY;
    }
  }

  /** Gateway memory bound: whatever an agent sends, a live session holds at most
      32 assemblies, each within its limits, and never more than 1 GiB of body. */
  lemma {:induction false} SessionMemoryBound(inbound: seq<Message>)
    ensures var s := Serve(inbound);
            s.Continue? ==> Bounded(s.responses) && Buffered(s.responses) <= 1073741824
  {
    if inbound != [] {
      var before := Serve(inbound[..|inbound| - 1]);
      SessionMemoryBound(inbound[..|inbound| - 1]);
      if before.Continue? {
        AcceptKeepsBounded(before.responses, inbound[|inbound| - 1]);
      }
    }
    var s := Serve(inbound);
    if s.Continue? {
      BufferedBound(s.responses);
      assert |s.responses| * MAX_BODY <= STREAM_LIMIT * MAX_BODY;
    }
  }

  // ----- One response stream on its own -----

  datatype ReplyView =
    | Unopened
    | Open(assembly: Assembly)
    | Delivered(response: Response)
    | Garbled

  /** The chunk size limit is left out here: it is the gateway's, not the agent's. */
  function ReplyStep(v: ReplyView, m: Message): ReplyView {
    match m
    case ResponseStart(id, head) =>
      if v.Unopened? && id != [] && -1 <= head.contentLength <= MAX_BODY then Open(Assembly(head, 0, [])) else Garbled
    case Chunk(id, kind, sequence, payload) =>
      if v.Open? && kind.ResponseChunk? && sequence == v.assembly.next && v.assembly.head.contentLength == -1
      then Open(Append(v.assembly, payload)) else Garbled
    case ResponseEnd(id) =>
      if v.Open? && (v.assembly.head.contentLength >= 0 ==> |v.assembly.body| == v.assembly.head.contentLength)
      then Delivered(Finished(v.assembly)) else Garbled
    case _ => Garbled
  }

  /** The session's map agrees with the view of `r`. */
  predicate TracksReply(responses: Assemblies, r: Id, g: ReplyView) {
    && (r in responses <==> g.Open?)
    && (r in responses ==> responses[r] == g.assembly)
  }

  predicate Replying(m: Message) { m.ResponseStart? || m.ResponseEnd? || m.Chunk? }

  /** What the agent sends besides its replies: a pong, or a request to open a tunnel. */
  predicate Note(m: Message) { m.Other? || m.OpenTunnel? }

  predicate FromAgent(m: Message) { Replying(m) || Note(m) }

  function ReplyAfter(g: ReplyView, m: Message, r: Id): ReplyView {
    if Concerns(m, r) then ReplyStep(g, m) else g
  }

  /** One accepted message moves each response as its own stream says, delivers
      exactly the stream it ends, and leaves every other response alone. */
  lemma AcceptTracks(responses: Assemblies, m: Message, r: Id, g: ReplyView)
    requires TracksReply(responses, r, g) && FromAgent(m)
    requires Accept(responses, m).Continue? && ReplyAfter(g, m, r) != Garbled
    ensures TracksReply(Accept(responses, m).responses, r, ReplyAfter(g, m, r))
    ensures ReplyAfter(g, m, r).Delivered? && !g.Delivered? <==> m == ResponseEnd(r)
    ensures m == ResponseEnd(r) ==> Accept(responses, m).delivery == Some(Delivery(r, ReplyStep(g, m).response))
  {
    match m
    case ResponseStart(id, head) =>
    case ResponseEnd(id) =>
    case Chunk(id, kind, sequence, payload) =>
    case _ =>
  }

  /** The only two checks an in-order stream can still fail. */
  lemma AcceptRejects(responses: Assemblies, m: Message, g: ReplyView)
    requires Replying(m) && TracksReply(responses, m.id, g) && ReplyStep(g, m) != Garbled
    ensures m.Chunk? ==> m.id in responses
    ensures Accept(responses, m).Rejected? <==>
              || (m.ResponseStart? && |responses| >= STREAM_LIMIT)
              || (m.Chunk? && |responses[m.id].body| + |m.payload| > MAX_BODY)
  {
  }

  lemma AcceptDelivery(responses: Assemblies, m: Message)
    requires Accept(responses, m).Continue?
    ensures Accept(responses, m).delivery.Some? <==> m.ResponseEnd?
    ensures m.ResponseEnd? ==> Accept(responses, m).delivery.value.id == m.id
  {
  }

  function ReplyViewOf(p: seq<Message>): ReplyView {
    if p == [] then Unopened else ReplyStep(ReplyViewOf(p[..|p| - 1]), p[|p| - 1])
  }

  lemma ReplyPush(p: seq<Message>, m: Message)
    ensures ReplyViewOf(p + [m]) == ReplyStep(ReplyViewOf(p), m)
  {
    assert (p + [m])[..|p|] == p;
  }

  lemma FirstReplies(a: Message, b: Message)
    ensures ReplyViewOf([a]) == ReplyStep(Unopened, a)
    ensures ReplyViewOf([a, b]) == ReplyStep(ReplyStep(Unopened, a), b)
  {
    Displays(a, b);
    ReplyPush([], a);
    ReplyPush([a], b);
  }

  lemma {:induction false} GarbledIsFinal(p: seq<Message>, q: seq<Message>)
    requires p <= q && ReplyViewOf(q) != Garbled
    ensures ReplyViewOf(p) != Garbled
    decreases |q|
  {
    if p != q {
      assert p <= q[..|q| - 1];
      GarbledIsFinal(p, q[..|q| - 1]);
    }
  }

  /** A delivered stream cannot grow: nothing may follow its end. */
  lemma {:induction false} DeliveredIsFinal(p: seq<Message>, q: seq<Message>)
    requires p <= q && ReplyViewOf(q) != Garbled && ReplyViewOf(p).Delivered?
    ensures p == q
    decreases |q|
  {
    if p != q {
      assert p <= q[..|q| - 1];
      GarbledIsFinal(q[..|q| - 1], q);
      DeliveredIsFinal(p, q[..|q| - 1]);
      assert false;
    }
  }

  lemma {:induction false} PartsReassemble(r: Id, head: ResponseHead, parts: seq<Bytes>)
    requires r != [] && head.contentLength == -1
    ensures ReplyViewOf([ResponseStart(r, head)] + Chunks(r, ResponseChunk, parts))
         == Open(Assembly(head, |parts| % SEQUENCE_MOD, Join(parts)))
    decreases |parts|
  {
    var start := ResponseStart(r, head);
    if parts == [] {
      ReplyPush([], start);
      assert [start] + Chunks(r, ResponseChunk, parts) == [] + [start];
    } else {
      var n := |parts| - 1;
      var init, part := parts[..n], parts[n];
      WithoutLast(parts);
      JoinPush(init, part);
      ChunksPush(r, ResponseChunk, init, part);
      PartsReassemble(r, head, init);
      NextSequence(n);
      var m := Chunk(r, ResponseChunk, n % SEQUENCE_MOD, part);
      var before := [start] + Chunks(r, ResponseChunk, init);
      Associates([start], Chunks(r, ResponseChunk, init), [m]);
      ReplyPush(before, m);
    }
  }

  /** Both 32-bit counters wrap in step, so even a wrapped stream stays in order. */
  lemma NextSequence(n: nat)
    ensures (n % SEQUENCE_MOD + 1) % SEQUENCE_MOD == (n + 1) % SEQUENCE_MOD
  {
  }
}
