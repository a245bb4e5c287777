/** Request streams: how the agent reassembles them
    (agent/internal/gatewayclient/chunk_assembler.go and the reader loop of client.go). */
module Requests {
  import opened Protocol

  datatype Assembler = Assembler(expected: int, next: nat, body: Bytes)

  function NewAssembler(expected: int): (a: Option<Assembler>)
    ensures a.None? <==> expected < -1
  {
    if expected < -1 then None else Some(Assembler(expected, 0, []))
  }

  predicate CanAdd(a: Assembler, kind: ChunkKind, sequence: nat, payload: Bytes) {
    kind.RequestChunk? && sequence == a.next && (a.expected >= 0 ==> |a.body| + |payload| <= a.expected)
  }

  function Add(a: Assembler, payload: Bytes): Assembler {
    Assembler(a.expected, (a.next + 1) % SEQUENCE_MOD, a.body + payload)
  }

  predicate CanComplete(a: Assembler) {
    a.expected >= 0 ==> |a.body| == a.expected
  }

  datatype Pending = Pending(head: RequestHead, assembler: Assembler)

  /** `active` maps every dispatched, unfinished request to whether its context
      has been cancelled. */
  datatype Reader = Reader(pending: map<Id, Pending>, active: map<Id, bool>)
  datatype ReaderResult = Next(reader: Reader, job: Option<Request>) | Broken

  /** One turn of the reader loop. `Broken` ends the session. */
  function Read(rd: Reader, m: Message): ReaderResult {
    match m
    case Chunk(id, kind, sequence, payload) =>
      if id !in rd.pending || !CanAdd(rd.pending[id].assembler, kind, sequence, payload) then Broken
      else
        var p := rd.pending[id];
        Next(rd.(pending := rd.pending[id := p.(assembler := Add(p.assembler, payload))]), None)
    case RequestStart(id, head, contentLength) =>
      if id == [] || id in rd.pending || |rd.pending| >= STREAM_LIMIT then Broken
      else
        var a := NewAssembler(contentLength);
        if a.None? then Broken
        else Next(rd.(pending := rd.pending[id := Pending(head, a.value)]), None)
    case RequestEnd(id) =>
      if id !in rd.pending || !CanComplete(rd.pending[id].assembler) then Broken
      else
        var p := rd.pending[id];
        Next(Reader(rd.pending - {id}, rd.active[id := false]), Some(Request(id, p.head, p.assembler.body)))
    case CancelRequest(id) =>
      Next(Reader(rd.pending - {id}, if id in rd.active then rd.active[id := true] else rd.active), None)
    case Malformed => Broken
    case _ => Next(rd, None)
  }

  /** Where one request stands at the agent, computed from that request's own
      messages only. `Bad` marks a stream no public handler produces. */
  datatype View =
    | Absent
    | Assembling(head: RequestHead, assembler: Assembler)
    | Dispatched(request: Request, cancelled: bool)
    | Dropped
    | Bad

  function ViewStep(v: View, m: Message): View {
    match m
    case RequestStart(id, head, contentLength) =>
      if v.Absent? && id != [] && contentLength >= -1 then Assembling(head, Assembler(contentLength, 0, [])) else Bad
    case Chunk(id, kind, sequence, payload) =>
      if v.Assembling? && CanAdd(v.assembler, kind, sequence, payload)
      then Assembling(v.head, Add(v.assembler, payload)) else Bad
    case RequestEnd(id) =>
      if v.Assembling? && CanComplete(v.assembler)
      then Dispatched(Request(id, v.head, v.assembler.body), false) else Bad
    case CancelRequest(id) =>
      if v.Assembling? then Dropped
      else if v.Dispatched? then v.(cancelled := true)
      else Bad
    case _ => Bad
  }

  /** The reader's maps agree with the view of `r`. */
  predicate Tracks(rd: Reader, r: Id, v: View) {
    && (r in rd.pending <==> v.Assembling?)
    && (r in rd.pending ==> rd.pending[r] == Pending(v.head, v.assembler))
    && (r in rd.active ==> v.Dispatched? && rd.active[r] == v.cancelled)
  }

  predicate FromGateway(m: Message) {
    m.RequestStart? || m.Chunk? || m.RequestEnd? || m.CancelRequest? || m.OpenTunnel? || m.Other?
  }

  function ViewAfter(v: View, m: Message, r: Id): View {
    if Concerns(m, r) then ViewStep(v, m) else v
  }

  /** One turn of the reader moves each request's state as its own stream says,
      and leaves every other request alone. */
  lemma ReadTracks(rd: Reader, m: Message, r: Id, v: View)
    requires Tracks(rd, r, v) && FromGateway(m) && Read(rd, m).Next? && ViewAfter(v, m, r) != Bad
    ensures Tracks(Read(rd, m).reader, r, ViewAfter(v, m, r))
    ensures r in Read(rd, m).reader.active <==> r in rd.active || m == RequestEnd(r)
  {
    match m
    case RequestStart(id, head, contentLength) =>
    case Chunk(id, kind, sequence, payload) =>
    case RequestEnd(id) =>
    case CancelRequest(id) =>
    case _ =>
  }

  /** A dispatched job is the request its stream describes. */
  lemma ReadJob(rd: Reader, m: Message)
    requires Read(rd, m).Next?
    ensures Read(rd, m).job.Some? <==> m.RequestEnd?
    ensures m.RequestEnd? ==> m.id in rd.pending && Read(rd, m).job.value.id == m.id
    ensures m.RequestEnd? ==> forall v :: Tracks(rd, m.id, v) ==>
              ViewStep(v, m) == Dispatched(Read(rd, m).job.value, false)
  {
  }

  /** The only check a proper stream can still fail is the reader's stream limit. */
  lemma ReadRejects(rd: Reader, m: Message, v: View)
    requires m.RequestStart? || m.Chunk? || m.RequestEnd?
    requires Tracks(rd, m.id, v) && ViewStep(v, m) != Bad
    ensures Read(rd, m).Broken? <==> m.RequestStart? && |rd.pending| >= STREAM_LIMIT
  {
    match m
    case RequestStart(id, head, contentLength) =>
    case Chunk(id, kind, sequence, payload) =>
    case RequestEnd(id) =>
  }

  function ViewOf(p: seq<Message>): View {
    if p == [] then Absent else ViewStep(ViewOf(p[..|p| - 1]), p[|p| - 1])
  }

  lemma ViewPush(p: seq<Message>, m: Message)
    ensures ViewOf(p + [m]) == ViewStep(ViewOf(p), m)
  {
    assert (p + [m])[..|p|] == p;
  }

  lemma {:induction false} BadIsFinal(p: seq<Message>, q: seq<Message>)
    requires p <= q && ViewOf(q) != Bad
    ensures ViewOf(p) != Bad
    decreases |q|
  {
    if p != q {
      assert p <= q[..|q| - 1];
      BadIsFinal(p, q[..|q| - 1]);
    }
  }

  /** Once dispatched, a request stays dispatched with the same content. */
  lemma {:induction false} DispatchedIsFinal(p: seq<Message>, q: seq<Message>)
    requires p <= q && ViewOf(q) != Bad && ViewOf(p).Dispatched?
    ensures ViewOf(q).Dispatched? && ViewOf(q).request == ViewOf(p).request
    ensures ViewOf(p).cancelled ==> ViewOf(q).cancelled
    decreases |q|
  {
    if p != q {
      assert p <= q[..|q| - 1];
      BadIsFinal(q[..|q| - 1], q);
      DispatchedIsFinal(p, q[..|q| - 1]);
    }
  }

  /** A log in which every request's own messages form a proper stream. */
  ghost predicate Honest(log: seq<Message>) {
    && Malformed !in log
    && (forall r :: ViewOf(Project(log, r)) != Bad)
  }

  /** What one public handler has sent so far. */
  datatype Upload = Upload(head: RequestHead, contentLength: int, started: bool,
                           parts: seq<Bytes>, ended: bool, cancelled: bool)

  /** Every upload a handler can produce: chunks cut by the read buffer, the
      body within the limit and within the announced length, and exactly that
      length when end-of-file was reached. */
  predicate Sound(u: Upload) {
    && -1 <= u.contentLength <= MAX_BODY
    && Cut(u.parts)
    && |Join(u.parts)| <= MAX_BODY
    && (u.contentLength >= 0 ==> |Join(u.parts)| <= u.contentLength)
    && (u.ended && u.contentLength >= 0 ==> |Join(u.parts)| == u.contentLength)
    && (!u.started ==> u.parts == [] && !u.ended && !u.cancelled)
  }

  function Stream(r: Id, u: Upload): seq<Message> {
    if !u.started then []
    else
      [RequestStart(r, u.head, u.contentLength)] + Chunks(r, RequestChunk, u.parts)
      + (if u.ended then [RequestEnd(r)] else [])
      + (if u.cancelled then [CancelRequest(r)] else [])
  }

  lemma SmallSequence(n: nat)
    requires n <= MAX_BODY
    ensures n % SEQUENCE_MOD == n
  {
  }

  lemma ChunkViewed(r: Id, head: RequestHead, a: Assembler, part: Bytes)
    requires a.next < MAX_BODY && (a.expected >= 0 ==> |a.body| + |part| <= a.expected)
    ensures ViewStep(Assembling(head, a), Chunk(r, RequestChunk, a.next, part))
         == Assembling(head, Assembler(a.expected, a.next + 1, a.body + part))
  {
    SmallSequence(a.next + 1);
  }

  /** Request reassembly, sequence number included: whatever the cut, the agent
      holds exactly the bytes sent, and its 32-bit counter equals the number
      of chunks because it cannot have wrapped. */
  lemma {:induction false} ChunksReassemble(r: Id, head: RequestHead, contentLength: int, parts: seq<Bytes>)
    requires r != [] && contentLength >= -1 && Cut(parts) && |Join(parts)| <= MAX_BODY
    requires contentLength >= 0 ==> |Join(parts)| <= contentLength
    ensures ViewOf([RequestStart(r, head, contentLength)] + Chunks(r, RequestChunk, parts))
         == Assembling(head, Assembler(contentLength, |parts|, Join(parts)))
    decreases |parts|
  {
    var start := RequestStart(r, head, contentLength);
    if parts == [] {
      ViewPush([], start);
      assert [start] + Chunks(r, RequestChunk, parts) == [] + [start];
    } else {
      var n := |parts| - 1;
      var init, part := parts[..n], parts[n];
      WithoutLast(parts);
      JoinPush(init, part);
      ChunksPush(r, RequestChunk, init, part);
      ChunksReassemble(r, head, contentLength, init);
      CutCount(parts);
      SmallSequence(n);
      ChunkViewed(r, head, Assembler(contentLength, n, Join(init)), part);
      var before := [start] + Chunks(r, RequestChunk, init);
      Associates([start], Chunks(r, RequestChunk, init), [Chunk(r, RequestChunk, n, part)]);
      ViewPush(before, Chunk(r, RequestChunk, n, part));
    }
  }

  /** The view a whole upload leads to. */
  function UploadView(r: Id, u: Upload): View {
    if !u.started then Absent
    else if u.ended then Dispatched(Request(r, u.head, Join(u.parts)), u.cancelled)
    else if u.cancelled then Dropped
    else Assembling(u.head, Assembler(u.contentLength, |u.parts|, Join(u.parts)))
  }

  lemma UploadViewed(r: Id, u: Upload)
    requires r != [] && Sound(u)
    ensures ViewOf(Stream(r, u)) == UploadView(r, u)
  {
    if u.started {
      ChunksReassemble(r, u.head, u.contentLength, u.parts);
      var body := [RequestStart(r, u.head, u.contentLength)] + Chunks(r, RequestChunk, u.parts);
      var closed := body + (if u.ended then [RequestEnd(r)] else []);
      if u.ended {
        ViewPush(body, RequestEnd(r));
      } else {
        assert closed == body;
      }
      if u.cancelled {
        ViewPush(closed, CancelRequest(r));
      } else {
        assert Stream(r, u) == closed;
      }
    }
  }
}
