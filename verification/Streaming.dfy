/** The two sending loops, each over one reused read buffer:
    sendRequestBody (backend/internal/tunnels/public_handler.go) and the job
    around StreamLocal (agent/internal/gatewayclient/client.go, local_http.go). */
module Streaming {
  import opened Protocol
  import opened Frames
  import opened Connections
  import opened Requests
  import H = HeaderFilters

  datatype ReadStatus = More | Eof | Fault
  /** One return of a Read call: the bytes put in the buffer, and the error. */
  datatype ReadResult = ReadResult(data: Bytes, status: ReadStatus)

  predicate Fits(script: seq<ReadResult>) {
    forall i :: 0 <= i < |script| ==> |script[i].data| <= CHUNK_SIZE
  }

  function Part(read: ReadResult): seq<Bytes> {
    if |read.data| > 0 then [read.data] else []
  }

  /** The non-empty reads up to and including the first that reports an error. */
  function Parts(script: seq<ReadResult>): seq<Bytes> {
    if script == [] then []
    else
      Part(script[0]) + (if script[0].status.More? then Parts(script[1..]) else [])
  }

  /** How the reading ends; a source that never reports an error is broken off. */
  function Ending(script: seq<ReadResult>): ReadStatus {
    if script == [] then Fault
    else if script[0].status.More? then Ending(script[1..])
    else script[0].status
  }

  lemma {:induction false} PartsCut(script: seq<ReadResult>)
    requires Fits(script)
    ensures Cut(Parts(script))
  {
    if script != [] {
      PartsCut(script[1..]);
    }
  }

  function AllData(script: seq<ReadResult>): Bytes {
    if script == [] then [] else script[0].data + AllData(script[1..])
  }

  lemma {:induction false} JoinAppend(a: seq<Bytes>, b: seq<Bytes>)
    ensures Join(a + b) == Join(a) + Join(b)
    decreases |b|
  {
    if b == [] {
      assert a + b == a;
    } else {
      var init, last := b[..|b| - 1], b[|b| - 1];
      JoinAppend(a, init);
      WithoutLast(b);
      Associates(a, init, [last]);
      JoinPush(a + init, last);
      Associates(Join(a), Join(init), last);
    }
  }

  lemma JoinPart(read: ReadResult)
    ensures Join(Part(read)) == read.data
  {
    if |read.data| > 0 {
      JoinPush([], read.data);
      assert [] + [read.data] == [read.data];
    }
  }

  /** Reading stops at the first read that reports an error, the body is all the
      data up to and including that read's, and the error decides how it ends. */
  lemma {:induction false} ReadExactly(script: seq<ReadResult>, k: nat)
    requires k < |script| && !script[k].status.More?
    requires forall i :: 0 <= i < k ==> script[i].status.More?
    ensures Join(Parts(script)) == AllData(script[..k + 1]) && Ending(script) == script[k].status
  {
    var rest := if k == 0 then [] else Parts(script[1..]);
    assert script[..k + 1][1..] == script[1..][..k];
    assert Parts(script) == Part(script[0]) + rest;
    JoinPart(script[0]);
    JoinAppend(Part(script[0]), rest);
    if k > 0 {
      ReadExactly(script[1..], k - 1);
    }
  }

  /** A message in an outbound queue; binary messages are buffers on the heap. */
  datatype Queued = Text(m: Message) | Binary(frame: array<byte>)

  /** What the receiving parser makes of a queue. */
  ghost function Decoded(queue: seq<Queued>): (ms: seq<Message>)
    ensures |ms| == |queue|
    reads set q | q in queue && q.Binary? :: q.frame
  {
    if queue == [] then []
    else
      var last := queue[|queue| - 1];
      Decoded(queue[..|queue| - 1])
      + [if last.Text? then last.m else Received(ParseGateway(last.frame[..]))]
  }

  function Take<T>(s: seq<T>, n: nat): seq<T> {
    if n < |s| then s[..n] else s
  }

  /** Fills the front of the buffer, leaving the rest as earlier reads left it. */
  method ReadInto(buffer: array<byte>, data: Bytes)
    requires |data| <= buffer.Length
    modifies buffer
    ensures buffer[..|data|] == data
  {
    forall i | 0 <= i < |data| { buffer[i] := data[i]; }
  }

  lemma {:induction false} ChunksPrefix(r: Id, kind: ChunkKind, parts: seq<Bytes>, n: nat)
    requires n <= |parts|
    ensures Chunks(r, kind, parts)[..n] == Chunks(r, kind, parts[..n])
    decreases |parts|
  {
    if n < |parts| {
      ChunksPrefix(r, kind, parts[..|parts| - 1], n);
      assert parts[..|parts| - 1][..n] == parts[..n];
    } else {
      assert parts[..n] == parts;
    }
  }

  lemma DecodedPush(queue: seq<Queued>, q: Queued)
    ensures Decoded(queue + [q])
         == Decoded(queue) + [if q.Text? then q.m else Received(ParseGateway(q.frame[..]))]
  {
    assert (queue + [q])[..|queue|] == queue;
  }

  /** Marshals the front of the read buffer and queues the result. */
  method QueueChunk(kind: ChunkKind, id: Id, sequence: nat, buffer: array<byte>, count: nat, queue: seq<Queued>)
    returns (after: seq<Queued>)
    requires 0 < |id| < 65536 && sequence < SEQUENCE_MOD && count <= buffer.Length && count <= CHUNK_SIZE
    ensures |after| == |queue| + 1 && after[..|queue|] == queue
    ensures after[|queue|].Binary? && fresh(after[|queue|].frame)
    ensures Decoded(after) == Decoded(queue) + [Chunk(id, kind, sequence, buffer[..count])]
  {
    var ok, frame := MarshalBinary(KindByte(kind), id, sequence, buffer, count);
    assert ok;
    ChunkArrives(Chunk(id, kind, sequence, buffer[..count]));
    DecodedPush(queue, Binary(frame));
    after := queue + [Binary(frame)];
  }

  /** Queued buffers belong to the queue, not to the reader. */
  predicate Apart(queue: seq<Queued>, buffer: array<byte>) {
    forall q :: q in queue && q.Binary? ==> q.frame != buffer
  }

  /** One read into the reused buffer, and its chunk if there is one to send.
      What was queued before decodes as before. */
  method ReadAndQueue(kind: ChunkKind, id: Id, sequence: nat, buffer: array<byte>, data: Bytes, queue: seq<Queued>,
                      send: bool)
    returns (after: seq<Queued>)
    requires 0 < |id| < 65536 && sequence < SEQUENCE_MOD && |data| <= CHUNK_SIZE == buffer.Length
             && Apart(queue, buffer)
    modifies buffer
    ensures Apart(after, buffer) && |queue| <= |after| && after[..|queue|] == queue
    ensures |after| == |queue| + (if send && |data| > 0 then 1 else 0)
    ensures forall q :: q in after && q.Binary? ==> q in queue || fresh(q.frame)
    ensures Decoded(after) == old(Decoded(queue))
            + (if send && |data| > 0 then [Chunk(id, kind, sequence, data)] else [])
  {
    ReadInto(buffer, data);
    after := queue;
    if send && |data| > 0 {
      after := QueueChunk(kind, id, sequence, buffer, |data|, queue);
    }
  }

  /** Reads a body through one reused buffer and queues a chunk per non-empty
      read, until the reading ends or a send fails because only `room` messages
      find a place. Buffers already queued are never touched again. */
  method Pump(kind: ChunkKind, id: Id, script: seq<ReadResult>, room: nat)
    returns (queue: seq<Queued>, sent: bool, ending: ReadStatus)
    requires 0 < |id| < 65536 && Fits(script)
    ensures Decoded(queue) == Take(Chunks(id, kind, Parts(script)), room)
    ensures sent <==> |Parts(script)| <= room
    ensures sent ==> ending == Ending(script)
  {
    var buffer := new byte[CHUNK_SIZE](_ => 0);
    queue, sent, ending := [], true, Fault;
    ghost var done: seq<Bytes> := [];
    var i := 0;
    while i < |script|
      invariant 0 <= i <= |script|
      invariant sent && ending == Fault
      invariant Apart(queue, buffer)
      invariant |done| == |queue| <= room
      invariant Parts(script) == done + Parts(script[i..])
      invariant Ending(script) == Ending(script[i..])
      invariant Decoded(queue) == Chunks(id, kind, done)
    {
      var read, count := script[i], |queue|;
      ReadOn(script, i, done);
      Grown(id, kind, done, read);
      queue := ReadAndQueue(kind, id, count % SEQUENCE_MOD, buffer, read.data, queue, count < room);
      if |read.data| > 0 && count == room {
        Unsent(id, kind, script, i, done, room);
        sent := false;
        return;
      }
      done := done + Part(read);
      if !read.status.More? {
        AllSent(id, kind, script, done, room);
        ending := read.status;
        return;
      }
      i := i + 1;
    }
    assert script[i..] == [];
    AllSent(id, kind, script, done, room);
  }

  lemma ReadOn(script: seq<ReadResult>, i: nat, done: seq<Bytes>)
    requires i < |script|
    ensures var read := script[i];
            && done + Parts(script[i..]) == done + Part(read)
                + (if read.status.More? then Parts(script[i + 1..]) else [])
            && Ending(script[i..]) == (if read.status.More? then Ending(script[i + 1..]) else read.status)
  {
    assert script[i..][1..] == script[i + 1..];
  }

  lemma Grown(id: Id, kind: ChunkKind, done: seq<Bytes>, read: ReadResult)
    ensures Chunks(id, kind, done + Part(read))
         == Chunks(id, kind, done)
            + (if |read.data| > 0 then [Chunk(id, kind, |done| % SEQUENCE_MOD, read.data)] else [])
  {
    if |read.data| > 0 {
      ChunksPush(id, kind, done, read.data);
    } else {
      assert done + Part(read) == done;
    }
  }

  lemma AllSent(id: Id, kind: ChunkKind, script: seq<ReadResult>, done: seq<Bytes>, room: nat)
    requires Parts(script) == done && |done| <= room
    ensures Take(Chunks(id, kind, Parts(script)), room) == Chunks(id, kind, done)
  {
  }

  lemma Unsent(id: Id, kind: ChunkKind, script: seq<ReadResult>, i: nat, done: seq<Bytes>, room: nat)
    requires i < |script| && |script[i].data| > 0 && Parts(script) == done + Parts(script[i..])
    requires |done| == room
    ensures room < |Parts(script)| && Take(Chunks(id, kind, Parts(script)), room) == Chunks(id, kind, done)
  {
    ChunksPrefix(id, kind, Parts(script), room);
    assert Parts(script)[..room] == done;
  }

  lemma {:induction false} DecodedConcat(a: seq<Queued>, b: seq<Queued>)
    ensures Decoded(a + b) == Decoded(a) + Decoded(b)
    decreases |b|
  {
    if b == [] {
      assert a + b == a;
    } else {
      var init, last := b[..|b| - 1], b[|b| - 1];
      DecodedConcat(a, init);
      assert a + b == (a + init) + [last];
      DecodedPush(a + init, last);
      assert b == init + [last];
      DecodedPush(init, last);
    }
  }

  datatype BodyError = ReadFailed | Unavailable

  /** sendRequestBody: everything that found a place is the front of the chunk
      stream and its end message, and it reports success exactly when the body
      was read to end-of-file and all of that found a place. */
  method SendRequestBody(id: Id, script: seq<ReadResult>, room: nat)
      returns (queue: seq<Queued>, error: Option<BodyError>)
    requires 0 < |id| < 65536 && Fits(script)
    ensures Decoded(queue) == Take(Chunks(id, RequestChunk, Parts(script))
                                   + (if Ending(script).Eof? then [RequestEnd(id)] else []), room)
    ensures error.None? <==> Ending(script).Eof? && |Parts(script)| < room
    ensures error == Some(ReadFailed) <==> Ending(script) != Eof && |Parts(script)| <= room
  {
    var sent, ending;
    queue, sent, ending := Pump(RequestChunk, id, script, room);
    NeverMore(script);
    if !sent {
      return queue, Some(Unavailable);
    }
    if ending == Fault {
      return queue, Some(ReadFailed);
    }
    if |queue| < room {
      DecodedPush(queue, Text(RequestEnd(id)));
      queue := queue + [Text(RequestEnd(id))];
      return queue, None;
    }
    return queue, Some(Unavailable);
  }

  lemma {:induction false} NeverMore(script: seq<ReadResult>)
    ensures !Ending(script).More?
  {
    if script != [] && script[0].status.More? {
      NeverMore(script[1..]);
    }
  }

  /** What net/http promises of a body announced with `contentLength`. */
  predicate Proper(script: seq<ReadResult>, contentLength: int) {
    && Fits(script) && -1 <= contentLength <= MAX_BODY && |Join(Parts(script))| <= MAX_BODY
    && (contentLength >= 0 ==> |Join(Parts(script))| <= contentLength)
    && (contentLength >= 0 && Ending(script).Eof? ==> |Join(Parts(script))| == contentLength)
  }

  /** What the handler has sent when `room` of its messages found a place, in
      order; the cancel is tried if the body broke off or the wait was given up,
      and goes out if it fits. */
  function Sent(head: RequestHead, contentLength: int, script: seq<ReadResult>, room: nat, gaveUp: bool,
                cancelFits: bool): Upload {
    if room == 0 then Upload(head, contentLength, false, [], false, false)
    else
      var ended := Ending(script).Eof? && |Parts(script)| + 1 < room;
      Upload(head, contentLength, true, Take(Parts(script), room - 1), ended, cancelFits && (gaveUp || !ended))
  }

  lemma {:induction false} JoinTake(parts: seq<Bytes>, n: nat)
    ensures |Join(Take(parts, n))| <= |Join(parts)|
    decreases |parts|
  {
    if n < |parts| {
      var init := parts[..|parts| - 1];
      JoinTake(init, n);
      assert Take(init, n) == Take(parts, n);
    }
  }

  lemma SentSound(head: RequestHead, contentLength: int, script: seq<ReadResult>, room: nat, gaveUp: bool,
                  cancelFits: bool)
    requires Proper(script, contentLength)
    ensures Sound(Sent(head, contentLength, script, room, gaveUp, cancelFits))
  {
    PartsCut(script);
    if room > 0 {
      JoinTake(Parts(script), room - 1);
    }
  }

  lemma TakeChunks(id: Id, kind: ChunkKind, parts: seq<Bytes>, end: seq<Message>, n: nat)
    requires |end| <= 1
    ensures Take(Chunks(id, kind, parts) + end, n)
         == Chunks(id, kind, Take(parts, n)) + (if |parts| < n then end else [])
  {
    if n < |parts| {
      ChunksPrefix(id, kind, parts, n);
    }
  }

  lemma SentStream(id: Id, head: RequestHead, contentLength: int, script: seq<ReadResult>, room: nat, gaveUp: bool,
                   cancelFits: bool)
    requires room > 0
    ensures var u := Sent(head, contentLength, script, room, gaveUp, cancelFits);
            var end := if Ending(script).Eof? then [RequestEnd(id)] else [];
            && Stream(id, u) == [RequestStart(id, head, contentLength)]
                + Take(Chunks(id, RequestChunk, Parts(script)) + end, room - 1)
                                + (if u.cancelled then [CancelRequest(id)] else [])
  {
    var u := Sent(head, contentLength, script, room, gaveUp, cancelFits);
    var end := if Ending(script).Eof? then [RequestEnd(id)] else [];
    TakeChunks(id, RequestChunk, Parts(script), end, room - 1);
    Regrouped([RequestStart(id, head, contentLength)], Chunks(id, RequestChunk, u.parts),
              if u.ended then [RequestEnd(id)] else [], if u.cancelled then [CancelRequest(id)] else []);
  }

  lemma {:induction false} ChunksExact(id: Id, kind: ChunkKind, parts: seq<Bytes>, i: nat)
    requires i < |parts|
    ensures Chunks(id, kind, parts)[i] == Chunk(id, kind, i % 0x1_0000_0000, parts[i])
  {
    if i < |parts| - 1 {
      ChunksExact(id, kind, parts[..|parts| - 1], i);
    }
  }

  /** Which control messages a stream holds. */
  lemma StreamHolds(id: Id, u: Upload)
    ensures RequestEnd(id) in Stream(id, u) <==> u.started && u.ended
    ensures CancelRequest(id) in Stream(id, u) <==> u.started && u.cancelled
  {
    var chunks := Chunks(id, RequestChunk, u.parts);
    forall m | m in chunks ensures m.Chunk? {
      var i :| 0 <= i < |chunks| && chunks[i] == m;
      ChunksExact(id, RequestChunk, u.parts, i);
    }
    if u.started {
      var end := if u.ended then [RequestEnd(id)] else [];
      var cancel := if u.cancelled then [CancelRequest(id)] else [];
      assert Stream(id, u) == [RequestStart(id, u.head, u.contentLength)] + chunks + end + cancel;
      assert u.ended ==> RequestEnd(id) in end;
      assert u.cancelled ==> CancelRequest(id) in cancel;
    }
  }

  lemma SentHolds(id: Id, head: RequestHead, contentLength: int, script: seq<ReadResult>, room: nat, gaveUp: bool,
                  cancelFits: bool)
    ensures var sent := Stream(id, Sent(head, contentLength, script, room, gaveUp, cancelFits));
            && (sent == [] <==> room == 0)
            && (room > 0 ==> sent[0] == RequestStart(id, head, contentLength))
            && (RequestEnd(id) in sent <==> Ending(script).Eof? && |Parts(script)| + 1 < room)
            && (CancelRequest(id) in sent <==> room > 0 && cancelFits && (gaveUp || RequestEnd(id) !in sent))
  {
    StreamHolds(id, Sent(head, contentLength, script, room, gaveUp, cancelFits));
  }

  lemma Regrouped<T>(a: seq<T>, b: seq<T>, c: seq<T>, d: seq<T>)
    ensures a + (b + c) + d == a + b + c + d
  {
  }

  /** sendCancel: tried once, dropped when the queue is full. */
  method SendCancel(queue: seq<Queued>, id: Id, fits: bool) returns (after: seq<Queued>)
    ensures Decoded(after) == Decoded(queue) + (if fits then [CancelRequest(id)] else [])
  {
    DecodedPush(queue, Text(CancelRequest(id)));
    after := if fits then queue + [Text(CancelRequest(id))] else queue;
  }

  /** The start message and the body, up to the first that finds no place. */
  method SendStartAndBody(id: Id, head: RequestHead, contentLength: int, script: seq<ReadResult>, room: nat)
      returns (queue: seq<Queued>, complete: bool)
    requires 0 < |id| < 65536 && Fits(script) && room > 0
    ensures Decoded(queue) == [RequestStart(id, head, contentLength)]
                              + Take(Chunks(id, RequestChunk, Parts(script))
                                     + (if Ending(script).Eof? then [RequestEnd(id)] else []), room - 1)
    ensures complete <==> Ending(script).Eof? && |Parts(script)| + 1 < room
  {
    var start := RequestStart(id, head, contentLength);
    var body, error := SendRequestBody(id, script, room - 1);
    DecodedText(start);
    DecodedConcat([Text(start)], body);
    queue, complete := [Text(start)] + body, error.None?;
  }

  /** The sends of one public handler, whatever becomes of them: the queue holds
      exactly the stream of the upload, sound whenever the body is proper. It starts
      with the start message if anything was sent, holds the end exactly when the
      whole body was read and fitted, and the cancel, if that still fits, exactly
      when the wait was given up or the end is missing. */
  method SendRequest(id: Id, head: RequestHead, contentLength: int, script: seq<ReadResult>, room: nat, gaveUp: bool,
                     cancelFits: bool)
    returns (queue: seq<Queued>)
    requires 0 < |id| < 65536 && Proper(script, contentLength)
    ensures var u := Sent(head, contentLength, script, room, gaveUp, cancelFits);
            Sound(u) && Decoded(queue) == Stream(id, u)
    ensures Decoded(queue) == [] <==> room == 0
    ensures room > 0 ==> Decoded(queue)[0] == RequestStart(id, head, contentLength)
    ensures RequestEnd(id) in Decoded(queue) <==> Ending(script).Eof? && |Parts(script)| + 1 < room
    ensures CancelRequest(id) in Decoded(queue) <==>
              room > 0 && cancelFits && (gaveUp || RequestEnd(id) !in Decoded(queue))
  {
    SentHolds(id, head, contentLength, script, room, gaveUp, cancelFits);
    SentSound(head, contentLength, script, room, gaveUp, cancelFits);
    if room == 0 {
      return [];
    }
    var complete;
    queue, complete := SendStartAndBody(id, head, contentLength, script, room);
    SentStream(id, head, contentLength, script, room, gaveUp, cancelFits);
    queue := SendCancel(queue, id, cancelFits && (gaveUp || !complete));
  }

  /** What came of calling the local service: no answer, or an answer whose body
      is read by `script`. */
  datatype Attempt = Unreachable(error: string) | Answer(status: int, headers: Headers, script: seq<ReadResult>)

  function OutcomeOf(attempt: Attempt): Outcome {
    match attempt
    case Unreachable(error) => Failed(error)
    case Answer(status, headers, script) =>
      Answered(Local(status, headers, Join(Parts(script))), Parts(script), Ending(script).Eof?)
  }

  lemma TakeFramed(first: Message, middle: seq<Message>, last: Message, room: nat)
    requires room > 0
    ensures Take([first] + middle + [last], room)
         == [first] + Take(middle, room - 1) + (if |middle| + 1 < room then [last] else [])
  {
  }

  lemma DecodedText(m: Message)
    ensures Decoded([Text(m)]) == [m]
  {
    DecodedPush([], Text(m));
    assert [] + [Text(m)] == [Text(m)];
  }

  /** The reply to a call that was answered: start, chunks, end. */
  method StreamLocal(id: Id, status: int, headers: Headers, script: seq<ReadResult>, room: nat)
      returns (queue: seq<Queued>)
    requires 0 < |id| < 65536 && Fits(script)
    ensures Decoded(queue) == Take([ResponseStart(id, ResponseHead(status, H.WithoutHopByHop(headers), -1, ""))]
                                   + Chunks(id, ResponseChunk, Parts(script)) + [ResponseEnd(id)], room)
  {
    if room == 0 {
      return [];
    }
    var passed := H.WithoutHopByHopHeaders(headers);
    var start, end := ResponseStart(id, ResponseHead(status, passed, -1, "")), ResponseEnd(id);
    var body, sent, _ := Pump(ResponseChunk, id, script, room - 1);
    queue := [Text(start)] + body;
    DecodedText(start);
    DecodedConcat([Text(start)], body);
    TakeFramed(start, Chunks(id, ResponseChunk, Parts(script)), end, room);
    if |queue| < room {
      DecodedPush(queue, Text(end));
      queue := queue + [Text(end)];
    }
  }

  /** One job of the agent: what finds a place is the front of the reply stream
      of the call's outcome, even when the local read breaks off: the local status
      and headers, every part that was read and the end; or status 502 with the
      error and the end. */
  method AnswerLocally(id: Id, attempt: Attempt, room: nat) returns (queue: seq<Queued>)
    requires 0 < |id| < 65536 && (attempt.Answer? ==> Fits(attempt.script))
    ensures Decoded(queue) == Take(Reply(id, Ended(OutcomeOf(attempt))), room)
    ensures attempt.Answer? ==>
              && Decoded(queue) == Take([ResponseStart(id, ResponseHead(attempt.status,
                                                                        H.WithoutHopByHop(attempt.headers), -1, ""))]
                                        + Chunks(id, ResponseChunk, Parts(attempt.script)) + [ResponseEnd(id)], room)
              && OutcomeOf(attempt) == Answered(Local(attempt.status, attempt.headers, Join(Parts(attempt.script))),
                                                Parts(attempt.script), Ending(attempt.script) == Eof)
    ensures attempt.Unreachable? ==>
              && Decoded(queue) == Take([ResponseStart(id, ResponseHead(502, map[], 0, attempt.error)),
                                         ResponseEnd(id)], room)
              && OutcomeOf(attempt) == Failed(attempt.error)
    ensures queue == [] <==> room == 0
  {
    queue := [];
    if room == 0 {
      return;
    }
    match attempt
    case Unreachable(error) =>
      var start, end := ResponseStart(id, ErrorHead(error)), ResponseEnd(id);
      DecodedText(start);
      DecodedPush([Text(start)], Text(end));
      queue := if room == 1 then [Text(start)] else [Text(start)] + [Text(end)];
    case Answer(status, headers, script) =>
      queue := StreamLocal(id, status, headers, script, room);
  }
}
