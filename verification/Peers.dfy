/** The two receiving loops against any peer at all: which message is accepted and
    what it completes, said by the messages received so far and nothing else
    (backend/internal/gateway/agent_connect.go, agent/internal/gatewayclient/client.go). */
module Peers {
  import opened Protocol
  import opened Requests
  import opened Responses

  lemma CountOn(n: nat)
    ensures (n % 0x1_0000_0000 + 1) % 0x1_0000_0000 == (n + 1) % 0x1_0000_0000
  {
  }

  // ----- Any agent -----

  /** A response under way: its start and the data of the chunks since. */
  datatype ReplyTail = ReplyTail(head: ResponseHead, parts: seq<Bytes>)

  /** Read off the messages: the last start for `r` since the last end for it. */
  function ReplyUnderWay(inbound: seq<Message>, r: Id): Option<ReplyTail> {
    if inbound == [] then None
    else
      var before := ReplyUnderWay(inbound[..|inbound| - 1], r);
      match inbound[|inbound| - 1]
      case ResponseStart(id, head) => if id == r then Some(ReplyTail(head, [])) else before
      case Chunk(id, _, _, payload) =>
        if id == r && before.Some? then Some(ReplyTail(before.value.head, before.value.parts + [payload])) else before
      case ResponseEnd(id) => if id == r then None else before
      case _ => before
  }

  function RepliesUnderWay(inbound: seq<Message>): set<Id> {
    set m | m in inbound && m.ResponseStart? && ReplyUnderWay(inbound, m.id).Some? :: m.id
  }

  lemma {:induction false} ReplyWasStarted(inbound: seq<Message>, r: Id)
    requires ReplyUnderWay(inbound, r).Some?
    ensures ResponseStart(r, ReplyUnderWay(inbound, r).value.head) in inbound
    ensures r in RepliesUnderWay(inbound)
  {
    var init := inbound[..|inbound| - 1];
    if ReplyUnderWay(init, r).Some? {
      ReplyWasStarted(init, r);
    }
    assert ResponseStart(r, ReplyUnderWay(inbound, r).value.head) in inbound;
  }

  lemma {:induction false} ServeFollows(inbound: seq<Message>, r: Id)
    requires Serve(inbound).Continue?
    ensures r in Serve(inbound).responses <==> ReplyUnderWay(inbound, r).Some?
    ensures r in Serve(inbound).responses ==>
              var tail := ReplyUnderWay(inbound, r).value;
              Serve(inbound).responses[r] == Assembly(tail.head, |tail.parts| % 0x1_0000_0000, Join(tail.parts))
  {
    if inbound != [] {
      var init, m := inbound[..|inbound| - 1], inbound[|inbound| - 1];
      ServeFollows(init, r);
      if m.Chunk? && m.id == r {
        var tail := ReplyUnderWay(init, r).value;
        JoinPush(tail.parts, m.payload);
        CountOn(|tail.parts|);
      }
    }
  }

  lemma ServeCounts(inbound: seq<Message>)
    requires Serve(inbound).Continue?
    ensures |Serve(inbound).responses| == |RepliesUnderWay(inbound)|
  {
    forall r ensures r in Serve(inbound).responses <==> r in RepliesUnderWay(inbound) {
      ServeFollows(inbound, r);
      if ReplyUnderWay(inbound, r).Some? {
        ReplyWasStarted(inbound, r);
      }
    }
    assert Serve(inbound).responses.Keys == RepliesUnderWay(inbound);
  }

  /** What the gateway takes from an agent, after `inbound`. */
  predicate Welcome(inbound: seq<Message>, m: Message) {
    match m
    case ResponseStart(id, head) =>
      && id != [] && -1 <= head.contentLength <= 33554432
      && (ReplyUnderWay(inbound, id).Some? || |RepliesUnderWay(inbound)| < 32)
    case Chunk(id, kind, sequence, payload) =>
      && kind.ResponseChunk? && ReplyUnderWay(inbound, id).Some?
      && var tail := ReplyUnderWay(inbound, id).value;
      && sequence == |tail.parts| % 0x1_0000_0000 && |Join(tail.parts)| + |payload| <= 33554432
      && (tail.head.contentLength >= 0 ==> |Join(tail.parts)| + |payload| <= tail.head.contentLength)
    case ResponseEnd(id) =>
      && ReplyUnderWay(inbound, id).Some?
      && var tail := ReplyUnderWay(inbound, id).value;
      && (tail.head.contentLength >= 0 ==> |Join(tail.parts)| == tail.head.contentLength)
    case OpenTunnel(accepted) => accepted
    case Malformed => false
    case _ => true
  }

  /** Against any agent: the session goes on exactly when the message fits what that
      agent sent before, an end delivers the response since its last start with
      every byte in order, and nothing else delivers anything. */
  lemma AnyAgent(inbound: seq<Message>, m: Message)
    requires Serve(inbound).Continue?
    ensures Serve(inbound + [m]).Continue? <==> Welcome(inbound, m)
    ensures Welcome(inbound, m) ==>
              Serve(inbound + [m]).delivery
                == if !m.ResponseEnd? then None
                   else
                     var tail := ReplyUnderWay(inbound, m.id).value;
                     Some(Delivery(m.id, Response(tail.head.status, tail.head.headers, Join(tail.parts),
                                                  tail.head.error)))
  {
    assert (inbound + [m])[..|inbound|] == inbound;
    ServeCounts(inbound);
    if m.ResponseStart? || m.Chunk? || m.ResponseEnd? {
      ServeFollows(inbound, m.id);
    }
  }

  // ----- Any gateway -----

  /** A request under way: its start and the data of the chunks since. */
  datatype RequestTail = RequestTail(head: RequestHead, contentLength: int, parts: seq<Bytes>)

  /** Read off the messages: the last start for `r` since the last end or cancel for it. */
  function RequestUnderWay(inbound: seq<Message>, r: Id): Option<RequestTail> {
    if inbound == [] then None
    else
      var before := RequestUnderWay(inbound[..|inbound| - 1], r);
      match inbound[|inbound| - 1]
      case RequestStart(id, head, contentLength) =>
        if id == r then Some(RequestTail(head, contentLength, [])) else before
      case Chunk(id, _, _, payload) =>
        if id == r && before.Some? then Some(before.value.(parts := before.value.parts + [payload])) else before
      case RequestEnd(id) => if id == r then None else before
      case CancelRequest(id) => if id == r then None else before
      case _ => before
  }

  function RequestsUnderWay(inbound: seq<Message>): set<Id> {
    set m | m in inbound && m.RequestStart? && RequestUnderWay(inbound, m.id).Some? :: m.id
  }

  /** The agent's reader over any inbound messages, stopping where it breaks off. */
  function ReadAll(inbound: seq<Message>): ReaderResult {
    if inbound == [] then Next(Reader(map[], map[]), None)
    else
      var before := ReadAll(inbound[..|inbound| - 1]);
      if before.Broken? then Broken else Read(before.reader, inbound[|inbound| - 1])
  }

  lemma {:induction false} RequestWasStarted(inbound: seq<Message>, r: Id)
    requires RequestUnderWay(inbound, r).Some?
    ensures var tail := RequestUnderWay(inbound, r).value; RequestStart(r, tail.head, tail.contentLength) in inbound
    ensures r in RequestsUnderWay(inbound)
  {
    var init := inbound[..|inbound| - 1];
    if RequestUnderWay(init, r).Some? {
      RequestWasStarted(init, r);
    }
    var tail := RequestUnderWay(inbound, r).value;
    assert RequestStart(r, tail.head, tail.contentLength) in inbound;
  }

  lemma {:induction false} ReadFollows(inbound: seq<Message>, r: Id)
    requires ReadAll(inbound).Next?
    ensures r in ReadAll(inbound).reader.pending <==> RequestUnderWay(inbound, r).Some?
    ensures r in ReadAll(inbound).reader.pending ==>
              var tail := RequestUnderWay(inbound, r).value;
              ReadAll(inbound).reader.pending[r]
                == Pending(tail.head,
                           Assembler(tail.contentLength, |tail.parts| % 0x1_0000_0000, Join(tail.parts)))
  {
    if inbound != [] {
      var init, m := inbound[..|inbound| - 1], inbound[|inbound| - 1];
      ReadFollows(init, r);
      if m.Chunk? && m.id == r {
        var tail := RequestUnderWay(init, r).value;
        JoinPush(tail.parts, m.payload);
        CountOn(|tail.parts|);
      }
    }
  }

  lemma ReadCounts(inbound: seq<Message>)
    requires ReadAll(inbound).Next?
    ensures |ReadAll(inbound).reader.pending| == |RequestsUnderWay(inbound)|
  {
    forall r ensures r in ReadAll(inbound).reader.pending <==> r in RequestsUnderWay(inbound) {
      ReadFollows(inbound, r);
      if RequestUnderWay(inbound, r).Some? {
        RequestWasStarted(inbound, r);
      }
    }
    assert ReadAll(inbound).reader.pending.Keys == RequestsUnderWay(inbound);
  }

  /** What the agent takes from a gateway, after `inbound`. */
  predicate Readable(inbound: seq<Message>, m: Message) {
    match m
    case RequestStart(id, head, contentLength) =>
      && id != [] && contentLength >= -1
      && RequestUnderWay(inbound, id).None? && |RequestsUnderWay(inbound)| < 32
    case Chunk(id, kind, sequence, payload) =>
      && kind.RequestChunk? && RequestUnderWay(inbound, id).Some?
      && var tail := RequestUnderWay(inbound, id).value;
      && sequence == |tail.parts| % 0x1_0000_0000
      && (tail.contentLength >= 0 ==> |Join(tail.parts)| + |payload| <= tail.contentLength)
    case RequestEnd(id) =>
      && RequestUnderWay(inbound, id).Some?
      && var tail := RequestUnderWay(inbound, id).value;
      && (tail.contentLength >= 0 ==> |Join(tail.parts)| == tail.contentLength)
    case Malformed => false
    case _ => true
  }

  /** Against any gateway: the reader goes on exactly when the message fits what the
      gateway sent before, an end dispatches the request since its start with every
      byte in order, and nothing else dispatches anything. */
  lemma AnyGateway(inbound: seq<Message>, m: Message)
    requires ReadAll(inbound).Next?
    ensures ReadAll(inbound + [m]).Next? <==> Readable(inbound, m)
    ensures Readable(inbound, m) ==>
              ReadAll(inbound + [m]).job
                == if !m.RequestEnd? then None
                   else
                     var tail := RequestUnderWay(inbound, m.id).value;
                     Some(Request(m.id, tail.head, Join(tail.parts)))
  {
    assert (inbound + [m])[..|inbound|] == inbound;
    ReadCounts(inbound);
    if m.RequestStart? || m.Chunk? || m.RequestEnd? {
      ReadFollows(inbound, m.id);
    }
  }

  /** Read off the messages: whether `r` was dispatched, and cancelled since. */
  function CancelledSince(inbound: seq<Message>, r: Id): Option<bool> {
    if inbound == [] then None
    else
      var before, m := CancelledSince(inbound[..|inbound| - 1], r), inbound[|inbound| - 1];
      if m == RequestEnd(r) then Some(false)
      else if m == CancelRequest(r) && before.Some? then Some(true)
      else before
  }

  lemma ReadActive(rd: Reader, m: Message, r: Id)
    requires Read(rd, m).Next?
    ensures var active := Read(rd, m).reader.active;
            if m == RequestEnd(r) then r in active && !active[r]
            else (r in active <==> r in rd.active)
                 && (r in active ==> active[r] == (m == CancelRequest(r) || rd.active[r]))
  {
  }

  /** Against any gateway: every dispatched request is known by its id, and its
      context is cancelled exactly when a cancel for it has come since. */
  lemma {:induction false} AnyCancel(inbound: seq<Message>, r: Id)
    requires ReadAll(inbound).Next?
    ensures var active := ReadAll(inbound).reader.active;
            CancelledSince(inbound, r) == if r in active then Some(active[r]) else None
  {
    if inbound != [] {
      AnyCancel(inbound[..|inbound| - 1], r);
      ReadActive(ReadAll(inbound[..|inbound| - 1]).reader, inbound[|inbound| - 1], r);
    }
  }
}
