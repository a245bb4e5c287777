/** The gateway's session loop as it runs: response assemblies updated in place,
    held in a map the loop changes (backend/internal/gateway/agent_connect.go). */
module GatewaySessions {
  import opened Protocol
  import opened Responses

  class ResponseAssembly {
    const head: ResponseHead
    var next: nat
    var body: Bytes

    function Value(): Assembly reads this { Assembly(head, next, body) }

    constructor (head: ResponseHead)
      ensures Value() == Assembly(head, 0, [])
    {
      this.head, next, body := head, 0, [];
    }
  }

  class GatewaySession {
    var responses: map<Id, ResponseAssembly>

    ghost predicate Valid() reads this {
      forall a, b :: a in responses && b in responses && a != b ==> responses[a] != responses[b]
    }

    ghost function Value(): Assemblies reads this, responses.Values {
      map id | id in responses :: responses[id].Value()
    }

    constructor ()
      ensures Valid() && Value() == map[]
    {
      responses := map[];
    }

    lemma SameSize()
      ensures |Value()| == |responses|
    {
      assert Value().Keys == responses.Keys;
    }

    /** Checks and appends one chunk; the other assemblies stay as they are. */
    method Append(id: Id, kind: ChunkKind, sequence: nat, payload: Bytes) returns (ok: bool)
      requires Valid() && id in responses
      modifies responses.Values
      ensures Valid() && responses == old(responses)
      ensures ok <==> CanAppend(old(Value())[id], kind, sequence, payload)
      ensures Value() == if ok then old(Value())[id := Responses.Append(old(Value())[id], payload)] else old(Value())
    {
      ghost var before := Value();
      var assembly := responses[id];
      var length := |assembly.body| + |payload|;
      if !kind.ResponseChunk? || sequence != assembly.next || length > MAX_BODY
         || (assembly.head.contentLength >= 0 && length > assembly.head.contentLength) {
        return false;
      }
      assembly.body := assembly.body + payload;
      assembly.next := (assembly.next + 1) % SEQUENCE_MOD;
      assert forall x :: x in responses && x != id ==> responses[x].Value() == old(responses[x].Value());
      assert Value() == before[id := Responses.Append(before[id], payload)];
      return true;
    }

    /** One inbound message: the assemblies move and the response is delivered as
        Accept says; a rejected message changes nothing. */
    method Handle(m: Message) returns (ok: bool, delivery: Option<Delivery>)
      requires Valid()
      modifies this, responses.Values
      ensures Valid()
      ensures ok <==> Accept(old(Value()), m).Continue?
      ensures ok ==> Value() == Accept(old(Value()), m).responses && delivery == Accept(old(Value()), m).delivery
      ensures !ok ==> Value() == old(Value())
    {
      delivery := None;
      match m
      case Chunk(id, kind, sequence, payload) =>
        if id !in responses {
          return false, None;
        }
        ok := Append(id, kind, sequence, payload);
      case ResponseStart(id, head) => ok := HandleStart(id, head);
      case ResponseEnd(id) => ok, delivery := HandleEnd(id);
      case OpenTunnel(accepted) => ok := accepted;
      case Malformed => ok := false;
      case _ => ok := true;
    }

    method HandleStart(id: Id, head: ResponseHead) returns (ok: bool)
      requires Valid()
      modifies this
      ensures Valid()
      ensures ok <==> Accept(old(Value()), ResponseStart(id, head)).Continue?
      ensures Value() == if ok then old(Value())[id := Assembly(head, 0, [])] else old(Value())
    {
      ghost var before := Value();
      SameSize();
      if id == [] || head.contentLength < -1 || head.contentLength > MAX_BODY {
        return false;
      }
      if id !in responses && |responses| >= STREAM_LIMIT {
        return false;
      }
      var assembly := new ResponseAssembly(head);
      responses := responses[id := assembly];
      assert Value() == before[id := Assembly(head, 0, [])];
      return true;
    }

    method HandleEnd(id: Id) returns (ok: bool, delivery: Option<Delivery>)
      requires Valid()
      modifies this
      ensures Valid()
      ensures ok <==> Accept(old(Value()), ResponseEnd(id)).Continue?
      ensures ok ==> Value() == old(Value()) - {id} && delivery == Accept(old(Value()), ResponseEnd(id)).delivery
      ensures !ok ==> Value() == old(Value())
    {
      ghost var before := Value();
      if id !in responses {
        return false, None;
      }
      var assembly := responses[id];
      if assembly.head.contentLength >= 0 && |assembly.body| != assembly.head.contentLength {
        return false, None;
      }
      responses := responses - {id};
      assert Value() == before - {id};
      var head := assembly.head;
      return true, Some(Delivery(id, Response(head.status, head.headers, assembly.body, head.error)));
    }
  }
}
