/** The agent's reader as it runs: chunk assemblers updated in place, held in a
    map the reader loop changes (agent/internal/gatewayclient/chunk_assembler.go,
    agent/internal/gatewayclient/client.go). */
module AgentReaders {
  import opened Protocol
  import opened Requests

  class ChunkAssembler {
    const expected: int
    var next: nat
    var body: Bytes

    function Value(): Assembler reads this { Assembler(expected, next, body) }

    constructor (expected: int)
      ensures Value() == Assembler(expected, 0, [])
    {
      this.expected, next, body := expected, 0, [];
    }

    /** newChunkAssembler: null is its error. */
    static method Create(expected: int) returns (assembler: ChunkAssembler?)
      ensures assembler == null <==> NewAssembler(expected).None?
      ensures assembler != null ==> fresh(assembler) && Some(assembler.Value()) == NewAssembler(expected)
    {
      if expected < -1 {
        return null;
      }
      assembler := new ChunkAssembler(expected);
    }

    /** Appends an in-order chunk that keeps the body within the announced length
        and tells whether that length is reached; rejects anything else. */
    method Add(kind: ChunkKind, sequence: nat, payload: Bytes) returns (ok: bool, full: bool)
      modifies this
      ensures ok <==> CanAdd(old(Value()), kind, sequence, payload)
      ensures Value() == if ok then Requests.Add(old(Value()), payload) else old(Value())
      ensures full <==> ok && expected >= 0 && |body| == expected
    {
      if !kind.RequestChunk? || sequence != next {
        return false, false;
      }
      if expected >= 0 && |body| + |payload| > expected {
        return false, false;
      }
      body := body + payload;
      next := (next + 1) % SEQUENCE_MOD;
      return true, expected >= 0 && |body| == expected;
    }

    method Complete() returns (ok: bool)
      ensures ok <==> CanComplete(Value())
    {
      ok := !(expected >= 0 && |body| != expected);
    }
  }

  /** `ok`, `job` and the new value are what Read makes of `m`; a rejected message
      changes nothing. */
  predicate Follows(before: Reader, after: Reader, m: Message, ok: bool, job: Option<Request>) {
    match Read(before, m)
    case Broken => !ok && after == before
    case Next(reader, dispatched) => ok && after == reader && job == dispatched
  }

  datatype Entry = Entry(head: RequestHead, assembler: ChunkAssembler)

  class AgentReader {
    var pending: map<Id, Entry>
    var active: map<Id, bool>

    ghost function Assemblers(): set<ChunkAssembler> reads this { set id | id in pending :: pending[id].assembler }

    /** No two streams share an assembler. */
    ghost predicate Valid() reads this {
      forall a, b :: a in pending && b in pending && a != b ==> pending[a].assembler != pending[b].assembler
    }

    ghost function Value(): Reader reads this, Assemblers() {
      Reader(map id | id in pending :: Pending(pending[id].head, pending[id].assembler.Value()), active)
    }

    constructor ()
      ensures Valid() && Value() == Reader(map[], map[])
    {
      pending, active := map[], map[];
    }

    /** One message of the reader loop: the state moves as Read says, the dispatched
        job is the one Read names, and a rejected message changes nothing. */
    method Handle(m: Message) returns (ok: bool, job: Option<Request>)
      requires Valid()
      modifies this, Assemblers()
      ensures Valid() && Follows(old(Value()), Value(), m, ok, job)
    {
      job := None;
      match m
      case Chunk(id, kind, sequence, payload) => ok := HandleChunk(id, kind, sequence, payload);
      case RequestStart(id, head, contentLength) => ok := HandleStart(id, head, contentLength);
      case RequestEnd(id) => ok, job := HandleEnd(id);
      case CancelRequest(id) =>
        HandleCancel(id);
        ok := true;
      case Malformed => ok := false;
      case _ => ok := true;
    }

    method HandleStart(id: Id, head: RequestHead, contentLength: int) returns (ok: bool)
      requires Valid()
      modifies this`pending
      ensures Valid() && Follows(old(Value()), Value(), RequestStart(id, head, contentLength), ok, None)
    {
      SameSize();
      if id == [] || id in pending || |pending| >= STREAM_LIMIT {
        return false;
      }
      var assembler := ChunkAssembler.Create(contentLength);
      if assembler == null {
        return false;
      }
      Enter(id, head, assembler);
      return true;
    }

    method Enter(id: Id, head: RequestHead, assembler: ChunkAssembler)
      requires Valid() && assembler !in Assemblers() && id !in pending
      modifies this`pending
      ensures Valid()
      ensures Value() == Reader(old(Value()).pending[id := Pending(head, assembler.Value())], active)
    {
      ghost var before := Value();
      pending := pending[id := Entry(head, assembler)];
      assert Value().pending == before.pending[id := Pending(head, assembler.Value())];
    }

    method Leave(id: Id, after: map<Id, bool>)
      requires Valid()
      modifies this
      ensures Valid()
      ensures Value() == Reader(old(Value()).pending - {id}, after)
    {
      ghost var before := Value();
      pending, active := pending - {id}, after;
      assert Value().pending == before.pending - {id};
    }

    method HandleEnd(id: Id) returns (ok: bool, job: Option<Request>)
      requires Valid()
      modifies this
      ensures Valid() && Follows(old(Value()), Value(), RequestEnd(id), ok, job)
    {
      if id !in pending {
        return false, None;
      }
      var entry := pending[id];
      ok := entry.assembler.Complete();
      if !ok {
        return false, None;
      }
      job := Some(Request(id, entry.head, entry.assembler.body));
      Leave(id, active[id := false]);
    }

    method HandleCancel(id: Id)
      requires Valid()
      modifies this
      ensures Valid() && Follows(old(Value()), Value(), CancelRequest(id), true, None)
    {
      Leave(id, if id in active then active[id := true] else active);
    }

    lemma SameSize()
      ensures |Value().pending| == |pending|
    {
      assert Value().pending.Keys == pending.Keys;
    }

    /** Adding to one stream's assembler leaves every other stream's alone. */
    method HandleChunk(id: Id, kind: ChunkKind, sequence: nat, payload: Bytes) returns (ok: bool)
      requires Valid()
      modifies Assemblers()
      ensures Valid() && Follows(old(Value()), Value(), Chunk(id, kind, sequence, payload), ok, None)
    {
      if id !in pending {
        return false;
      }
      ghost var before := Value();
      var added, _ := pending[id].assembler.Add(kind, sequence, payload);
      assert forall x :: x in pending && x != id ==> pending[x].assembler.Value() == old(pending[x].assembler.Value());
      ok := added;
      if ok {
        assert Value().pending
            == before.pending[id := Pending(pending[id].head, Requests.Add(before.pending[id].assembler, payload))];
      } else {
        assert Value().pending == before.pending;
      }
    }
  }
}
