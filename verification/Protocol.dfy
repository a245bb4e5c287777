/** Messages of the tunnel protocol, shared by the gateway and the agent, and
    the tools for talking about one request inside an interleaved log of them. */
module Protocol {

  type byte = x: int | 0 <= x < 256
  type Bytes = seq<byte>
  type Id = Bytes
  type Headers = map<string, seq<string>>

  const MAX_BODY: nat := 33554432   // 32 MiB, both directions
  const CHUNK_SIZE: nat := 32768    // read buffer of either side
  const SEQUENCE_MOD: nat := 0x1_0000_0000
  const COUNTER_MOD: nat := 0x1_0000_0000_0000_0000   // uint64
  const QUEUE_CAPACITY: nat := 32   // outbound queue of either side
  const STREAM_LIMIT: nat := 32     // open streams either side accepts

  datatype Option<+T> = None | Some(value: T)

  // ----- Sequences and maps -----

  lemma SplitAt<T>(s: seq<T>, n: nat)
    requires n <= |s|
    ensures s[..n] + s[n..] == s
  {
  }

  lemma TakeNext<T>(s: seq<T>, n: nat)
    requires n < |s|
    ensures s[..n + 1] == s[..n] + [s[n]]
  {
  }

  lemma WithoutLast<T>(s: seq<T>)
    requires s != []
    ensures s[..|s| - 1] + [s[|s| - 1]] == s
  {
  }

  lemma ConcatLast<T>(a: seq<T>, b: seq<T>)
    requires b != []
    ensures a + b == (a + b[..|b| - 1]) + [b[|b| - 1]]
  {
  }

  lemma Associates<T>(a: seq<T>, b: seq<T>, c: seq<T>)
    ensures a + b + c == a + (b + c) && a + [] == a
  {
  }

  lemma Displays<T>(a: T, b: T)
    ensures [] + [a] == [a] && [a] + [b] == [a, b]
  {
  }

  lemma MapGrown<K, V>(m: map<K, V>, k: K, v: V)
    ensures |m[k := v]| == if k in m then |m| else |m| + 1
  {
    assert m[k := v].Keys == m.Keys + {k};
  }

  lemma MapTwice<K, V>(m: map<K, V>, k: K, v: V, w: V)
    ensures m[k := v][k := w] == m[k := w]
  {
  }

  lemma MapShrunk<K, V>(m: map<K, V>, k: K)
    ensures |m - {k}| == if k in m then |m| - 1 else |m|
  {
    assert (m - {k}).Keys == m.Keys - {k};
  }

  datatype RequestHead = RequestHead(verb: string, path: string, headers: Headers)
  datatype Request = Request(id: Id, head: RequestHead, body: Bytes)
  datatype ResponseHead = ResponseHead(status: int, headers: Headers, contentLength: int, error: string)
  datatype Response = Response(status: int, headers: Headers, body: Bytes, error: string)
  datatype ChunkKind = RequestChunk | ResponseChunk

  /** One decoded WebSocket message. `Malformed` stands for everything that
      fails to decode; `Other` for the decodable types a receiver ignores. */
  datatype Message =
    | RequestStart(id: Id, head: RequestHead, contentLength: int)
    | RequestEnd(id: Id)
    | CancelRequest(id: Id)
    | ResponseStart(id: Id, reply: ResponseHead)
    | ResponseEnd(id: Id)
    | Chunk(id: Id, kind: ChunkKind, sequence: nat, payload: Bytes)
    | OpenTunnel(accepted: bool)
    | Malformed
    | Other

  predicate Concerns(m: Message, r: Id) {
    match m
    case RequestStart(id, _, _) => id == r
    case RequestEnd(id) => id == r
    case CancelRequest(id) => id == r
    case ResponseStart(id, _) => id == r
    case ResponseEnd(id) => id == r
    case Chunk(id, _, _, _) => id == r
    case _ => false
  }

  /** The messages of `log` about request `r`, in order. */
  function Project(log: seq<Message>, r: Id): (p: seq<Message>)
    ensures |p| <= |log|
    ensures forall m :: m in p ==> m in log && Concerns(m, r)
  {
    if log == [] then []
    else
      var m := log[|log| - 1];
      Project(log[..|log| - 1], r) + (if Concerns(m, r) then [m] else [])
  }

  lemma ProjectPush(log: seq<Message>, m: Message, r: Id)
    ensures Project(log + [m], r) == if Concerns(m, r) then Project(log, r) + [m] else Project(log, r)
  {
    assert (log + [m])[..|log|] == log;
  }

  lemma ProjectNext(log: seq<Message>, n: nat, r: Id)
    requires n < |log|
    ensures Project(log[..n + 1], r)
         == if Concerns(log[n], r) then Project(log[..n], r) + [log[n]] else Project(log[..n], r)
  {
    TakeNext(log, n);
    ProjectPush(log[..n], log[n], r);
  }

  lemma {:induction false} ProjectConcat(a: seq<Message>, b: seq<Message>, r: Id)
    ensures Project(a + b, r) == Project(a, r) + Project(b, r)
    decreases |b|
  {
    Associates(a, b, []);
    if b != [] {
      var init, m := b[..|b| - 1], b[|b| - 1];
      ConcatLast(a, b);
      ProjectPush(a + init, m, r);
      ProjectConcat(a, init, r);
      Associates(Project(a, r), Project(init, r), [m]);
      Associates(Project(a, r), Project(init, r), []);
      Associates(Project(init, r), [], []);
    } else {
      Associates(Project(a, r), [], []);
    }
  }

  /** What a cursor has passed is a prefix of what was ever sent about `r`. */
  lemma ProjectPrefix(log: seq<Message>, n: nat, r: Id)
    requires n <= |log|
    ensures Project(log[..n], r) <= Project(log, r)
  {
    SplitAt(log, n);
    ProjectConcat(log[..n], log[n..], r);
  }

  /** A message about no request at all, slipped in anywhere, is in nobody's stream. */
  lemma ProjectInsert(log: seq<Message>, n: nat, m: Message, r: Id)
    requires n <= |log| && !Concerns(m, r)
    ensures Project(log[..n] + [m] + log[n..], r) == Project(log, r)
  {
    ProjectAround(log[..n], m, log[n..], r);
    SplitAt(log, n);
  }

  lemma ProjectAround(a: seq<Message>, m: Message, b: seq<Message>, r: Id)
    requires !Concerns(m, r)
    ensures Project(a + [m] + b, r) == Project(a + b, r)
  {
    var am := a + [m];
    ProjectPush(a, m, r);
    ProjectConcat(am, b, r);
    ProjectConcat(a, b, r);
  }

  lemma {:induction false} ProjectKeeps(log: seq<Message>, m: Message, r: Id)
    requires m in log && Concerns(m, r)
    ensures m in Project(log, r)
  {
    var init := log[..|log| - 1];
    if m in init {
      ProjectKeeps(init, m, r);
    } else {
      assert log == init + [log[|log| - 1]];
    }
  }

  /** The concatenation of the chunks of one body. */
  function Join(parts: seq<Bytes>): Bytes {
    if parts == [] then [] else Join(parts[..|parts| - 1]) + parts[|parts| - 1]
  }

  lemma JoinPush(parts: seq<Bytes>, part: Bytes)
    ensures Join(parts + [part]) == Join(parts) + part
  {
    assert (parts + [part])[..|parts|] == parts;
  }

  /** Chunks as both senders cut them: never empty, never larger than the buffer. */
  predicate Cut(parts: seq<Bytes>) {
    forall i :: 0 <= i < |parts| ==> 0 < |parts[i]| <= CHUNK_SIZE
  }

  lemma {:induction false} CutCount(parts: seq<Bytes>)
    requires Cut(parts)
    ensures |parts| <= |Join(parts)|
  {
    if parts != [] {
      CutCount(parts[..|parts| - 1]);
    }
  }

  /** The frames that carry `parts` for request `r`, numbered from zero. */
  function Chunks(r: Id, kind: ChunkKind, parts: seq<Bytes>): (ms: seq<Message>)
    ensures |ms| == |parts|
  {
    if parts == [] then []
    else
      var n := |parts| - 1;
      Chunks(r, kind, parts[..n]) + [Chunk(r, kind, n % SEQUENCE_MOD, parts[n])]
  }

  lemma ChunksPush(r: Id, kind: ChunkKind, parts: seq<Bytes>, part: Bytes)
    ensures Chunks(r, kind, parts + [part])
         == Chunks(r, kind, parts) + [Chunk(r, kind, |parts| % SEQUENCE_MOD, part)]
  {
    assert (parts + [part])[..|parts|] == parts;
  }
}
