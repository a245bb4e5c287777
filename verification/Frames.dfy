/** The binary frame codec, implemented twice: in the gateway
    (backend/internal/protocol/frame.go) and, independently, in the agent
    (agent/internal/gatewayclient/frame.go). */
module Frames {
  import opened Protocol

  const VERSION: byte := 1
  const REQUEST_CHUNK: byte := 1
  const RESPONSE_CHUNK: byte := 2
  const HEADER: nat := 12
  const MAX_PAYLOAD: nat := 32768

  datatype Frame = Frame(kind: byte, id: Id, sequence: nat, payload: Bytes)
  datatype FrameError = InvalidFrame | UnsupportedType | PayloadTooLarge | InvalidLength
  datatype ParseResult = Parsed(frame: Frame) | Refused(error: FrameError)

  /** What a frame must be to have a wire form. The sequence is a uint32. */
  predicate Valid(f: Frame) {
    && (f.kind == REQUEST_CHUNK || f.kind == RESPONSE_CHUNK)
    && 0 < |f.id| < 65536
    && |f.payload| <= MAX_PAYLOAD
    && f.sequence < SEQUENCE_MOD
  }

  // ----- Big-endian integers -----

  function Put16(n: nat): (b: Bytes)
    requires n < 65536
    ensures |b| == 2 && Get16(b) == n
  {
    [n / 256, n % 256]
  }

  function Get16(b: Bytes): (n: nat)
    requires |b| == 2
    ensures n < 65536
  {
    b[0] as int * 256 + b[1] as int
  }

  function Put32(n: nat): (b: Bytes)
    requires n < SEQUENCE_MOD
    ensures |b| == 4 && Get32(b) == n
  {
    var b := Put16(n / 65536) + Put16(n % 65536);
    assert b[..2] == Put16(n / 65536) && b[2..] == Put16(n % 65536);
    b
  }

  function Get32(b: Bytes): (n: nat)
    requires |b| == 4
    ensures n < SEQUENCE_MOD
  {
    Get16(b[..2]) * 65536 + Get16(b[2..])
  }

  lemma Put16Get16(b: Bytes)
    requires |b| == 2
    ensures Put16(Get16(b)) == b
  {
  }

  lemma Put32Get32(b: Bytes)
    requires |b| == 4
    ensures Put32(Get32(b)) == b
  {
    var hi, lo := Get16(b[..2]), Get16(b[2..]);
    assert (hi * 65536 + lo) / 65536 == hi && (hi * 65536 + lo) % 65536 == lo;
    Put16Get16(b[..2]);
    Put16Get16(b[2..]);
    assert b == b[..2] + b[2..];
  }

  // ----- Wire layout -----

  function Header(f: Frame): (h: Bytes)
    requires Valid(f)
    ensures |h| == HEADER
    ensures h[0] == VERSION && h[1] == f.kind
    ensures h[2..4] == Put16(|f.id|) && h[4..8] == Put32(f.sequence) && h[8..12] == Put32(|f.payload|)
  {
    [VERSION, f.kind] + Put16(|f.id|) + Put32(f.sequence) + Put32(|f.payload|)
  }

  function Layout(f: Frame): (d: Bytes)
    requires Valid(f)
    ensures |d| == HEADER + |f.id| + |f.payload|
  {
    Header(f) + f.id + f.payload
  }

  /** The frame that data of a consistent length describes. */
  function Fields(data: Bytes): Frame
    requires |data| >= HEADER && HEADER + Get16(data[2..4]) <= |data|
  {
    var idLength := Get16(data[2..4]);
    Frame(data[1], data[12..12 + idLength], Get32(data[4..8]), data[12 + idLength..])
  }

  // ----- The two parsers, each with its own order of checks -----

  function ParseGateway(data: Bytes): ParseResult {
    if |data| < HEADER || data[0] != VERSION then Refused(InvalidFrame)
    else if data[1] != REQUEST_CHUNK && data[1] != RESPONSE_CHUNK then Refused(UnsupportedType)
    else
      var idLength, payloadLength := Get16(data[2..4]), Get32(data[8..12]);
      if payloadLength > MAX_PAYLOAD then Refused(PayloadTooLarge)
      else if idLength == 0 || |data| != HEADER + idLength + payloadLength then Refused(InvalidLength)
      else Parsed(Fields(data))
  }

  function ParseAgent(data: Bytes): ParseResult {
    if |data| < HEADER || data[0] != VERSION then Refused(InvalidFrame)
    else
      var idLength, payloadLength := Get16(data[2..4]), Get32(data[8..12]);
      if payloadLength > MAX_PAYLOAD then Refused(PayloadTooLarge)
      else if (data[1] != REQUEST_CHUNK && data[1] != RESPONSE_CHUNK) || idLength == 0
             || |data| != HEADER + idLength + payloadLength
      then Refused(InvalidLength)
      else Parsed(Fields(data))
  }

  /** The two implementations accept the same byte strings with the same frame,
      and differ at all exactly when a proper header names an unknown type. */
  lemma ParsersAgree(data: Bytes)
    ensures ParseGateway(data).Parsed? <==> ParseAgent(data).Parsed?
    ensures ParseGateway(data).Parsed? ==> ParseGateway(data) == ParseAgent(data)
    ensures ParseGateway(data) != ParseAgent(data) <==>
              |data| >= HEADER && data[0] == VERSION && data[1] != REQUEST_CHUNK && data[1] != RESPONSE_CHUNK
  {
  }

  lemma LayoutFields(f: Frame)
    requires Valid(f)
    ensures var d := Layout(f);
            && d[..HEADER] == Header(f)
            && d[2..4] == Put16(|f.id|) && d[4..8] == Put32(f.sequence) && d[8..12] == Put32(|f.payload|)
            && d[12..12 + |f.id|] == f.id && d[12 + |f.id|..] == f.payload
  {
    var d, h := Layout(f), Header(f);
    assert d[..HEADER] == h;
    assert d[2..4] == h[2..4] && d[4..8] == h[4..8] && d[8..12] == h[8..12];
  }

  /** Parsing undoes marshalling on every valid frame. */
  lemma ParseLayout(f: Frame)
    requires Valid(f)
    ensures ParseGateway(Layout(f)) == Parsed(f) && ParseAgent(Layout(f)) == Parsed(f)
  {
    LayoutFields(f);
    assert Layout(f)[0] == Header(f)[0] && Layout(f)[1] == Header(f)[1];
  }

  /** Marshalling undoes parsing on every accepted byte string. */
  lemma LayoutParse(data: Bytes)
    requires ParseGateway(data).Parsed?
    ensures Valid(ParseGateway(data).frame) && Layout(ParseGateway(data).frame) == data
  {
    var f := ParseGateway(data).frame;
    Put16Get16(data[2..4]);
    Put32Get32(data[4..8]);
    Put32Get32(data[8..12]);
    var h := Header(f);
    assert h[..2] == data[..2];
    assert h == h[..2] + h[2..4] + h[4..8] + h[8..12];
    assert data == data[..2] + data[2..4] + data[4..8] + data[8..12] + data[12..12 + |f.id|] + data[12 + |f.id|..];
  }

  // ----- The format, byte by byte -----

  function Big16(d: Bytes, at: nat): int
    requires at + 2 <= |d|
  {
    d[at] as int * 256 + d[at + 1] as int
  }

  function Big32(d: Bytes, at: nat): int
    requires at + 4 <= |d|
  {
    d[at] as int * 16777216 + d[at + 1] as int * 65536 + d[at + 2] as int * 256 + d[at + 3] as int
  }

  /** `d` spells `f`: version 1, the type, big-endian id length, sequence and
      payload length, then the id and the payload, and not a byte more. */
  predicate Spells(d: Bytes, f: Frame) {
    && |d| == 12 + |f.id| + |f.payload|
    && d[0] == 1 && d[1] == f.kind && (f.kind == 1 || f.kind == 2)
    && 0 < |f.id| && Big16(d, 2) == |f.id|
    && Big32(d, 4) == f.sequence
    && |f.payload| <= 32768 && Big32(d, 8) == |f.payload|
    && d[12..12 + |f.id|] == f.id && d[12 + |f.id|..] == f.payload
  }

  lemma BigEndian(d: Bytes, at: nat)
    requires at + 4 <= |d|
    ensures Get16(d[at..at + 2]) == Big16(d, at) && Get32(d[at..at + 4]) == Big32(d, at)
  {
    assert d[at..at + 4][..2] == d[at..at + 2] && d[at..at + 4][2..] == d[at + 2..at + 4];
    assert Get16(d[at..at + 2]) == Big16(d, at) && Get16(d[at + 2..at + 4]) == Big16(d, at + 2);
  }

  /** Both directions of the format: a valid frame is marshalled into the bytes that
      spell it, and either parser accepts a byte string exactly when it spells some
      frame, which is the frame it returns. */
  lemma FormatExactly(f: Frame, data: Bytes)
    ensures Valid(f) ==> Spells(Layout(f), f)
    ensures ParseGateway(data) == Parsed(f) <==> Spells(data, f)
    ensures ParseAgent(data) == Parsed(f) <==> Spells(data, f)
  {
    ParsersAgree(data);
    if Valid(f) {
      LayoutFields(f);
      HeaderBytes(f);
    }
    if |data| >= 12 {
      BigEndian(data, 2);
      BigEndian(data, 4);
      BigEndian(data, 8);
    }
  }

  lemma HeaderBytes(f: Frame)
    requires Valid(f)
    ensures var d := Layout(f);
            && d[0] == 1 && d[1] == f.kind
            && Big16(d, 2) == |f.id| && Big32(d, 4) == f.sequence && Big32(d, 8) == |f.payload|
  {
    var d := Layout(f);
    LayoutFields(f);
    assert d[0] == Header(f)[0] && d[1] == Header(f)[1];
    BigEndian(d, 2);
    BigEndian(d, 4);
    BigEndian(d, 8);
  }

  // ----- Chunks on the wire -----

  function KindByte(kind: ChunkKind): byte {
    if kind.RequestChunk? then REQUEST_CHUNK else RESPONSE_CHUNK
  }

  function FrameOf(m: Message): Frame
    requires m.Chunk?
  {
    Frame(KindByte(m.kind), m.id, m.sequence, m.payload)
  }

  /** What a receiver makes of a parsed binary message. */
  function Received(p: ParseResult): Message {
    match p
    case Refused(_) => Malformed
    case Parsed(f) => Chunk(f.id, if f.kind == REQUEST_CHUNK then RequestChunk else ResponseChunk, f.sequence,
                            f.payload)
  }

  /** A chunk with a valid frame arrives at either end as it was sent. */
  lemma ChunkArrives(m: Message)
    requires m.Chunk? && Valid(FrameOf(m))
    ensures Received(ParseGateway(Layout(FrameOf(m)))) == m && Received(ParseAgent(Layout(FrameOf(m)))) == m
    ensures Spells(Layout(FrameOf(m)), Frame(if m.kind == RequestChunk then 1 else 2, m.id, m.sequence, m.payload))
  {
    ParseLayout(FrameOf(m));
    FormatExactly(FrameOf(m), []);
  }

  // ----- Marshalling fills a new buffer -----

  method Place(data: array<byte>, at: nat, bytes: Bytes)
    requires at + |bytes| <= data.Length
    modifies data
    ensures data[..] == old(data[..at]) + bytes + old(data[at + |bytes|..])
  {
    forall i | 0 <= i < |bytes| { data[at + i] := bytes[i]; }
  }

  /** Copies out of the caller's buffer. */
  method Copy(data: array<byte>, at: nat, buffer: array<byte>, count: nat)
    requires count <= buffer.Length && at + count == data.Length && data != buffer
    modifies data
    ensures data[..] == old(data[..at]) + buffer[..count]
  {
    forall i | 0 <= i < count { data[at + i] := buffer[i]; }
  }

  method WriteHeader(data: array<byte>, f: Frame)
    requires Valid(f) && data.Length >= HEADER
    modifies data
    ensures data[..HEADER] == Header(f)
  {
    ghost var h := Header(f);
    data[0], data[1] := VERSION, f.kind;
    Place(data, 2, Put16(|f.id|));
    Place(data, 4, Put32(f.sequence));
    Place(data, 8, Put32(|f.payload|));
    assert h == h[..2] + h[2..4] + h[4..8] + h[8..12];
  }

  /** Marshals the frame whose payload is the first `count` bytes of the caller's
      buffer. The result is a buffer of its own, so the caller may reuse theirs.
      Fails exactly on frames without a wire form. */
  method MarshalBinary(kind: byte, id: Id, sequence: nat, buffer: array<byte>, count: nat)
    returns (ok: bool, data: array<byte>)
    requires sequence < SEQUENCE_MOD && count <= buffer.Length
    ensures fresh(data)
    ensures ok <==> Valid(Frame(kind, id, sequence, buffer[..count]))
    ensures ok ==> data[..] == Layout(Frame(kind, id, sequence, buffer[..count]))
  {
    if kind != REQUEST_CHUNK && kind != RESPONSE_CHUNK {
      return false, new byte[0];
    }
    if |id| == 0 || |id| > 65535 {
      return false, new byte[0];
    }
    if count > MAX_PAYLOAD {
      return false, new byte[0];
    }
    data := new byte[HEADER + |id| + count](_ => 0);
    WriteHeader(data, Frame(kind, id, sequence, buffer[..count]));
    Place(data, HEADER, id);
    Copy(data, HEADER + |id|, buffer, count);
    ok := true;
  }
}
