/** Length-prefixed frames over a stream socket: aalp/ingress.py. */
module Framing {

  type Byte = b: int | 0 <= b < 256

  const PREFIX := 4
  const LIMIT := 0x1_0000_0000

  /** struct.Struct(">I") */
  function Pack(n: nat): (p: seq<Byte>)
    requires n < LIMIT
    ensures |p| == PREFIX
  {
    [n / 0x100_0000, n / 0x1_0000 % 256, n / 256 % 256, n % 256]
  }

  function Unpack(p: seq<Byte>): nat
    requires |p| == PREFIX
  {
    var a: int, b: int, c: int := p[0], p[1], p[2];
    ((a * 256 + b) * 256 + c) * 256 + p[3]
  }

  lemma {:induction false} UnpackInvertsPack(n: nat)
    requires n < LIMIT
    ensures Unpack(Pack(n)) == n
  {
    var a, b, c := n / 256, n / 256 / 256, n / 256 / 256 / 256;
    assert n / 0x1_0000 == b && n / 0x100_0000 == c;
    assert n == a * 256 + n % 256 && a == b * 256 + a % 256 && b == c * 256 + b % 256;
  }

  lemma {:induction false} PackInvertsUnpack(p: seq<Byte>)
    requires |p| == PREFIX
    ensures Unpack(p) < LIMIT && Pack(Unpack(p)) == p
  {
    var a: int := p[0];
    var x: int := a * 256 + p[1];
    var y: int := x * 256 + p[2];
    var n: int := y * 256 + p[3];
    assert n / 256 == y && n % 256 == p[3];
    assert y / 256 == x && y % 256 == p[2];
    assert x / 256 == p[0] && x % 256 == p[1];
    assert n / 0x1_0000 == n / 256 / 256 && n / 0x100_0000 == n / 256 / 256 / 256;
  }

  /** The number that bytes stand for, the most significant one first. */
  function Number(p: seq<Byte>): nat {
    if p == [] then 0 else Number(p[..|p| - 1]) * 256 + p[|p| - 1]
  }

  lemma {:induction false} UnpackIsNumber(p: seq<Byte>)
    requires |p| == PREFIX
    ensures Unpack(p) == Number(p)
  {
    assert p[..3][..2] == p[..2] && p[..2][..1] == p[..1] && p[..1][..0] == [];
    assert Number(p[..1]) == p[0];
    assert Number(p[..2]) == Number(p[..1]) * 256 + p[1];
    assert Number(p[..3]) == Number(p[..2]) * 256 + p[2];
  }

  /** The prefix is the length in network byte order, and the only one of its size. */
  lemma {:induction false} PrefixIsBigEndian(n: nat, p: seq<Byte>)
    requires n < LIMIT && |p| == PREFIX
    ensures Number(p) == n <==> p == Pack(n)
  {
    UnpackInvertsPack(n);
    UnpackIsNumber(Pack(n));
    PackInvertsUnpack(p);
    UnpackIsNumber(p);
  }

  // ----- What a stream says -----

  /** A frame's payload; ValueError before any of the body is read; or ConnectionError. */
  datatype Incoming = Payload(bytes: seq<Byte>) | TooLarge(length: nat) | Disconnected

  /** The meaning of `read_frame` on everything the peer sends before it closes, and what is left unread. */
  function Parse(stream: seq<Byte>, maxFrame: nat): (Incoming, seq<Byte>) {
    if |stream| < PREFIX then (Disconnected, [])
    else
      var length, body := Unpack(stream[..PREFIX]), stream[PREFIX..];
      if length > maxFrame then (TooLarge(length), body)
      else if |body| < length then (Disconnected, [])
      else (Payload(body[..length]), body[length..])
  }

  function Wire(payload: seq<Byte>): seq<Byte>
    requires |payload| < LIMIT
  {
    Pack(|payload|) + payload
  }

  lemma {:induction false} WirePrefix(payload: seq<Byte>, rest: seq<Byte>)
    requires |payload| < LIMIT
    ensures var stream := Wire(payload) + rest;
            && stream[..PREFIX] == Pack(|payload|) && stream[PREFIX..] == payload + rest
            && Unpack(stream[..PREFIX]) == |payload|
  {
    UnpackInvertsPack(|payload|);
    var stream := Wire(payload) + rest;
    assert stream[..PREFIX] == Pack(|payload|);
    assert stream[PREFIX..] == payload + rest;
  }

  /** What was written is read back, and the rest stays unread, exactly for payloads within the frame limit;
      an oversized one is refused with its body still in the stream. */
  lemma {:induction false} RoundTrip(payload: seq<Byte>, rest: seq<Byte>, maxFrame: nat)
    requires |payload| < LIMIT
    ensures Parse(Wire(payload) + rest, maxFrame) == (Payload(payload), rest) <==> |payload| <= maxFrame
    ensures |payload| > maxFrame ==> Parse(Wire(payload) + rest, maxFrame) == (TooLarge(|payload|), payload + rest)
  {
    WirePrefix(payload, rest);
    assert (payload + rest)[..|payload|] == payload && (payload + rest)[|payload|..] == rest;
  }

  /** A stream cut anywhere inside a frame never yields a payload. */
  lemma {:induction false} TruncationIsNoticed(payload: seq<Byte>, cut: nat, maxFrame: nat)
    requires |payload| < LIMIT && cut < |Wire(payload)|
    ensures !Parse(Wire(payload)[..cut], maxFrame).0.Payload?
    ensures |payload| <= maxFrame ==> Parse(Wire(payload)[..cut], maxFrame) == (Disconnected, [])
  {
    if cut >= PREFIX {
      UnpackInvertsPack(|payload|);
      assert Wire(payload)[..cut][..PREFIX] == Pack(|payload|);
    }
  }

  /** Only what `write_frame` produces can be read as a payload. */
  lemma {:induction false} OnlyFramesParse(stream: seq<Byte>, maxFrame: nat)
    ensures var (frame, rest) := Parse(stream, maxFrame);
            frame.Payload? ==> |frame.bytes| < LIMIT && |frame.bytes| <= maxFrame && stream == Wire(frame.bytes) + rest
  {
    if |stream| >= PREFIX {
      PackInvertsUnpack(stream[..PREFIX]);
      var body := stream[PREFIX..];
      assert stream == stream[..PREFIX] + body;
      if Unpack(stream[..PREFIX]) <= |body| {
        assert body == body[..Unpack(stream[..PREFIX])] + body[Unpack(stream[..PREFIX])..];
      }
    }
  }

  // ----- The frame limit -----

  /** Length of the base64 form (section 4 of RFC 4648, with padding). */
  function Base64Length(n: nat): nat {
    4 * ((n + 2) / 3)
  }

  function MaxFrameBytes(maxRequest: nat): nat {
    maxRequest * 2
  }

  lemma Base64Monotone(a: nat, b: nat)
    requires a <= b
    ensures Base64Length(a) <= Base64Length(b)
  {
  }

  /** The length of a request's frame: its envelope around the base64 form of its body. */
  predicate IsRequest(payload: seq<Byte>, overhead: nat, body: nat) {
    |payload| == overhead + Base64Length(body) < LIMIT
  }

  ghost predicate Admitted(payload: seq<Byte>, rest: seq<Byte>, maxRequest: nat)
    requires |payload| < LIMIT
  {
    Parse(Wire(payload) + rest, MaxFrameBytes(maxRequest)) == (Payload(payload), rest)
  }

  /** How many bytes of envelope the doubled limit leaves room for around the largest body. */
  function Room(maxRequest: nat): int {
    2 * (maxRequest / 3) - if maxRequest % 3 == 1 then 2 else 0
  }

  lemma {:induction false} RoomForEnvelope(maxRequest: nat, overhead: nat)
    ensures overhead + Base64Length(maxRequest) <= MaxFrameBytes(maxRequest) <==> overhead <= Room(maxRequest)
  {
    var q := maxRequest / 3;
    assert maxRequest == 3 * q + maxRequest % 3;
    assert (maxRequest + 2) / 3 == if maxRequest % 3 == 0 then q else q + 1;
  }

  /** With a given envelope, the reader takes in every request whose body is within the request limit, and leaves what
      follows it unread, exactly when the envelope fits into the room that is left; otherwise a request with a body
      of the very limit is refused. (A frame must fit its four-byte length in any case.) */
  lemma {:induction false} LimitAdmitsAllBodies(maxRequest: nat, overhead: nat)
    requires overhead + Base64Length(maxRequest) < LIMIT
    ensures (forall payload, rest, body: nat :: body <= maxRequest && IsRequest(payload, overhead, body) ==>
               Admitted(payload, rest, maxRequest))
            <==> overhead <= Room(maxRequest)
  {
    RoomForEnvelope(maxRequest, overhead);
    if overhead <= Room(maxRequest) {
      forall payload, rest, body: nat | body <= maxRequest && IsRequest(payload, overhead, body)
        ensures Admitted(payload, rest, maxRequest)
      {
        Base64Monotone(body, maxRequest);
        RoundTrip(payload, rest, MaxFrameBytes(maxRequest));
      }
    } else {
      var payload: seq<Byte> := seq(overhead + Base64Length(maxRequest), _ => 0);
      assert IsRequest(payload, overhead, maxRequest);
      RoundTrip(payload, [], MaxFrameBytes(maxRequest));
      assert !Admitted(payload, [], maxRequest);
    }
  }

  // ----- The socket loops -----

  function Concat(chunks: seq<seq<Byte>>): seq<Byte> {
    if chunks == [] then [] else Concat(chunks[..|chunks| - 1]) + chunks[|chunks| - 1]
  }

  /** `incoming` is what the peer has yet to deliver before it closes. */
  class Socket {
    var incoming: seq<Byte>
    var outgoing: seq<Byte>

    constructor (incoming: seq<Byte>)
      ensures this.incoming == incoming && outgoing == []
    {
      this.incoming, outgoing := incoming, [];
    }

    /** Delivers any nonempty part of what is left, up to `n` bytes; nothing once the peer has closed. */
    method Recv(n: nat) returns (chunk: seq<Byte>)
      requires n > 0
      modifies `incoming
      ensures chunk + incoming == old(incoming) && |chunk| <= n
      ensures chunk == [] <==> old(incoming) == []
    {
      var most := if |incoming| < n then |incoming| else n;
      var k: nat :| k <= most && (most > 0 ==> k > 0);
      chunk, incoming := incoming[..k], incoming[k..];
      assert chunk + incoming == old(incoming);
    }

    /** `_recv_exact`: exactly `n` bytes however they are chunked, or ConnectionError. */
    method RecvExact(n: nat) returns (ok: bool, bytes: seq<Byte>)
      modifies `incoming
      ensures ok <==> n <= |old(incoming)|
      ensures ok ==> bytes == old(incoming)[..n] && incoming == old(incoming)[n..]
      ensures !ok ==> incoming == []
    {
      var chunks: seq<seq<Byte>> := [];
      var remaining := n;
      while remaining > 0
        invariant 0 <= remaining && |Concat(chunks)| + remaining == n
        invariant Concat(chunks) + incoming == old(incoming)
      {
        var chunk := Recv(remaining);
        if chunk == [] {
          return false, [];
        }
        ghost var before := Concat(chunks);
        chunks := chunks + [chunk];
        assert chunks[..|chunks| - 1] + [chunk] == chunks && Concat(chunks) == before + chunk;
        remaining := remaining - |chunk|;
      }
      bytes := Concat(chunks);
      assert (bytes + incoming)[..n] == bytes && (bytes + incoming)[n..] == incoming;
      return true, bytes;
    }

    method ReadFrame(maxFrame: nat) returns (frame: Incoming)
      modifies `incoming
      ensures (frame, incoming) == Parse(old(incoming), maxFrame)
    {
      var ok, header := RecvExact(PREFIX);
      if !ok {
        return Disconnected;
      }
      var length := Unpack(header);
      if length > maxFrame {
        return TooLarge(length);
      }
      var body;
      ok, body := RecvExact(length);
      frame := if ok then Payload(body) else Disconnected;
    }

    /** False where struct.pack raises: the length does not fit the prefix, and nothing is sent. */
    method WriteFrame(payload: seq<Byte>) returns (ok: bool)
      modifies `outgoing
      ensures ok <==> |payload| < LIMIT
      ensures outgoing == old(outgoing) + if ok then Wire(payload) else []
    {
      if |payload| >= LIMIT {
        return false;
      }
      outgoing := outgoing + (Pack(|payload|) + payload);
      return true;
    }
  }
}
