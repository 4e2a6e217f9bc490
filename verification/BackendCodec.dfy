/** The length-prefixed protocol between the QUIC edge and the gateway backend
    (fleetqox/public_quic_gateway_backend.py). Texts are the bytes they are encoded as. */
module BackendCodec {

  type Byte = b: int | 0 <= b < 256
  type Bytes = seq<Byte>

  datatype Result<+T> = Ok(value: T) | Error(reason: Reason)

  datatype Reason =
    | Truncated
    | BadMagic
    | BadFlags
    | BadLength
    | TooLarge
    | BadEncoding
    | BadTelemetry
    | BadStatus

  // ---------------------------------------------------------------- fixed-width integers

  function Pow256(w: nat): (r: int)
    ensures r >= 1
  {
    if w == 0 then 1 else 256 * Pow256(w - 1)
  }

  /** Big-endian, `w` bytes. */
  function Big(n: nat, w: nat): (r: Bytes)
    requires n < Pow256(w)
    ensures |r| == w
  {
    if w == 0 then [] else Big(n / 256, w - 1) + [n % 256]
  }

  function Value(b: Bytes): (r: nat)
    ensures r < Pow256(|b|)
  {
    if b == [] then 0 else Value(b[..|b| - 1]) * 256 + b[|b| - 1]
  }

  lemma {:induction false} ValueOfBig(n: nat, w: nat)
    requires n < Pow256(w)
    ensures Value(Big(n, w)) == n
  {
    if w > 0 {
      ValueOfBig(n / 256, w - 1);
      assert Big(n, w)[..w - 1] == Big(n / 256, w - 1);
    }
  }

  lemma {:induction false} BigOfValue(b: Bytes)
    ensures Big(Value(b), |b|) == b
  {
    if b != [] {
      var rest, last := b[..|b| - 1], b[|b| - 1];
      BigOfValue(rest);
      assert Value(b) / 256 == Value(rest) && Value(b) % 256 == last;
      assert b == rest + [last];
    }
  }

  // ---------------------------------------------------------------- headers

  /** A header is a run of big-endian integers of given widths. */
  predicate Packable(values: seq<nat>, widths: seq<nat>) {
    |values| == |widths| && forall i :: 0 <= i < |values| ==> values[i] < Pow256(widths[i])
  }

  function Width(widths: seq<nat>): nat { if widths == [] then 0 else widths[0] + Width(widths[1..]) }

  function Pack(values: seq<nat>, widths: seq<nat>): (r: Bytes)
    requires Packable(values, widths)
    ensures |r| == Width(widths)
    decreases |widths|
  {
    if widths == [] then [] else Big(values[0], widths[0]) + Pack(values[1..], widths[1..])
  }

  function Unpack(b: Bytes, widths: seq<nat>): (r: seq<nat>)
    requires |b| == Width(widths)
    ensures |r| == |widths| && Packable(r, widths)
    decreases |widths|
  {
    if widths == [] then [] else [Value(b[..widths[0]])] + Unpack(b[widths[0]..], widths[1..])
  }

  lemma {:induction false} UnpackOfPack(values: seq<nat>, widths: seq<nat>)
    requires Packable(values, widths)
    ensures Unpack(Pack(values, widths), widths) == values
    decreases |widths|
  {
    if widths != [] {
      var b := Pack(values, widths);
      ValueOfBig(values[0], widths[0]);
      UnpackOfPack(values[1..], widths[1..]);
      assert b[..widths[0]] == Big(values[0], widths[0]) && b[widths[0]..] == Pack(values[1..], widths[1..]);
    }
  }

  lemma PackFirst(v: nat, values: seq<nat>, w: nat, widths: seq<nat>)
    requires v < Pow256(w) && Packable(values, widths)
    ensures Packable([v] + values, [w] + widths)
    ensures Pack([v] + values, [w] + widths) == Big(v, w) + Pack(values, widths)
  {
    assert ([v] + values)[1..] == values && ([w] + widths)[1..] == widths;
  }

  lemma {:induction false} PackOfUnpack(b: Bytes, widths: seq<nat>)
    requires |b| == Width(widths)
    ensures Pack(Unpack(b, widths), widths) == b
    decreases |widths|
  {
    if widths != [] {
      var w, more := widths[0], widths[1..];
      var head, tail := b[..w], b[w..];
      BigOfValue(head);
      PackOfUnpack(tail, more);
      PackFirst(Value(head), Unpack(tail, more), w, more);
      assert widths == [w] + more && b == head + tail;
    } else {
      assert b == [];
    }
  }

  /** Magic, packed header, payload. */
  function Frame(magic: Bytes, values: seq<nat>, widths: seq<nat>, payload: Bytes): Bytes
    requires Packable(values, widths)
  {
    magic + Pack(values, widths) + payload
  }

  lemma FrameJoin(magic: Bytes, values: seq<nat>, widths: seq<nat>, payload: Bytes, rest: Bytes)
    requires Packable(values, widths)
    ensures Frame(magic, values, widths, payload) + rest == Frame(magic, values, widths, []) + (payload + rest)
  {
  }

  /** The header values and what follows the header. */
  function SplitFrame(b: Bytes, magic: Bytes, widths: seq<nat>): (r: Result<(seq<nat>, Bytes)>)
    ensures r.Ok? ==> |r.value.0| == |widths| && Packable(r.value.0, widths)
  {
    var n := |magic| + Width(widths);
    if |b| < n then Error(Truncated)
    else if b[..|magic|] != magic then Error(BadMagic)
    else Ok((Unpack(b[|magic|..n], widths), b[n..]))
  }

  lemma SplitOfFrame(magic: Bytes, values: seq<nat>, widths: seq<nat>, payload: Bytes, rest: Bytes)
    requires Packable(values, widths)
    ensures SplitFrame(Frame(magic, values, widths, payload) + rest, magic, widths) == Ok((values, payload + rest))
  {
    var b := Frame(magic, values, widths, payload) + rest;
    var n := |magic| + Width(widths);
    UnpackOfPack(values, widths);
    assert b[..|magic|] == magic;
    assert b[|magic|..n] == Pack(values, widths);
    assert b[n..] == payload + rest;
  }

  lemma FrameOfSplit(b: Bytes, magic: Bytes, widths: seq<nat>)
    requires SplitFrame(b, magic, widths).Ok?
    ensures var (values, rest) := SplitFrame(b, magic, widths).value;
            b == Frame(magic, values, widths, []) + rest
  {
    var n := |magic| + Width(widths);
    PackOfUnpack(b[|magic|..n], widths);
    assert b == b[..|magic|] + b[|magic|..n] + b[n..];
  }

  // ---------------------------------------------------------------- texts

  predicate Ascii(b: Bytes) { forall i :: 0 <= i < |b| ==> b[i] < 128 }

  predicate Trail(b: Bytes, i: nat, n: nat) { i + n <= |b| && forall k :: i <= k < i + n ==> 128 <= b[k] < 192 }

  /** Length of the well-formed UTF-8 sequence at `i`, or 0: no overlong forms, no surrogates,
      nothing above U+10FFFF (section 4 of RFC 3629). */
  function CharLength(b: Bytes, i: nat): (n: nat)
    requires i < |b|
    ensures n <= |b| - i
  {
    if b[i] < 128 then 1
    else if 194 <= b[i] < 224 && Trail(b, i + 1, 1) then 2
    else if 224 <= b[i] < 240 && Trail(b, i + 1, 2)
         && (b[i] == 224 ==> b[i + 1] >= 160) && (b[i] == 237 ==> b[i + 1] < 160) then 3
    else if 240 <= b[i] < 245 && Trail(b, i + 1, 3)
         && (b[i] == 240 ==> b[i + 1] >= 144) && (b[i] == 244 ==> b[i + 1] < 144) then 4
    else 0
  }

  predicate Utf8From(b: Bytes, i: nat)
    requires i <= |b|
    decreases |b| - i
  {
    i == |b| || (CharLength(b, i) > 0 && Utf8From(b, i + CharLength(b, i)))
  }

  predicate Utf8(b: Bytes) { Utf8From(b, 0) }

  // ---------------------------------------------------------------- requests

  const MaxMethod: nat := 16
  const MaxPath: nat := 16384
  const MaxIdentity: nat := 4096
  const MaxUint32: nat := 0xFFFF_FFFF
  const MaxUint64: nat := 0xFFFF_FFFF_FFFF_FFFF

  /** "FQBE2REQ" and "FQBE1RES". */
  const RequestMagic: Bytes := [70, 81, 66, 69, 50, 82, 69, 81]
  const ResponseMagic: Bytes := [70, 81, 66, 69, 49, 82, 69, 83]

  function Times(w: nat, n: nat): (r: seq<nat>)
    ensures |r| == n && forall i :: 0 <= i < n ==> r[i] == w
  {
    seq(n, _ => w)
  }

  /** Five 4-byte lengths and flags, then six 8-byte counters. */
  const RequestWidths: seq<nat> := Times(4, 5) + Times(8, 6)
  const ResponseWidths: seq<nat> := Times(4, 3)

  datatype Telemetry = Telemetry(rttInitialized: bool, smoothedRtt: nat, rttvar: nat, streamLoss: nat, cwnd: nat,
                                 inFlight: nat, pto: nat)

  datatype Request = Request(verb: Bytes, path: Bytes, identity: Bytes, body: Bytes, telemetry: Telemetry)

  /** `_validate_path_telemetry`. */
  predicate ValidTelemetry(t: Telemetry) {
    && t.smoothedRtt <= MaxUint64 && t.rttvar <= MaxUint64 && t.streamLoss <= MaxUint64
    && t.cwnd <= MaxUint64 && t.inFlight <= MaxUint64 && t.pto <= MaxUint64
    && (!t.rttInitialized ==> t.smoothedRtt == 0 && t.rttvar == 0)
  }

  predicate ValidRequest(r: Request) {
    && Ascii(r.verb) && Utf8(r.path) && Utf8(r.identity)
    && 0 < |r.verb| <= MaxMethod && 0 < |r.path| <= MaxPath && |r.identity| <= MaxIdentity
    && |r.body| <= MaxUint32 && ValidTelemetry(r.telemetry)
  }

  function HeaderOf(r: Request): seq<nat> {
    [|r.verb|, |r.path|, |r.identity|, |r.body|, if r.telemetry.rttInitialized then 1 else 0,
     r.telemetry.smoothedRtt, r.telemetry.rttvar, r.telemetry.streamLoss, r.telemetry.cwnd, r.telemetry.inFlight,
     r.telemetry.pto]
  }

  lemma Powers()
    ensures Pow256(4) == MaxUint32 + 1 && Pow256(8) == MaxUint64 + 1
  {
    assert Pow256(1) == 256 && Pow256(2) == 65536 && Pow256(3) == 16777216;
    assert Pow256(4) == 4294967296 && Pow256(5) == 1099511627776;
    assert Pow256(6) == 281474976710656 && Pow256(7) == 72057594037927936;
  }

  lemma {:induction false} WidthOfTimes(w: nat, n: nat, more: seq<nat>)
    ensures Width(Times(w, n) + more) == w * n + Width(more)
  {
    if n > 0 {
      WidthOfTimes(w, n - 1, more);
      assert (Times(w, n) + more)[1..] == Times(w, n - 1) + more;
    } else {
      assert Times(w, 0) + more == more;
    }
  }

  lemma Widths()
    ensures Width(RequestWidths) == 68 && Width(ResponseWidths) == 12
  {
    WidthOfTimes(4, 5, Times(8, 6));
    WidthOfTimes(8, 6, []);
    WidthOfTimes(4, 3, []);
    assert Times(8, 6) + [] == Times(8, 6) && Times(4, 3) + [] == Times(4, 3);
  }

  lemma HeaderPackable(r: Request)
    requires ValidRequest(r)
    ensures Packable(HeaderOf(r), RequestWidths)
  {
    Powers();
  }

  /** `encode_backend_request`. */
  function EncodeRequest(r: Request): Result<Bytes> {
    if !Ascii(r.verb) || !Utf8(r.path) || !Utf8(r.identity) then Error(BadEncoding)
    else if !(0 < |r.verb| <= MaxMethod) || !(0 < |r.path| <= MaxPath) || |r.identity| > MaxIdentity
    then Error(BadLength)
    else if |r.body| > MaxUint32 then Error(TooLarge)
    else if !ValidTelemetry(r.telemetry) then Error(BadTelemetry)
    else
      HeaderPackable(r);
      Ok(Frame(RequestMagic, HeaderOf(r), RequestWidths, r.verb + r.path + r.identity + r.body))
  }

  function TelemetryOf(h: seq<nat>): Telemetry
    requires |h| == 11
  {
    Telemetry(h[4] % 2 == 1, h[5], h[6], h[7], h[8], h[9], h[10])
  }

  /** What the lengths in a header must satisfy before anything else is read. */
  function HeaderError(h: seq<nat>, maxBody: nat): Result<()>
    requires |h| == 11
  {
    if h[4] > 1 then Error(BadFlags)
    else if !(0 < h[0] <= MaxMethod) || !(0 < h[1] <= MaxPath) || h[2] > MaxIdentity then Error(BadLength)
    else if h[3] > maxBody then Error(TooLarge)
    else Ok(())
  }

  /** `read_backend_request` on the bytes of a stream: the request and the bytes left. */
  function ReadRequest(b: Bytes, maxBody: nat): Result<(Request, Bytes)> {
    var split := SplitFrame(b, RequestMagic, RequestWidths);
    if split.Error? then Error(split.reason)
    else
      var (h, t) := split.value;
      var bad := HeaderError(h, maxBody);
      if bad.Error? then Error(bad.reason) else ReadFields(h, t)
  }

  /** The four variable fields, each read exactly, then the telemetry. */
  function ReadFields(h: seq<nat>, b: Bytes): Result<(Request, Bytes)>
    requires |h| == 11
  {
    var p, q, e := h[0] + h[1], h[0] + h[1] + h[2], h[0] + h[1] + h[2] + h[3];
    if |b| < h[0] then Error(Truncated)
    else if !Ascii(b[..h[0]]) then Error(BadEncoding)
    else if |b| < p then Error(Truncated)
    else if !Utf8(b[h[0]..p]) then Error(BadEncoding)
    else if |b| < q then Error(Truncated)
    else if !Utf8(b[p..q]) then Error(BadEncoding)
    else if |b| < e then Error(Truncated)
    else if !ValidTelemetry(TelemetryOf(h)) then Error(BadTelemetry)
    else Ok((Request(b[..h[0]], b[h[0]..p], b[p..q], b[q..e], TelemetryOf(h)), b[e..]))
  }

  // ---------------------------------------------------------------- canonical bijection

  lemma FieldsOfEncoded(r: Request, rest: Bytes)
    requires ValidRequest(r)
    ensures ReadFields(HeaderOf(r), r.verb + r.path + r.identity + r.body + rest) == Ok((r, rest))
  {
    var b := r.verb + r.path + r.identity + r.body + rest;
    var h := HeaderOf(r);
    var p, q, e := h[0] + h[1], h[0] + h[1] + h[2], h[0] + h[1] + h[2] + h[3];
    assert b[..h[0]] == r.verb;
    assert b[h[0]..p] == r.path;
    assert b[p..q] == r.identity;
    assert b[q..e] == r.body;
    assert b[e..] == rest;
    assert TelemetryOf(h) == r.telemetry;
  }

  /** Reading an encoded request followed by any bytes returns it and leaves exactly those. */
  lemma RequestRoundTrip(r: Request, rest: Bytes, maxBody: nat)
    requires EncodeRequest(r).Ok? && |r.body| <= maxBody
    ensures ReadRequest(EncodeRequest(r).value + rest, maxBody) == Ok((r, rest))
  {
    HeaderPackable(r);
    SplitOfFrame(RequestMagic, HeaderOf(r), RequestWidths, r.verb + r.path + r.identity + r.body, rest);
    FieldsOfEncoded(r, rest);
  }

  lemma Pieces(t: Bytes, a: nat, p: nat, q: nat, e: nat)
    requires a <= p <= q <= e <= |t|
    ensures t == t[..a] + t[a..p] + t[p..q] + t[q..e] + t[e..]
  {
    assert t[..p] == t[..a] + t[a..p];
    assert t[..q] == t[..p] + t[p..q];
    assert t[..e] == t[..q] + t[q..e];
    assert t == t[..e] + t[e..];
  }

  lemma FieldsRead(h: seq<nat>, t: Bytes)
    requires |h| == 11 && h[4] <= 1 && ReadFields(h, t).Ok?
    ensures var (r, rest) := ReadFields(h, t).value;
            h == HeaderOf(r) && t == r.verb + r.path + r.identity + r.body + rest
            && Ascii(r.verb) && Utf8(r.path) && Utf8(r.identity) && ValidTelemetry(r.telemetry)
  {
    var p, q, e := h[0] + h[1], h[0] + h[1] + h[2], h[0] + h[1] + h[2] + h[3];
    Pieces(t, h[0], p, q, e);
    var (r, rest) := ReadFields(h, t).value;
    assert r == Request(t[..h[0]], t[h[0]..p], t[p..q], t[q..e], TelemetryOf(h)) && rest == t[e..];
    SameHeader(h, r);
  }

  lemma SameHeader(h: seq<nat>, r: Request)
    requires |h| == 11 && h[4] <= 1 && r.telemetry == TelemetryOf(h)
    requires |r.verb| == h[0] && |r.path| == h[1] && |r.identity| == h[2] && |r.body| == h[3]
    ensures h == HeaderOf(r)
  {
  }

  /** Whatever is accepted is the encoding of what it is read as, followed by what is left. */
  lemma RequestIsCanonical(b: Bytes, maxBody: nat)
    requires ReadRequest(b, maxBody).Ok?
    ensures var (r, rest) := ReadRequest(b, maxBody).value;
            EncodeRequest(r).Ok? && EncodeRequest(r).value + rest == b && |r.body| <= maxBody
  {
    var (r, rest) := ReadRequest(b, maxBody).value;
    var (h, t) := SplitFrame(b, RequestMagic, RequestWidths).value;
    FrameOfSplit(b, RequestMagic, RequestWidths);
    FieldsRead(h, t);
    BodyLength(h);
    FrameJoin(RequestMagic, h, RequestWidths, r.verb + r.path + r.identity + r.body, rest);
  }

  lemma BodyLength(h: seq<nat>)
    requires Packable(h, RequestWidths)
    ensures h[3] <= MaxUint32
  {
    Powers();
    assert h[3] < Pow256(RequestWidths[3]);
  }

  /** Together: exactly the encodings of valid requests within the body limit are accepted. */
  lemma AcceptedIffEncoded(b: Bytes, maxBody: nat, r: Request, rest: Bytes)
    ensures ReadRequest(b, maxBody) == Ok((r, rest))
            <==> EncodeRequest(r).Ok? && |r.body| <= maxBody && b == EncodeRequest(r).value + rest
  {
    if ReadRequest(b, maxBody) == Ok((r, rest)) { RequestIsCanonical(b, maxBody); }
    if EncodeRequest(r).Ok? && |r.body| <= maxBody && b == EncodeRequest(r).value + rest {
      RequestRoundTrip(r, rest, maxBody);
    }
  }

  // ---------------------------------------------------------------- responses

  datatype Response = Response(status: int, contentType: Bytes, body: Bytes)

  /** `encode_backend_response`; the status must fit its four-byte field. */
  function EncodeResponse(r: Response): Result<Bytes> {
    if !Ascii(r.contentType) then Error(BadEncoding)
    else if |r.contentType| > 4096 || |r.body| > MaxUint32 then Error(TooLarge)
    else if !(0 <= r.status <= MaxUint32) then Error(BadStatus)
    else
      ResponsePackable(r);
      Ok(Frame(ResponseMagic, ResponseHeader(r), ResponseWidths, r.contentType + r.body))
  }

  function ResponseHeader(r: Response): seq<nat>
    requires r.status >= 0
  {
    [r.status, |r.contentType|, |r.body|]
  }

  lemma ResponsePackable(r: Response)
    requires 0 <= r.status <= MaxUint32 && |r.contentType| <= 4096 && |r.body| <= MaxUint32
    ensures Packable(ResponseHeader(r), ResponseWidths)
  {
    Powers();
  }

  /** `read_backend_response`. */
  function ReadResponse(b: Bytes): Result<(Response, Bytes)> {
    var split := SplitFrame(b, ResponseMagic, ResponseWidths);
    if split.Error? then Error(split.reason)
    else
      var (h, t) := split.value;
      if !(100 <= h[0] <= 599) then Error(BadStatus)
      else if h[1] > 4096 then Error(BadLength)
      else ReadResponseFields(h, t)
  }

  function ReadResponseFields(h: seq<nat>, t: Bytes): Result<(Response, Bytes)>
    requires |h| == 3
  {
    if |t| < h[1] then Error(Truncated)
    else if !Ascii(t[..h[1]]) then Error(BadEncoding)
    else if |t| < h[1] + h[2] then Error(Truncated)
    else Ok((Response(h[0], t[..h[1]], t[h[1]..h[1] + h[2]]), t[h[1] + h[2]..]))
  }

  lemma ResponseFieldsOfEncoded(r: Response, rest: Bytes)
    requires r.status >= 0 && Ascii(r.contentType)
    ensures ReadResponseFields(ResponseHeader(r), r.contentType + r.body + rest) == Ok((r, rest))
  {
    var h, t := ResponseHeader(r), r.contentType + r.body + rest;
    assert t[..h[1]] == r.contentType && t[h[1]..h[1] + h[2]] == r.body && t[h[1] + h[2]..] == rest;
  }

  lemma ResponseFieldsRead(h: seq<nat>, t: Bytes)
    requires |h| == 3 && ReadResponseFields(h, t).Ok?
    ensures var (r, rest) := ReadResponseFields(h, t).value;
            r.status >= 0 && h == ResponseHeader(r) && t == r.contentType + r.body + rest && Ascii(r.contentType)
  {
    Pieces(t, h[1], h[1] + h[2], h[1] + h[2], h[1] + h[2]);
  }

  /** An encodable response comes back, with the bytes behind it untouched, exactly when its
      status is one the reader accepts. */
  lemma ResponseRoundTrip(r: Response, rest: Bytes)
    requires EncodeResponse(r).Ok?
    ensures ReadResponse(EncodeResponse(r).value + rest) == Ok((r, rest)) <==> 100 <= r.status <= 599
  {
    ResponsePackable(r);
    SplitOfFrame(ResponseMagic, ResponseHeader(r), ResponseWidths, r.contentType + r.body, rest);
    ResponseFieldsOfEncoded(r, rest);
  }

  lemma ResponseIsCanonical(b: Bytes)
    requires ReadResponse(b).Ok?
    ensures var (r, rest) := ReadResponse(b).value;
            EncodeResponse(r).Ok? && EncodeResponse(r).value + rest == b && 100 <= r.status <= 599
  {
    var (r, rest) := ReadResponse(b).value;
    var (h, t) := SplitFrame(b, ResponseMagic, ResponseWidths).value;
    FrameOfSplit(b, ResponseMagic, ResponseWidths);
    ResponseFieldsRead(h, t);
    ResponseBodyLength(h);
    FrameJoin(ResponseMagic, h, ResponseWidths, r.contentType + r.body, rest);
  }

  lemma ResponseBodyLength(h: seq<nat>)
    requires Packable(h, ResponseWidths)
    ensures h[2] <= MaxUint32
  {
    Powers();
    assert h[2] < Pow256(ResponseWidths[2]);
  }

  // ---------------------------------------------------------------- reading from a stream

  /** A byte stream that may hand out less than it is asked for, but nothing only at its end. */
  class ByteStream {
    var rest: Bytes
    const chunk: nat -> nat

    constructor (b: Bytes, sizes: nat -> nat)
      ensures rest == b && chunk == sizes
    {
      rest, chunk := b, sizes;
    }

    method Read(n: nat) returns (got: Bytes)
      modifies this
      ensures got + rest == old(rest) && |got| <= n
      ensures got == [] ==> n == 0 || old(rest) == []
    {
      var most := if n <= |rest| then n else |rest|;
      var k := if 1 <= chunk(|rest|) <= most then chunk(|rest|) else most;
      got, rest := rest[..k], rest[k..];
    }
  }

  /** `_read_exact`: collects chunks until `length` bytes are there. */
  method ReadExact(stream: ByteStream, length: nat) returns (r: Result<Bytes>)
    modifies stream
    ensures r.Ok? <==> length <= |old(stream.rest)|
    ensures r.Ok? ==> r.value == old(stream.rest)[..length] && stream.rest == old(stream.rest)[length..]
    ensures r.Error? ==> r.reason == Truncated
  {
    ghost var all := stream.rest;
    var chunks: Bytes := [];
    while |chunks| < length
      invariant |chunks| <= length && chunks + stream.rest == all
      decreases length - |chunks|
    {
      var got := stream.Read(length - |chunks|);
      if got == [] { return Error(Truncated); }
      chunks := chunks + got;
    }
    r := Ok(chunks);
  }

  /** `read_backend_request`: field by field, in the order and with the checks of the protocol. */
  method ReadBackendRequest(stream: ByteStream, maxBody: nat) returns (r: Result<Request>)
    modifies stream
    ensures r.Ok? ==> ReadRequest(old(stream.rest), maxBody) == Ok((r.value, stream.rest))
    ensures r.Error? ==> ReadRequest(old(stream.rest), maxBody) == Error(r.reason)
  {
    ghost var all := stream.rest;
    Widths();
    var header := ReadExact(stream, 76);
    if header.Error? { return Error(Truncated); }
    var b := header.value;
    if b[..8] != RequestMagic { return Error(BadMagic); }
    var h := Unpack(b[8..], RequestWidths);
    assert b[8..] == all[8..76] && b[..8] == all[..8];
    if h[4] > 1 { return Error(BadFlags); }
    if !(0 < h[0] <= MaxMethod) { return Error(BadLength); }
    if !(0 < h[1] <= MaxPath) { return Error(BadLength); }
    if h[2] > MaxIdentity { return Error(BadLength); }
    if h[3] > maxBody { return Error(TooLarge); }
    ghost var t := stream.rest;
    assert SplitFrame(all, RequestMagic, RequestWidths) == Ok((h, t));
    r := ReadBody(stream, h);
  }

  lemma Slices(t: Bytes, a: nat, n: nat)
    requires a + n <= |t|
    ensures t[a..][..n] == t[a..a + n] && t[a..][n..] == t[a + n..]
  {
  }

  method ReadBody(stream: ByteStream, h: seq<nat>) returns (r: Result<Request>)
    requires |h| == 11
    modifies stream
    ensures r.Ok? ==> ReadFields(h, old(stream.rest)) == Ok((r.value, stream.rest))
    ensures r.Error? ==> ReadFields(h, old(stream.rest)) == Error(r.reason)
  {
    ghost var t := stream.rest;
    var verb := ReadExact(stream, h[0]);
    if verb.Error? { return Error(Truncated); }
    if !Ascii(verb.value) { return Error(BadEncoding); }
    var path := ReadExact(stream, h[1]);
    if path.Error? { return Error(Truncated); }
    Slices(t, h[0], h[1]);
    if !Utf8(path.value) { return Error(BadEncoding); }
    var identity := ReadExact(stream, h[2]);
    if identity.Error? { return Error(Truncated); }
    Slices(t, h[0] + h[1], h[2]);
    if !Utf8(identity.value) { return Error(BadEncoding); }
    var body := ReadExact(stream, h[3]);
    if body.Error? { return Error(Truncated); }
    Slices(t, h[0] + h[1] + h[2], h[3]);
    var telemetry := TelemetryOf(h);
    if !ValidTelemetry(telemetry) { return Error(BadTelemetry); }
    r := Ok(Request(verb.value, path.value, identity.value, body.value, telemetry));
  }
}
