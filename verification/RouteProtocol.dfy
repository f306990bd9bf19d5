/** Framing of the route catalog protocol between Control Plane and Edge. */
module RouteProtocol {
  import opened Primitives
  import opened BigEndian
  import RouteCatalog
  import RouteCodec

  const HEADER_BYTES := 12
  const PROTOCOL_VERSION: Byte := 1
  const SUBSCRIBE: Byte := 1
  const CATALOG: Byte := 2
  const UP_TO_DATE: Byte := 3
  const ERROR: Byte := 4

  function Magic(): Bytes {
    [84, 80, 82, 49]
  }

  datatype ServiceError = InvalidRequest | ClientAhead

  datatype Message =
    | Subscribe(lastApplied: nat)
    | CatalogUpdate(catalog: RouteCatalog.Catalog)
    | UpToDate(version: nat)
    | Error(code: ServiceError)

  datatype ProtocolError =
    | Io | Catalog(error: RouteCodec.CodecError) | InvalidMagic | UnsupportedVersion(version: Byte)
    | UnsupportedFlags | UnknownMessageType(kind: Byte) | InvalidPayload | PayloadTooLarge | Truncated | TrailingBytes

  /** What the message types allow. */
  predicate ValidMessage(m: Message) {
    match m
    case Subscribe(version) => version <= U64_MAX
    case CatalogUpdate(catalog) => RouteCatalog.ValidCatalog(catalog)
    case UpToDate(version) => 1 <= version <= U64_MAX
    case Error(_) => true
  }

  function CodeOf(e: ServiceError): nat {
    match e case InvalidRequest => 1 case ClientAhead => 2
  }

  function Kind(m: Message): Byte {
    match m
    case Subscribe(_) => SUBSCRIBE
    case CatalogUpdate(_) => CATALOG
    case UpToDate(_) => UP_TO_DATE
    case Error(_) => ERROR
  }

  function Payload(m: Message): Bytes {
    match m
    case Subscribe(version) => Be(version, 8)
    case CatalogUpdate(catalog) => RouteCodec.Encode(catalog)
    case UpToDate(version) => Be(version, 8)
    case Error(code) => Be(CodeOf(code), 2)
  }

  function Header(kind: Byte, length: nat): Bytes {
    Magic() + [PROTOCOL_VERSION, kind] + Be(0, 2) + Be(length, 4)
  }

  function Encode(m: Message): Bytes {
    Header(Kind(m), |Payload(m)|) + Payload(m)
  }

  function DecodePayload(kind: Byte, payload: Bytes): Result<Message, ProtocolError> {
    if kind == SUBSCRIBE && |payload| == 8 then Ok(Subscribe(FromBe(payload)))
    else if kind == CATALOG then
      match RouteCodec.Decode(payload)
      case Ok(catalog) => Ok(CatalogUpdate(catalog))
      case Err(e) => Err(Catalog(e))
    else if kind == UP_TO_DATE && |payload| == 8 then
      if FromBe(payload) == 0 then Err(InvalidPayload) else Ok(UpToDate(FromBe(payload)))
    else if kind == ERROR && |payload| == 2 then
      if FromBe(payload) == 1 then Ok(Error(InvalidRequest))
      else if FromBe(payload) == 2 then Ok(Error(ClientAhead))
      else Err(InvalidPayload)
    else if kind == SUBSCRIBE || kind == UP_TO_DATE || kind == ERROR then Err(InvalidPayload)
    else Err(UnknownMessageType(kind))
  }

  function Decode(b: Bytes): Result<Message, ProtocolError> {
    if |b| < HEADER_BYTES then Err(Truncated)
    else if b[..4] != Magic() then Err(InvalidMagic)
    else if b[4] != PROTOCOL_VERSION then Err(UnsupportedVersion(b[4]))
    else if FromBe(b[6..8]) != 0 then Err(UnsupportedFlags)
    else
      var length := FromBe(b[8..12]);
      if length > RouteCodec.MAX_HTTPS_ROUTE_CATALOG_BYTES then Err(PayloadTooLarge)
      else if |b| < HEADER_BYTES + length then Err(Truncated)
      else if |b| > HEADER_BYTES + length then Err(TrailingBytes)
      else DecodePayload(b[5], b[HEADER_BYTES..])
  }

  datatype Read = Got(message: Message, rest: Bytes) | Failed(error: ProtocolError)

  /** One message off a stream of bytes: the header first, then as many bytes as it says. */
  function ReadMessage(stream: Bytes): Read {
    if |stream| < HEADER_BYTES then Failed(Io)
    else
      var length := FromBe(stream[8..12]);
      if length > RouteCodec.MAX_HTTPS_ROUTE_CATALOG_BYTES then Failed(PayloadTooLarge)
      else if |stream| < HEADER_BYTES + length then Failed(Io)
      else
        match Decode(stream[..HEADER_BYTES + length])
        case Ok(m) => Got(m, stream[HEADER_BYTES + length..])
        case Err(e) => Failed(e)
  }

  // -------------------------------------------------------------- one message

  lemma PayloadRoundTrip(m: Message)
    requires ValidMessage(m)
    ensures |Payload(m)| <= RouteCodec.MAX_HTTPS_ROUTE_CATALOG_BYTES
    ensures DecodePayload(Kind(m), Payload(m)) == Ok(m)
  {
    Widths();
    match m
    case Subscribe(version) => NumberRoundTrip(version, 8);
    case CatalogUpdate(catalog) => RouteCodec.DecodeOfEncode(catalog);
    case UpToDate(version) => NumberRoundTrip(version, 8);
    case Error(code) => NumberRoundTrip(CodeOf(code), 2);
  }

  /** The fields of a header stand where the decoder looks for them. */
  lemma HeaderFields(kind: Byte, length: nat, rest: Bytes)
    requires length < Pow256(4)
    ensures var b := Header(kind, length) + rest;
            && |Header(kind, length)| == HEADER_BYTES && |b| >= HEADER_BYTES
            && b[..4] == Magic() && b[4] == PROTOCOL_VERSION && b[5] == kind
            && FromBe(b[6..8]) == 0 && FromBe(b[8..12]) == length && b[HEADER_BYTES..] == rest
  {
    var h := Header(kind, length);
    var b := h + rest;
    NumberRoundTrip(0, 2);
    NumberRoundTrip(length, 4);
    assert h[..4] == Magic() && h[6..8] == Be(0, 2) && h[8..12] == Be(length, 4);
    assert b[..4] == h[..4] && b[6..8] == h[6..8] && b[8..12] == h[8..12];
  }

  /** Every message decodes from its encoding. */
  lemma DecodeOfEncode(m: Message)
    requires ValidMessage(m)
    ensures Decode(Encode(m)) == Ok(m)
  {
    Widths();
    PayloadRoundTrip(m);
    HeaderFields(Kind(m), |Payload(m)|, Payload(m));
  }

  lemma PayloadUnique(kind: Byte, payload: Bytes)
    requires DecodePayload(kind, payload).Ok?
    ensures var m := DecodePayload(kind, payload).value;
            ValidMessage(m) && Kind(m) == kind && Payload(m) == payload
  {
    Widths();
    BytesRoundTrip(payload);
    if kind == CATALOG { RouteCodec.EncodeOfDecode(payload); }
  }

  lemma HeaderUnique(b: Bytes)
    requires |b| >= HEADER_BYTES && b[..4] == Magic() && b[4] == PROTOCOL_VERSION && FromBe(b[6..8]) == 0
    ensures b[..HEADER_BYTES] == Header(b[5], FromBe(b[8..12]))
  {
    BytesRoundTrip(b[6..8]);
    BytesRoundTrip(b[8..12]);
    assert b[..HEADER_BYTES] == b[..4] + [b[4], b[5]] + b[6..8] + b[8..12];
  }

  /** Each message has one accepted encoding. */
  lemma EncodeOfDecode(b: Bytes)
    requires Decode(b).Ok?
    ensures ValidMessage(Decode(b).value) && Encode(Decode(b).value) == b
  {
    HeaderUnique(b);
    PayloadUnique(b[5], b[HEADER_BYTES..]);
    assert b == b[..HEADER_BYTES] + b[HEADER_BYTES..];
  }

  // ------------------------------------------------------------ many messages

  function EncodeAll(messages: seq<Message>): Bytes {
    if messages == [] then [] else Encode(messages[0]) + EncodeAll(messages[1..])
  }

  lemma Cut(a: Bytes, b: Bytes, n: nat)
    requires n == |a|
    ensures (a + b)[..n] == a && (a + b)[n..] == b
  {
  }

  lemma FrameLength(m: Message, rest: Bytes)
    requires ValidMessage(m)
    ensures |Encode(m)| == HEADER_BYTES + |Payload(m)|
    ensures FromBe((Encode(m) + rest)[8..12]) == |Payload(m)|
  {
    PayloadRoundTrip(m);
    FramedLength(Kind(m), Payload(m), rest);
  }

  lemma FramedLength(kind: Byte, payload: Bytes, rest: Bytes)
    requires |payload| <= RouteCodec.MAX_HTTPS_ROUTE_CATALOG_BYTES
    ensures |Header(kind, |payload|) + payload| == HEADER_BYTES + |payload|
    ensures FromBe((Header(kind, |payload|) + payload + rest)[8..12]) == |payload|
  {
    Widths();
    HeaderFields(kind, |payload|, payload + rest);
    Regroup(Header(kind, |payload|), payload, rest);
  }

  lemma Regroup(a: Bytes, b: Bytes, c: Bytes)
    ensures a + b + c == a + (b + c)
  {
  }

  lemma ReadOne(m: Message, rest: Bytes)
    requires ValidMessage(m)
    ensures var read := ReadMessage(Encode(m) + rest); read.Got? && read.message == m && read.rest == rest
  {
    PayloadRoundTrip(m);
    FrameLength(m, rest);
    DecodeOfEncode(m);
    Cut(Encode(m), rest, HEADER_BYTES + FromBe((Encode(m) + rest)[8..12]));
  }

  lemma ReadFirst(messages: seq<Message>)
    requires messages != [] && ValidMessage(messages[0])
    ensures var read := ReadMessage(EncodeAll(messages));
            read.Got? && read.message == messages[0] && read.rest == EncodeAll(messages[1..])
  {
    ReadOne(messages[0], EncodeAll(messages[1..]));
  }

  lemma NothingEncodesNothing(messages: seq<Message>)
    requires messages != [] && ValidMessage(messages[0])
    ensures EncodeAll(messages) != []
  {
    FrameLength(messages[0], []);
  }

  predicate AllValid(messages: seq<Message>) {
    forall i | 0 <= i < |messages| :: ValidMessage(messages[i])
  }

  lemma Shift(read: seq<Message>, left: seq<Message>)
    requires left != []
    ensures (read + [left[0]]) + left[1..] == read + left
  {
  }

  /** Reading message after message off the concatenated encodings of any list returns
      exactly that list and leaves nothing over. */
  method ReadAll(stream: Bytes, ghost messages: seq<Message>) returns (read: seq<Message>, rest: Bytes)
    requires AllValid(messages) && stream == EncodeAll(messages)
    ensures read == messages && rest == []
  {
    read, rest := [], stream;
    ghost var left := messages;
    while rest != []
      invariant read + left == messages && rest == EncodeAll(left) && AllValid(left)
      decreases |left|
    {
      ReadFirst(left);
      Shift(read, left);
      var next := ReadMessage(rest);
      read, rest := read + [next.message], next.rest;
      left := left[1..];
    }
    if left != [] { NothingEncodesNothing(left); }
  }

  /** The same bytes never frame two lists of messages. */
  lemma {:induction false} FramingIsInjective(a: seq<Message>, b: seq<Message>)
    requires AllValid(a) && AllValid(b) && EncodeAll(a) == EncodeAll(b)
    ensures a == b
    decreases |a|
  {
    if a != [] { NothingEncodesNothing(a); }
    if b != [] { NothingEncodesNothing(b); }
    if a != [] && b != [] {
      ReadFirst(a);
      ReadFirst(b);
      FramingIsInjective(a[1..], b[1..]);
      assert a == [a[0]] + a[1..] && b == [b[0]] + b[1..];
    }
  }

  /** A message that is read is read off the front of the stream, and off nothing but
      its own encoding. */
  lemma ReadIsExact(stream: Bytes)
    requires ReadMessage(stream).Got?
    ensures var read := ReadMessage(stream); ValidMessage(read.message) && stream == Encode(read.message) + read.rest
  {
    var n := HEADER_BYTES + FromBe(stream[8..12]);
    EncodeOfDecode(stream[..n]);
    assert stream == stream[..n] + stream[n..];
  }
}
