/** The bytes of the Agent's rotation journal. */
module PendingJournal {
  import opened Primitives
  import opened BigEndian
  import Utf8

  const MAX_PENDING_BYTES := 128 * 1024
  const FIXED_BYTES := 6 + 16 + 32 + 4 + 4

  const MAX_DURABLE_ID_BYTES := 64
  /** A PKCS#8 key on P-256 is 138 bytes of DER, and 246 at most as PEM. */
  const MAX_KEY_PEM_BYTES := 256
  /** A request signed with such a key, without the two names it carries. */
  const MAX_CSR_FRAME_BYTES := 512

  function Magic(): Bytes {
    [84, 80, 69, 78, 80, 49]
  }

  datatype Pending = Pending(request: Bytes, next: Bytes, key: Bytes, csr: Bytes)

  datatype PendingError = PendingState

  /** What the encoding can hold: fixed-width identifiers, a textual key, and lengths
      that a 32-bit count holds. */
  predicate ValidPending(p: Pending) {
    && |p.request| == 16 && |p.next| == 32 && Utf8.Valid(p.key)
    && |p.key| < 0x1_0000_0000 && |p.csr| < 0x1_0000_0000
  }

  /** What is made for an Agent and a tunnel: a fresh P-256 key as PEM text, and a request
      whose only parts of variable length are the two identifiers. */
  predicate Created(p: Pending, agent: Bytes, tunnel: Bytes) {
    && |p.request| == 16 && |p.next| == 32
    && Utf8.Valid(p.key) && |p.key| <= MAX_KEY_PEM_BYTES
    && |agent| <= MAX_DURABLE_ID_BYTES && |tunnel| <= MAX_DURABLE_ID_BYTES
    && |p.csr| <= MAX_CSR_FRAME_BYTES + |agent| + |tunnel|
  }

  function Encode(p: Pending): Bytes {
    Magic() + (p.request + (p.next + (Be(|p.key|, 4) + (p.key + (Be(|p.csr|, 4) + p.csr)))))
  }

  /** `n` bytes off the front, and the rest. */
  function Take(b: Bytes, n: nat): Option<(Bytes, Bytes)> {
    if |b| < n then None else Some((b[..n], b[n..]))
  }

  /** A block with its length in front. */
  function TakeBlock(b: Bytes): Option<(Bytes, Bytes)> {
    match Take(b, 4)
    case None => None
    case Some((length, rest)) => Take(rest, FromBe(length))
  }

  function DecodeBlocks(request: Bytes, next: Bytes, b: Bytes): Result<Pending, PendingError> {
    match TakeBlock(b)
    case None => Err(PendingState)
    case Some((key, afterKey)) =>
      match TakeBlock(afterKey)
      case None => Err(PendingState)
      case Some((csr, rest)) =>
        if rest != [] || !Utf8.Valid(key) then Err(PendingState) else Ok(Pending(request, next, key, csr))
  }

  function Decode(b: Bytes): Result<Pending, PendingError> {
    if |b| > MAX_PENDING_BYTES || |b| < 6 || b[..6] != Magic() then Err(PendingState)
    else
      match Take(b[6..], 16)
      case None => Err(PendingState)
      case Some((request, afterRequest)) =>
        match Take(afterRequest, 32)
        case None => Err(PendingState)
        case Some((next, rest)) => DecodeBlocks(request, next, rest)
  }

  // ------------------------------------------------------------- round trips

  lemma Cut(a: Bytes, b: Bytes, n: nat)
    requires n == |a|
    ensures |a + b| >= n && (a + b)[..n] == a && (a + b)[n..] == b
  {
  }

  lemma BlockRoundTrip(block: Bytes, rest: Bytes)
    requires |block| < 0x1_0000_0000
    ensures TakeBlock(Be(|block|, 4) + (block + rest)) == Some((block, rest))
  {
    Widths();
    NumberRoundTrip(|block|, 4);
    Cut(Be(|block|, 4), block + rest, 4);
    Cut(block, rest, |block|);
  }

  lemma EncodedLength(p: Pending)
    requires ValidPending(p)
    ensures |Encode(p)| == FIXED_BYTES + |p.key| + |p.csr|
  {
  }

  /** Bytes that encode a journal decode to it exactly when they fit into 128 KiB. */
  lemma DecodeOfEncode(p: Pending)
    requires ValidPending(p)
    ensures Decode(Encode(p)) == if FIXED_BYTES + |p.key| + |p.csr| <= 131072 then Ok(p) else Err(PendingState)
  {
    EncodedLength(p);
    var csrBlock := Be(|p.csr|, 4) + p.csr;
    var blocks := Be(|p.key|, 4) + (p.key + csrBlock);
    Cut(Magic(), p.request + (p.next + blocks), 6);
    Cut(p.request, p.next + blocks, 16);
    Cut(p.next, blocks, 32);
    BlockRoundTrip(p.key, csrBlock);
    assert p.csr + [] == p.csr;
    BlockRoundTrip(p.csr, []);
  }

  /** Every journal that an Agent makes reads back as it was written. */
  lemma CreatedReadsBack(p: Pending, agent: Bytes, tunnel: Bytes)
    requires Created(p, agent, tunnel)
    ensures Decode(Encode(p)) == Ok(p)
  {
    DecodeOfEncode(p);
  }

  lemma BlockUnique(b: Bytes)
    requires TakeBlock(b).Some?
    ensures var (block, rest) := TakeBlock(b).value;
            |block| < 0x1_0000_0000 && b == Be(|block|, 4) + (block + rest)
  {
    Widths();
    BytesRoundTrip(b[..4]);
    var (block, rest) := TakeBlock(b).value;
    assert b == b[..4] + b[4..];
    assert b[4..] == block + rest;
  }

  /** Every journal that is accepted is the encoding of what it decodes to. */
  lemma EncodeOfDecode(b: Bytes)
    requires Decode(b).Ok?
    ensures ValidPending(Decode(b).value) && Encode(Decode(b).value) == b
  {
    var p := Decode(b).value;
    var afterRequest := b[6..][16..];
    var blocks := afterRequest[32..];
    assert b == Magic() + b[6..];
    assert b[6..] == p.request + afterRequest;
    assert afterRequest == p.next + blocks;
    BlockUnique(blocks);
    var afterKey := TakeBlock(blocks).value.1;
    BlockUnique(afterKey);
    assert p.csr + [] == p.csr;
  }

  // ------------------------------------------------------------------ methods

  /** The journal is appended field by field. */
  method EncodePending(p: Pending) returns (bytes: Bytes)
    ensures bytes == Encode(p)
  {
    bytes := Magic();
    bytes := bytes + p.request;
    bytes := bytes + p.next;
    bytes := bytes + Be(|p.key|, 4);
    bytes := bytes + p.key;
    bytes := bytes + Be(|p.csr|, 4);
    bytes := bytes + p.csr;
    Nested(Magic(), p.request, p.next, Be(|p.key|, 4), p.key, Be(|p.csr|, 4), p.csr);
  }

  lemma Nested(a: Bytes, b: Bytes, c: Bytes, d: Bytes, e: Bytes, f: Bytes, g: Bytes)
    ensures a + b + c + d + e + f + g == a + (b + (c + (d + (e + (f + g)))))
  {
  }

  method TakeAt(bytes: Bytes, offset: nat, length: nat) returns (r: Option<Bytes>, end: nat)
    requires offset <= |bytes|
    ensures match Take(bytes[offset..], length)
            case None => r == None && end == offset
            case Some((value, rest)) => r == Some(value) && end == offset + length <= |bytes| && bytes[end..] == rest
  {
    if offset + length > |bytes| { return None, offset; }
    assert bytes[offset..][..length] == bytes[offset..offset + length];
    assert bytes[offset..][length..] == bytes[offset + length..];
    return Some(bytes[offset..offset + length]), offset + length;
  }

  method TakeBlockAt(bytes: Bytes, offset: nat) returns (r: Option<Bytes>, end: nat)
    requires offset <= |bytes|
    ensures match TakeBlock(bytes[offset..])
            case None => r == None
            case Some((value, rest)) => r == Some(value) && end <= |bytes| && bytes[end..] == rest
  {
    var length, at := TakeAt(bytes, offset, 4);
    if length.None? { return None, offset; }
    r, end := TakeAt(bytes, at, FromBe(length.value));
  }

  /** The offset moves forward field by field. */
  method DecodePending(bytes: Bytes) returns (r: Result<Pending, PendingError>)
    ensures r == Decode(bytes)
  {
    if |bytes| > MAX_PENDING_BYTES || |bytes| < 6 || bytes[..6] != Magic() { return Err(PendingState); }
    var request, afterRequest := TakeAt(bytes, 6, 16);
    if request.None? { return Err(PendingState); }
    var next, afterNext := TakeAt(bytes, afterRequest, 32);
    if next.None? { return Err(PendingState); }
    var key, afterKey := TakeBlockAt(bytes, afterNext);
    if key.None? { return Err(PendingState); }
    var csr, end := TakeBlockAt(bytes, afterKey);
    if csr.None? { return Err(PendingState); }
    if end != |bytes| { return Err(PendingState); }
    if !Utf8.Valid(key.value) { return Err(PendingState); }
    return Ok(Pending(request.value, next.value, key.value, csr.value));
  }
}
