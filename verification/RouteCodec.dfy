/** The canonical encoding of route catalogs. */
module RouteCodec {
  import opened Primitives
  import opened BigEndian
  import opened Hostname
  import opened RouteCatalog
  import Utf8

  const MAX_HTTPS_ROUTE_CATALOG_BYTES := 64 * 1024
  const MAX_ENCODED_CATALOG_BYTES := 20618

  datatype CodecError =
    | TooLarge | TooManyRoutes | Truncated | TrailingBytes | InvalidUtf8 | InvalidVersion
    | InvalidHostname | InvalidTunnelId | InvalidStatus | NonCanonical

  // ---------------------------------------------------------------- encoding

  function EncodeString(s: Bytes): Bytes {
    Be(|s|, 2) + s
  }

  function StatusByte(s: RouteStatus): Byte {
    match s case Enabled => 1 case Disabled => 2
  }

  function EncodeRoute(r: Route): Bytes {
    EncodeString(r.hostname) + EncodeString(r.tunnel) + [StatusByte(r.status)]
  }

  function EncodeRoutes(routes: seq<Route>): Bytes {
    if routes == [] then [] else EncodeRoute(routes[0]) + EncodeRoutes(routes[1..])
  }

  function Encode(c: Catalog): Bytes {
    Be(c.version, 8) + Be(|c.routes|, 2) + EncodeRoutes(c.routes)
  }

  // ---------------------------------------------------------------- decoding

  /** A value read off the front of the input, and the input after it. */
  datatype Read<+T> = Got(value: T, rest: Bytes) | Failed(error: CodecError)

  function TakeNumber(b: Bytes, k: nat): Read<nat> {
    if |b| < k then Failed(Truncated) else Got(FromBe(b[..k]), b[k..])
  }

  function TakeString(b: Bytes): Read<Bytes> {
    match TakeNumber(b, 2)
    case Failed(e) => Failed(e)
    case Got(n, rest) =>
      if |rest| < n then Failed(Truncated)
      else if !Utf8.Valid(rest[..n]) then Failed(InvalidUtf8)
      else Got(rest[..n], rest[n..])
  }

  /** A hostname that is canonical and after the one before it. */
  function TakeHostname(b: Bytes, previous: Option<Route>): Read<Bytes> {
    match TakeString(b)
    case Failed(e) => Failed(e)
    case Got(raw, rest) =>
      if Normalize(raw).Err? then Failed(InvalidHostname)
      else if Normalize(raw).value != raw then Failed(NonCanonical)
      else if previous.Some? && !Less(previous.value.hostname, raw) then Failed(NonCanonical)
      else Got(raw, rest)
  }

  function TakeTunnel(b: Bytes): Read<Bytes> {
    match TakeString(b)
    case Failed(e) => Failed(e)
    case Got(raw, rest) => if DurableId(raw) then Got(raw, rest) else Failed(InvalidTunnelId)
  }

  function TakeStatus(b: Bytes): Read<RouteStatus> {
    if b == [] then Failed(Truncated)
    else if b[0] == 1 then Got(Enabled, b[1..])
    else if b[0] == 2 then Got(Disabled, b[1..])
    else Failed(InvalidStatus)
  }

  function TakeRoute(b: Bytes, previous: Option<Route>): Read<Route> {
    match TakeHostname(b, previous)
    case Failed(e) => Failed(e)
    case Got(hostname, afterHostname) =>
      match TakeTunnel(afterHostname)
      case Failed(e) => Failed(e)
      case Got(tunnel, afterTunnel) =>
        match TakeStatus(afterTunnel)
        case Failed(e) => Failed(e)
        case Got(status, rest) => Got(Route(hostname, tunnel, status), rest)
  }

  function Pred(n: nat): nat {
    if n == 0 then 0 else n - 1
  }

  /** Reads `count` routes. What it reads is in order, and is what the bytes encode. */
  function TakeRoutes(b: Bytes, count: nat, previous: Option<Route>): (read: Read<seq<Route>>)
    ensures read.Got? ==> Parsed(b, count, previous, read.value, read.rest)
    decreases count
  {
    if count == 0 then assert [] + b == b; Got([], b)
    else
      match TakeRoute(b, previous)
      case Failed(e) => Failed(e)
      case Got(r, rest) =>
        TookRoute(b, previous);
        match TakeRoutes(rest, Pred(count), Some(r))
        case Failed(e) => Failed(e)
        case Got(routes, after) =>
          ParsedFirst(b, Pred(count), previous, r, rest, routes, after);
          Got([r] + routes, after)
  }

  function DecodeBody(b: Bytes, version: nat, count: nat): Result<Catalog, CodecError> {
    match TakeRoutes(b, count, None)
    case Failed(e) => Err(e)
    case Got(routes, rest) =>
      if rest != [] then Err(TrailingBytes)
      else if NewCatalog(version, routes).Err? then Err(NonCanonical)
      else Ok(NewCatalog(version, routes).value)
  }

  function Decode(b: Bytes): Result<Catalog, CodecError> {
    if |b| > MAX_HTTPS_ROUTE_CATALOG_BYTES then Err(TooLarge)
    else
      match TakeNumber(b, 8)
      case Failed(e) => Err(e)
      case Got(version, afterVersion) =>
        if version == 0 then Err(InvalidVersion)
        else
          match TakeNumber(afterVersion, 2)
          case Failed(e) => Err(e)
          case Got(count, rest) =>
            if count > MAX_HTTPS_ROUTE_RECORDS then Err(CodecError.TooManyRoutes) else DecodeBody(rest, version, count)
  }

  // ------------------------------------------------------- what encodes decodes

  lemma TakeEncodedNumber(n: nat, k: nat, tail: Bytes)
    requires n < Pow256(k)
    ensures TakeNumber(Be(n, k) + tail, k) == Got(n, tail)
  {
    NumberRoundTrip(n, k);
    Cut(Be(n, k), tail);
  }

  lemma TakeEncodedString(s: Bytes, tail: Bytes)
    requires |s| < 0x1_0000 && Utf8.Valid(s)
    ensures TakeString(EncodeString(s) + tail) == Got(s, tail)
  {
    Widths();
    Append(Be(|s|, 2), s, tail);
    TakeEncodedNumber(|s|, 2, s + tail);
    Cut(s, tail);
  }

  lemma Append(a: Bytes, b: Bytes, c: Bytes)
    ensures a + b + c == a + (b + c)
  {
  }

  lemma Cut(a: Bytes, b: Bytes)
    ensures (a + b)[..|a|] == a && (a + b)[|a|..] == b
  {
  }

  lemma HostnameIsAscii(h: Bytes)
    requires Canonical(h)
    ensures Utf8.Valid(h)
  {
    forall i | 0 <= i < |h| ensures h[i] < 0x80 {
      if h[i] != DOT {
        var l, j := ByteInLabel(h, i);
        assert LabelOk(Split(h)[l]);
      }
    }
    Utf8.AsciiIsValid(h);
  }

  lemma TakeEncodedHostname(h: Bytes, previous: Option<Route>, tail: Bytes)
    requires Canonical(h) && (previous.Some? ==> Less(previous.value.hostname, h))
    ensures TakeHostname(EncodeString(h) + tail, previous) == Got(h, tail)
  {
    HostnameIsAscii(h);
    CanonicalIsFixed(h);
    TakeEncodedString(h, tail);
  }

  lemma TakeEncodedTunnel(t: Bytes, tail: Bytes)
    requires DurableId(t)
    ensures TakeTunnel(EncodeString(t) + tail) == Got(t, tail)
  {
    Utf8.AsciiIsValid(t);
    TakeEncodedString(t, tail);
  }

  lemma TakeEncodedStatus(status: RouteStatus, tail: Bytes)
    ensures TakeStatus([StatusByte(status)] + tail) == Got(status, tail)
  {
    assert ([StatusByte(status)] + tail)[1..] == tail;
  }

  lemma Nest(a: Bytes, b: Bytes, c: Bytes, d: Bytes)
    ensures a + b + c + d == a + (b + (c + d))
  {
  }

  lemma TakeEncodedRoute(r: Route, previous: Option<Route>, tail: Bytes)
    requires RouteOk(r) && (previous.Some? ==> Less(previous.value.hostname, r.hostname))
    ensures TakeRoute(EncodeRoute(r) + tail, previous) == Got(r, tail)
  {
    var afterTunnel := [StatusByte(r.status)] + tail;
    Nest(EncodeString(r.hostname), EncodeString(r.tunnel), [StatusByte(r.status)], tail);
    TakeEncodedHostname(r.hostname, previous, EncodeString(r.tunnel) + afterTunnel);
    TakeEncodedTunnel(r.tunnel, afterTunnel);
    TakeEncodedStatus(r.status, tail);
  }

  predicate After(previous: Option<Route>, routes: seq<Route>) {
    previous.Some? && routes != [] ==> Less(previous.value.hostname, routes[0].hostname)
  }

  lemma FirstThenRest(b: Bytes, count: nat, previous: Option<Route>, r: Route, rest: Bytes, routes: seq<Route>,
                      after: Bytes)
    requires TakeRoute(b, previous) == Got(r, rest) && TakeRoutes(rest, count, Some(r)) == Got(routes, after)
    ensures TakeRoutes(b, count + 1, previous) == Got([r] + routes, after)
  {
    assert Pred(count + 1) == count;
  }

  lemma {:induction false} TakeEncodedRoutes(routes: seq<Route>, previous: Option<Route>, tail: Bytes)
    requires forall i | 0 <= i < |routes| :: RouteOk(routes[i])
    requires StrictlySorted(routes) && After(previous, routes)
    ensures TakeRoutes(EncodeRoutes(routes) + tail, |routes|, previous) == Got(routes, tail)
    decreases |routes|
  {
    if routes == [] {
      assert EncodeRoutes(routes) + tail == tail;
    } else {
      var r, others := routes[0], routes[1..];
      assert routes == [r] + others;
      ConsEncoding(r, others, tail);
      TakeEncodedRoute(r, previous, EncodeRoutes(others) + tail);
      TakeEncodedRoutes(others, Some(r), tail);
      FirstThenRest(EncodeRoutes(routes) + tail, |others|, previous, r, EncodeRoutes(others) + tail, others, tail);
    }
  }

  lemma {:induction false} RoutesLength(routes: seq<Route>)
    requires forall i | 0 <= i < |routes| :: RouteOk(routes[i])
    ensures |EncodeRoutes(routes)| <= 322 * |routes|
    decreases |routes|
  {
    if routes != [] {
      assert RouteOk(routes[0]);
      RoutesLength(routes[1..]);
    }
  }

  /** Every catalog has an encoding of at most 20618 bytes, far from the 65536 allowed,
      and decodes back to itself. */
  lemma DecodeOfEncode(c: Catalog)
    requires ValidCatalog(c)
    ensures |Encode(c)| <= MAX_ENCODED_CATALOG_BYTES < MAX_HTTPS_ROUTE_CATALOG_BYTES
    ensures Decode(Encode(c)) == Ok(c)
  {
    var body := EncodeRoutes(c.routes);
    RoutesLength(c.routes);
    Widths();
    assert Encode(c) == Be(c.version, 8) + (Be(|c.routes|, 2) + body);
    TakeEncodedNumber(c.version, 8, Be(|c.routes|, 2) + body);
    TakeEncodedNumber(|c.routes|, 2, body);
    TakeEncodedRoutes(c.routes, None, []);
    assert body + [] == body;
    NewOfSorted(c.version, c.routes);
  }

  // ------------------------------------------------------- what decodes encodes

  lemma TookNumber(b: Bytes, k: nat)
    requires TakeNumber(b, k).Got?
    ensures TakeNumber(b, k).value < Pow256(k)
    ensures b == Be(TakeNumber(b, k).value, k) + TakeNumber(b, k).rest
  {
    BytesRoundTrip(b[..k]);
  }

  lemma TookString(b: Bytes)
    requires TakeString(b).Got?
    ensures b == EncodeString(TakeString(b).value) + TakeString(b).rest
  {
    TookNumber(b, 2);
    var rest := TakeNumber(b, 2).rest;
    var s := TakeString(b).value;
    assert rest == s + TakeString(b).rest;
  }

  lemma TookHostname(b: Bytes, previous: Option<Route>)
    requires TakeHostname(b, previous).Got?
    ensures var h := TakeHostname(b, previous).value;
            && Canonical(h) && (previous.Some? ==> Less(previous.value.hostname, h))
            && b == EncodeString(h) + TakeHostname(b, previous).rest
  {
    CanonicalIsFixed(TakeHostname(b, previous).value);
    TookString(b);
  }

  lemma TookTunnel(b: Bytes)
    requires TakeTunnel(b).Got?
    ensures DurableId(TakeTunnel(b).value) && b == EncodeString(TakeTunnel(b).value) + TakeTunnel(b).rest
  {
    TookString(b);
  }

  lemma TookStatus(b: Bytes)
    requires TakeStatus(b).Got?
    ensures b == [StatusByte(TakeStatus(b).value)] + TakeStatus(b).rest
  {
    assert b == [b[0]] + b[1..];
  }

  lemma TookRoute(b: Bytes, previous: Option<Route>)
    requires TakeRoute(b, previous).Got?
    ensures var r := TakeRoute(b, previous).value;
            && RouteOk(r) && After(previous, [r])
            && b == EncodeRoute(r) + TakeRoute(b, previous).rest
  {
    var r, rest := TakeRoute(b, previous).value, TakeRoute(b, previous).rest;
    TookHostname(b, previous);
    var afterHostname := TakeHostname(b, previous).rest;
    TookTunnel(afterHostname);
    TookStatus(TakeTunnel(afterHostname).rest);
    Nest(EncodeString(r.hostname), EncodeString(r.tunnel), [StatusByte(r.status)], rest);
  }

  lemma SortedAfter(r: Route, others: seq<Route>)
    requires StrictlySorted(others) && After(Some(r), others)
    ensures StrictlySorted([r] + others)
  {
    forall j | 0 <= j < |others| ensures Less(r.hostname, others[j].hostname) {
      if j > 0 { LessTransitive(r.hostname, others[0].hostname, others[j].hostname); }
    }
  }

  lemma ConsEncoding(r: Route, others: seq<Route>, after: Bytes)
    ensures EncodeRoutes([r] + others) + after == EncodeRoute(r) + (EncodeRoutes(others) + after)
  {
    assert ([r] + others)[1..] == others;
  }

  /** Routes read one after another are valid, in order, and what the bytes encode. */
  ghost predicate Parsed(b: Bytes, count: nat, previous: Option<Route>, routes: seq<Route>, rest: Bytes) {
    && |routes| == count && StrictlySorted(routes) && After(previous, routes)
    && (forall i | 0 <= i < |routes| :: RouteOk(routes[i]))
    && b == EncodeRoutes(routes) + rest
  }

  lemma ParsedFirst(b: Bytes, count: nat, previous: Option<Route>, r: Route, rest: Bytes, others: seq<Route>,
                    after: Bytes)
    requires RouteOk(r) && After(previous, [r]) && b == EncodeRoute(r) + rest
    requires Parsed(rest, count, Some(r), others, after)
    ensures Parsed(b, count + 1, previous, [r] + others, after)
  {
    SortedAfter(r, others);
    ConsEncoding(r, others, after);
  }

  /** Every accepted byte string is the encoding of the catalog it decodes to. */
  lemma EncodeOfDecode(b: Bytes)
    requires Decode(b).Ok?
    ensures ValidCatalog(Decode(b).value) && Encode(Decode(b).value) == b
  {
    Widths();
    TookNumber(b, 8);
    var version, afterVersion := TakeNumber(b, 8).value, TakeNumber(b, 8).rest;
    TookNumber(afterVersion, 2);
    var count, body := TakeNumber(afterVersion, 2).value, TakeNumber(afterVersion, 2).rest;
    var routes := TakeRoutes(body, count, None).value;
    NewOfSorted(version, routes);
    assert body == EncodeRoutes(routes);
    assert b == Be(version, 8) + (Be(count, 2) + body);
  }
}
