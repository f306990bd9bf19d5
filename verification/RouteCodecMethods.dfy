/** The encoder and the cursor-based decoder as loops. */
module RouteCodecMethods {
  import opened Primitives
  import opened BigEndian
  import opened Hostname
  import opened RouteCatalog
  import opened RouteCodec
  import Utf8

  // ---------------------------------------------------------------- encoding

  lemma {:induction false} EncodeRoutesAppend(routes: seq<Route>, r: Route)
    ensures EncodeRoutes(routes + [r]) == EncodeRoutes(routes) + EncodeRoute(r)
    decreases |routes|
  {
    if routes == [] {
      assert routes + [r] == [r];
      assert [r][1..] == [];
    } else {
      assert (routes + [r])[1..] == routes[1..] + [r];
      EncodeRoutesAppend(routes[1..], r);
    }
  }

  method PutString(output: Bytes, value: Bytes) returns (r: Result<Bytes, CodecError>)
    ensures r == if |value| < 0x1_0000 then Ok(output + EncodeString(value)) else Err(TooLarge)
  {
    if |value| >= 0x1_0000 { return Err(TooLarge); }
    var length := Be(|value|, 2);
    return Ok(output + (length + value));
  }

  /** Every catalog is encoded, and no size check ever fails. */
  method EncodeCatalog(c: Catalog) returns (r: Result<Bytes, CodecError>)
    requires ValidCatalog(c)
    ensures r == Ok(Encode(c))
  {
    if |c.routes| >= 0x1_0000 { assert false; return Err(CodecError.TooManyRoutes); }
    var header := Be(c.version, 8) + Be(|c.routes|, 2);
    var output := header;
    for i := 0 to |c.routes|
      invariant output == header + EncodeRoutes(c.routes[..i])
    {
      var route := c.routes[i];
      assert RouteOk(route);
      ghost var before := output;
      var withHostname := PutString(output, route.hostname);
      if withHostname.Err? { assert false; return Err(TooLarge); }
      var withTunnel := PutString(withHostname.value, route.tunnel);
      if withTunnel.Err? { assert false; return Err(TooLarge); }
      output := withTunnel.value + [StatusByte(route.status)];
      Nest(before, EncodeString(route.hostname), EncodeString(route.tunnel), [StatusByte(route.status)]);
      EncodeRoutesAppend(c.routes[..i], route);
      assert c.routes[..i + 1] == c.routes[..i] + [route];
      Regroup(header, EncodeRoutes(c.routes[..i]), EncodeString(route.hostname), EncodeString(route.tunnel),
              [StatusByte(route.status)]);
    }
    assert c.routes[..|c.routes|] == c.routes;
    DecodeOfEncode(c);
    if |output| > MAX_HTTPS_ROUTE_CATALOG_BYTES { assert false; return Err(TooLarge); }
    return Ok(output);
  }

  lemma Regroup(a: Bytes, b: Bytes, c: Bytes, d: Bytes, e: Bytes)
    ensures a + b + c + d + e == a + (b + (c + d + e))
  {
  }

  // ---------------------------------------------------------------- decoding

  /** A cursor over the payload. */
  class Input {
    const bytes: Bytes
    var offset: nat

    ghost predicate Valid()
      reads this
    {
      offset <= |bytes|
    }

    ghost function Rest(): Bytes
      requires Valid()
      reads this
    {
      bytes[offset..]
    }

    constructor (b: Bytes)
      ensures Valid() && bytes == b && offset == 0 && Rest() == b
    {
      bytes, offset := b, 0;
    }

    /** The next `count` bytes, or nothing at all. */
    method Take(count: nat) returns (r: Result<Bytes, CodecError>)
      requires Valid()
      modifies this
      ensures Valid()
      ensures if |old(Rest())| < count then r == Err(Truncated) && Rest() == old(Rest())
              else r == Ok(old(Rest())[..count]) && Rest() == old(Rest())[count..]
    {
      if |bytes| - offset < count { return Err(Truncated); }
      assert bytes[offset..][..count] == bytes[offset..offset + count];
      r := Ok(bytes[offset..offset + count]);
      offset := offset + count;
    }

    method Number(width: nat) returns (r: Result<nat, CodecError>)
      requires Valid()
      modifies this
      ensures Valid()
      ensures match TakeNumber(old(Rest()), width)
              case Failed(e) => r == Err(e)
              case Got(n, rest) => r == Ok(n) && Rest() == rest
    {
      var taken := Take(width);
      if taken.Err? { return Err(taken.error); }
      return Ok(FromBe(taken.value));
    }

    method String() returns (r: Result<Bytes, CodecError>)
      requires Valid()
      modifies this
      ensures Valid()
      ensures match TakeString(old(Rest()))
              case Failed(e) => r == Err(e)
              case Got(s, rest) => r == Ok(s) && Rest() == rest
    {
      var length := Number(2);
      if length.Err? { return Err(length.error); }
      var taken := Take(length.value);
      if taken.Err? { return Err(taken.error); }
      if !Utf8.Valid(taken.value) { return Err(InvalidUtf8); }
      return Ok(taken.value);
    }

    method ReadHostname(previous: Option<Route>) returns (r: Result<Bytes, CodecError>)
      requires Valid()
      modifies this
      ensures Valid()
      ensures match TakeHostname(old(Rest()), previous)
              case Failed(e) => r == Err(e)
              case Got(hostname, rest) => r == Ok(hostname) && Rest() == rest
    {
      var raw := String();
      if raw.Err? { return Err(raw.error); }
      var hostname := Normalize(raw.value);
      if hostname.Err? { return Err(InvalidHostname); }
      if hostname.value != raw.value { return Err(NonCanonical); }
      if previous.Some? && !Less(previous.value.hostname, hostname.value) { return Err(NonCanonical); }
      return Ok(hostname.value);
    }

    method ReadTunnel() returns (r: Result<Bytes, CodecError>)
      requires Valid()
      modifies this
      ensures Valid()
      ensures match TakeTunnel(old(Rest()))
              case Failed(e) => r == Err(e)
              case Got(tunnel, rest) => r == Ok(tunnel) && Rest() == rest
    {
      var raw := String();
      if raw.Err? { return Err(raw.error); }
      if !DurableId(raw.value) { return Err(InvalidTunnelId); }
      return Ok(raw.value);
    }

    method ReadStatus() returns (r: Result<RouteStatus, CodecError>)
      requires Valid()
      modifies this
      ensures Valid()
      ensures match TakeStatus(old(Rest()))
              case Failed(e) => r == Err(e)
              case Got(status, rest) => r == Ok(status) && Rest() == rest
    {
      var raw := Take(1);
      if raw.Err? { return Err(raw.error); }
      if raw.value[0] == 1 { return Ok(Enabled); }
      if raw.value[0] == 2 { return Ok(Disabled); }
      return Err(InvalidStatus);
    }

    method ReadRoute(previous: Option<Route>) returns (r: Result<Route, CodecError>)
      requires Valid()
      modifies this
      ensures Valid()
      ensures match TakeRoute(old(Rest()), previous)
              case Failed(e) => r == Err(e)
              case Got(route, rest) => r == Ok(route) && Rest() == rest
    {
      var hostname := ReadHostname(previous);
      if hostname.Err? { return Err(hostname.error); }
      var tunnel := ReadTunnel();
      if tunnel.Err? { return Err(tunnel.error); }
      var status := ReadStatus();
      if status.Err? { return Err(status.error); }
      return Ok(Route(hostname.value, tunnel.value, status.value));
    }
  }

  /** `whole` is `routes` followed by what `read` yields. */
  predicate Continues(whole: Read<seq<Route>>, routes: seq<Route>, read: Read<seq<Route>>) {
    match read
    case Failed(e) => whole.Failed? && whole.error == e
    case Got(more, rest) => whole.Got? && whole.value == routes + more && whole.rest == rest
  }

  lemma Unroll(whole: Read<seq<Route>>, routes: seq<Route>, b: Bytes, count: nat, previous: Option<Route>)
    requires count > 0 && Continues(whole, routes, TakeRoutes(b, count, previous))
    ensures match TakeRoute(b, previous)
            case Failed(e) => whole.Failed? && whole.error == e
            case Got(r, rest) => Continues(whole, routes + [r], TakeRoutes(rest, Pred(count), Some(r)))
  {
    match TakeRoute(b, previous)
    case Failed(_) =>
    case Got(r, rest) =>
      match TakeRoutes(rest, Pred(count), Some(r))
      case Failed(_) =>
      case Got(more, _) => assert routes + ([r] + more) == routes + [r] + more;
  }

  lemma NoneLeft(whole: Read<seq<Route>>, routes: seq<Route>, b: Bytes, count: nat, previous: Option<Route>)
    requires count == 0 && Continues(whole, routes, TakeRoutes(b, count, previous))
    ensures whole.Got? && whole.value == routes && whole.rest == b
  {
    assert routes + [] == routes;
  }

  method ReadRoutes(input: Input, count: nat) returns (r: Result<seq<Route>, CodecError>)
    requires input.Valid()
    modifies input
    ensures input.Valid()
    ensures match TakeRoutes(old(input.Rest()), count, None)
            case Failed(e) => r == Err(e)
            case Got(routes, rest) => r == Ok(routes) && input.Rest() == rest
  {
    var routes: seq<Route> := [];
    var previous: Option<Route> := None;
    var left := count;
    ghost var whole := TakeRoutes(input.Rest(), count, None);
    while left > 0
      invariant input.Valid()
      invariant Continues(whole, routes, TakeRoutes(input.Rest(), left, previous))
    {
      Unroll(whole, routes, input.Rest(), left, previous);
      var route := input.ReadRoute(previous);
      if route.Err? { return Err(route.error); }
      routes := routes + [route.value];
      previous := Some(route.value);
      left := Pred(left);
    }
    NoneLeft(whole, routes, input.Rest(), left, previous);
    return Ok(routes);
  }

  /** The decoder refuses or accepts exactly as the specification does. */
  method DecodeCatalog(bytes: Bytes) returns (r: Result<Catalog, CodecError>)
    ensures r == Decode(bytes)
  {
    if |bytes| > MAX_HTTPS_ROUTE_CATALOG_BYTES { return Err(TooLarge); }
    var input := new Input(bytes);
    var version := input.Number(8);
    if version.Err? { return Err(version.error); }
    if version.value == 0 { return Err(InvalidVersion); }
    var count := input.Number(2);
    if count.Err? { return Err(count.error); }
    if count.value > MAX_HTTPS_ROUTE_RECORDS { return Err(CodecError.TooManyRoutes); }
    var routes := ReadRoutes(input, count.value);
    if routes.Err? { return Err(routes.error); }
    if input.offset != |bytes| { return Err(TrailingBytes); }
    var catalog := NewCatalog(version.value, routes.value);
    if catalog.Err? { return Err(NonCanonical); }
    return Ok(catalog.value);
  }
}
