/** Hostnames that the control plane makes up from random bytes under a base domain. */
module ManagedHostname {
  import opened Primitives
  import opened Hostname

  const MANAGED_HOSTNAME_ENTROPY_BYTES := 16

  function Prefix(): Bytes {
    [116, 112, HYPHEN]
  }

  function HexDigit(n: nat): Byte
    requires n < 16
  {
    if n < 10 then 48 + n else 87 + n
  }

  function Hex(e: Bytes): Bytes {
    if e == [] then [] else [HexDigit(e[0] / 16), HexDigit(e[0] % 16)] + Hex(e[1..])
  }

  function Label(e: Bytes): Bytes {
    Prefix() + Hex(e)
  }

  /** The name before it is checked. */
  function Name(base: Bytes, e: Bytes): Bytes {
    Label(e) + [DOT] + base
  }

  function FromEntropy(base: Bytes, e: Bytes): Result<Bytes, HostnameError> {
    Normalize(Name(base, e))
  }

  function ZeroEntropy(): Bytes {
    seq(MANAGED_HOSTNAME_ENTROPY_BYTES, i => 0)
  }

  /** What makes a base domain: a hostname that leaves room for one label, tried with
      sixteen zero bytes only. */
  predicate BaseOk(base: Bytes) {
    Canonical(base) && FromEntropy(base, ZeroEntropy()).Ok?
  }

  predicate IsHexDigit(b: Byte) {
    48 <= b <= 57 || 97 <= b <= 102
  }

  /** A label of the managed form, a dot, and the base domain. */
  predicate Matches(hostname: Bytes, base: Bytes) {
    var n := |hostname| - |base| - 1;
    && n == 3 + 2 * MANAGED_HOSTNAME_ENTROPY_BYTES
    && hostname[n + 1..] == base && hostname[n] == DOT
    && hostname[..3] == Prefix()
    && forall i | 3 <= i < n :: IsHexDigit(hostname[i])
  }

  // --------------------------------------------------------------------- hex

  lemma {:induction false} HexIsHex(e: Bytes)
    ensures |Hex(e)| == 2 * |e| && forall i | 0 <= i < |Hex(e)| :: IsHexDigit(Hex(e)[i])
    decreases |e|
  {
    if e != [] { HexIsHex(e[1..]); }
  }

  lemma {:induction false} HexIsInjective(a: Bytes, b: Bytes)
    requires Hex(a) == Hex(b)
    ensures a == b
    decreases |a|
  {
    HexIsHex(a);
    HexIsHex(b);
    if a != [] {
      assert Hex(a)[0] == Hex(b)[0] && Hex(a)[1] == Hex(b)[1];
      assert Hex(a)[2..] == Hex(a[1..]) && Hex(b)[2..] == Hex(b[1..]);
      HexIsInjective(a[1..], b[1..]);
      assert a[0] == 16 * (a[0] / 16) + a[0] % 16;
      assert b[0] == 16 * (b[0] / 16) + b[0] % 16;
      assert a == [a[0]] + a[1..] && b == [b[0]] + b[1..];
    }
  }

  // ------------------------------------------------------------------- names

  lemma {:induction false} SplitFirst(part: Bytes, rest: Bytes)
    requires DOT !in part
    ensures Split(part + [DOT] + rest) == [part] + Split(rest)
    decreases |part|
  {
    var s := part + [DOT] + rest;
    if part == [] {
      assert s[0] == DOT && s[1..] == rest;
    } else {
      assert s[0] == part[0] && s[1..] == part[1..] + [DOT] + rest;
      SplitFirst(part[1..], rest);
      assert [part[0]] + part[1..] == part;
    }
  }

  lemma LabelIsOk(e: Bytes)
    requires |e| == MANAGED_HOSTNAME_ENTROPY_BYTES
    ensures |Label(e)| == 35 && DOT !in Label(e) && LabelOk(Label(e))
    ensures forall i | 0 <= i < |Label(e)| :: !IsUpper(Label(e)[i])
    ensures forall i | 3 <= i < |Label(e)| :: IsHexDigit(Label(e)[i])
  {
    HexIsHex(e);
    assert forall i | 3 <= i < |Label(e)| :: Label(e)[i] == Hex(e)[i - 3];
  }

  /** Whatever the random bytes, the name is canonical exactly when the base leaves 36 bytes. */
  lemma NameIsCanonical(base: Bytes, e: Bytes)
    requires Canonical(base) && |e| == MANAGED_HOSTNAME_ENTROPY_BYTES
    ensures Canonical(Name(base, e)) <==> |base| + 36 <= MAX_PUBLIC_HOSTNAME_BYTES
    ensures FromEntropy(base, e).Ok? <==> |base| + 36 <= MAX_PUBLIC_HOSTNAME_BYTES
    ensures FromEntropy(base, e).Ok? ==> FromEntropy(base, e).value == Name(base, e)
  {
    var name := Name(base, e);
    LabelIsOk(e);
    SplitFirst(Label(e), base);
    assert Split(name)[0] == Label(e);
    forall i | 0 <= i < |Split(name)| ensures LabelOk(Split(name)[i]) {
      if i > 0 { assert Split(name)[i] == Split(base)[i - 1]; }
    }
    assert !Octet(Label(e));
    assert !IsIpv4(name);
    NoTrailingDot(name);
    LowerFixed(name);
  }

  /** The one trial with zero bytes stands for all: under an accepted base domain every
      sixteen random bytes give a valid hostname of the managed form, and different
      bytes give different hostnames. */
  lemma EveryEntropyWorks(base: Bytes, e: Bytes)
    requires BaseOk(base) && |e| == MANAGED_HOSTNAME_ENTROPY_BYTES
    ensures FromEntropy(base, e) == Ok(Name(base, e)) && Canonical(Name(base, e))
    ensures Matches(Name(base, e), base)
  {
    NameIsCanonical(base, ZeroEntropy());
    NameIsCanonical(base, e);
    LabelIsOk(e);
    var name := Name(base, e);
    assert name[..35] == Label(e) && name[36..] == base;
    assert name[..3] == Prefix();
    assert forall i | 3 <= i < 35 :: name[i] == Label(e)[i];
  }

  lemma NamesAreDistinct(base: Bytes, a: Bytes, b: Bytes)
    requires |a| == |b| == MANAGED_HOSTNAME_ENTROPY_BYTES && Name(base, a) == Name(base, b)
    ensures a == b
  {
    HexIsHex(a);
    HexIsHex(b);
    assert Name(base, a)[3..35] == Hex(a) && Name(base, b)[3..35] == Hex(b);
    HexIsInjective(a, b);
  }

  /** A managed hostname belongs to one base domain and comes from some random bytes. */
  lemma {:induction false} UnHex(h: Bytes) returns (e: Bytes)
    requires |h| % 2 == 0 && forall i | 0 <= i < |h| :: IsHexDigit(h[i])
    ensures |e| == |h| / 2 && Hex(e) == h
    decreases |h|
  {
    if h == [] {
      e := [];
    } else {
      var hi := if h[0] < 58 then h[0] - 48 else h[0] - 87;
      var lo := if h[1] < 58 then h[1] - 48 else h[1] - 87;
      var rest := UnHex(h[2..]);
      e := [16 * hi + lo] + rest;
      assert e[1..] == rest && e[0] / 16 == hi && e[0] % 16 == lo;
      assert h == [h[0], h[1]] + h[2..];
    }
  }

  lemma MatchesIsExact(hostname: Bytes, base: Bytes) returns (e: Bytes)
    requires Matches(hostname, base)
    ensures |e| == MANAGED_HOSTNAME_ENTROPY_BYTES && hostname == Name(base, e)
  {
    var hex := hostname[3..35];
    assert forall i | 0 <= i < 32 :: hex[i] == hostname[i + 3];
    e := UnHex(hex);
    assert hostname == hostname[..3] + hex + [hostname[35]] + hostname[36..];
  }
}
