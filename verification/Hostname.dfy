/** Canonical public DNS hostnames, as bytes. */
module Hostname {
  import opened Primitives

  const MAX_PUBLIC_HOSTNAME_BYTES := 253
  const MAX_DNS_LABEL_BYTES := 63

  const DOT: Byte := 46
  const HYPHEN: Byte := 45
  const COLON: Byte := 58

  datatype HostnameError = Empty | TooLong | InvalidLabel | IpAddress | PortNotAllowed

  predicate IsDigit(b: Byte) { 48 <= b <= 57 }
  predicate IsUpper(b: Byte) { 65 <= b <= 90 }
  predicate IsLower(b: Byte) { 97 <= b <= 122 }

  function LowerByte(b: Byte): Byte {
    if IsUpper(b) then b + 32 else b
  }

  function Lower(s: Bytes): (r: Bytes)
    ensures |r| == |s| && forall i | 0 <= i < |s| :: r[i] == LowerByte(s[i])
  {
    seq(|s|, i requires 0 <= i < |s| => LowerByte(s[i]))
  }

  function StripDot(s: Bytes): Bytes {
    if s != [] && s[|s| - 1] == DOT then s[..|s| - 1] else s
  }

  /** The labels between the dots; a name without dots is its one label. */
  function Split(s: Bytes): (labels: seq<Bytes>)
    ensures labels != []
  {
    if s == [] then [[]]
    else
      var rest := Split(s[1..]);
      if s[0] == DOT then [[]] + rest else [[s[0]] + rest[0]] + rest[1..]
  }

  predicate LabelByte(b: Byte) {
    IsDigit(b) || IsUpper(b) || IsLower(b) || b == HYPHEN
  }

  predicate LabelOk(part: Bytes) {
    && 1 <= |part| <= MAX_DNS_LABEL_BYTES
    && part[0] != HYPHEN && part[|part| - 1] != HYPHEN
    && forall i | 0 <= i < |part| :: LabelByte(part[i])
  }

  predicate LabelsOk(s: Bytes) {
    forall i | 0 <= i < |Split(s)| :: LabelOk(Split(s)[i])
  }

  /** One to three digits, no leading zero, at most 255. */
  predicate Octet(s: Bytes) {
    && 1 <= |s| <= 3
    && (forall i | 0 <= i < |s| :: IsDigit(s[i]))
    && (|s| > 1 ==> s[0] != 48)
    && (|s| == 3 ==> 100 * (s[0] as int - 48) + 10 * (s[1] as int - 48) + (s[2] as int - 48) <= 255)
  }

  predicate IsIpv4(s: Bytes) {
    |Split(s)| == 4 && forall i | 0 <= i < 4 :: Octet(Split(s)[i])
  }

  function Normalize(value: Bytes): Result<Bytes, HostnameError> {
    if value == [] then Err(Empty)
    else
      var normalized := Lower(StripDot(value));
      if normalized == [] then Err(Empty)
      else if IsIpv4(normalized) then Err(IpAddress)
      else if COLON in normalized then Err(PortNotAllowed)
      else if |normalized| > MAX_PUBLIC_HOSTNAME_BYTES then Err(TooLong)
      else if !LabelsOk(normalized) then Err(InvalidLabel)
      else Ok(normalized)
  }

  /** What a normalized hostname looks like, without reference to normalization. */
  predicate Canonical(h: Bytes) {
    && 1 <= |h| <= MAX_PUBLIC_HOSTNAME_BYTES
    && (forall i | 0 <= i < |h| :: !IsUpper(h[i]))
    && !IsIpv4(h) && LabelsOk(h)
  }

  // ------------------------------------------------------------------ labels

  /** Every byte of a name is a dot or stands in one of its labels. */
  lemma {:induction false} ByteInLabel(s: Bytes, i: nat) returns (l: nat, j: nat)
    requires i < |s| && s[i] != DOT
    ensures l < |Split(s)| && j < |Split(s)[l]| && Split(s)[l][j] == s[i]
    decreases i
  {
    if i == 0 {
      l, j := 0, 0;
    } else {
      l, j := ByteInLabel(s[1..], i - 1);
      if s[0] == DOT { l := l + 1; } else if l == 0 { j := j + 1; }
    }
  }

  lemma {:induction false} TrailingDot(s: Bytes)
    requires s != [] && s[|s| - 1] == DOT
    ensures Split(s)[|Split(s)| - 1] == [] && |Split(s)| > 1
    decreases |s|
  {
    if |s| == 1 {
      assert s[1..] == [];
      assert Split(s) == [[], []];
    } else {
      var rest := Split(s[1..]);
      TrailingDot(s[1..]);
      assert Split(s) == if s[0] == DOT then [[]] + rest else [[s[0]] + rest[0]] + rest[1..];
      assert Split(s)[|Split(s)| - 1] == rest[|rest| - 1];
    }
  }

  lemma NoTrailingDot(h: Bytes)
    requires h != [] && LabelsOk(h)
    ensures StripDot(h) == h && COLON !in h
  {
    if h[|h| - 1] == DOT {
      TrailingDot(h);
    }
    if COLON in h {
      var i :| 0 <= i < |h| && h[i] == COLON;
      var l, j := ByteInLabel(h, i);
    }
  }

  lemma LowerFixed(h: Bytes)
    requires forall i | 0 <= i < |h| :: !IsUpper(h[i])
    ensures Lower(h) == h
  {
  }

  /** A hostname is accepted as it stands exactly when it is canonical. */
  lemma CanonicalIsFixed(h: Bytes)
    ensures Normalize(h) == Ok(h) <==> Canonical(h)
  {
    if Canonical(h) {
      NoTrailingDot(h);
      LowerFixed(h);
    } else if Normalize(h) == Ok(h) {
      assert forall i | 0 <= i < |h| :: h[i] == LowerByte(StripDot(h)[i]);
    }
  }

  /** Every accepted value is normalized to a canonical one; normalizing again changes nothing. */
  lemma NormalizeIsIdempotent(value: Bytes)
    requires Normalize(value).Ok?
    ensures Canonical(Normalize(value).value)
    ensures Normalize(Normalize(value).value) == Normalize(value)
  {
    var h := Normalize(value).value;
    assert forall i | 0 <= i < |h| :: h[i] == LowerByte(StripDot(value)[i]);
    CanonicalIsFixed(h);
  }

  /** `value` writes the name `h`: perhaps with capitals, perhaps with a dot at the end. */
  predicate Spells(value: Bytes, h: Bytes) {
    && (|value| == |h| || (|value| == |h| + 1 && value[|h|] == DOT))
    && forall i | 0 <= i < |h| :: value[i] == h[i] || (IsUpper(value[i]) && h[i] == value[i] + 32)
  }

  lemma CanonicalHasNoDot(h: Bytes)
    requires Canonical(h)
    ensures h[|h| - 1] != DOT
  {
    NoTrailingDot(h);
  }

  lemma SpelledLower(value: Bytes, h: Bytes)
    requires Canonical(h) && Spells(value, h)
    ensures Lower(StripDot(value)) == h
  {
    CanonicalHasNoDot(h);
    assert StripDot(value) == value[..|h|];
    var low := Lower(value[..|h|]);
    forall i | 0 <= i < |h| ensures low[i] == h[i] {
      assert value[..|h|][i] == value[i] && !IsUpper(h[i]);
    }
  }

  lemma LowerSpells(value: Bytes)
    ensures Spells(value, Lower(StripDot(value)))
  {
    var stripped := StripDot(value);
    forall i | 0 <= i < |stripped|
      ensures value[i] == Lower(stripped)[i] || (IsUpper(value[i]) && Lower(stripped)[i] == value[i] + 32)
    {
      assert stripped[i] == value[i];
    }
  }

  lemma NormalizeCanonical(value: Bytes, h: Bytes)
    requires Canonical(h) && Lower(StripDot(value)) == h
    ensures Normalize(value) == Ok(h)
  {
    NoTrailingDot(h);
  }

  /** Normalization is exact: a value is accepted as `h` exactly when `h` is canonical and the
      value writes it. */
  lemma NormalizeIsExact(value: Bytes, h: Bytes)
    ensures Normalize(value) == Ok(h) <==> Canonical(h) && Spells(value, h)
  {
    if Normalize(value) == Ok(h) {
      NormalizeIsIdempotent(value);
      LowerSpells(value);
    } else if Canonical(h) && Spells(value, h) {
      SpelledLower(value, h);
      NormalizeCanonical(value, h);
    }
  }
}
