/** Well-formed UTF-8, section 4 of RFC 3629. */
module Utf8 {
  import opened Primitives

  predicate Tail(s: Bytes, i: nat, low: Byte, high: Byte) {
    i < |s| && low <= s[i] <= high
  }

  predicate Cont(s: Bytes, i: nat) {
    Tail(s, i, 0x80, 0xbf)
  }

  /** The length of the character that `s` starts with; 0 if it starts with none. */
  function CharLength(s: Bytes): (n: nat)
    requires s != []
    ensures n <= |s|
  {
    var b := s[0];
    if b < 0x80 then 1
    else if 0xc2 <= b <= 0xdf && Cont(s, 1) then 2
    else if b == 0xe0 && Tail(s, 1, 0xa0, 0xbf) && Cont(s, 2) then 3
    else if (0xe1 <= b <= 0xec || 0xee <= b <= 0xef) && Cont(s, 1) && Cont(s, 2) then 3
    else if b == 0xed && Tail(s, 1, 0x80, 0x9f) && Cont(s, 2) then 3
    else if b == 0xf0 && Tail(s, 1, 0x90, 0xbf) && Cont(s, 2) && Cont(s, 3) then 4
    else if 0xf1 <= b <= 0xf3 && Cont(s, 1) && Cont(s, 2) && Cont(s, 3) then 4
    else if b == 0xf4 && Tail(s, 1, 0x80, 0x8f) && Cont(s, 2) && Cont(s, 3) then 4
    else 0
  }

  predicate Valid(s: Bytes)
    decreases |s|
  {
    s == [] || (CharLength(s) > 0 && Valid(s[CharLength(s)..]))
  }

  predicate Ascii(s: Bytes) {
    forall i | 0 <= i < |s| :: s[i] < 0x80
  }

  lemma {:induction false} AsciiIsValid(s: Bytes)
    requires Ascii(s)
    ensures Valid(s)
    decreases |s|
  {
    if s != [] { AsciiIsValid(s[1..]); }
  }

  // ------------------------------------------------- what the bytes stand for

  /** A Unicode scalar value: a code point that is not a surrogate. */
  predicate Scalar(c: nat) {
    c < 0xd800 || 0xe000 <= c <= 0x10ffff
  }

  function EncodeChar(c: nat): Bytes
    requires Scalar(c)
  {
    if c < 0x80 then [c]
    else if c < 0x800 then [0xc0 + c / 64, 0x80 + c % 64]
    else if c < 0x10000 then [0xe0 + c / 4096, 0x80 + c / 64 % 64, 0x80 + c % 64]
    else [0xf0 + c / 262144, 0x80 + c / 4096 % 64, 0x80 + c / 64 % 64, 0x80 + c % 64]
  }

  function EncodeText(text: seq<nat>): Bytes
    requires forall i | 0 <= i < |text| :: Scalar(text[i])
  {
    if text == [] then [] else EncodeChar(text[0]) + EncodeText(text[1..])
  }

  lemma Digits(c: nat)
    ensures c == 64 * (c / 64) + c % 64 && c / 64 == 64 * (c / 4096) + c / 64 % 64
    ensures c / 4096 == 64 * (c / 262144) + c / 4096 % 64
  {
  }

  lemma EncodedLength(c: nat, rest: Bytes)
    requires Scalar(c)
    ensures var s := EncodeChar(c) + rest; CharLength(s) == |EncodeChar(c)| > 0 && s[CharLength(s)..] == rest
  {
    Digits(c);
  }

  lemma FromTwo(a: nat, b: nat)
    requires 2 <= a < 32 && b < 64
    ensures var c := 64 * a + b; 0x80 <= c < 0x800 && c / 64 == a && c % 64 == b
  {
  }

  lemma FromThree(a: nat, b: nat, d: nat)
    requires a < 16 && b < 64 && d < 64
    ensures var c := 4096 * a + 64 * b + d; c < 0x10000 && c / 4096 == a && c / 64 % 64 == b && c % 64 == d
  {
    assert (4096 * a + 64 * b + d) / 64 == 64 * a + b;
  }

  lemma FromFour(a: nat, b: nat, d: nat, e: nat)
    requires a < 8 && b < 64 && d < 64 && e < 64
    ensures var c := 262144 * a + 4096 * b + 64 * d + e;
            c / 262144 == a && c / 4096 % 64 == b && c / 64 % 64 == d && c % 64 == e
  {
    var c := 262144 * a + 4096 * b + 64 * d + e;
    assert c / 64 == 4096 * a + 64 * b + d;
    assert c / 4096 == 64 * a + b;
  }

  /** A well-formed start stands for one scalar value. */
  lemma FirstChar(s: Bytes) returns (c: nat)
    requires s != [] && CharLength(s) > 0
    ensures Scalar(c) && EncodeChar(c) == s[..CharLength(s)]
  {
    var n := CharLength(s);
    if n == 1 {
      c := s[0];
    } else if n == 2 {
      var a: int, b: int := s[0] - 0xc0, s[1] - 0x80;
      c := 64 * a + b;
      FromTwo(a, b);
    } else if n == 3 {
      var a: int, b: int, d: int := s[0] - 0xe0, s[1] - 0x80, s[2] - 0x80;
      c := 4096 * a + 64 * b + d;
      FromThree(a, b, d);
    } else {
      var a: int, b: int, d: int, e: int := s[0] - 0xf0, s[1] - 0x80, s[2] - 0x80, s[3] - 0x80;
      c := 262144 * a + 4096 * b + 64 * d + e;
      FromFour(a, b, d, e);
    }
  }

  /** Every text encodes to well-formed bytes, */
  lemma {:induction false} TextIsValid(text: seq<nat>)
    requires forall i | 0 <= i < |text| :: Scalar(text[i])
    ensures Valid(EncodeText(text))
    decreases |text|
  {
    if text != [] {
      TextIsValid(text[1..]);
      EncodedLength(text[0], EncodeText(text[1..]));
    }
  }

  /** and well-formed bytes are the encoding of a text. */
  lemma {:induction false} ValidIsText(s: Bytes) returns (text: seq<nat>)
    requires Valid(s)
    ensures (forall i | 0 <= i < |text| :: Scalar(text[i])) && EncodeText(text) == s
    decreases |s|
  {
    text := [];
    if s != [] {
      var n := CharLength(s);
      var c := FirstChar(s);
      var rest := ValidIsText(s[n..]);
      text := [c] + rest;
      assert text[1..] == rest && s == s[..n] + s[n..];
    }
  }
}
