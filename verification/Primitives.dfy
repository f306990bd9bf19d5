/** Small value types shared by every component. */
module Primitives {

  datatype Option<+T> = None | Some(value: T)

  datatype Result<+T, +E> = Ok(value: T) | Err(error: E)

  type Byte = b: nat | b < 256
  type Bytes = seq<Byte>

  const U64_MAX: nat := 0xffff_ffff_ffff_ffff
  const I64_MAX: nat := 0x7fff_ffff_ffff_ffff

  /** SHA-256, taken as injective: the digest of a value is a wrapper around it. */
  datatype Digest<+T> = Sha256(of: T)

  function Min(a: nat, b: nat): nat {
    if a < b then a else b
  }

  function ToSet<T(==)>(s: seq<T>): set<T> {
    set x | x in s
  }

  datatype Number = Number(value: int)

  lemma {:induction false} AboveAll(s: set<Number>) returns (m: int)
    ensures forall x | x in s :: x.value < m
    decreases s
  {
    m := 0;
    if s != {} {
      var x :| x in s;
      m := AboveAll(s - {x});
      if m <= x.value { m := x.value + 1; }
      assert forall y | y in s :: y == x || y in s - {x};
    }
  }
}
