/** Fixed-width big-endian numbers. */
module BigEndian {
  import opened Primitives

  function Pow256(k: nat): nat
    ensures Pow256(k) > 0
  {
    if k == 0 then 1 else 256 * Pow256(k - 1)
  }

  /** The last `k` base-256 digits of `n`, most significant first. */
  function Be(n: nat, k: nat): (s: Bytes)
    ensures |s| == k
  {
    if k == 0 then [] else Be(n / 256, k - 1) + [n % 256]
  }

  function FromBe(s: Bytes): nat {
    if s == [] then 0 else 256 * FromBe(s[..|s| - 1]) + s[|s| - 1]
  }

  lemma {:induction false} NumberRoundTrip(n: nat, k: nat)
    requires n < Pow256(k)
    ensures FromBe(Be(n, k)) == n
  {
    if k > 0 {
      NumberRoundTrip(n / 256, k - 1);
      assert Be(n, k)[..k - 1] == Be(n / 256, k - 1);
    }
  }

  lemma {:induction false} BytesRoundTrip(s: Bytes)
    ensures FromBe(s) < Pow256(|s|) && Be(FromBe(s), |s|) == s
  {
    if s != [] {
      var front := s[..|s| - 1];
      BytesRoundTrip(front);
      assert FromBe(s) / 256 == FromBe(front) && FromBe(s) % 256 == s[|s| - 1];
      assert s == front + [s[|s| - 1]];
    }
  }

  lemma Widths()
    ensures Pow256(2) == 0x1_0000 && Pow256(4) == 0x1_0000_0000 && Pow256(8) == U64_MAX + 1
  {
    assert Pow256(3) == 256 * Pow256(2);
    assert Pow256(4) == 256 * Pow256(3);
    assert Pow256(5) == 256 * Pow256(4);
    assert Pow256(6) == 256 * Pow256(5);
    assert Pow256(7) == 256 * Pow256(6);
  }
}
