/** Fixed-width little-endian integers. */
module LittleEndian {
  import opened Prelude

  function Pow256(k: nat): nat {
    if k == 0 then 1 else 256 * Pow256(k - 1)
  }

  /** `to_le_bytes` on a k-byte integer. */
  function Le(n: nat, k: nat): (bs: Bytes)
    ensures |bs| == k
  {
    if k == 0 then [] else [n % 256] + Le(n / 256, k - 1)
  }

  function FromLe(bs: Bytes): nat {
    if bs == [] then 0 else bs[0] + 256 * FromLe(bs[1..])
  }

  lemma {:induction false} FromLeInvertsLe(n: nat, k: nat)
    requires n < Pow256(k)
    ensures FromLe(Le(n, k)) == n
  {
    if k > 0 {
      FromLeInvertsLe(n / 256, k - 1);
      assert Le(n, k)[1..] == Le(n / 256, k - 1);
    }
  }

  lemma {:induction false} LeInvertsFromLe(bs: Bytes)
    ensures Le(FromLe(bs), |bs|) == bs && FromLe(bs) < Pow256(|bs|)
  {
    if bs != [] {
      LeInvertsFromLe(bs[1..]);
      assert FromLe(bs) % 256 == bs[0] && FromLe(bs) / 256 == FromLe(bs[1..]);
      assert bs == [bs[0]] + bs[1..];
    }
  }

  lemma Widths()
    ensures Pow256(4) == 0x1_0000_0000 && Pow256(8) == 0x1_0000_0000_0000_0000
  {
    assert Pow256(2) == 65536;
    assert Pow256(3) == 16777216;
    assert Pow256(4) == 256 * Pow256(3);
    assert Pow256(5) == 256 * Pow256(4);
    assert Pow256(6) == 256 * Pow256(5);
    assert Pow256(7) == 256 * Pow256(6);
  }

  lemma U64RoundTrips(n: u64)
    ensures FromLe(Le(n, 8)) == n
  {
    Widths();
    FromLeInvertsLe(n, 8);
  }

  lemma U32RoundTrips(n: nat)
    requires n < 0x1_0000_0000
    ensures FromLe(Le(n, 4)) == n
  {
    Widths();
    FromLeInvertsLe(n, 4);
  }
}
