/** Shared value types: fixed-width integers, options and results. */
module Prelude {
  const U64_MAX: int := 0xFFFF_FFFF_FFFF_FFFF

  type u8 = x: int | 0 <= x < 256
  type u64 = x: int | 0 <= x <= U64_MAX
  type Bytes = seq<u8>

  datatype Option<+T> = None | Some(value: T)

  datatype Result<+T, +E> = Ok(value: T) | Err(error: E)

  /** Rust's `u64::saturating_add(x, 1)`. */
  function SaturatingInc(x: u64): u64 {
    if x == U64_MAX then x else x + 1
  }

  function Max(a: u64, b: u64): u64 {
    if a < b then b else a
  }

  function Lookup<K, V>(m: map<K, V>, k: K): Option<V> {
    if k in m then Some(m[k]) else None
  }

  /** Two maps with the same answers are the same. */
  lemma SameLookups<K, V>(a: map<K, V>, b: map<K, V>)
    requires forall k :: Lookup(a, k) == Lookup(b, k)
    ensures a == b
  {
    forall k ensures k in a <==> k in b { assert Lookup(a, k) == Lookup(b, k); }
    forall k | k in a ensures a[k] == b[k] { assert Lookup(a, k) == Lookup(b, k); }
  }
}
