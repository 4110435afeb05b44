/** The associated data of every AEAD call (crate cs-crypto, aad). */
module AadCodec {
  import opened Prelude
  import opened Sealing
  import opened LittleEndian
  import Utf8

  /** The bytes the AEAD authenticates. A path's length always fits the length field. */
  function Encoded(a: Aad): Bytes {
    Le(a.version, 8) + Le(|Utf8.Encode(a.path)|, 8) + Utf8.Encode(a.path)
  }

  predicate Fits(a: Aad) {
    |Utf8.Encode(a.path)| <= U64_MAX
  }

  method Encode(a: Aad) returns (out: Bytes)
    ensures out == Encoded(a)
  {
    out := [];
    out := out + Le(a.version, 8);
    var plen := |Utf8.Encode(a.path)|;
    out := out + Le(plen, 8);
    out := out + Utf8.Encode(a.path);
  }

  lemma Utf8IsInjective(s: string, t: string)
    requires Utf8.Encode(s) == Utf8.Encode(t)
    ensures s == t
  {
    Utf8.DecodeInvertsEncode(s);
    Utf8.DecodeInvertsEncode(t);
  }

  /**
   The length prefix makes the encoding prefix-free: whatever is appended, the associated data and
   the rest can be told apart. The envelope appends a header digest.
   */
  lemma EncodingIsPrefixFree(a: Aad, b: Aad, x: Bytes, y: Bytes)
    requires Fits(a) && Fits(b)
    ensures Encoded(a) + x == Encoded(b) + y <==> a == b && x == y
  {
    if Encoded(a) + x == Encoded(b) + y {
      var whole := Encoded(a) + x;
      var pa, pb := Utf8.Encode(a.path), Utf8.Encode(b.path);
      assert whole[..8] == Le(a.version, 8) == Le(b.version, 8);
      assert whole[8..16] == Le(|pa|, 8) == Le(|pb|, 8);
      U64RoundTrips(a.version);
      U64RoundTrips(b.version);
      U64RoundTrips(|pa|);
      U64RoundTrips(|pb|);
      assert whole[16..16 + |pa|] == pa == pb;
      assert whole[16 + |pa|..] == x == y;
      Utf8IsInjective(a.path, b.path);
    }
  }
}
