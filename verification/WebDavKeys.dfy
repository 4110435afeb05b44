/** Object keys as URL paths and back (crate cs-storage, webdav; section 2.1 of RFC 3986). */
module WebDavKeys {
  import opened Prelude
  import Utf8

  const SLASH: u8 := 0x2F
  const PERCENT: u8 := 0x25
  const PLUS: u8 := 0x2B
  const SPACE: u8 := 0x20

  predicate Unreserved(b: u8) {
    || 0x41 <= b <= 0x5A || 0x61 <= b <= 0x7A || 0x30 <= b <= 0x39
    || b == 0x2D || b == 0x2E || b == 0x5F || b == 0x7E
  }

  function UpperHex(d: nat): u8
    requires d < 16
  {
    if d < 10 then 0x30 + d else 0x41 + d - 10
  }

  function EncodedByte(b: u8): Bytes {
    if Unreserved(b) then [b] else [PERCENT, UpperHex(b / 16), UpperHex(b % 16)]
  }

  function Encoded(segment: Bytes): Bytes {
    if segment == [] then [] else EncodedByte(segment[0]) + Encoded(segment[1..])
  }

  lemma {:induction false} EncodedOfSum(s: Bytes, t: Bytes)
    ensures Encoded(s + t) == Encoded(s) + Encoded(t)
  {
    hide EncodedByte;
    if s == [] {
      assert s + t == t;
    } else {
      assert (s + t)[1..] == s[1..] + t;
      EncodedOfSum(s[1..], t);
    }
  }

  lemma EncodedOfNothing()
    ensures Encoded([]) == []
  {}

  lemma EncodedOfOne(b: u8)
    ensures Encoded([b]) == EncodedByte(b)
  {
    assert [b][1..] == [];
    hide EncodedByte;
  }

  method PercentEncode(segment: Bytes) returns (out: Bytes)
    ensures out == Encoded(segment)
  {
    hide Encoded;
    out := [];
    EncodedOfNothing();
    for k := 0 to |segment|
      invariant out == Encoded(segment[..k])
    {
      var b := segment[k];
      EncodedOfSum(segment[..k], [b]);
      EncodedOfOne(b);
      assert segment[..k + 1] == segment[..k] + [b];
      if Unreserved(b) {
        out := out + [b];
      } else {
        out := out + [PERCENT];
        out := out + [UpperHex(b / 16), UpperHex(b % 16)];
      }
    }
    assert segment[..|segment|] == segment;
  }

  // ---- keys -------------------------------------------------------------------------------------------

  /** `str::split('/')`: one segment more than there are slashes. */
  function Split(name: Bytes): (segments: seq<Bytes>)
    ensures |segments| >= 1
  {
    if name == [] then [[]]
    else
      var rest := Split(name[1..]);
      if name[0] == SLASH then [[]] + rest else [[name[0]] + rest[0]] + rest[1..]
  }

  /** The segments, encoded and joined with slashes. */
  function Joined(segments: seq<Bytes>): Bytes
    requires |segments| >= 1
  {
    if |segments| == 1 then Encoded(segments[0]) else Encoded(segments[0]) + [SLASH] + Joined(segments[1..])
  }

  /** The path of a key: every byte encoded on its own, slashes kept. */
  function KeyPath(name: Bytes): Bytes {
    if name == [] then []
    else (if name[0] == SLASH then [SLASH] else EncodedByte(name[0])) + KeyPath(name[1..])
  }

  lemma {:induction false} JoinedIsKeyPath(name: Bytes)
    ensures Joined(Split(name)) == KeyPath(name)
  {
    hide EncodedByte;
    if name != [] {
      var rest := Split(name[1..]);
      JoinedIsKeyPath(name[1..]);
      if name[0] == SLASH {
        assert ([[]] + rest)[1..] == rest;
        assert Encoded([]) == [];
      } else {
        var first := [name[0]] + rest[0];
        assert first[1..] == rest[0];
        assert Encoded(first) == EncodedByte(name[0]) + Encoded(rest[0]);
        var segments := [first] + rest[1..];
        assert segments[1..] == rest[1..];
        if |rest| > 1 { Reassociate(EncodedByte(name[0]), Encoded(rest[0]), [SLASH], Joined(rest[1..])); }
      }
    }
  }

  lemma Reassociate(a: Bytes, b: Bytes, c: Bytes, d: Bytes)
    ensures a + b + c + d == a + (b + c + d)
  {}

  lemma {:induction false} JoinedNext(segments: seq<Bytes>, k: nat)
    requires 1 <= k < |segments|
    ensures Joined(segments[..k + 1]) == Joined(segments[..k]) + [SLASH] + Encoded(segments[k])
  {
    hide Encoded;
    var more := segments[..k + 1];
    assert more[0] == segments[0];
    if k == 1 {
      assert more[1..] == [segments[1]];
    } else {
      JoinedNext(segments[1..], k - 1);
      assert segments[1..][..k] == more[1..];
      assert segments[1..][..k - 1] == segments[..k][1..];
      Reassociate(Encoded(segments[0]) + [SLASH], Joined(segments[..k][1..]), [SLASH], Encoded(segments[k]));
    }
  }

  lemma JoinedOfOne(segments: seq<Bytes>)
    requires |segments| >= 1
    ensures Joined(segments[..1]) == Encoded(segments[0])
  {
    hide Encoded;
  }

  lemma AddJoined(base: Bytes, a: Bytes, b: Bytes, c: Bytes)
    ensures base + (a + b + c) == base + a + b + c
  {}

  method Url(base: Bytes, name: Bytes) returns (out: Bytes)
    ensures out == base + KeyPath(name)
  {
    hide Encoded, KeyPath, Split, Joined;
    out := base;
    var segments := Split(name);
    JoinedOfOne(segments);
    for i := 0 to |segments|
      invariant out == base + if i == 0 then [] else Joined(segments[..i])
    {
      if i > 0 {
        JoinedNext(segments, i);
        AddJoined(base, Joined(segments[..i]), [SLASH], Encoded(segments[i]));
        out := out + [SLASH];
      }
      var encoded := PercentEncode(segments[i]);
      out := out + encoded;
    }
    assert segments[..|segments|] == segments;
    JoinedIsKeyPath(name);
  }

  // ---- decoding ---------------------------------------------------------------------------------------

  function HexValue(b: u8): Option<nat> {
    if 0x30 <= b <= 0x39 then Some(b - 0x30)
    else if 0x41 <= b <= 0x46 then Some(b - 0x41 + 10)
    else if 0x61 <= b <= 0x66 then Some(b - 0x61 + 10)
    else None
  }

  /** `u8::from_str_radix(…, 16)` on two bytes; a leading plus sign is allowed. */
  function ParsePair(a: u8, b: u8): (r: Option<u8>) {
    if a == PLUS then HexDigitByte(b)
    else match (HexValue(a), HexValue(b))
      case (Some(x), Some(y)) => PairValue(x, y)
      case _ => None
  }

  function HexDigitByte(b: u8): Option<u8> {
    match HexValue(b)
    case Some(y) => PairValue(0, y)
    case None => None
  }

  function PairValue(x: nat, y: nat): Option<u8> {
    if x < 16 && y < 16 then Some(16 * x + y) else None
  }

  function Escape(s: Bytes): Option<u8> {
    if |s| > 2 && s[0] == PERCENT then ParsePair(s[1], s[2]) else None
  }

  function Decoded(s: Bytes): Bytes {
    if s == [] then []
    else match Escape(s)
      case Some(b) => [b] + Decoded(s[3..])
      case None => [if s[0] == PLUS then SPACE else s[0]] + Decoded(s[1..])
  }

  method UrlDecode(s: Bytes) returns (r: string)
    ensures r == match Utf8.Decode(Decoded(s)) case Some(text) => text case None => ""
  {
    hide ParsePair, Decoded, Utf8.Decode;
    var out: Bytes := [];
    var i := 0;
    DecodedEnds(s);
    while i < |s|
      invariant 0 <= i <= |s|
      invariant Decoded(s) == out + Decoded(s[i..])
    {
      var escape: Option<u8> := None;
      if s[i] == PERCENT && i + 2 < |s| {
        escape := ParsePair(s[i + 1], s[i + 2]);
      }
      DecodedNext(s, i);
      if escape.Some? {
        Append(out, escape.value, Decoded(s[i + 3..]));
        out := out + [escape.value];
        i := i + 3;
      } else {
        var b := if s[i] == PLUS then SPACE else s[i];
        Append(out, b, Decoded(s[i + 1..]));
        out := out + [b];
        i := i + 1;
      }
    }
    assert out == Decoded(s);
    var text := Utf8.Decode(out);
    r := if text.Some? then text.value else "";
  }

  lemma DecodedEnds(s: Bytes)
    ensures s[0..] == s && Decoded(s[|s|..]) == []
  {}

  lemma Append(out: Bytes, b: u8, rest: Bytes)
    ensures out + ([b] + rest) == out + [b] + rest
  {}

  lemma DecodedNext(s: Bytes, i: nat)
    requires i < |s|
    ensures var escape := if s[i] == PERCENT && i + 2 < |s| then ParsePair(s[i + 1], s[i + 2]) else None;
      Decoded(s[i..]) == if escape.Some? then [escape.value] + Decoded(s[i + 3..])
        else [if s[i] == PLUS then SPACE else s[i]] + Decoded(s[i + 1..])
  {
    hide ParsePair;
    var t := s[i..];
    assert t[1..] == s[i + 1..];
    if |t| > 2 { assert t[3..] == s[i + 3..]; }
  }

  lemma HexRoundTrips(b: u8)
    ensures ParsePair(UpperHex(b / 16), UpperHex(b % 16)) == Some(b)
  {}

  /** A trailing byte or two cannot spoil an escape: it is complete before the end is looked at. */
  lemma {:induction false} DecodedInvertsKeyPath(name: Bytes)
    ensures Decoded(KeyPath(name)) == name
  {
    if name != [] {
      var b, rest := name[0], KeyPath(name[1..]);
      DecodedInvertsKeyPath(name[1..]);
      HexRoundTrips(b);
      hide ParsePair, UpperHex;
      if b == SLASH || Unreserved(b) {
        assert KeyPath(name)[1..] == rest;
      } else {
        assert KeyPath(name) == [PERCENT, UpperHex(b / 16), UpperHex(b % 16)] + rest;
        assert KeyPath(name)[3..] == rest;
      }
    }
  }

  /** Decoding the path of a key gives the key back, for every key. */
  const HEX := "0123456789ABCDEF"

  /** What a byte of a key becomes: a slash and the unreserved characters stay, any other is a percent sign and two capital hex digits. */
  lemma ByteInPath(b: u8)
    ensures KeyPath([b]) ==
      if b == '/' as int || 'A' as int <= b <= 'Z' as int || 'a' as int <= b <= 'z' as int || '0' as int <= b <= '9' as int
        || b == '-' as int || b == '.' as int || b == '_' as int || b == '~' as int
      then [b]
      else ['%' as int, HEX[b / 16] as int, HEX[b % 16] as int]
  {
    HexDigitOf(b / 16);
    HexDigitOf(b % 16);
    hide UpperHex;
    assert [b][1..] == [];
    assert KeyPath([]) == [];
  }

  lemma HexDigitOf(d: nat)
    requires d < 16
    ensures UpperHex(d) == HEX[d] as int
  {}

  /** A key's path is made of its bytes', in turn. */
  lemma {:induction false} PathOfSum(a: Bytes, b: Bytes)
    ensures KeyPath(a + b) == KeyPath(a) + KeyPath(b)
  {
    hide EncodedByte;
    if a == [] {
      assert a + b == b;
    } else {
      assert (a + b)[1..] == a[1..] + b;
      PathOfSum(a[1..], b);
    }
  }

  lemma KeysRoundTrip(key: string)
    ensures Utf8.Decode(Decoded(KeyPath(Utf8.Encode(key)))) == Some(key)
  {
    DecodedInvertsKeyPath(Utf8.Encode(key));
    Utf8.DecodeInvertsEncode(key);
  }

  /** So different keys have different URLs. */
  lemma UrlsAreDistinct(base: Bytes, a: string, b: string)
    ensures base + KeyPath(Utf8.Encode(a)) == base + KeyPath(Utf8.Encode(b)) <==> a == b
  {
    KeysRoundTrip(a);
    KeysRoundTrip(b);
    var pa, pb := KeyPath(Utf8.Encode(a)), KeyPath(Utf8.Encode(b));
    assert (base + pa)[|base|..] == pa && (base + pb)[|base|..] == pb;
  }

  predicate UpperHexDigit(b: u8) {
    0x30 <= b <= 0x39 || 0x41 <= b <= 0x46
  }

  /** A path as the encoder writes it: escapes in capitals, and only of bytes that need one. */
  predicate WellEscaped(s: Bytes) {
    s == [] ||
    if s[0] == PERCENT then
      && |s| > 2 && UpperHexDigit(s[1]) && UpperHexDigit(s[2])
      && var b := ParsePair(s[1], s[2]);
      && b.Some? && !Unreserved(b.value) && b.value != SLASH
      && WellEscaped(s[3..])
    else
      (Unreserved(s[0]) || s[0] == SLASH) && WellEscaped(s[1..])
  }

  lemma {:induction false} KeyPathIsWellEscaped(name: Bytes)
    ensures WellEscaped(KeyPath(name))
  {
    if name != [] {
      var b, rest := name[0], KeyPath(name[1..]);
      KeyPathIsWellEscaped(name[1..]);
      HexRoundTrips(b);
      UpperHexIsDigit(b / 16);
      UpperHexIsDigit(b % 16);
      hide ParsePair, UpperHex, KeyPath, UpperHexDigit;
      KeyPathUnfold(name);
      if b == SLASH || Unreserved(b) {
        assert KeyPath(name)[1..] == rest;
      } else {
        assert KeyPath(name)[3..] == rest;
      }
    }
  }

  lemma KeyPathUnfold(name: Bytes)
    requires name != []
    ensures KeyPath(name) == (if name[0] == SLASH then [SLASH] else EncodedByte(name[0])) + KeyPath(name[1..])
  {}

  lemma UpperHexIsDigit(d: nat)
    requires d < 16
    ensures UpperHexDigit(UpperHex(d)) && HexValue(UpperHex(d)) == Some(d)
  {}

  lemma HexPairBack(a: u8, b: u8)
    requires UpperHexDigit(a) && UpperHexDigit(b)
    ensures ParsePair(a, b).Some? && UpperHex(ParsePair(a, b).value / 16) == a && UpperHex(ParsePair(a, b).value % 16) == b
  {}

  /** Encoding what was decoded gives the path back exactly for the paths the encoder writes. */
  lemma DecodingIsUndoneIff(s: Bytes)
    ensures KeyPath(Decoded(s)) == s <==> WellEscaped(s)
  {
    KeyPathIsWellEscaped(Decoded(s));
    if WellEscaped(s) { WellEscapedRoundTrips(s); }
  }

  lemma {:induction false} WellEscapedRoundTrips(s: Bytes)
    requires WellEscaped(s)
    ensures KeyPath(Decoded(s)) == s
  {
    if s != [] {
      var n := if s[0] == PERCENT then 3 else 1;
      WellEscapedRoundTrips(s[n..]);
      if n == 3 { HexPairBack(s[1], s[2]); }
      DecodedUnfold(s);
      var name := Decoded(s);
      KeyPathUnfold(name);
      hide Decoded, KeyPath, ParsePair, UpperHex, WellEscaped;
      assert name[1..] == Decoded(s[n..]);
      assert s == s[..n] + s[n..];
    }
  }

  lemma DecodedUnfold(s: Bytes)
    requires s != []
    ensures Decoded(s) == if Escape(s).Some? then [Escape(s).value] + Decoded(s[3..])
      else [if s[0] == PLUS then SPACE else s[0]] + Decoded(s[1..])
  {}

  /** Decoding alone is not one to one: a plus sign inside an escape is taken for a sign. */
  lemma SignedEscapeIsAccepted()
    ensures Decoded([PERCENT, PLUS, 0x35]) == Decoded([PERCENT, 0x30, 0x35]) == [5]
  {
    assert [PERCENT, PLUS, 0x35][3..] == [] && [PERCENT, 0x30, 0x35][3..] == [];
  }
}
