/** UTF-8 (section 3 of RFC 3629): the bytes behind a Rust `str`. */
module Utf8 {
  import opened Prelude

  function EncodeChar(c: char): (bs: Bytes)
    ensures 1 <= |bs| <= 4
  {
    var n := c as int;
    if n < 0x80 then [n]
    else if n < 0x800 then [0xC0 + n / 64, 0x80 + n % 64]
    else if n < 0x10000 then [0xE0 + n / 4096, 0x80 + n / 64 % 64, 0x80 + n % 64]
    else [0xF0 + n / 262144, 0x80 + n / 4096 % 64, 0x80 + n / 64 % 64, 0x80 + n % 64]
  }

  function Encode(s: string): Bytes {
    if s == [] then [] else EncodeChar(s[0]) + Encode(s[1..])
  }

  /** The length of a character that starts with this byte (`utf8_char_len`). */
  function CharLen(b: u8): nat {
    if b < 0x80 then 1 else if b / 32 == 6 then 2 else if b / 16 == 14 then 3 else 4
  }

  predicate IsScalar(n: int) {
    0 <= n < 0xD800 || 0xE000 <= n <= 0x10FFFF
  }

  function CodePoint(bs: Bytes): int
    requires 1 <= |bs| && CharLen(bs[0]) <= |bs|
  {
    var b0: int := bs[0];
    match CharLen(bs[0])
    case 1 => b0
    case 2 => Join(b0 - 0xC0, bs[1])
    case 3 => Join(Join(b0 - 0xE0, bs[1]), bs[2])
    case _ => Join(Join(Join(b0 - 0xF0, bs[1]), bs[2]), bs[3])
  }

  /** Six more bits. */
  function Join(high: int, b: int): int {
    high * 64 + (b - 0x80)
  }

  /** The first character, if the bytes start with the one and only encoding of a character. */
  function DecodeFirst(bs: Bytes): (r: Option<char>)
    ensures r.Some? ==> EncodeChar(r.value) <= bs
  {
    if bs == [] || CharLen(bs[0]) > |bs| || !IsScalar(CodePoint(bs)) then None
    else
      var c := CodePoint(bs) as char;
      if EncodeChar(c) <= bs then Some(c) else None
  }

  function Decode(bs: Bytes): Option<string> {
    if bs == [] then Some("")
    else match DecodeFirst(bs)
      case None => None
      case Some(c) =>
        match Decode(bs[|EncodeChar(c)|..])
        case None => None
        case Some(rest) => Some([c] + rest)
  }

  lemma JoinSplits(n: nat)
    ensures Join(n / 64, 0x80 + n % 64) == n
    ensures n / 64 / 64 == n / 4096 && n / 4096 / 64 == n / 262144
  {}

  lemma EncodedCodePoint(c: char, bs: Bytes)
    requires EncodeChar(c) <= bs
    ensures CharLen(bs[0]) == |EncodeChar(c)| && CodePoint(bs) == c as int
  {
    var n := c as int;
    JoinSplits(n);
    JoinSplits(n / 64);
    JoinSplits(n / 4096);
    hide Join;
    assert forall i | 0 <= i < |EncodeChar(c)| :: bs[i] == EncodeChar(c)[i];
  }

  lemma EncodedFirst(c: char, rest: Bytes)
    ensures DecodeFirst(EncodeChar(c) + rest) == Some(c)
    ensures CharLen(EncodeChar(c)[0]) == |EncodeChar(c)|
  {
    EncodedCodePoint(c, EncodeChar(c) + rest);
    hide EncodeChar, CodePoint, CharLen;
    assert EncodeChar(c) <= EncodeChar(c) + rest;
  }

  /** A character below 0x80 is its own byte; the bytes of any other are all above. */
  lemma AsciiIsItself(c: char)
    ensures c as int < 0x80 ==> EncodeChar(c) == [c as int]
    ensures c as int >= 0x80 ==> forall i | 0 <= i < |EncodeChar(c)| :: EncodeChar(c)[i] >= 0x80
  {}

  lemma {:induction false} EncodeOfSum(s: string, t: string)
    ensures Encode(s + t) == Encode(s) + Encode(t)
  {
    hide EncodeChar;
    if s == [] {
      assert s + t == t;
    } else {
      assert (s + t)[1..] == s[1..] + t;
      EncodeOfSum(s[1..], t);
    }
  }

  lemma {:induction false} DecodeInvertsEncode(s: string)
    ensures Decode(Encode(s)) == Some(s)
  {
    if s != [] {
      EncodedFirst(s[0], Encode(s[1..]));
      DecodeInvertsEncode(s[1..]);
      hide EncodeChar, DecodeFirst;
      assert s == [s[0]] + s[1..];
      assert Encode(s)[|EncodeChar(s[0])|..] == Encode(s[1..]);
    }
  }
}
