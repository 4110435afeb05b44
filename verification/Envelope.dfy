/** The file envelope (crate cs-crypto, envelope): the header parser, sealing and opening. */
module Envelope {
  import opened Prelude
  import opened Varints
  import Sealing
  import AadCodec

  const MAX_PQ_CT_LEN := 4096
  const MAX_WRAPPED_CT_LEN := 256

  /** `b"CSYNC1"` and the format version. */
  const MAGIC: Bytes := [0x43, 0x53, 0x59, 0x4E, 0x43, 0x31]
  const VERSION: u8 := 1

  datatype HeaderBody = HeaderBody(pqCt: Bytes, classicEph: Bytes, wrapNonce: Bytes, wrappedCt: Bytes)

  predicate Proper(h: HeaderBody) {
    |h.classicEph| == 32 && |h.wrapNonce| == 24 && |h.pqCt| <= U64_MAX && |h.wrappedCt| <= U64_MAX
  }

  /** What the serializer writes: length-prefixed vectors and bare arrays. */
  function Postcard(h: HeaderBody): Bytes {
    Leb(|h.pqCt|) + (h.pqCt + Tail(h, Leb(|h.wrappedCt|)))
  }

  /** What follows the first vector, with the given second prefix. */
  function Tail(h: HeaderBody, prefix: Bytes): Bytes {
    h.classicEph + (h.wrapNonce + (prefix + h.wrappedCt))
  }

  /** What a buffer parses to. */
  function Parsed(buf: Bytes): Option<HeaderBody> {
    match Varint(buf, MAX_PQ_CT_LEN)
    case None => None
    case Some((pqLen, n)) => ParsedTail(buf[n..n + pqLen], buf[n + pqLen..])
  }

  function ParsedTail(pqCt: Bytes, rest: Bytes): Option<HeaderBody> {
    if |rest| < 56 then None
    else match Varint(rest[56..], MAX_WRAPPED_CT_LEN)
      case None => None
      case Some((ctLen, m)) =>
        if 56 + m + ctLen != |rest| then None
        else Some(HeaderBody(pqCt, rest[..32], rest[32..56], rest[56 + m..]))
  }

  /** Every slice is within the buffer, and the buffer is used up exactly. */
  method ParseHeaderBody(buf: Bytes) returns (r: Result<HeaderBody, CryptoError>)
    ensures r == if Parsed(buf).Some? then Ok(Parsed(buf).value) else Err(Truncated)
  {
    assert buf[0..] == buf;
    var pqLen, pos := ReadVarint(buf, 0, MAX_PQ_CT_LEN);
    if pqLen.Err? { return Err(pqLen.error); }
    var pqCt := buf[pos..pos + pqLen.value];
    pos := pos + pqLen.value;
    ghost var rest := buf[pos..];
    if |buf| < pos + 32 { return Err(Truncated); }
    var classicEph := buf[pos..pos + 32];
    assert classicEph == rest[..32];
    pos := pos + 32;
    if |buf| < pos + 24 { return Err(Truncated); }
    var nonce := buf[pos..pos + 24];
    assert nonce == rest[32..56];
    pos := pos + 24;
    assert buf[pos..] == rest[56..];
    var ctLen;
    ghost var start := pos;
    ctLen, pos := ReadVarint(buf, pos, MAX_WRAPPED_CT_LEN);
    if ctLen.Err? { return Err(ctLen.error); }
    var ct := buf[pos..pos + ctLen.value];
    pos := pos + ctLen.value;
    if pos != |buf| { return Err(Truncated); }
    assert ct == rest[56 + (pos - ctLen.value - start)..];
    return Ok(HeaderBody(pqCt, classicEph, nonce, ct));
  }

  lemma PartsOfSum(a: Bytes, b: Bytes)
    ensures (a + b)[|a|..] == b && (a + b)[..|a|] == a
  {}

  lemma PartsOfTail(h: HeaderBody, prefix: Bytes)
    requires |h.classicEph| == 32 && |h.wrapNonce| == 24
    ensures var rest := Tail(h, prefix);
      && |rest| == 56 + |prefix| + |h.wrappedCt|
      && rest[..32] == h.classicEph && rest[32..56] == h.wrapNonce
      && rest[56..] == prefix + h.wrappedCt && rest[56 + |prefix|..] == h.wrappedCt
  {}

  lemma TailParses(h: HeaderBody)
    requires Proper(h)
    ensures ParsedTail(h.pqCt, Tail(h, Leb(|h.wrappedCt|))) == if |h.wrappedCt| <= MAX_WRAPPED_CT_LEN then Some(h) else None
  {
    VarintInvertsLeb(|h.wrappedCt|, MAX_WRAPPED_CT_LEN, h.wrappedCt);
    PartsOfTail(h, Leb(|h.wrappedCt|));
    hide Leb, Varint, Tail;
  }

  lemma PartsOfThree(a: Bytes, b: Bytes, c: Bytes)
    ensures var all := a + (b + c); all[|a|..|a| + |b|] == b && all[|a| + |b|..] == c
  {}

  lemma ParsedFrom(prefix: Bytes, pqCt: Bytes, rest: Bytes)
    requires Varint(prefix + (pqCt + rest), MAX_PQ_CT_LEN) == if |pqCt| <= MAX_PQ_CT_LEN then Some((|pqCt|, |prefix|)) else None
    ensures Parsed(prefix + (pqCt + rest)) == if |pqCt| <= MAX_PQ_CT_LEN then ParsedTail(pqCt, rest) else None
  {
    hide Varint, ParsedTail;
    PartsOfThree(prefix, pqCt, rest);
  }

  /** The parser inverts the serializer on exactly the headers within the two length bounds. */
  lemma ParseInvertsPostcard(h: HeaderBody)
    requires Proper(h)
    ensures Parsed(Postcard(h)) ==
      if |h.pqCt| <= 4096 && |h.wrappedCt| <= 256 then Some(h) else None
  {
    hide Leb, Varint, Tail, ParsedTail, Parsed;
    var prefix, rest := Leb(|h.pqCt|), Tail(h, Leb(|h.wrappedCt|));
    VarintInvertsLeb(|h.pqCt|, MAX_PQ_CT_LEN, h.pqCt + rest);
    TailParses(h);
    ParsedFrom(prefix, h.pqCt, rest);
  }

  /** The parts of a buffer that parses, as the parser cuts it. */
  lemma PartsOfParsed(buf: Bytes, n: nat, m: nat, after: Bytes)
    requires Parsed(buf).Some? && Groups(buf, 0).Some? && n == Groups(buf, 0).value.1
    requires after == buf[n + Groups(buf, 0).value.0..] && |after| >= 56
    requires Groups(after[56..], 0).Some? && m == Groups(after[56..], 0).value.1
    ensures n + Groups(buf, 0).value.0 <= |buf| && 56 + m + Groups(after[56..], 0).value.0 == |after|
    ensures Parsed(buf).value == HeaderBody(buf[n..n + Groups(buf, 0).value.0], after[..32], after[32..56], after[56 + m..])
  {
    hide Groups;
  }

  lemma PrefixesParse(buf: Bytes)
    requires Parsed(buf).Some?
    ensures Groups(buf, 0).Some? && Groups(buf, 0).value.1 + Groups(buf, 0).value.0 <= |buf|
    ensures var after := buf[Groups(buf, 0).value.1 + Groups(buf, 0).value.0..]; |after| >= 56 && Groups(after[56..], 0).Some?
  {
    hide Groups;
  }

  /** The two length prefixes of a buffer that parses. */
  lemma PrefixesOf(buf: Bytes)
    requires Parsed(buf).Some?
    ensures var h := Parsed(buf).value;
      && Groups(buf, 0).Some? && Groups(buf, 0).value.0 == |h.pqCt|
      && var n := Groups(buf, 0).value.1;
      && n + |h.pqCt| + 56 <= |buf|
      && var rest := buf[n + |h.pqCt| + 56..];
      && Groups(rest, 0).Some? && Groups(rest, 0).value.0 == |h.wrappedCt|
      && var m := Groups(rest, 0).value.1;
      buf == buf[..n] + (h.pqCt + Tail(h, rest[..m]))
  {
    hide Groups, Varint, Parsed, ParsedTail;
    PrefixesParse(buf);
    var (pqLen, n) := Groups(buf, 0).value;
    var after := buf[n + pqLen..];
    CutAgain(buf, n + pqLen, 56);
    var rest := after[56..];
    var (ctLen, m) := Groups(rest, 0).value;
    PartsOfParsed(buf, n, m, after);
    CutTwice(buf, n, n + pqLen);
    CutTwice(after, 32, 56);
    CutTwice(rest, m, |rest|);
    CutAgain(after, 56, m);
  }

  /**
   Whatever parses is bounded, and is used up exactly: the buffer is one length prefix, the first vector, the two
   arrays, another prefix and the second vector, with nothing before, between or after them.
   */
  lemma ParsedIsTheWholeBuffer(buf: Bytes)
    requires Parsed(buf).Some?
    ensures var h := Parsed(buf).value;
      Proper(h) && |h.pqCt| <= 4096 && |h.wrappedCt| <= 256
    ensures var h := Parsed(buf).value;
      exists first: Bytes, second: Bytes :: IsPrefixFor(first, |h.pqCt|) && IsPrefixFor(second, |h.wrappedCt|)
        && buf == first + (h.pqCt + Tail(h, second))
  {
    hide Groups, Varint, Parsed, ParsedTail, Proper, Tail;
    PrefixesOf(buf);
    ParsedIsProper(buf);
    var h := Parsed(buf).value;
    var (pqLen, n) := Groups(buf, 0).value;
    var rest := buf[n + |h.pqCt| + 56..];
    var (ctLen, m) := Groups(rest, 0).value;
    PrefixIsItself(buf, n);
    PrefixIsItself(rest, m);
    assert IsPrefixFor(buf[..n], |h.pqCt|) && IsPrefixFor(rest[..m], |h.wrappedCt|);
  }

  /** The whole text is one length prefix, of at most ten bytes. */
  predicate IsPrefixFor(text: Bytes, n: nat) {
    Groups(text, 0) == Some((n, |text|)) && |text| <= 10
  }

  lemma PrefixIsItself(bs: Bytes, n: nat)
    requires Groups(bs, 0).Some? && Groups(bs, 0).value.1 == n
    ensures Groups(bs[..n], 0) == Groups(bs, 0)
  {
    GroupsOfPrefix(bs, 0);
  }

  lemma CutAgain(s: Bytes, i: nat, j: nat)
    requires i + j <= |s|
    ensures s[i..][j..] == s[i + j..]
  {}

  lemma CutTwice(s: Bytes, i: nat, j: nat)
    requires i <= j <= |s|
    ensures s == s[..i] + (s[i..j] + s[j..]) && s == s[..i] + s[i..]
  {}

  lemma ParsedIsProper(buf: Bytes)
    requires Parsed(buf).Some?
    ensures Proper(Parsed(buf).value)
    ensures |Parsed(buf).value.pqCt| <= MAX_PQ_CT_LEN && |Parsed(buf).value.wrappedCt| <= MAX_WRAPPED_CT_LEN
  {}

  /**
   A buffer that parses is the serializer's own text of what it parses to, unless one of its two
   length prefixes is not the shortest: the parser accepts those as well.
   */
  lemma ParsedIsPostcardIff(buf: Bytes)
    requires Parsed(buf).Some?
    ensures var h := Parsed(buf).value;
      && Groups(buf, 0).Some?
      && var n := Groups(buf, 0).value.1;
      && n + |h.pqCt| + 56 <= |buf|
      && var rest := buf[n + |h.pqCt| + 56..];
      && Groups(rest, 0).Some?
      && (buf == Postcard(h) <==> Shortest(buf, 0, n) && Shortest(rest, 0, Groups(rest, 0).value.1))
  {
    hide Leb, Groups, Shortest, Parsed, Tail;
    PrefixesOf(buf);
    ParsedIsProper(buf);
    var h := Parsed(buf).value;
    var n := Groups(buf, 0).value.1;
    var rest := buf[n + |h.pqCt| + 56..];
    CanonicalIff(buf, 0);
    CanonicalIff(rest, 0);
    LebIsShortest(buf, 0);
    LebIsShortest(rest, 0);
    GroupsWithin(buf);
    GroupsWithin(rest);
    PrefixesDecide(buf[..n], Leb(|h.pqCt|), rest[..Groups(rest, 0).value.1], Leb(|h.wrappedCt|), h, buf);
  }

  lemma GroupsWithin(bs: Bytes)
    requires Groups(bs, 0).Some?
    ensures 1 <= Groups(bs, 0).value.1 <= |bs|
  {}

  lemma PrefixesDecide(a: Bytes, b: Bytes, c: Bytes, d: Bytes, h: HeaderBody, buf: Bytes)
    requires |h.classicEph| == 32 && |h.wrapNonce| == 24
    requires buf == a + (h.pqCt + Tail(h, c))
    requires |b| <= |a| && |d| <= |c|
    ensures buf == b + (h.pqCt + Tail(h, d)) <==> a == b && c == d
  {
    PartsOfTail(h, c);
    PartsOfTail(h, d);
    hide Tail;
    var other := b + (h.pqCt + Tail(h, d));
    if buf == other {
      assert |buf| == |a| + |h.pqCt| + 56 + |c| + |h.wrappedCt|;
      assert |other| == |b| + |h.pqCt| + 56 + |d| + |h.wrappedCt|;
      PartsOfSum(a, h.pqCt + Tail(h, c));
      PartsOfSum(b, h.pqCt + Tail(h, d));
      PartsOfSum(h.pqCt, Tail(h, c));
      PartsOfSum(h.pqCt, Tail(h, d));
      PartsOfSum(c, h.wrappedCt);
      PartsOfSum(d, h.wrappedCt);
    }
  }
  // ---- sealing and opening -------------------------------------------------------------------------

  /** The primitives: key encapsulation, the AEAD, and the digest of a header. */
  datatype Suite = Suite(
    encapsulate: nat -> (Bytes, Bytes, Bytes),
    decapsulate: (Bytes, Bytes) -> Option<Bytes>,
    encrypt: (Bytes, Bytes, Bytes, Bytes) -> Bytes,
    decrypt: (Bytes, Bytes, Bytes, Bytes) -> Option<Bytes>,
    digest: Bytes -> Bytes)

  /** What a seal draws at random. */
  datatype Draw = Draw(dek: Bytes, kem: nat, wrapNonce: Bytes, bodyNonce: Bytes)

  predicate ProperDraw(d: Draw) {
    |d.dek| == 32 && |d.wrapNonce| == 24 && |d.bodyNonce| == Sealing.NONCE_LEN
  }

  ghost predicate Encapsulates(s: Suite, n: nat) {
    var (kek, pqCt, eph) := s.encapsulate(n);
    s.decapsulate(pqCt, eph) == Some(kek) && |pqCt| == 1088 && |eph| == 32
  }

  /** Opening undoes sealing, and the sizes are those of the algorithms. */
  ghost predicate Lawful(s: Suite) {
    && (forall n :: Encapsulates(s, n))
    && (forall k, n, a, m :: s.decrypt(k, n, a, s.encrypt(k, n, a, m)) == Some(m))
    && (forall k, n, a, m :: |s.encrypt(k, n, a, m)| == |m| + Sealing.TAG_LEN)
  }

  function HeaderBodyOf(s: Suite, aad: Sealing.Aad, d: Draw): HeaderBody {
    var (kek, pqCt, eph) := s.encapsulate(d.kem);
    HeaderBody(pqCt, eph, d.wrapNonce, s.encrypt(kek, d.wrapNonce, AadCodec.Encoded(aad), d.dek))
  }

  function SealedHeader(s: Suite, aad: Sealing.Aad, d: Draw): Bytes {
    MAGIC + [VERSION] + Postcard(HeaderBodyOf(s, aad, d))
  }

  /** The body is bound to the header through its digest. */
  function SealedBody(s: Suite, plaintext: Bytes, aad: Sealing.Aad, d: Draw): Bytes {
    var bodyAad := AadCodec.Encoded(aad) + s.digest(SealedHeader(s, aad, d));
    d.bodyNonce + s.encrypt(d.dek, d.bodyNonce, bodyAad, plaintext)
  }

  method Seal(s: Suite, plaintext: Bytes, aad: Sealing.Aad, d: Draw) returns (header: Bytes, body: Bytes)
    ensures header == SealedHeader(s, aad, d) && body == SealedBody(s, plaintext, aad, d)
  {
    header := [];
    header := header + MAGIC;
    header := header + [VERSION];
    header := header + Postcard(HeaderBodyOf(s, aad, d));
    var bodyAad := AadCodec.Encode(aad);
    bodyAad := bodyAad + s.digest(header);
    body := [];
    body := body + d.bodyNonce;
    body := body + s.encrypt(d.dek, d.bodyNonce, bodyAad, plaintext);
  }

  function Opened(s: Suite, header: Bytes, body: Bytes, aad: Sealing.Aad): Result<Bytes, CryptoError> {
    if |header| < 7 || header[..6] != MAGIC then Err(BadMagic)
    else if header[6] != VERSION then Err(BadMagic)
    else match Parsed(header[7..])
      case None => Err(Truncated)
      case Some(hb) =>
        if |body| < 24 then Err(Truncated)
        else match s.decapsulate(hb.pqCt, hb.classicEph)
          case None => Err(AuthFailed)
          case Some(kek) =>
            match s.decrypt(kek, hb.wrapNonce, AadCodec.Encoded(aad), hb.wrappedCt)
            case None => Err(AuthFailed)
            case Some(dek) =>
              match s.decrypt(dek, body[..24], AadCodec.Encoded(aad) + s.digest(header), body[24..])
              case None => Err(AuthFailed)
              case Some(plaintext) => Ok(plaintext)
  }

  lemma SealedHeaderParses(s: Suite, aad: Sealing.Aad, d: Draw)
    requires Lawful(s) && ProperDraw(d)
    ensures Parsed(Postcard(HeaderBodyOf(s, aad, d))) == Some(HeaderBodyOf(s, aad, d))
    ensures |SealedHeader(s, aad, d)| == Sealing.HEADER_LEN
  {
    var hb := HeaderBodyOf(s, aad, d);
    assert Encapsulates(s, d.kem);
    assert |hb.wrappedCt| == 48;
    hide HeaderBodyOf;
    ParseInvertsPostcard(hb);
    assert |Leb(1088)| == 2 && |Leb(48)| == 1;
  }

  /** Opening undoes sealing; header and body have the sizes the engine reckons with. */
  lemma OpenInvertsSeal(s: Suite, plaintext: Bytes, aad: Sealing.Aad, d: Draw)
    requires Lawful(s) && ProperDraw(d)
    ensures Opened(s, SealedHeader(s, aad, d), SealedBody(s, plaintext, aad, d), aad) == Ok(plaintext)
    ensures |SealedHeader(s, aad, d)| == 1202 == Sealing.HEADER_LEN
    ensures |SealedBody(s, plaintext, aad, d)| == 24 + |plaintext| + 16 == Sealing.NONCE_LEN + |plaintext| + Sealing.TAG_LEN
  {
    SealedHeaderParses(s, aad, d);
    assert Encapsulates(s, d.kem);
    var header, body := SealedHeader(s, aad, d), SealedBody(s, plaintext, aad, d);
    hide Postcard, Parsed;
    assert header[..6] == MAGIC && header[6] == VERSION && header[7..] == Postcard(HeaderBodyOf(s, aad, d));
    PartsOfSum(d.bodyNonce, s.encrypt(d.dek, d.bodyNonce, AadCodec.Encoded(aad) + s.digest(header), plaintext));
  }
}
