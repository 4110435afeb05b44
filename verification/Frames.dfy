/** The signed manifest frame (crate cs-sync, local_io). */
module Frames {
  import opened Prelude
  import opened Manifests
  import opened Sealing
  import opened LittleEndian
  import Envelope

  /** `b"CSMAN1"`. */
  const MAGIC: Bytes := [0x43, 0x53, 0x4D, 0x41, 0x4E, 0x31]
  const PREFIX := 26
  const SIG_LEN := 64
  const SCHEMA_VERSION := 1

  const MANIFEST_AAD := Aad("manifest", 0)

  /** The vault's keys and the manifest serializer, with the schema version it writes. */
  datatype Vault = Vault(
    suite: Envelope.Suite,
    sign: Bytes -> Bytes,
    verify: (Bytes, Bytes) -> bool,
    encode: (nat, Manifest) -> Bytes,
    decode: Bytes -> Option<(nat, Manifest)>)

  ghost predicate Lawful(v: Vault) {
    && Envelope.Lawful(v.suite)
    && (forall m :: |v.sign(m)| == SIG_LEN)
    && (forall m :: v.verify(m, v.sign(m)))
    && (forall s: nat, m: Manifest :: v.decode(v.encode(s, m)) == Some((s, m)))
  }

  /** The signed part of a frame. */
  function Fields(version: u64, sealedAt: u64, header: Bytes, body: Bytes): Bytes {
    MAGIC + Le(version, 8) + Le(sealedAt, 8) + Le(|header|, 4) + header + body
  }

  function Framed(v: Vault, schema: nat, m: Manifest, d: Envelope.Draw, now: u64): Bytes {
    var header := Envelope.SealedHeader(v.suite, MANIFEST_AAD, d);
    var body := Envelope.SealedBody(v.suite, v.encode(schema, m), MANIFEST_AAD, d);
    var signed := Fields(m.version, now, header, body);
    signed + v.sign(signed)
  }

  method SealManifest(v: Vault, schema: nat, m: Manifest, d: Envelope.Draw, now: u64) returns (framed: Bytes)
    ensures framed == Framed(v, schema, m, d, now)
  {
    hide Le, Envelope.SealedHeader, Envelope.SealedBody;
    var header, body := Envelope.Seal(v.suite, v.encode(schema, m), MANIFEST_AAD, d);
    framed := [];
    framed := framed + MAGIC;
    framed := framed + Le(m.version, 8);
    framed := framed + Le(now, 8);
    framed := framed + Le(|header|, 4);
    framed := framed + header;
    framed := framed + body;
    assert framed == Fields(m.version, now, header, body);
    var sig := v.sign(framed);
    framed := framed + sig;
  }

  /** The checks in their order: shape, signature, freshness, envelope, payload. */
  function Opened(v: Vault, framed: Bytes, anchored: bool, now: u64): Result<Manifest, Refusal> {
    if |framed| < PREFIX + 24 + SIG_LEN then Err(Truncated)
    else if framed[..6] != MAGIC then Err(NotAFrame)
    else
      var version, sealedAt := FromLe(framed[6..14]), FromLe(framed[14..22]);
      var headerEnd := PREFIX + FromLe(framed[22..26]);
      var sigStart := |framed| - SIG_LEN;
      if headerEnd == PREFIX || headerEnd > sigStart then Err(Truncated)
      else if !v.verify(framed[..sigStart], framed[sigStart..]) then Err(BadSignature)
      else if Freshness(sealedAt, anchored, now).Some? then Err(Freshness(sealedAt, anchored, now).value)
      else match Envelope.Opened(v.suite, framed[PREFIX..headerEnd], framed[headerEnd..sigStart], MANIFEST_AAD)
        case Err(_) => Err(AuthenticationFailed)
        case Ok(bytes) => Decoded(v, bytes, version)
  }

  function Decoded(v: Vault, bytes: Bytes, version: nat): Result<Manifest, Refusal> {
    match v.decode(bytes)
    case None => Err(Undecodable)
    case Some((schema, m)) =>
      if schema != SCHEMA_VERSION then Err(Undecodable)
      else if m.version != version then Err(VersionMismatch)
      else Ok(m)
  }

  /** The offsets recover every framed part. */
  lemma FieldsAt(version: u64, sealedAt: u64, header: Bytes, body: Bytes, sig: Bytes)
    requires |header| < 0x1_0000_0000
    ensures var framed := Fields(version, sealedAt, header, body) + sig;
      && |framed| == PREFIX + |header| + |body| + |sig|
      && framed[..6] == MAGIC
      && FromLe(framed[6..14]) == version && FromLe(framed[14..22]) == sealedAt && FromLe(framed[22..26]) == |header|
      && framed[PREFIX..PREFIX + |header|] == header
      && framed[PREFIX + |header|..|framed| - |sig|] == body
      && framed[..|framed| - |sig|] == Fields(version, sealedAt, header, body)
      && framed[|framed| - |sig|..] == sig
  {
    U64RoundTrips(version);
    U64RoundTrips(sealedAt);
    U32RoundTrips(|header|);
    var v, s, l := Le(version, 8), Le(sealedAt, 8), Le(|header|, 4);
    hide FromLe, Le;
    SevenParts(MAGIC, v, s, l, header, body, sig);
  }

  lemma SevenParts(a: Bytes, b: Bytes, c: Bytes, d: Bytes, e: Bytes, f: Bytes, g: Bytes)
    ensures var (i, j, k) := (|a| + |b|, |a| + |b| + |c|, |a| + |b| + |c| + |d|);
      var (m, n) := (k + |e|, k + |e| + |f|);
      var all := a + b + c + d + e + f + g;
      && |all| == n + |g|
      && all[..|a|] == a && all[|a|..i] == b && all[i..j] == c && all[j..k] == d && all[k..m] == e && all[m..n] == f
      && all[n..] == g && all[..n] == a + b + c + d + e + f
  {}

  /** Saturation never shows: the two guards are the plain inequalities over the integers. */
  lemma FreshnessIff(sealedAt: u64, anchored: bool, now: u64)
    ensures Freshness(sealedAt, anchored, now) ==
      if sealedAt > now + 86400 then Some(SealedInTheFuture)
      else if !anchored && sealedAt + 604800 < now then Some(Stale)
      else None
  {}

  /**
   A manifest of this schema that was sealed at `t0` opens at `t1` exactly when its seal time is at
   most a day ahead, and the device has an anchor or the seal is at most a week old.
   */
  lemma OpenInvertsSealIff(v: Vault, schema: nat, m: Manifest, d: Envelope.Draw, t0: u64, anchored: bool, t1: u64)
    requires Lawful(v) && Envelope.ProperDraw(d)
    ensures Opened(v, Framed(v, schema, m, d, t0), anchored, t1) == Ok(m)
      <==> schema == 1 && t0 <= t1 + 86400 && (anchored || t0 + 604800 >= t1)
    ensures schema == SCHEMA_VERSION ==>
      Opened(v, Framed(v, schema, m, d, t0), anchored, t1) ==
        if Freshness(t0, anchored, t1).None? then Ok(m) else Err(Freshness(t0, anchored, t1).value)
  {
    var header := Envelope.SealedHeader(v.suite, MANIFEST_AAD, d);
    var body := Envelope.SealedBody(v.suite, v.encode(schema, m), MANIFEST_AAD, d);
    var signed := Fields(m.version, t0, header, body);
    Envelope.OpenInvertsSeal(v.suite, v.encode(schema, m), MANIFEST_AAD, d);
    FieldsAt(m.version, t0, header, body, v.sign(signed));
    FreshnessIff(t0, anchored, t1);
    hide Fields, Envelope.Opened, Envelope.SealedHeader, Envelope.SealedBody, FromLe, Freshness;
  }

  /** The frame is exactly these fields and a signature of them. */
  ghost predicate IsFrameOf(v: Vault, framed: Bytes, version: u64, sealedAt: u64, header: Bytes, body: Bytes) {
    var signed := Fields(version, sealedAt, header, body);
    && |header| > 0
    && |framed| == |signed| + SIG_LEN
    && framed[..|signed|] == signed
    && v.verify(signed, framed[|signed|..])
  }

  lemma Reassembled(framed: Bytes, n: nat)
    requires PREFIX + n + SIG_LEN <= |framed| && framed[..6] == MAGIC && n == FromLe(framed[22..26])
    ensures FromLe(framed[6..14]) <= U64_MAX && FromLe(framed[14..22]) <= U64_MAX
    ensures var end := |framed| - SIG_LEN;
      framed[..end] == Fields(FromLe(framed[6..14]), FromLe(framed[14..22]), framed[PREFIX..PREFIX + n], framed[PREFIX + n..end])
  {
    LeInvertsFromLe(framed[6..14]);
    LeInvertsFromLe(framed[14..22]);
    LeInvertsFromLe(framed[22..26]);
    Widths();
    hide FromLe, Le;
    Glue(framed, 6, 14);
    Glue(framed, 14, 22);
    Glue(framed, 22, 26);
    Glue(framed, 26, 26 + n);
    Glue(framed, 26 + n, |framed| - SIG_LEN);
  }

  lemma Glue(s: Bytes, i: nat, j: nat)
    requires i <= j <= |s|
    ensures s[..j] == s[..i] + s[i..j]
  {}

  lemma OpenedChecks(v: Vault, framed: Bytes, anchored: bool, now: u64)
    requires Opened(v, framed, anchored, now).Ok?
    ensures |framed| >= PREFIX + 24 + SIG_LEN && framed[..6] == MAGIC
    ensures 0 < FromLe(framed[22..26]) && PREFIX + FromLe(framed[22..26]) + SIG_LEN <= |framed|
    ensures v.verify(framed[..|framed| - SIG_LEN], framed[|framed| - SIG_LEN..])
    ensures Freshness(FromLe(framed[14..22]), anchored, now).None?
    ensures Opened(v, framed, anchored, now).value.version == FromLe(framed[6..14])
  {
    hide FromLe, Freshness, Envelope.Opened;
  }

  /** An accepted frame has no slack: it is the framing of its own fields, followed by the signature. */
  lemma AcceptedIsFramed(v: Vault, framed: Bytes, anchored: bool, now: u64)
    requires Opened(v, framed, anchored, now).Ok?
    ensures exists sealedAt: u64, header: Bytes, body: Bytes ::
      && IsFrameOf(v, framed, Opened(v, framed, anchored, now).value.version, sealedAt, header, body)
      && Freshness(sealedAt, anchored, now).None?
  {
    hide FromLe, Freshness, Opened, Fields;
    OpenedChecks(v, framed, anchored, now);
    var n, end := FromLe(framed[22..26]), |framed| - SIG_LEN;
    Reassembled(framed, n);
    assert IsFrameOf(v, framed, FromLe(framed[6..14]), FromLe(framed[14..22]), framed[PREFIX..PREFIX + n], framed[PREFIX + n..end]);
  }
}
