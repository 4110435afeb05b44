/** The envelope with ideal cryptography, and the checks the engine makes around it. */
module Sealing {
  import opened Prelude
  import opened Clocks
  import opened Manifests

  datatype Aad = Aad(path: Path, version: u64)

  /** A sealed header: its digest, and the associated data its wrapped key is bound to. */
  datatype Header = Header(id: BlobId, aad: Aad)

  /** A sealed body: bound to the exact header it was sealed with. */
  datatype Body = Body(header: Header, plaintext: Bytes)

  /** 7 bytes of magic and version, 1090 + 32 bytes of key encapsulation, 73 of wrapped key. */
  const HEADER_LEN := 1202
  const NONCE_LEN := 24
  const TAG_LEN := 16
  const MAX_BLOB_BYTES := 256 * 1024 * 1024
  const MAX_MANIFEST_OBJECT_BYTES := 64 * 1024 * 1024

  const MAX_MANIFEST_AGE_SECS := 7 * 24 * 60 * 60
  const MAX_MANIFEST_FUTURE_SECS := 24 * 60 * 60

  function BodyLen(b: Body): nat {
    NONCE_LEN + |b.plaintext| + TAG_LEN
  }

  function SealHeader(id: BlobId, p: Path, version: u64): Header {
    Header(id, Aad(p, version))
  }

  function SealBody(id: BlobId, p: Path, version: u64, plaintext: Bytes): Body {
    Body(SealHeader(id, p, version), plaintext)
  }

  /** The manifest entry `seal_plaintext` builds beside the two blobs. */
  function SealedEntry(id: BlobId, version: u64, clock: Clock, plaintext: Bytes, modified: Time): Entry {
    Entry(id, Sha256(plaintext), version, clock, |plaintext|, modified, false)
  }

  function Open(h: Header, b: Body, aad: Aad): Result<Bytes, SyncError> {
    if h.aad == aad && b.header == h then Ok(b.plaintext) else Err(Crypto)
  }

  function AuthenticateAndOpen(h: Header, b: Body, p: Path, e: Entry): Result<Bytes, SyncError> {
    if HEADER_LEN > MAX_BLOB_BYTES || BodyLen(b) > MAX_BLOB_BYTES then Err(Refused(BlobTooLarge))
    else if h.id != e.blobId then Err(Refused(BlobIdMismatch))
    else match Open(h, b, Aad(p, e.aadVersion))
      case Err(why) => Err(why)
      case Ok(plaintext) =>
        if |plaintext| != e.size || Sha256(plaintext) != e.contentHash then Err(Refused(ContentMismatch))
        else Ok(plaintext)
  }

  /** Whatever the store serves, an accepted blob yields exactly the content the entry names. */
  lemma AcceptedContentIsTheEntrys(h: Header, b: Body, p: Path, e: Entry)
    requires AuthenticateAndOpen(h, b, p, e).Ok?
    ensures AuthenticateAndOpen(h, b, p, e).value == e.contentHash.preimage
    ensures h == SealHeader(e.blobId, p, e.aadVersion)
    ensures |e.contentHash.preimage| == e.size
  {}

  /**
   What was sealed for a path opens for that path again, exactly when the file leaves room for the
   nonce and the tag under the blob cap: sealing has no cap, opening does.
   */
  lemma SealedOpensIff(id: BlobId, p: Path, version: u64, clock: Clock, plaintext: Bytes, modified: Time)
    ensures AuthenticateAndOpen(SealHeader(id, p, version), SealBody(id, p, version, plaintext), p,
        SealedEntry(id, version, clock, plaintext, modified)) == Ok(plaintext)
      <==> |plaintext| <= 256 * 1024 * 1024 - 40
  {}

  /** The two seal-time guards, in the saturating arithmetic of the source. */
  function SaturatingAdd(a: nat, b: nat): nat {
    if a + b > U64_MAX then U64_MAX else a + b
  }

  function SaturatingSub(a: nat, b: nat): nat {
    if a < b then 0 else a - b
  }

  function Freshness(sealedAt: nat, anchored: bool, now: nat): Option<Refusal> {
    if sealedAt > SaturatingAdd(now, MAX_MANIFEST_FUTURE_SECS) then Some(SealedInTheFuture)
    else if !anchored && sealedAt < SaturatingSub(now, MAX_MANIFEST_AGE_SECS) then Some(Stale)
    else None
  }
}
