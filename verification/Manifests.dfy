/** The manifest and its parts (crate cs-manifest), with ideal digests. */
module Manifests {
  import opened Prelude
  import opened Clocks

  type Path = string
  type Time = int

  /**
   The digest of an envelope header. A header is drawn fresh at every seal, so its digest is a
   fresh number; only equality and the byte order on digests are ever used.
   */
  type BlobId = nat

  /** The digest of a plaintext. Ideal: two plaintexts with one digest are the same. */
  datatype Digest = Sha256(preimage: Bytes)

  datatype Entry = Entry(
    blobId: BlobId,
    contentHash: Digest,
    aadVersion: u64,
    clock: Clock,
    size: nat,
    modified: Time,
    deleted: bool)

  datatype ResolutionRecord = ResolutionRecord(
    atVersion: u64,
    chosenBlob: BlobId,
    superseded: seq<BlobId>,
    clock: Clock)

  datatype Manifest = Manifest(
    deviceId: DeviceId,
    clock: Clock,
    entries: map<Path, Entry>,
    resolutions: map<Path, ResolutionRecord>,
    version: u64)

  const EMPTY_MANIFEST := Manifest("remote", map[], map[], map[], 0)

  datatype StorageError = NotFound | PreconditionFailed | Backend

  /** Why a manifest, a manifest frame or a blob was refused. */
  datatype Refusal =
    | ObjectTooLarge
    | ListingHasNoEtag
    | Truncated
    | NotAFrame
    | BadSignature
    | SealedInTheFuture
    | Stale
    | AuthenticationFailed
    | Undecodable
    | VersionMismatch
    | Rollback
    | StoreForgotHistory
    | Vanished
    | BlobTooLarge
    | BlobIdMismatch
    | ContentMismatch

  datatype SyncError =
    | Storage(cause: StorageError)
    | Crypto
    | Io
    | Refused(why: Refusal)
    | UnresolvedConflict
    | ResolverFailed
}
