/** What holds in every run of the protocol, for any number of devices and any interleaving. */
module ProtocolTheorems {
  import opened Prelude
  import opened Clocks
  import opened Manifests
  import opened Conflicts
  import opened Diffs
  import opened Sealing
  import opened Stores
  import opened Paths
  import opened Replicas
  import opened Protocol
  import opened ProtocolInvariant
  import opened ProtocolSteps

  lemma StepKeeps(w: World, d: DeviceId, a: Action, w': World)
    requires Inv(w) && Step(w, d, a, w')
    ensures Inv(w')
  {
    hide Inv;
    match a
    case Join(newcomer) => JoinKeeps(w, d, newcomer, w');
    case Edit(disk, sidecars) => IdleKeeps(w, d, w'.devices[d], w');
    case Reconfigure(managed) => IdleKeeps(w, d, w'.devices[d], w');
    case Start(resolver, now, ids) => StartKeeps(w, d, resolver, now, ids, w');
    case UploadHeader(id) => UploadHeaderKeeps(w, d, id, w');
    case UploadBody(id) => UploadBodyKeeps(w, d, id, w');
    case ListManifest => ListKeeps(w, d, w');
    case GetManifest => GetKeeps(w, d, w');
    case ApplyOne(p, id) => ApplyStepKeeps(w, d, p, id, w');
    case ApplyDone => ApplyDoneKeeps(w, d, w');
    case PushManifest(len) => PushKeeps(w, d, len, w');
    case Save => SaveKeeps(w, d, w');
    case Crash => CrashKeeps(w, d);
  }

  /** The invariant holds in every state of every run. */
  lemma {:induction false} RunInvariant(run: seq<World>, i: nat)
    requires IsRun(run) && i < |run|
    ensures Inv(run[i])
    decreases i
  {
    if i > 0 {
      RunInvariant(run, i - 1);
      assert SomeStep(run[i - 1], run[i - 1 + 1]);
      var d, a :| Step(run[i - 1], d, a, run[i]);
      StepKeeps(run[i - 1], d, a, run[i]);
    }
  }

  // ---- no lost updates -------------------------------------------------------------------------

  /**
   No lost updates. In every state of every run each push replaced exactly the manifest its attempt
   had fetched and merged: the pushes form one chain from the empty manifest, and no link of it
   drops a path, drops or ages a resolution record, moves an entry back in causal order or lowers
   the version. This is about manifests and their clocks; what a clock covers need not have been
   read (module UnseenUpdates).
   */
  lemma NoLostUpdates(run: seq<World>, i: nat, k: nat)
    requires IsRun(run) && i < |run| && k < |run[i].history|
    ensures run[i].history[k].base == if k == 0 then EMPTY_MANIFEST else run[i].history[k - 1].manifest
    ensures MonotonePush(run[i].history[k].base, run[i].history[k].manifest)
    ensures run[i].history[k].base.version < run[i].history[k].manifest.version
    ensures ManifestKey in run[i].objects && run[i].objects[ManifestKey].data.ManifestObject?
    ensures run[i].objects[ManifestKey].data.manifest == run[i].history[|run[i].history| - 1].manifest
  {
    RunInvariant(run, i);
    assert Linked(run[i].history, k);
  }

  /** A push on the first attempt leaves every managed path unchanged or strictly later. */
  lemma FirstAttemptsAreStrict(run: seq<World>, i: nat, k: nat, p: Path)
    requires IsRun(run) && i < |run| && k < |run[i].history|
    requires run[i].history[k].first && p in run[i].history[k].managed
    ensures Advances(Lookup(run[i].history[k].manifest.entries, p), Lookup(run[i].history[k].base.entries, p))
    ensures Clocks.Leq(run[i].history[k].base.clock, run[i].history[k].manifest.clock)
  {
    RunInvariant(run, i);
    assert Linked(run[i].history, k);
  }

  /** Once pushed, a path stays in the manifest for good, and its resolution record never ages. */
  lemma {:induction false} NothingIsForgotten(run: seq<World>, i: nat, k: nat, m: nat, p: Path)
    requires IsRun(run) && i < |run| && k <= m < |run[i].history|
    ensures p in run[i].history[k].manifest.entries ==> p in run[i].history[m].manifest.entries
    ensures RecordKept(Lookup(run[i].history[m].manifest.resolutions, p), Lookup(run[i].history[k].manifest.resolutions, p))
    ensures k < m ==> run[i].history[k].manifest.version < run[i].history[m].manifest.version
    decreases m
  {
    if k < m {
      NothingIsForgotten(run, i, k, m - 1, p);
      NoLostUpdates(run, i, m);
      var prev, next := run[i].history[m - 1].manifest, run[i].history[m].manifest;
      assert Absorbs(Lookup(next.entries, p), Lookup(prev.entries, p));
      assert RecordKept(Lookup(next.resolutions, p), Lookup(prev.resolutions, p));
    }
  }

  // ---- blobs -------------------------------------------------------------------------------------

  lemma KnownOpens(w: World, p: Path, e: Entry)
    requires BlobsGenuine(w.objects, w.births) && Known(w.births, p, e) && Uploaded(w.objects, e.blobId)
    ensures FetchBlob(w.objects, p, e) == Ok(e.contentHash.preimage)
      <==> e.size <= MAX_BLOB_BYTES - NONCE_LEN - TAG_LEN
    ensures FetchBlob(w.objects, p, e).Ok? ==> FetchBlob(w.objects, p, e) == Ok(e.contentHash.preimage)
    ensures |e.contentHash.preimage| == e.size
  {}

  /**
   No dangling entries. In every state of every run each entry of the store's manifest, tombstones
   included, can be fetched, authenticated and opened to content of the recorded size and hash,
   exactly when that content fits the blob cap: a larger file is accepted by its own device's push
   and refused by every pull.
   */
  lemma EveryEntryOpensIff(run: seq<World>, i: nat, p: Path)
    requires IsRun(run) && i < |run| && run[i].history != []
    requires p in run[i].history[|run[i].history| - 1].manifest.entries
    ensures var e := run[i].history[|run[i].history| - 1].manifest.entries[p];
      && (FetchBlob(run[i].objects, p, e) == Ok(e.contentHash.preimage) <==> e.size <= 256 * 1024 * 1024 - 40)
      && |e.contentHash.preimage| == e.size
  {
    RunInvariant(run, i);
    var m := run[i].history[|run[i].history| - 1].manifest;
    assert AllKnown(run[i].births, m) && AllUploaded(run[i].objects, m);
    KnownOpens(run[i], p, m.entries[p]);
  }

  /** The same for the entry a device is about to pull, whatever happened since it fetched. */
  lemma HonestPullSucceedsIff(run: seq<World>, i: nat, d: DeviceId, p: Path)
    requires IsRun(run) && i < |run| && d in run[i].devices && run[i].devices[d].phase.Applying?
    requires p in run[i].devices[d].phase.base.entries
    ensures var e := run[i].devices[d].phase.base.entries[p];
      && (FetchBlob(run[i].objects, p, e) == Ok(e.contentHash.preimage) <==> e.size <= 256 * 1024 * 1024 - 40)
      && (FetchBlob(run[i].objects, p, e).Ok? <==> e.size <= 256 * 1024 * 1024 - 40)
      && |e.contentHash.preimage| == e.size
  {
    hide FetchBlob, IsRun, Known, Uploaded;
    RunInvariant(run, i);
    var w, ph := run[i], run[i].devices[d].phase;
    ApplyingInv(w, d);
    BaseIsKnown(w, ph.job, ph.etag, ph.base);
    KnownOpens(w, p, ph.base.entries[p]);
  }

  ghost predicate HeldByPush(w: World, p: Path, e: Entry) {
    exists k | 0 <= k < |w.history| :: Lookup(w.history[k].manifest.entries, p) == Some(e)
  }

  ghost predicate HeldByCache(w: World, p: Path, e: Entry) {
    exists d | d in w.devices :: Lookup(w.devices[d].cache.entries, p) == Some(e)
  }

  ghost predicate HeldBySync(w: World, p: Path, e: Entry) {
    exists d | d in w.devices ::
      !w.devices[d].phase.Idle? && Lookup(w.devices[d].phase.job.local.entries, p) == Some(e)
  }

  /** Every entry anywhere: in a push, in a cache, or in a running sync's memory. */
  ghost predicate Holds(w: World, p: Path, e: Entry) {
    HeldByPush(w, p, e) || HeldByCache(w, p, e) || HeldBySync(w, p, e)
  }

  lemma FoundIsKnown(births: map<BlobId, Birth>, m: Manifest, p: Path, e: Entry)
    requires AllKnown(births, m) && Lookup(m.entries, p) == Some(e)
    ensures Known(births, p, e)
  {}

  lemma PushHolds(w: World, k: nat)
    requires StoreInv(w) && k < |w.history|
    ensures AllKnown(w.births, w.history[k].manifest)
  {}

  lemma SyncHolds(w: World, d: DeviceId, dev: Device)
    requires PhaseInv(w, d, dev) && !dev.phase.Idle?
    ensures AllKnown(w.births, dev.phase.job.local)
  {}

  lemma HeldIsKnown(w: World, p: Path, e: Entry)
    requires Inv(w) && Holds(w, p, e)
    ensures Known(w.births, p, e)
  {
    hide StoreInv, PhaseInv, AllKnown, Known;
    if HeldByPush(w, p, e) {
      var k :| 0 <= k < |w.history| && Lookup(w.history[k].manifest.entries, p) == Some(e);
      PushHolds(w, k);
      FoundIsKnown(w.births, w.history[k].manifest, p, e);
    } else if HeldByCache(w, p, e) {
      var d :| d in w.devices && Lookup(w.devices[d].cache.entries, p) == Some(e);
      CacheOf(w, d);
      FoundIsKnown(w.births, w.devices[d].cache, p, e);
    } else {
      var d :| d in w.devices && !w.devices[d].phase.Idle? && Lookup(w.devices[d].phase.job.local.entries, p) == Some(e);
      ApplyingInv(w, d);
      SyncHolds(w, d, w.devices[d]);
      FoundIsKnown(w.births, w.devices[d].phase.job.local, p, e);
    }
  }

  /**
   Blob-id identity. Across the store, every cache and every running sync, two live entries with one
   blob id are the same entry of the same path, and a tombstone with that blob id is strictly later.
   */
  lemma OneBlobOneEntry(run: seq<World>, i: nat, p: Path, q: Path, a: Entry, b: Entry)
    requires IsRun(run) && i < |run| && Holds(run[i], p, a) && Holds(run[i], q, b) && a.blobId == b.blobId
    ensures p == q
    ensures !a.deleted && !b.deleted ==> a == b
    ensures !a.deleted && b.deleted ==> HappensBefore(a.clock, b.clock)
  {
    RunInvariant(run, i);
    HeldIsKnown(run[i], p, a);
    HeldIsKnown(run[i], q, b);
    BlobIdentity(run[i].births, p, q, a, b);
  }

  // ---- versions ------------------------------------------------------------------------------------

  /** On an honest store no fetch is ever refused as a rollback, a lost manifest or a foreign object. */
  lemma NoFalseAlarm(run: seq<World>, i: nat, d: DeviceId)
    requires IsRun(run) && i < |run| && d in run[i].devices && run[i].devices[d].phase.Getting?
    ensures var job := run[i].devices[d].phase.job;
      var answer := Accept(Fetch(run[i].objects, run[i].devices[d].phase.etag, job), job);
      answer.Err? ==> answer.error.Refused? && answer.error.why in {ObjectTooLarge, ListingHasNoEtag, SealedInTheFuture, Stale}
  {
    RunInvariant(run, i);
    var w := run[i];
    ApplyingInv(w, d);
    StoreHas(w);
    if w.history != [] {
      assert BaseOf(w.history, |w.history|) == w.history[|w.history| - 1].manifest;
    }
  }

  /**
   The refusal of a listing without an etag is no proof of a hostile store: it means exactly that the
   store's first manifest arrived between this device's listing and its read.
   */
  lemma NoEtagMeansFirstPushRace(run: seq<World>, i: nat, d: DeviceId)
    requires IsRun(run) && i < |run| && d in run[i].devices && run[i].devices[d].phase.Getting?
    requires run[i].history != [] && ManifestKey in run[i].objects && run[i].objects[ManifestKey].data.ManifestObject?
    requires run[i].objects[ManifestKey].data.len <= MAX_MANIFEST_OBJECT_BYTES
    ensures var job := run[i].devices[d].phase.job;
      && (Accept(Fetch(run[i].objects, run[i].devices[d].phase.etag, job), job) == Err(Refused(ListingHasNoEtag))
          <==> run[i].devices[d].phase.etag.None?)
      && (run[i].devices[d].phase.etag.None? ==> job.began == 0 && job.attempt == 0)
  {
    RunInvariant(run, i);
    ApplyingInv(run[i], d);
    StoreHas(run[i]);
  }

  /** Every cache is at most as new as the store. */
  lemma CachesAreBehind(run: seq<World>, i: nat, d: DeviceId)
    requires IsRun(run) && i < |run| && d in run[i].devices
    ensures run[i].devices[d].cache.version <= LastVersion(run[i].history)
    ensures run[i].devices[d].cache.entries != map[] ==> run[i].history != []
  {
    RunInvariant(run, i);
    CacheOf(run[i], d);
  }

  // ---- progress --------------------------------------------------------------------------------------

  /**
   System-wide progress. When a manifest put is refused, another device's manifest put has succeeded
   since this attempt listed the store; a sync that runs out of attempts has seen three of them.
   The listed etag counts the pushes made before the listing.
   */
  lemma RefusedPutMeansAnotherSucceeded(run: seq<World>, i: nat, d: DeviceId)
    requires IsRun(run) && i < |run| && d in run[i].devices && run[i].devices[d].phase.Pushing?
    requires !GuardHolds(run[i].objects, ManifestKey, PutGuard(run[i].devices[d].phase.etag))
    ensures var job, etag := run[i].devices[d].phase.job, run[i].devices[d].phase.etag;
      && (etag.Some? ==> etag.value.Counter?)
      && var seen := if etag.Some? then etag.value.n else 0;
      && job.began <= seen < |run[i].history|
      && (forall k | seen <= k < |run[i].history| :: run[i].history[k].manifest.deviceId != d)
    ensures var job := run[i].devices[d].phase.job;
      && |run[i].history| >= job.began + job.attempt + 1
      && (forall k | job.began <= k < |run[i].history| :: run[i].history[k].manifest.deviceId != d)
      && (job.attempt + 1 == MAX_CAS_RETRIES ==> |run[i].history| >= job.began + 3)
  {
    RunInvariant(run, i);
    var w, ph := run[i], run[i].devices[d].phase;
    ApplyingInv(w, d);
    StoreHas(w);
    NoGuardMeansPushed(w, ph.job, ph.etag, ph.base);
  }

  // ---- disk and manifest ------------------------------------------------------------------------------

  /**
   After a completed or aborted sync, when the cache is saved, disk and manifest agree on every
   managed path: a live entry's file has the recorded content, and there is no file otherwise.
   */
  lemma SavedCacheAgreesWithDisk(run: seq<World>, i: nat, d: DeviceId, w': World, p: Path)
    requires IsRun(run) && i < |run| && Step(run[i], d, Save, w')
    requires p in w'.devices[d].managed
    ensures Agrees(Lookup(w'.devices[d].cache.entries, p), Lookup(w'.devices[d].disk, p))
  {
    RunInvariant(run, i);
    ApplyingInv(run[i], d);
  }

  /** So it does at every moment of a running sync, retries included. */
  lemma RunningSyncAgreesWithDisk(run: seq<World>, i: nat, d: DeviceId, p: Path)
    requires IsRun(run) && i < |run| && d in run[i].devices && !run[i].devices[d].phase.Idle?
    requires p in run[i].devices[d].managed
    ensures Agrees(Lookup(run[i].devices[d].phase.job.local.entries, p), Lookup(run[i].devices[d].disk, p))
  {
    RunInvariant(run, i);
    ApplyingInv(run[i], d);
  }
}
