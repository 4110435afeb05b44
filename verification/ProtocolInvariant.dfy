/** What every step of the protocol keeps, and what holds in every state of every run. */
module ProtocolInvariant {
  import opened Prelude
  import opened Clocks
  import opened Manifests
  import opened Conflicts
  import opened Diffs
  import opened Sealing
  import opened Stores
  import opened Paths
  import opened Replicas
  import opened Protocol

  // ---- the store ------------------------------------------------------------------------------

  predicate Uploaded(objects: Objects, id: BlobId) {
    HeaderKey(id) in objects && BodyKey(id) in objects
  }

  /** Stored blobs are the ones that were sealed. */
  ghost predicate BlobsGenuine(objects: Objects, births: map<BlobId, Birth>) {
    && (forall id | HeaderKey(id) in objects ::
         id in births && objects[HeaderKey(id)].data == HeaderObject(HeaderOf(id, births[id])))
    && (forall id | BodyKey(id) in objects ::
         id in births && objects[BodyKey(id)].data == BodyObject(BodyOf(id, births[id])))
  }

  ghost predicate AllKnown(births: map<BlobId, Birth>, m: Manifest) {
    forall p | p in m.entries :: Known(births, p, m.entries[p])
  }

  ghost predicate AllUploaded(objects: Objects, m: Manifest) {
    forall p | p in m.entries :: Uploaded(objects, m.entries[p].blobId)
  }

  /** The manifest object is the last push, and its etag counts the pushes. */
  ghost predicate ManifestIsLast(objects: Objects, history: seq<Push>) {
    && (ManifestKey in objects <==> history != [])
    && (history != [] ==>
         && objects[ManifestKey].version == |history|
         && objects[ManifestKey].data.ManifestObject?
         && objects[ManifestKey].data.manifest == history[|history| - 1].manifest)
  }

  function BaseOf(history: seq<Push>, i: nat): Manifest
    requires i <= |history|
  {
    if i == 0 then EMPTY_MANIFEST else history[i - 1].manifest
  }

  /** A push made on the first attempt: every managed path is unchanged or strictly later. */
  ghost predicate StrictPush(push: Push) {
    && (forall p | p in push.managed :: Advances(Lookup(push.manifest.entries, p), Lookup(push.base.entries, p)))
    && Clocks.Leq(push.base.clock, push.manifest.clock)
  }

  ghost predicate GoodPush(push: Push) {
    && MonotonePush(push.base, push.manifest)
    && push.base.version < push.manifest.version
    && (push.first ==> StrictPush(push))
  }

  /** A push replaced exactly the manifest its attempt had fetched. */
  ghost predicate Linked(history: seq<Push>, i: nat)
    requires i < |history|
  {
    history[i].base == BaseOf(history, i) && GoodPush(history[i])
  }

  ghost predicate Chained(history: seq<Push>) {
    forall i | 0 <= i < |history| :: Linked(history, i)
  }

  function LastVersion(history: seq<Push>): u64 {
    BaseOf(history, |history|).version
  }

  ghost predicate StoreInv(w: World) {
    && BlobsGenuine(w.objects, w.births)
    && ManifestIsLast(w.objects, w.history)
    && Chained(w.history)
    && (forall i | 0 <= i < |w.history| ::
         AllKnown(w.births, w.history[i].manifest) && AllUploaded(w.objects, w.history[i].manifest))
  }

  // ---- a device ---------------------------------------------------------------------------------

  ghost predicate CacheInv(w: World, dev: Device) {
    && AllKnown(w.births, dev.cache)
    && AllUploaded(w.objects, dev.cache)
    && dev.cache.version <= LastVersion(w.history)
    && (dev.cache.version > 0 || dev.cache.entries != map[] ==> w.history != [])
  }

  /** Since the sync began every push was some other device's, one at least per failed attempt. */
  ghost predicate OthersPushed(w: World, d: DeviceId, job: Job) {
    && job.began + job.attempt <= |w.history|
    && forall i | job.began <= i < |w.history| :: w.history[i].manifest.deviceId != d
  }

  ghost predicate JobInv(w: World, d: DeviceId, dev: Device, job: Job) {
    && AllKnown(w.births, job.local)
    && AllAgree(ReplicaOf(dev, job.local), dev.managed)
    && job.ctx.device == d
    && job.local.version == job.seenVersion <= LastVersion(w.history)
    && (job.anchored ==> w.history != [])
    && (job.attempt > 0 ==> job.local.deviceId == d)
    && OthersPushed(w, d, job)
  }

  /** The listing showed the etag of some push, not later than the last one. */
  ghost predicate ListedInv(w: World, job: Job, etag: Option<Etag>) {
    && (etag.Some? ==> etag.value.Counter? && 1 <= etag.value.n <= |w.history| && job.began + job.attempt <= etag.value.n)
    && (etag.None? ==> job.attempt == 0 && job.began == 0)
  }

  /** The manifest fetched is that push or a later one, so it is that push if the etag still holds. */
  ghost predicate FetchedInv(w: World, job: Job, etag: Option<Etag>, base: Manifest) {
    && ListedInv(w, job, etag)
    && (etag.None? ==> base == EMPTY_MANIFEST)
    && (etag.Some? ==> exists j :: etag.value.n <= j <= |w.history| && base == BaseOf(w.history, j))
  }

  ghost predicate Absorbed(dev: Device, job: Job, base: Manifest, todo: set<Path>) {
    forall p | p in dev.managed && p !in todo ::
      && Absorbs(Lookup(job.local.entries, p), Lookup(base.entries, p))
      && (job.attempt == 0 ==> Advances(Lookup(job.local.entries, p), Lookup(base.entries, p)))
  }

  ghost predicate PhaseInv(w: World, d: DeviceId, dev: Device) {
    match dev.phase
    case Idle => true
    case Uploading(job, headers, bodies) =>
      && JobInv(w, d, dev, job)
      && job.attempt == 0
      && headers <= bodies
      && bodies <= w.births.Keys
      && (forall p | p in job.local.entries ::
           && var id := job.local.entries[p].blobId;
           && (HeaderKey(id) in w.objects || id in headers)
           && (BodyKey(id) in w.objects || id in bodies))
    case Listing(job) =>
      JobInv(w, d, dev, job) && AllUploaded(w.objects, job.local) && w.history != []
    case Getting(job, etag) =>
      JobInv(w, d, dev, job) && AllUploaded(w.objects, job.local) && ListedInv(w, job, etag)
    case Applying(job, etag, base, todo) =>
      && JobInv(w, d, dev, job) && AllUploaded(w.objects, job.local)
      && FetchedInv(w, job, etag, base)
      && todo <= job.local.entries.Keys + base.entries.Keys
      && Absorbed(dev, job, base, todo)
    case Pushing(job, etag, base) =>
      && JobInv(w, d, dev, job) && AllUploaded(w.objects, job.local)
      && FetchedInv(w, job, etag, base)
      && Absorbed(dev, job, base, {})
      && job.local.deviceId == d
      && (job.attempt == 0 ==> Clocks.Leq(base.clock, job.local.clock))
    case Saving(job) =>
      && AllKnown(w.births, job.local) && AllUploaded(w.objects, job.local)
      && AllAgree(ReplicaOf(dev, job.local), dev.managed)
      && job.local.version <= LastVersion(w.history)
      && w.history != []
  }

  ghost predicate DeviceInv(w: World, d: DeviceId, dev: Device) {
    CacheInv(w, dev) && PhaseInv(w, d, dev)
  }

  ghost predicate Inv(w: World) {
    StoreInv(w) && forall d | d in w.devices :: DeviceInv(w, d, w.devices[d])
  }

  // ---- what the others see of a step --------------------------------------------------------------

  /** The store only grows, and what it gains is not by device `d`. */
  ghost predicate Grows(w: World, w': World, d: DeviceId) {
    && (forall k | k in w.objects :: k in w'.objects)
    && (forall b | b in w.births :: b in w'.births && w'.births[b] == w.births[b])
    && w.history <= w'.history
    && (forall i | |w.history| <= i < |w'.history| :: w'.history[i].manifest.deviceId != d)
    && LastVersion(w.history) <= LastVersion(w'.history)
  }

  lemma KnownStays(w: World, w': World, d: DeviceId, m: Manifest)
    requires Grows(w, w', d)
    ensures AllKnown(w.births, m) ==> AllKnown(w'.births, m)
    ensures AllUploaded(w.objects, m) ==> AllUploaded(w'.objects, m)
  {}

  lemma FetchedStays(w: World, w': World, d: DeviceId, job: Job, etag: Option<Etag>, base: Manifest)
    requires Grows(w, w', d)
    requires FetchedInv(w, job, etag, base)
    ensures FetchedInv(w', job, etag, base)
  {
    if etag.Some? {
      var j :| etag.value.n <= j <= |w.history| && base == BaseOf(w.history, j);
      assert base == BaseOf(w'.history, j);
    }
  }

  lemma JobStays(w: World, w': World, d: DeviceId, dev: Device, job: Job)
    requires Grows(w, w', d)
    requires JobInv(w, d, dev, job)
    ensures JobInv(w', d, dev, job)
  {
    KnownStays(w, w', d, job.local);
  }

  lemma UploadingStays(w: World, w': World, d: DeviceId, dev: Device)
    requires Grows(w, w', d)
    requires dev.phase.Uploading? && PhaseInv(w, d, dev)
    ensures PhaseInv(w', d, dev)
  {
    JobStays(w, w', d, dev, dev.phase.job);
  }

  lemma PhaseStays(w: World, w': World, d: DeviceId, dev: Device)
    requires Grows(w, w', d)
    requires PhaseInv(w, d, dev)
    ensures PhaseInv(w', d, dev)
  {
    match dev.phase
    case Idle =>
    case Uploading(_, _, _) => UploadingStays(w, w', d, dev);
    case Listing(job) =>
      JobStays(w, w', d, dev, job);
      KnownStays(w, w', d, job.local);
    case Getting(job, etag) =>
      JobStays(w, w', d, dev, job);
      KnownStays(w, w', d, job.local);
    case Applying(job, etag, base, todo) =>
      JobStays(w, w', d, dev, job);
      KnownStays(w, w', d, job.local);
      FetchedStays(w, w', d, job, etag, base);
    case Pushing(job, etag, base) =>
      JobStays(w, w', d, dev, job);
      KnownStays(w, w', d, job.local);
      FetchedStays(w, w', d, job, etag, base);
    case Saving(job) =>
      KnownStays(w, w', d, job.local);
  }

  lemma DeviceStays(w: World, w': World, d: DeviceId, dev: Device)
    requires Grows(w, w', d)
    requires DeviceInv(w, d, dev)
    ensures DeviceInv(w', d, dev)
  {
    KnownStays(w, w', d, dev.cache);
    PhaseStays(w, w', d, dev);
  }

  /** A step of device `d` keeps the invariant if it keeps the store's and the device's own part. */
  lemma OthersStay(w: World, w': World, d: DeviceId)
    requires Inv(w) && StoreInv(w')
    requires forall e | e != d :: (e in w.devices <==> e in w'.devices) && (e in w.devices ==> w'.devices[e] == w.devices[e])
    requires forall e | e != d :: Grows(w, w', e)
    requires d in w'.devices ==> DeviceInv(w', d, w'.devices[d])
    ensures Inv(w')
  {
    forall e | e in w'.devices ensures DeviceInv(w', e, w'.devices[e]) {
      if e != d { DeviceStays(w, w', e, w.devices[e]); }
    }
  }

  lemma GrowsReflexive(w: World, w': World, d: DeviceId)
    requires w'.objects == w.objects && w'.history == w.history && w'.births == w.births
    ensures Grows(w, w', d)
  {}
}
