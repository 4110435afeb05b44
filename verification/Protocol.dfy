/**
 Any number of devices sharing one atomic store, one step at a time: scanning, uploading a blob,
 listing, fetching, applying one path, pushing, saving the cache. Devices interleave freely and may
 stop at any point; between syncs users edit files and change what a device manages.
 */
module Protocol {
  import opened Prelude
  import opened Clocks
  import opened Manifests
  import opened Conflicts
  import opened Diffs
  import opened Sealing
  import opened Stores
  import opened Paths
  import opened Replicas

  // ---- state --------------------------------------------------------------------------------

  /** What a running sync carries: its manifest in memory and the inputs it was started with. */
  datatype Job = Job(
    local: Manifest,
    ctx: Context,
    anchored: bool,
    seenVersion: u64,
    attempt: nat,
    began: nat)

  datatype Phase =
    | Idle
    | Uploading(job: Job, headers: set<BlobId>, bodies: set<BlobId>)
    | Listing(job: Job)
    | Getting(job: Job, etag: Option<Etag>)
    | Applying(job: Job, etag: Option<Etag>, base: Manifest, todo: set<Path>)
    | Pushing(job: Job, etag: Option<Etag>, base: Manifest)
    | Saving(job: Job)

  /** The cache and the disk survive a crash; the phase does not. */
  datatype Device = Device(
    managed: Managed,
    cache: Manifest,
    disk: map<Path, File>,
    sidecars: map<Path, Bytes>,
    phase: Phase)

  /** One successful manifest put, with the manifest its attempt had fetched and merged. */
  datatype Push = Push(manifest: Manifest, base: Manifest, first: bool, managed: set<Path>)

  datatype World = World(
    objects: Objects,
    history: seq<Push>,
    births: map<BlobId, Birth>,
    devices: map<DeviceId, Device>)

  datatype Action =
    | Join(newcomer: Device)
    | Edit(disk: map<Path, File>, sidecars: map<Path, Bytes>)
    | Reconfigure(managed: Managed)
    | Start(resolver: Option<Resolver>, now: nat, ids: map<Path, BlobId>)
    | UploadHeader(id: BlobId)
    | UploadBody(id: BlobId)
    | ListManifest
    | GetManifest
    | ApplyOne(path: Path, id: BlobId)
    | ApplyDone
    | PushManifest(len: nat)
    | Save
    | Crash

  function ReplicaOf(dev: Device, local: Manifest): Replica {
    Replica(local, dev.disk, dev.sidecars)
  }

  function HeaderOf(id: BlobId, b: Birth): Header {
    SealHeader(id, b.path, b.entry.aadVersion)
  }

  function BodyOf(id: BlobId, b: Birth): Body {
    SealBody(id, b.path, b.entry.aadVersion, b.plaintext)
  }

  // ---- what the store answers -----------------------------------------------------------------

  function Fetch(objects: Objects, etag: Option<Etag>, job: Job): Result<(Manifest, Option<Etag>, bool), SyncError> {
    FetchManifest(objects, etag, job.anchored, job.seenVersion, job.ctx.now)
  }

  function Accept(fetched: Result<(Manifest, Option<Etag>, bool), SyncError>, job: Job)
    : Result<(Manifest, Option<Etag>), SyncError>
  {
    AcceptFetched(fetched, job.attempt > 0, job.anchored)
  }

  // ---- steps ------------------------------------------------------------------------------------

  function SetPhase(w: World, d: DeviceId, phase: Phase): World
    requires d in w.devices
  {
    w.(devices := w.devices[d := w.devices[d].(phase := phase)])
  }

  predicate FreshIds(w: World, ids: map<Path, BlobId>) {
    && (forall p | p in ids :: ids[p] !in w.births)
    && (forall p, q | p in ids && q in ids && p != q :: ids[p] != ids[q])
  }

  /** Counters stay below the largest 64-bit value. */
  predicate RoomToBump(local: Manifest, device: DeviceId) {
    && Get(local.clock, device) < U64_MAX
    && (forall p | p in local.entries :: Get(local.entries[p].clock, device) < U64_MAX)
  }

  /** `births` is `old` plus one birth for every blob the scan sealed. */
  ghost predicate ScanBirths(known: map<BlobId, Birth>, births: map<BlobId, Birth>, scanned: Manifest,
      disk: map<Path, File>, ids: map<Path, BlobId>)
  {
    && births.Keys == known.Keys + ids.Values
    && (forall b | b in known :: b in births && births[b] == known[b])
    && (forall p | p in ids :: p in scanned.entries && p in disk && ids[p] in births
         && births[ids[p]] == Birth(p, disk[p].bytes, scanned.entries[p]))
  }

  ghost predicate StartStep(w: World, d: DeviceId, resolver: Option<Resolver>, now: nat, ids: map<Path, BlobId>, w': World) {
    && d in w.devices
    && var dev := w.devices[d];
    && dev.phase.Idle?
    && RoomToBump(dev.cache, d)
    && ids.Keys == Staged(ReplicaOf(dev, dev.cache), dev.managed)
    && FreshIds(w, ids)
    && var scanned := ScanAll(ReplicaOf(dev, dev.cache), dev.managed, d, ids).local;
    && var job := Job(scanned, Context(d, resolver, now), dev.cache.version > 0 || dev.cache.entries != map[],
         dev.cache.version, 0, |w.history|);
    && ScanBirths(w.births, w'.births, scanned, dev.disk, ids)
    && w' == SetPhase(w, d, Uploading(job, ids.Values, ids.Values)).(births := w'.births)
  }

  ghost predicate ApplyStep(w: World, d: DeviceId, p: Path, id: BlobId, w': World) {
    && d in w.devices
    && var dev := w.devices[d];
    && dev.phase.Applying?
    && p in dev.phase.todo
    && var job, base := dev.phase.job, dev.phase.base;
    && (p in job.local.entries || p in base.entries)
    && var op := ClassifyAt(job.local.entries, base.entries, p);
    if p !in dev.managed then
      w' == SetPhase(w, d, dev.phase.(todo := dev.phase.todo - {p}))
    else
      var policy, retry := dev.managed[p], job.attempt > 0;
      var s := At(ReplicaOf(dev, job.local), p);
      if Reads(job.ctx, policy, op, retry) && FetchBlob(w.objects, p, op.remote).Err? then
        w' == SetPhase(w, d, Idle)
      else if retry then
        w' == Settle(w, d, p, RetryPath(op, s, job.ctx.now))
      else
        match ApplyPath(job.ctx, policy, op, job.local.version, s, id)
        case Failed(_) => w' == SetPhase(w, d, Idle)
        case Stopped => w' == SetPhase(w, d, Saving(job))
        case Applied(s') =>
          && (op.Conflicting? ==> Get(Merge(op.local.clock, op.remote.clock), d) < U64_MAX)
          && if UsesFreshId(job.ctx, policy, op) then
               && id !in w.births
               && s.file.Some?
               && w' == Publish(Settle(w, d, p, s'), id, Birth(p, s.file.value.bytes, s'.entry.value))
             else w' == Settle(w, d, p, s')
  }

  /** The path is done: its new state is recorded in the manifest in memory and on disk. */
  function Settle(w: World, d: DeviceId, p: Path, s: PathState): World
    requires d in w.devices && w.devices[d].phase.Applying?
  {
    var dev := w.devices[d];
    var r := With(ReplicaOf(dev, dev.phase.job.local), p, s);
    w.(devices := w.devices[d := dev.(
      disk := r.disk,
      sidecars := r.sidecars,
      phase := dev.phase.(job := dev.phase.job.(local := r.local), todo := dev.phase.todo - {p}))])
  }

  /** Both blobs of a resealed file are put; no other device can name them yet. */
  function Publish(w: World, id: BlobId, b: Birth): World {
    var withHeader := AfterPut(w.objects, HeaderKey(id), HeaderObject(HeaderOf(id, b)));
    w.(objects := AfterPut(withHeader, BodyKey(id), BodyObject(BodyOf(id, b))), births := w.births[id := b])
  }

  ghost predicate PushStep(w: World, d: DeviceId, len: nat, w': World) {
    && d in w.devices
    && var dev := w.devices[d];
    && dev.phase.Pushing?
    && var job, base := dev.phase.job, dev.phase.base;
    && Max(job.local.version, base.version) < U64_MAX
    && var out := Outgoing(job.local, base, dev.managed.Keys);
    if GuardHolds(w.objects, ManifestKey, PutGuard(dev.phase.etag)) then
      w' == SetPhase(w, d, Saving(job.(local := job.local.(version := out.version)))).(
        objects := AfterPut(w.objects, ManifestKey, ManifestObject(out, job.ctx.now, len)),
        history := w.history + [Push(out, base, job.attempt == 0, dev.managed.Keys)])
    else if job.attempt + 1 < MAX_CAS_RETRIES then
      w' == SetPhase(w, d, Listing(job.(attempt := job.attempt + 1)))
    else
      w' == SetPhase(w, d, Idle)
  }

  ghost predicate GetStep(w: World, d: DeviceId, w': World) {
    && d in w.devices
    && var dev := w.devices[d];
    && dev.phase.Getting?
    && var job := dev.phase.job;
    match Accept(Fetch(w.objects, dev.phase.etag, job), job)
    case Err(_) => w' == SetPhase(w, d, Idle)
    case Ok((base, etag)) =>
      w' == SetPhase(w, d, Applying(job, etag, base, job.local.entries.Keys + base.entries.Keys))
  }

  ghost predicate Step(w: World, d: DeviceId, a: Action, w': World) {
    match a
    case Join(newcomer) =>
      && d !in w.devices
      && newcomer.phase.Idle? && newcomer.cache == EMPTY_MANIFEST.(deviceId := d)
      && w' == w.(devices := w.devices[d := newcomer])
    case Edit(disk, sidecars) =>
      && d in w.devices && w.devices[d].phase.Idle?
      && w' == w.(devices := w.devices[d := w.devices[d].(disk := disk, sidecars := sidecars)])
    case Reconfigure(managed) =>
      && d in w.devices && w.devices[d].phase.Idle?
      && w' == w.(devices := w.devices[d := w.devices[d].(managed := managed)])
    case Start(resolver, now, ids) => StartStep(w, d, resolver, now, ids, w')
    case UploadHeader(id) =>
      && d in w.devices && w.devices[d].phase.Uploading?
      && var ph := w.devices[d].phase;
      && id in ph.headers && id in w.births
      && w' == SetPhase(w, d, ph.(headers := ph.headers - {id})).(
           objects := AfterPut(w.objects, HeaderKey(id), HeaderObject(HeaderOf(id, w.births[id]))))
    case UploadBody(id) =>
      && d in w.devices && w.devices[d].phase.Uploading?
      && var ph := w.devices[d].phase;
      && id in ph.bodies && id !in ph.headers && id in w.births
      && w' == SetPhase(w, d, ph.(bodies := ph.bodies - {id})).(
           objects := AfterPut(w.objects, BodyKey(id), BodyObject(BodyOf(id, w.births[id]))))
    case ListManifest =>
      && d in w.devices
      && var dev := w.devices[d];
      && (dev.phase.Listing? || (dev.phase.Uploading? && dev.phase.bodies == {}))
      && w' == SetPhase(w, d, Getting(dev.phase.job, ListedEtag(w.objects)))
    case GetManifest => GetStep(w, d, w')
    case ApplyOne(p, id) => ApplyStep(w, d, p, id, w')
    case ApplyDone =>
      && d in w.devices
      && var ph := w.devices[d].phase;
      && ph.Applying? && ph.todo == {}
      && w' == SetPhase(w, d, Pushing(
           if ph.job.attempt == 0 then ph.job.(local := Finish(ph.job.local, ph.base, d))
           else ph.job, ph.etag, ph.base))
    case PushManifest(len) => PushStep(w, d, len, w')
    case Save =>
      && d in w.devices
      && var dev := w.devices[d];
      && dev.phase.Saving?
      && w' == w.(devices := w.devices[d := dev.(cache := dev.phase.job.local, phase := Idle)])
    case Crash =>
      && d in w.devices
      && w' == SetPhase(w, d, Idle)
  }

  const NOTHING_YET := World(map[], [], map[], map[])

  ghost predicate SomeStep(w: World, w': World) {
    exists d, a :: Step(w, d, a, w')
  }

  /** A run: each state leads to the next by one step of some device. */
  ghost predicate IsRun(run: seq<World>) {
    && run != []
    && run[0] == NOTHING_YET
    && forall i | 0 <= i < |run| - 1 :: SomeStep(run[i], run[i + 1])
  }
}
