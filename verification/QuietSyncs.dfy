/**
 A sync of the step system that nobody else disturbs: its steps, from the start to the saving of
 its cache, lead to exactly the state the specification of a sync gives.
 */
module QuietSyncs {
  import opened Prelude
  import opened Clocks
  import opened Manifests
  import opened Conflicts
  import opened Diffs
  import opened Sealing
  import opened Stores
  import opened Paths
  import opened Replicas
  import opened SyncModel
  import opened Protocol
  import opened ProtocolInvariant
  import opened ProtocolSteps
  import opened ProtocolTheorems
  import Progress

  // ---- what is to happen --------------------------------------------------------------------------

  /** A sync about to start in a state of the world, with the ids it will draw. */
  datatype Plan = Plan(start: World, ctx: Context, ids: map<Path, BlobId>, reseals: map<Path, BlobId>)

  function StoreOf(w: World): Manifest {
    BaseOf(w.history, |w.history|)
  }

  function DeviceOf(q: Plan): Device
    requires q.ctx.device in q.start.devices
  {
    q.start.devices[q.ctx.device]
  }

  function Before(q: Plan): Replica
    requires q.ctx.device in q.start.devices
  {
    ReplicaOf(DeviceOf(q), DeviceOf(q).cache)
  }

  function Scanned(q: Plan): Replica
    requires q.ctx.device in q.start.devices
  {
    ScanAll(Before(q), DeviceOf(q).managed, q.ctx.device, q.ids)
  }

  /** What the specification says the sync ends in, and what it pushes. */
  function EndOf(q: Plan): (Replica, Manifest)
    requires q.ctx.device in q.start.devices
  {
    SyncOver(Before(q), DeviceOf(q).managed, q.ctx, [StoreOf(q.start)], q.ids, q.reseals)
  }

  function JobOf(q: Plan): Job
    requires q.ctx.device in q.start.devices
  {
    var cache := DeviceOf(q).cache;
    Job(Scanned(q).local, q.ctx, cache.version > 0 || cache.entries != map[], cache.version, 0, |q.start.history|)
  }

  predicate Concerned(q: Plan, p: Path)
    requires q.ctx.device in q.start.devices
  {
    Concerns(Scanned(q), DeviceOf(q).managed, StoreOf(q.start), p)
  }

  function OpAt(q: Plan, p: Path): DiffOp
    requires q.ctx.device in q.start.devices && Concerned(q, p)
  {
    ClassifyAt(Scanned(q).local.entries, StoreOf(q.start).entries, p)
  }

  /** What one managed path needs: a fresh id if it is sealed again, room in its counters, content within the cap. */
  predicate PathGoes(q: Plan, p: Path)
    requires q.ctx.device in q.start.devices && Concerned(q, p)
  {
    var op := OpAt(q, p);
    && (UsesFreshId(q.ctx, DeviceOf(q).managed[p], op) ==> p in q.reseals)
    && (op.Conflicting? ==> Get(Merge(op.local.clock, op.remote.clock), q.ctx.device) < U64_MAX)
    && (p in StoreOf(q.start).entries ==> StoreOf(q.start).entries[p].size <= MAX_BLOB_BYTES - NONCE_LEN - TAG_LEN)
  }

  /** The store's manifest is within the size cap and the time windows. */
  predicate Served(q: Plan)
    requires q.ctx.device in q.start.devices
  {
    var objects := q.start.objects;
    ManifestKey in objects && objects[ManifestKey].data.ManifestObject? ==>
      && objects[ManifestKey].data.len <= MAX_MANIFEST_OBJECT_BYTES
      && Freshness(objects[ManifestKey].data.sealedAt, JobOf(q).anchored, q.ctx.now).None?
  }

  /** Everything a sync needs to run to its end. */
  ghost predicate Ready(q: Plan) {
    && q.ctx.device in q.start.devices
    && DeviceOf(q).phase.Idle?
    && RoomToBump(DeviceOf(q).cache, q.ctx.device)
    && Max(DeviceOf(q).cache.version, StoreOf(q.start).version) < U64_MAX
    && q.ids.Keys == Staged(Before(q), DeviceOf(q).managed)
    && FreshIds(q.start, q.ids) && FreshIds(q.start, q.reseals)
    && q.ids.Values !! q.reseals.Values
    && Served(q)
    && Completes(Scanned(q), DeviceOf(q).managed, q.ctx, StoreOf(q.start), q.reseals)
    && forall p | Concerned(q, p) :: PathGoes(q, p)
  }

  /** The sync is over: the device is in the specified state, one push was made, nothing else changed. */
  ghost predicate Finished(q: Plan, w: World, len: nat) {
    && q.ctx.device in q.start.devices
    && var (after, out) := EndOf(q);
    && w.devices == q.start.devices[q.ctx.device :=
         DeviceOf(q).(cache := after.local, disk := after.disk, sidecars := after.sidecars)]
    && w.history == q.start.history + [Push(out, StoreOf(q.start), true, DeviceOf(q).managed.Keys)]
    && StoredManifest(w) == Some(ManifestObject(out, q.ctx.now, len))
  }

  function StoredManifest(w: World): Option<Object> {
    if ManifestKey in w.objects then Some(w.objects[ManifestKey].data) else None
  }

  // ---- runs that only this device extends -----------------------------------------------------------

  /** The other devices stand still, and each file and copy of this one is as before or as it will be. */
  ghost predicate Calm(q: Plan, w: World) {
    && q.ctx.device in q.start.devices && q.ctx.device in w.devices
    && (forall e | e != q.ctx.device :: Lookup(w.devices, e) == Lookup(q.start.devices, e))
    && (forall p :: FileBetween(q, w, p))
  }

  predicate FileBetween(q: Plan, w: World, p: Path)
    requires q.ctx.device in q.start.devices && q.ctx.device in w.devices
  {
    var file, copy := Lookup(w.devices[q.ctx.device].disk, p), Lookup(w.devices[q.ctx.device].sidecars, p);
    && (file == Lookup(DeviceOf(q).disk, p) || file == Lookup(EndOf(q).0.disk, p))
    && (copy == Lookup(DeviceOf(q).sidecars, p) || copy == Lookup(EndOf(q).0.sidecars, p))
  }

  /** The steps of a sync: what is left when joining, edits, new configurations and crashes are taken away. */
  predicate OfASync(a: Action) {
    !a.Join? && !a.Edit? && !a.Reconfigure? && !a.Crash?
  }

  ghost predicate SyncStep(w: World, d: DeviceId, w': World) {
    exists a :: OfASync(a) && Step(w, d, a, w')
  }

  predicate AtRest(w: World, d: DeviceId) {
    d in w.devices && w.devices[d].phase.Idle?
  }

  /** From the end of the run on only this device takes steps, all of its sync, and it does not come to rest in between. */
  ghost predicate OneSync(run: seq<World>, d: DeviceId, longer: seq<World>) {
    && run != [] && run <= longer
    && (forall k | |run| <= k < |longer| :: SyncStep(longer[k - 1], d, longer[k]))
    && (forall k | |run| <= k < |longer| - 1 :: !AtRest(longer[k], d))
  }

  ghost predicate Continues(q: Plan, run: seq<World>, longer: seq<World>) {
    && IsRun(longer) && OneSync(run, q.ctx.device, longer)
    && (forall k | |run| <= k < |longer| :: Calm(q, longer[k]))
  }

  function Last(run: seq<World>): World
    requires run != []
  {
    run[|run| - 1]
  }

  lemma Goes(q: Plan, run: seq<World>, longer: seq<World>, a: Action, w: World) returns (more: seq<World>)
    requires Continues(q, run, longer) && Step(Last(longer), q.ctx.device, a, w) && Calm(q, w)
    requires OfASync(a) && (a.Start? ==> longer == run)
    ensures Continues(q, run, more) && Last(more) == w
  {
    more := longer + [w];
    assert SomeStep(Last(longer), w) && SyncStep(Last(longer), q.ctx.device, w);
    if !a.Start? { MovesFromMotion(Last(longer), q.ctx.device, a, w); }
    hide Step, SomeStep, Calm, SyncStep, AtRest, IsRun, OneSync;
    LongerRun(longer, w);
    LongerSync(run, q.ctx.device, longer, w);
  }

  lemma LongerRun(run: seq<World>, w: World)
    requires IsRun(run) && SomeStep(run[|run| - 1], w)
    ensures IsRun(run + [w])
  {
    hide SomeStep;
    var more := run + [w];
    forall i | 0 <= i < |more| - 1 ensures SomeStep(more[i], more[i + 1]) {
      if i < |run| - 1 { assert SomeStep(run[i], run[i + 1]); }
    }
  }

  lemma LongerSync(run: seq<World>, d: DeviceId, longer: seq<World>, w: World)
    requires OneSync(run, d, longer) && SyncStep(Last(longer), d, w) && (longer != run ==> !AtRest(Last(longer), d))
    ensures OneSync(run, d, longer + [w])
  {
    hide SyncStep, AtRest;
    var more := longer + [w];
    forall k | |run| <= k < |more| ensures SyncStep(more[k - 1], d, more[k]) {
      if k < |longer| { assert SyncStep(longer[k - 1], d, longer[k]); }
    }
    forall k | |run| <= k < |more| - 1 ensures !AtRest(more[k], d) {
      if k < |longer| - 1 { assert !AtRest(longer[k], d); }
    }
  }

  /** But for the start, a step of a sync is one of a device in motion. */
  lemma MovesFromMotion(w: World, d: DeviceId, a: Action, w': World)
    requires Step(w, d, a, w') && OfASync(a) && !a.Start?
    ensures !AtRest(w, d)
  {}

  // ---- start and uploads ------------------------------------------------------------------------------

  ghost function PathOf(ids: map<Path, BlobId>, id: BlobId): Path
    requires id in ids.Values
  {
    var p :| p in ids && ids[p] == id;
    p
  }

  ghost function BirthOf(q: Plan, p: Path): Birth
    requires q.ctx.device in q.start.devices
  {
    var e := Lookup(Scanned(q).local.entries, p);
    var f := Lookup(DeviceOf(q).disk, p);
    if e.Some? && f.Some? then Birth(p, f.value.bytes, e.value) else Birth(p, [], SealedEntry(0, 0, map[], [], 0))
  }

  ghost function BirthsOf(q: Plan): map<BlobId, Birth>
    requires q.ctx.device in q.start.devices
  {
    map b | b in q.start.births.Keys + q.ids.Values ::
      if b in q.start.births then q.start.births[b] else BirthOf(q, PathOf(q.ids, b))
  }

  ghost function Started(q: Plan): World
    requires q.ctx.device in q.start.devices
  {
    SetPhase(q.start, q.ctx.device, Uploading(JobOf(q), q.ids.Values, q.ids.Values)).(births := BirthsOf(q))
  }

  lemma BirthsAreScanned(q: Plan)
    requires Ready(q)
    ensures ScanBirths(q.start.births, BirthsOf(q), Scanned(q).local, DeviceOf(q).disk, q.ids)
  {
    var births := BirthsOf(q);
    forall p | p in q.ids
      ensures p in Scanned(q).local.entries && p in DeviceOf(q).disk && q.ids[p] in births
      ensures births[q.ids[p]] == Birth(p, DeviceOf(q).disk[p].bytes, Scanned(q).local.entries[p])
    {
      ScanAllAt(Before(q), DeviceOf(q).managed, q.ctx.device, q.ids, p);
      assert p in Staged(Before(q), DeviceOf(q).managed);
      assert PathOf(q.ids, q.ids[p]) == p;
    }
  }

  lemma Starts(q: Plan, run: seq<World>) returns (longer: seq<World>)
    requires IsRun(run) && Last(run) == q.start && Ready(q)
    ensures Continues(q, run, longer) && Last(longer) == Started(q)
  {
    BirthsAreScanned(q);
    StartedIsCalm(q);
    hide Ready, BirthsOf, Calm, IsRun;
    assert StartStep(q.start, q.ctx.device, q.ctx.resolver, q.ctx.now, q.ids, Started(q)) by { StartStepHolds(q); }
    longer := Goes(q, run, run, Start(q.ctx.resolver, q.ctx.now, q.ids), Started(q));
  }

  lemma StartStepHolds(q: Plan)
    requires Ready(q) && ScanBirths(q.start.births, BirthsOf(q), Scanned(q).local, DeviceOf(q).disk, q.ids)
    ensures StartStep(q.start, q.ctx.device, q.ctx.resolver, q.ctx.now, q.ids, Started(q))
  {
    hide BirthsOf, ScanBirths, ScanAll, Completes, Served;
  }

  lemma StartedIsCalm(q: Plan)
    requires q.ctx.device in q.start.devices
    ensures Calm(q, Started(q))
  {
    hide EndOf, BirthsOf, ScanAll;
  }

  /** The device is in the given phase, and nothing has changed but blobs. */
  ghost predicate InPhase(q: Plan, w: World, phase: Phase) {
    && q.ctx.device in q.start.devices
    && w.devices == q.start.devices[q.ctx.device := DeviceOf(q).(phase := phase)]
    && w.history == q.start.history
    && w.births == BirthsOf(q)
    && Lookup(w.objects, ManifestKey) == Lookup(q.start.objects, ManifestKey)
  }

  lemma InPhaseIsCalm(q: Plan, w: World, phase: Phase)
    requires InPhase(q, w, phase)
    ensures Calm(q, w)
  {
    hide EndOf, BirthsOf;
  }

  lemma {:induction false} Uploads(q: Plan, run: seq<World>, longer: seq<World>, headers: set<BlobId>, bodies: set<BlobId>)
    returns (more: seq<World>)
    requires q.ctx.device in q.start.devices
    requires Continues(q, run, longer) && InPhase(q, Last(longer), Uploading(JobOf(q), headers, bodies))
    requires headers <= bodies <= BirthsOf(q).Keys
    ensures Continues(q, run, more) && InPhase(q, Last(more), Uploading(JobOf(q), {}, {}))
    decreases |headers| + |bodies|
  {
    hide JobOf, BirthsOf, Calm;
    more := longer;
    var w, d := Last(longer), q.ctx.device;
    var ph := Uploading(JobOf(q), headers, bodies);
    if headers != {} {
      var id :| id in headers;
      var next := ph.(headers := headers - {id});
      var w' := SetPhase(w, d, next).(objects := AfterPut(w.objects, HeaderKey(id), HeaderObject(HeaderOf(id, w.births[id]))));
      InPhaseIsCalm(q, w', next);
      more := Goes(q, run, longer, UploadHeader(id), w');
      more := Uploads(q, run, more, headers - {id}, bodies);
    } else if bodies != {} {
      var id :| id in bodies;
      var next := ph.(bodies := bodies - {id});
      var w' := SetPhase(w, d, next).(objects := AfterPut(w.objects, BodyKey(id), BodyObject(BodyOf(id, w.births[id]))));
      InPhaseIsCalm(q, w', next);
      more := Goes(q, run, longer, UploadBody(id), w');
      more := Uploads(q, run, more, headers, bodies - {id});
    }
  }
  // ---- the fetch --------------------------------------------------------------------------------------

  function EtagOf(q: Plan): Option<Etag> {
    ListedEtag(q.start.objects)
  }

  lemma Lists(q: Plan, run: seq<World>, longer: seq<World>) returns (more: seq<World>)
    requires q.ctx.device in q.start.devices
    requires Continues(q, run, longer) && InPhase(q, Last(longer), Uploading(JobOf(q), {}, {}))
    ensures Continues(q, run, more) && InPhase(q, Last(more), Getting(JobOf(q), EtagOf(q)))
  {
    hide JobOf, BirthsOf, Calm;
    var w := Last(longer);
    var w' := SetPhase(w, q.ctx.device, Getting(JobOf(q), ListedEtag(w.objects)));
    SameListing(w.objects, q.start.objects);
    InPhaseIsCalm(q, w', Getting(JobOf(q), EtagOf(q)));
    more := Goes(q, run, longer, ListManifest, w');
  }

  lemma SameListing(a: Objects, b: Objects)
    requires Lookup(a, ManifestKey) == Lookup(b, ManifestKey)
    ensures ListedEtag(a) == ListedEtag(b)
    ensures forall etag, anchored, seen, now :: FetchManifest(a, etag, anchored, seen, now) == FetchManifest(b, etag, anchored, seen, now)
    ensures forall want :: GuardHolds(a, ManifestKey, want) <==> GuardHolds(b, ManifestKey, want)
  {}

  /** In an honest run the first fetch is accepted and returns the last push. */
  lemma FetchIsAccepted(q: Plan)
    requires Ready(q) && Inv(q.start)
    ensures Accept(Fetch(q.start.objects, EtagOf(q), JobOf(q)), JobOf(q)) == Ok((StoreOf(q.start), EtagOf(q)))
  {
    var w, job := q.start, JobOf(q);
    CacheOf(w, q.ctx.device);
    assert StoreInv(w);
    StoreHas(w);
    if w.history != [] {
      assert StoreOf(w) == w.history[|w.history| - 1].manifest;
    }
    hide Inv, StoreInv, Completes, RoomToBump, ScanAll, FreshIds;
  }

  ghost predicate ApplyingPhase(q: Plan, w: World, todo: set<Path>)
    requires q.ctx.device in q.start.devices
  {
    InPhase(q, w, Applying(JobOf(q), EtagOf(q), StoreOf(q.start), todo))
  }

  function AllPaths(q: Plan): set<Path>
    requires q.ctx.device in q.start.devices
  {
    Scanned(q).local.entries.Keys + StoreOf(q.start).entries.Keys
  }

  lemma Gets(q: Plan, run: seq<World>, longer: seq<World>) returns (more: seq<World>)
    requires Ready(q) && Inv(q.start)
    requires Continues(q, run, longer) && InPhase(q, Last(longer), Getting(JobOf(q), EtagOf(q)))
    ensures Continues(q, run, more) && ApplyingPhase(q, Last(more), AllPaths(q))
  {
    FetchIsAccepted(q);
    hide BirthsOf, Calm, Ready, Inv, Fetch, Accept, ScanAll;
    var w, d := Last(longer), q.ctx.device;
    SameListing(w.objects, q.start.objects);
    var phase := Applying(JobOf(q), EtagOf(q), StoreOf(q.start), AllPaths(q));
    var w' := SetPhase(w, d, phase);
    SameFetch(q, w);
    InPhaseIsCalm(q, w', phase);
    more := Goes(q, run, longer, GetManifest, w');
  }

  lemma SameFetch(q: Plan, w: World)
    requires q.ctx.device in q.start.devices && Lookup(w.objects, ManifestKey) == Lookup(q.start.objects, ManifestKey)
    ensures Fetch(w.objects, EtagOf(q), JobOf(q)) == Fetch(q.start.objects, EtagOf(q), JobOf(q))
  {
    SameListing(w.objects, q.start.objects);
    hide ScanAll;
  }

  // ---- applying ---------------------------------------------------------------------------------------

  /** Some paths are still to do; the others are in the state the whole sync gives them. */
  ghost predicate Midway(q: Plan, w: World, todo: set<Path>) {
    && q.ctx.device in q.start.devices && q.ctx.device in w.devices
    && var dev := w.devices[q.ctx.device];
    && dev.phase.Applying?
    && var local := dev.phase.job.local;
    && dev == DeviceOf(q).(disk := dev.disk, sidecars := dev.sidecars, phase := dev.phase)
    && dev.phase == Applying(JobOf(q).(local := local), EtagOf(q), StoreOf(q.start), todo)
    && todo <= AllPaths(q)
    && Progress.Applying(ReplicaOf(dev, local), Scanned(q), DeviceOf(q).managed, q.ctx, StoreOf(q.start), q.reseals,
         AllPaths(q) - todo)
    && (forall e | e != q.ctx.device :: Lookup(w.devices, e) == Lookup(q.start.devices, e))
    && w.history == q.start.history
    && Lookup(w.objects, ManifestKey) == Lookup(q.start.objects, ManifestKey)
  }

  /** And only the blobs that were planned have been sealed. */
  ghost predicate Halfway(q: Plan, w: World, todo: set<Path>) {
    && Midway(q, w, todo)
    && (forall b | b in w.births :: b in BirthsOf(q) || exists p :: p in q.reseals && p !in todo && q.reseals[p] == b)
  }

  lemma HalfwayStarts(q: Plan, w: World)
    requires q.ctx.device in q.start.devices && ApplyingPhase(q, w, AllPaths(q))
    ensures Halfway(q, w, AllPaths(q))
  {
    assert AllPaths(q) - AllPaths(q) == {};
    ScanKeepsFiles(q);
    hide ScanAll, BirthsOf, Progress.Applying;
    Progress.ApplyingStarts(Scanned(q), DeviceOf(q).managed, q.ctx, StoreOf(q.start), q.reseals);
    var dev := w.devices[q.ctx.device];
    assert ReplicaOf(dev, dev.phase.job.local) == Scanned(q);
  }

  lemma ScanKeepsFiles(q: Plan)
    requires q.ctx.device in q.start.devices
    ensures Scanned(q).disk == DeviceOf(q).disk && Scanned(q).sidecars == DeviceOf(q).sidecars
    ensures Scanned(q).local.version == DeviceOf(q).cache.version
  {}

  /** So each file is as before or as it will be. */
  lemma HalfwayIsCalm(q: Plan, w: World, todo: set<Path>)
    requires Midway(q, w, todo)
    ensures Calm(q, w)
  {
    var dev := w.devices[q.ctx.device];
    var s := ReplicaOf(dev, dev.phase.job.local);
    forall p ensures FileBetween(q, w, p) {
      FinishedAt(Before(q), DeviceOf(q).managed, q.ctx, StoreOf(q.start), q.ids, q.reseals, p);
      ScanAllAt(Before(q), DeviceOf(q).managed, q.ctx.device, q.ids, p);
      hide ScanAll, SyncOver, PathAfter, BirthsOf;
      assert At(s, p).file == Lookup(dev.disk, p) && At(s, p).sidecar == Lookup(dev.sidecars, p);
      assert At(Scanned(q), p).file == Lookup(DeviceOf(q).disk, p) && At(Scanned(q), p).sidecar == Lookup(DeviceOf(q).sidecars, p);
    }
  }
  /** What the step meets at a path that is still to do. */
  lemma AtPath(q: Plan, w: World, todo: set<Path>, p: Path)
    requires Midway(q, w, todo) && p in todo
    ensures var dev := w.devices[q.ctx.device];
      var local := dev.phase.job.local;
      && (p in local.entries || p in StoreOf(q.start).entries)
      && (p in dev.managed <==> Concerned(q, p))
      && (Concerned(q, p) ==> ClassifyAt(local.entries, StoreOf(q.start).entries, p) == OpAt(q, p))
      && At(ReplicaOf(dev, local), p) == At(Scanned(q), p)
      && local.version == Scanned(q).local.version
  {
    hide ScanAll, BirthsOf, Classify;
    var dev := w.devices[q.ctx.device];
    var s := ReplicaOf(dev, dev.phase.job.local);
    assert At(s, p) == At(Scanned(q), p);
    assert Lookup(s.local.entries, p) == Lookup(Scanned(q).local.entries, p);
  }

  /** No blob the step reads is missing or refused. */
  lemma ReadsSucceed(q: Plan, run: seq<World>, todo: set<Path>, p: Path)
    requires IsRun(run) && Halfway(q, Last(run), todo) && Concerned(q, p) && PathGoes(q, p)
    requires Reads(q.ctx, DeviceOf(q).managed[p], OpAt(q, p), false)
    ensures FetchBlob(Last(run).objects, p, OpAt(q, p).remote).Ok?
  {
    assert run != [];
    hide ScanAll, FetchBlob, IsRun, Progress.Applying, BirthsOf;
    RemoteOf(p, Lookup(Scanned(q).local.entries, p), Lookup(StoreOf(q.start).entries, p));
    HonestPullSucceedsIff(run, |run| - 1, q.ctx.device, p);
  }

  lemma RemoteOf(p: Path, l: Option<Entry>, r: Option<Entry>)
    requires l.Some? || r.Some?
    ensures var op := Classify(p, l, r); op.PullLocal? || op.Conflicting? ==> r == Some(op.remote)
  {}

  /** The world after the step settles the path. */
  lemma SettledMidway(q: Plan, w: World, todo: set<Path>, p: Path, state: PathState)
    requires Midway(q, w, todo) && p in todo && Concerned(q, p)
    requires OutcomeAt(Scanned(q), DeviceOf(q).managed, q.ctx, StoreOf(q.start), q.reseals, p) == Applied(state)
    ensures Midway(q, Settle(w, q.ctx.device, p, state), todo - {p})
  {
    var dev := w.devices[q.ctx.device];
    var s := ReplicaOf(dev, dev.phase.job.local);
    hide ScanAll, BirthsOf, Progress.Applying, OutcomeAt, Concerns;
    Progress.PathApplies(s, Scanned(q), DeviceOf(q).managed, q.ctx, StoreOf(q.start), q.reseals, AllPaths(q) - todo, p, With(s, p, state));
    WithAt(s, p, state, p);
    assert AllPaths(q) - (todo - {p}) == AllPaths(q) - todo + {p};
    var w' := Settle(w, q.ctx.device, p, state);
    var dev' := w'.devices[q.ctx.device];
    WithHead(s, p, state);
    hide With;
    assert ReplicaOf(dev', dev'.phase.job.local) == With(s, p, state);
  }

  lemma SettledHalfway(q: Plan, w: World, todo: set<Path>, p: Path, state: PathState)
    requires Halfway(q, w, todo) && p in todo && Concerned(q, p)
    requires OutcomeAt(Scanned(q), DeviceOf(q).managed, q.ctx, StoreOf(q.start), q.reseals, p) == Applied(state)
    ensures Halfway(q, Settle(w, q.ctx.device, p, state), todo - {p})
  {
    SettledMidway(q, w, todo, p, state);
    hide ScanAll, BirthsOf, Midway, OutcomeAt, Concerned, With;
    assert q.ctx.device in w.devices && w.devices[q.ctx.device].phase.Applying? by { MidwayIsApplying(q, w, todo); }
    assert Settle(w, q.ctx.device, p, state).births == w.births;
  }

  lemma MidwayIsApplying(q: Plan, w: World, todo: set<Path>)
    requires Midway(q, w, todo)
    ensures q.ctx.device in w.devices && w.devices[q.ctx.device].phase.Applying?
  {}

  lemma WithHead(s: Replica, p: Path, state: PathState)
    ensures With(s, p, state).local == s.local.(entries := With(s, p, state).local.entries, resolutions := With(s, p, state).local.resolutions)
  {}

  lemma SkippedMidway(q: Plan, w: World, todo: set<Path>, p: Path)
    requires Midway(q, w, todo) && p in todo && !Concerned(q, p)
    ensures Midway(q, SetPhase(w, q.ctx.device, w.devices[q.ctx.device].phase.(todo := todo - {p})), todo - {p})
  {
    var dev := w.devices[q.ctx.device];
    hide ScanAll, BirthsOf, Progress.Applying, Concerns, JobOf, EtagOf, AllPaths, StoreOf;
    Progress.IdleApplies(ReplicaOf(dev, dev.phase.job.local), Scanned(q), DeviceOf(q).managed, q.ctx, StoreOf(q.start), q.reseals,
      AllPaths(q) - todo, p);
    assert AllPaths(q) - (todo - {p}) == AllPaths(q) - todo + {p};
  }

  lemma SkippedHalfway(q: Plan, w: World, todo: set<Path>, p: Path)
    requires Halfway(q, w, todo) && p in todo && !Concerned(q, p)
    ensures Halfway(q, SetPhase(w, q.ctx.device, w.devices[q.ctx.device].phase.(todo := todo - {p})), todo - {p})
  {
    SkippedMidway(q, w, todo, p);
    hide ScanAll, BirthsOf, Midway, Concerned;
    MidwayIsApplying(q, w, todo);
  }

  lemma PublishedHalfway(q: Plan, w: World, todo: set<Path>, p: Path, b: Birth)
    requires Halfway(q, w, todo) && p in q.reseals && p !in todo
    ensures Halfway(q, Publish(w, q.reseals[p], b), todo)
  {
    hide ScanAll, BirthsOf, Progress.Applying;
  }

  lemma ResealIsNew(q: Plan, w: World, todo: set<Path>, p: Path)
    requires Ready(q) && Halfway(q, w, todo) && p in todo && p in q.reseals
    ensures q.reseals[p] !in w.births
  {
    hide ScanAll, Progress.Applying, Completes, RoomToBump, Served;
    var id := q.reseals[p];
    assert id !in BirthsOf(q);
    hide BirthsOf;
    assert forall r | r in q.reseals && r !in todo :: q.reseals[r] != id;
  }

  lemma FreshHasFile(ctx: Context, policy: Policy, op: DiffOp, version: u64, s: PathState, id: BlobId)
    requires UsesFreshId(ctx, policy, op) && ApplyPath(ctx, policy, op, version, s, id).Applied?
    ensures s.file.Some? && ApplyPath(ctx, policy, op, version, s, id).state.entry.Some?
  {}

  lemma AppliesOne(q: Plan, run: seq<World>, longer: seq<World>, todo: set<Path>, p: Path) returns (more: seq<World>)
    requires Ready(q) && Continues(q, run, longer) && Halfway(q, Last(longer), todo) && p in todo
    ensures Continues(q, run, more) && Halfway(q, Last(more), todo - {p})
  {
    var w, d := Last(longer), q.ctx.device;
    AtPath(q, w, todo, p);
    var w', id := AppliedOnce(q, longer, todo, p);
    hide Halfway, Step, Calm, Ready;
    HalfwayIsCalm(q, w', todo - {p});
    more := Goes(q, run, longer, ApplyOne(p, id), w');
  }

  lemma AppliedOnce(q: Plan, run: seq<World>, todo: set<Path>, p: Path) returns (w': World, id: BlobId)
    requires Ready(q) && IsRun(run) && Halfway(q, Last(run), todo) && p in todo
    ensures Halfway(q, w', todo - {p})
    ensures Step(Last(run), q.ctx.device, ApplyOne(p, id), w')
  {
    assert run != [];
    hide IsRun, ScanAll, Progress.Applying, BirthsOf, Concerns, Completes, FreshIds, Served, RoomToBump, PathGoes, Step;
    id := IdFor(q.reseals, p);
    if Concerned(q, p) {
      assert PathGoes(q, p);
      w' := AppliedManaged(q, run, todo, p);
    } else {
      w' := SkippedStep(q, Last(run), todo, p, id);
    }
  }

  lemma SkippedStep(q: Plan, w: World, todo: set<Path>, p: Path, id: BlobId) returns (w': World)
    requires Halfway(q, w, todo) && p in todo && !Concerned(q, p)
    ensures Halfway(q, w', todo - {p})
    ensures Step(w, q.ctx.device, ApplyOne(p, id), w')
  {
    var d := q.ctx.device;
    AtPath(q, w, todo, p);
    SkippedHalfway(q, w, todo, p);
    w' := SetPhase(w, d, w.devices[d].phase.(todo := todo - {p}));
    hide ScanAll, ApplyPath, FetchBlob, Progress.Applying, BirthsOf, Concerns;
  }

  lemma AppliedManaged(q: Plan, run: seq<World>, todo: set<Path>, p: Path) returns (w': World)
    requires Ready(q) && IsRun(run) && Halfway(q, Last(run), todo) && p in todo && Concerned(q, p) && PathGoes(q, p)
    ensures Halfway(q, w', todo - {p})
    ensures Step(Last(run), q.ctx.device, ApplyOne(p, IdFor(q.reseals, p)), w')
  {
    var w, d, id := Last(run), q.ctx.device, IdFor(q.reseals, p);
    var policy, op := DeviceOf(q).managed[p], OpAt(q, p);
    var out := OutcomeAt(Scanned(q), DeviceOf(q).managed, q.ctx, StoreOf(q.start), q.reseals, p);
    AtPath(q, w, todo, p);
    assert out.Applied?;
    var state := out.state;
    if Reads(q.ctx, policy, op, false) { ReadsSucceed(q, run, todo, p); }
    SettledHalfway(q, w, todo, p, state);
    w' := Settle(w, d, p, state);
    if UsesFreshId(q.ctx, policy, op) {
      FreshHasFile(q.ctx, policy, op, Scanned(q).local.version, At(Scanned(q), p), id);
      ResealIsNew(q, w, todo, p);
      var b := Birth(p, At(Scanned(q), p).file.value.bytes, state.entry.value);
      hide Ready, ScanAll, ApplyPath, Reads, At, FetchBlob, Settle;
      PublishedHalfway(q, w', todo - {p}, p, b);
      w' := Publish(w', id, b);
    }
    hide Ready, ScanAll, ApplyPath, Reads, At, FetchBlob, Settle, UsesFreshId, IsRun;
    OneStep(q, w, todo, p, id, state, w');
  }

  /** The step of a managed path, from its parts. */
  lemma OneStep(q: Plan, w: World, todo: set<Path>, p: Path, id: BlobId, state: PathState, w': World)
    requires Halfway(q, w, todo) && p in todo && Concerned(q, p) && PathGoes(q, p)
    requires var dev := w.devices[q.ctx.device];
      && (p in dev.phase.job.local.entries || p in StoreOf(q.start).entries)
      && ClassifyAt(dev.phase.job.local.entries, StoreOf(q.start).entries, p) == OpAt(q, p)
      && At(ReplicaOf(dev, dev.phase.job.local), p) == At(Scanned(q), p)
      && dev.phase.job.local.version == Scanned(q).local.version
    requires id == IdFor(q.reseals, p)
    requires OutcomeAt(Scanned(q), DeviceOf(q).managed, q.ctx, StoreOf(q.start), q.reseals, p) == Applied(state)
    requires Reads(q.ctx, DeviceOf(q).managed[p], OpAt(q, p), false) ==> FetchBlob(w.objects, p, OpAt(q, p).remote).Ok?
    requires var reseal := UsesFreshId(q.ctx, DeviceOf(q).managed[p], OpAt(q, p));
      && (reseal ==> id !in w.births && At(Scanned(q), p).file.Some? && state.entry.Some?)
      && w' == if reseal
           then Publish(Settle(w, q.ctx.device, p, state), id, Birth(p, At(Scanned(q), p).file.value.bytes, state.entry.value))
           else Settle(w, q.ctx.device, p, state)
    ensures Step(w, q.ctx.device, ApplyOne(p, id), w')
  {
    hide ScanAll, ApplyPath, FetchBlob, Reads, UsesFreshId, Settle, Publish, Progress.Applying, BirthsOf, Classify, At;
  }
  lemma {:induction false} AppliesAll(q: Plan, run: seq<World>, longer: seq<World>, todo: set<Path>) returns (more: seq<World>)
    requires Ready(q) && Continues(q, run, longer) && Halfway(q, Last(longer), todo)
    ensures Continues(q, run, more) && Halfway(q, Last(more), {})
    decreases |todo|
  {
    hide Ready, Halfway, Continues;
    more := longer;
    if todo != {} {
      var p :| p in todo;
      more := AppliesOne(q, run, longer, todo, p);
      more := AppliesAll(q, run, more, todo - {p});
    }
  }

  // ---- the push -----------------------------------------------------------------------------------------

  /** The device's own state is the given one, and the store is as it was but for blobs. */
  ghost predicate Holding(q: Plan, w: World, s: Replica, phase: Phase) {
    && q.ctx.device in q.start.devices && q.ctx.device in w.devices
    && w.devices[q.ctx.device] == DeviceOf(q).(disk := s.disk, sidecars := s.sidecars, phase := phase)
    && (forall e | e != q.ctx.device :: Lookup(w.devices, e) == Lookup(q.start.devices, e))
    && w.history == q.start.history
    && Lookup(w.objects, ManifestKey) == Lookup(q.start.objects, ManifestKey)
  }

  function PreparedOf(q: Plan): Replica
    requires q.ctx.device in q.start.devices
  {
    Prepared(Before(q), DeviceOf(q).managed, q.ctx, StoreOf(q.start), q.ids, q.reseals)
  }

  lemma PreparedEnds(q: Plan)
    requires q.ctx.device in q.start.devices
    ensures EndOf(q) == Final(PreparedOf(q), DeviceOf(q).managed, StoreOf(q.start))
    ensures EndOf(q).0.disk == PreparedOf(q).disk && EndOf(q).0.sidecars == PreparedOf(q).sidecars
    ensures EndOf(q).0.local == PreparedOf(q).local.(version := EndOf(q).1.version)
    ensures EndOf(q).1 == Outgoing(PreparedOf(q).local, StoreOf(q.start), DeviceOf(q).managed.Keys)
  {
    hide Prepared, Outgoing;
    assert [StoreOf(q.start)][1..] == [];
  }

  lemma HoldingIsCalm(q: Plan, w: World, phase: Phase)
    requires q.ctx.device in q.start.devices && Holding(q, w, PreparedOf(q), phase)
    ensures Calm(q, w)
  {
    PreparedEnds(q);
    hide EndOf, PreparedOf;
  }

  lemma Finishes(q: Plan, run: seq<World>, longer: seq<World>) returns (more: seq<World>)
    requires q.ctx.device in q.start.devices
    requires Continues(q, run, longer) && Halfway(q, Last(longer), {})
    ensures Continues(q, run, more)
    ensures Holding(q, Last(more), PreparedOf(q), Pushing(JobOf(q).(local := PreparedOf(q).local), EtagOf(q), StoreOf(q.start)))
  {
    var w := Last(longer);
    var w' := FinishedApplying(q, w);
    hide Calm, Continues, Halfway, Holding, Step;
    HoldingIsCalm(q, w', Pushing(JobOf(q).(local := PreparedOf(q).local), EtagOf(q), StoreOf(q.start)));
    more := Goes(q, run, longer, ApplyDone, w');
  }

  lemma FinishedApplying(q: Plan, w: World) returns (w': World)
    requires Midway(q, w, {})
    ensures Step(w, q.ctx.device, ApplyDone, w')
    ensures Holding(q, w', PreparedOf(q), Pushing(JobOf(q).(local := PreparedOf(q).local), EtagOf(q), StoreOf(q.start)))
  {
    hide ScanAll, Prepared, Progress.Applying, BirthsOf, Finish, EndOf, Concerned, PreparedOf;
    var d, end := q.ctx.device, PreparedOf(q);
    AllPathsApplied(q, w);
    FirstJob(q);
    var dev, phase := w.devices[d], Pushing(JobOf(q).(local := end.local), EtagOf(q), StoreOf(q.start));
    assert dev.phase.Applying? && dev.phase.todo == {} && dev.phase.base == StoreOf(q.start) && dev.phase.etag == EtagOf(q);
    assert dev.phase.job == JobOf(q).(local := dev.phase.job.local);
    assert dev.(phase := phase) == DeviceOf(q).(disk := end.disk, sidecars := end.sidecars, phase := phase);
    HalfwayRest(q, w, {});
    hide Midway, JobOf, EtagOf, StoreOf;
    w' := SetPhase(w, d, phase);
    forall e | e != d ensures Lookup(w'.devices, e) == Lookup(q.start.devices, e) {
      assert Lookup(w.devices, e) == Lookup(q.start.devices, e);
    }
  }

  lemma HalfwayRest(q: Plan, w: World, todo: set<Path>)
    requires Midway(q, w, todo)
    ensures forall e | e != q.ctx.device :: Lookup(w.devices, e) == Lookup(q.start.devices, e)
    ensures w.history == q.start.history
    ensures Lookup(w.objects, ManifestKey) == Lookup(q.start.objects, ManifestKey)
  {}

  lemma FirstJob(q: Plan)
    requires q.ctx.device in q.start.devices
    ensures JobOf(q).attempt == 0 && JobOf(q).ctx == q.ctx
  {
    hide ScanAll;
  }

  lemma AllPathsApplied(q: Plan, w: World)
    requires Midway(q, w, {})
    ensures var dev := w.devices[q.ctx.device];
      && dev.disk == PreparedOf(q).disk && dev.sidecars == PreparedOf(q).sidecars
      && Finish(dev.phase.job.local, StoreOf(q.start), q.ctx.device) == PreparedOf(q).local
  {
    var dev := w.devices[q.ctx.device];
    hide ScanAll, ApplyAll, Progress.Applying, BirthsOf, Finish;
    assert AllPaths(q) - {} == AllPaths(q);
    Progress.AppliedAll(ReplicaOf(dev, dev.phase.job.local), Scanned(q), DeviceOf(q).managed, q.ctx, StoreOf(q.start), q.reseals,
      AllPaths(q));
  }

  lemma Pushes(q: Plan, run: seq<World>, longer: seq<World>) returns (more: seq<World>)
    requires Ready(q) && Inv(q.start)
    requires Continues(q, run, longer)
    requires Holding(q, Last(longer), PreparedOf(q), Pushing(JobOf(q).(local := PreparedOf(q).local), EtagOf(q), StoreOf(q.start)))
    ensures Continues(q, run, more)
    ensures Pushed(q, Last(more), 0)
  {
    var w := Last(longer);
    VersionHasRoom(q);
    var w' := PushedStep(q, w);
    hide Calm, Continues, Pushed, Holding, Step;
    PushedIsCalm(q, w');
    more := Goes(q, run, longer, PushManifest(0), w');
  }

  lemma PushedStep(q: Plan, w: World) returns (w': World)
    requires q.ctx.device in q.start.devices
    requires Max(PreparedOf(q).local.version, StoreOf(q.start).version) < U64_MAX
    requires Holding(q, w, PreparedOf(q), Pushing(JobOf(q).(local := PreparedOf(q).local), EtagOf(q), StoreOf(q.start)))
    ensures Step(w, q.ctx.device, PushManifest(0), w')
    ensures Pushed(q, w', 0)
  {
    var d := q.ctx.device;
    var dev := w.devices[d];
    PreparedEnds(q);
    ListedGuardHolds(q.start.objects);
    SameListing(w.objects, q.start.objects);
    hide PreparedOf, Outgoing, EndOf, ScanAll, Final, GuardHolds, PutGuard, ListedEtag;
    var job, out := dev.phase.job, EndOf(q).1;
    w' := SetPhase(w, d, Saving(job.(local := job.local.(version := out.version)))).(
      objects := AfterPut(w.objects, ManifestKey, ManifestObject(out, job.ctx.now, 0)),
      history := w.history + [Push(out, StoreOf(q.start), job.attempt == 0, dev.managed.Keys)]);
  }

  ghost predicate Pushed(q: Plan, w: World, len: nat) {
    && q.ctx.device in q.start.devices && q.ctx.device in w.devices
    && var (after, out) := EndOf(q);
    && w.devices[q.ctx.device] == DeviceOf(q).(disk := after.disk, sidecars := after.sidecars,
         phase := Saving(JobOf(q).(local := after.local)))
    && (forall e | e != q.ctx.device :: Lookup(w.devices, e) == Lookup(q.start.devices, e))
    && w.history == q.start.history + [Push(out, StoreOf(q.start), true, DeviceOf(q).managed.Keys)]
    && StoredManifest(w) == Some(ManifestObject(out, q.ctx.now, len))
  }

  lemma PushedIsCalm(q: Plan, w: World)
    requires Pushed(q, w, 0)
    ensures Calm(q, w)
  {
    hide EndOf;
  }

  lemma ListedGuardHolds(objects: Objects)
    ensures GuardHolds(objects, ManifestKey, PutGuard(ListedEtag(objects)))
  {}

  lemma VersionHasRoom(q: Plan)
    requires Ready(q)
    ensures Max(PreparedOf(q).local.version, StoreOf(q.start).version) < U64_MAX
  {
    hide ScanAll, Completes, RoomToBump, FreshIds, Served, Staged;
    ScanKeepsFiles(q);
  }

  lemma Saves(q: Plan, run: seq<World>, longer: seq<World>) returns (more: seq<World>)
    requires Continues(q, run, longer) && Pushed(q, Last(longer), 0) && DeviceOf(q).phase.Idle?
    ensures Continues(q, run, more) && Finished(q, Last(more), 0)
  {
    var w := Last(longer);
    var w' := SavedStep(q, w);
    FinishedIsCalm(q, w');
    hide Calm, Continues, Pushed, Finished, Step;
    more := Goes(q, run, longer, Save, w');
  }

  lemma SavedStep(q: Plan, w: World) returns (w': World)
    requires Pushed(q, w, 0) && DeviceOf(q).phase.Idle?
    ensures Step(w, q.ctx.device, Save, w') && Finished(q, w', 0)
  {
    var d := q.ctx.device;
    var dev := w.devices[d];
    hide EndOf, ScanAll;
    w' := w.(devices := w.devices[d := dev.(cache := dev.phase.job.local, phase := Idle)]);
    forall e ensures Lookup(w'.devices, e) == Lookup(q.start.devices[d := w'.devices[d]], e) {
      assert e != d ==> Lookup(w.devices, e) == Lookup(q.start.devices, e);
    }
    SameLookups(w'.devices, q.start.devices[d := w'.devices[d]]);
  }

  lemma FinishedIsCalm(q: Plan, w: World)
    requires Finished(q, w, 0)
    ensures Calm(q, w)
  {
    hide EndOf;
  }

  /**
   A device at rest that nobody disturbs can always carry out its sync, step by step from the start to the
   saving of the cache, and ends exactly where the specification says; the others stand still.
   */
  lemma QuietSyncRuns(q: Plan, run: seq<World>) returns (longer: seq<World>)
    requires IsRun(run) && Last(run) == q.start && Ready(q)
    ensures Continues(q, run, longer) && Finished(q, Last(longer), 0)
  {
    RunInvariant(run, |run| - 1);
    hide Inv, Ready, IsRun, Continues, Halfway, Holding, Pushed, Finished, InPhase, ApplyingPhase;
    ReadyDevice(q);
    longer := Starts(q, run);
    StartedIsUploading(q);
    longer := Uploads(q, run, longer, q.ids.Values, q.ids.Values);
    longer := Lists(q, run, longer);
    longer := Gets(q, run, longer);
    HalfwayStarts(q, Last(longer));
    longer := AppliesAll(q, run, longer, AllPaths(q));
    longer := Finishes(q, run, longer);
    longer := Pushes(q, run, longer);
    longer := Saves(q, run, longer);
  }

  lemma ReadyDevice(q: Plan)
    requires Ready(q)
    ensures q.ctx.device in q.start.devices && DeviceOf(q).phase.Idle?
  {}

  lemma StartedIsUploading(q: Plan)
    requires q.ctx.device in q.start.devices
    ensures InPhase(q, Started(q), Uploading(JobOf(q), q.ids.Values, q.ids.Values))
    ensures q.ids.Values <= BirthsOf(q).Keys
  {
    hide ScanAll;
  }
}
