/** Each kind of step keeps the protocol's invariant. */
module ProtocolSteps {
  import opened Prelude
  import opened Clocks
  import opened Manifests
  import opened Conflicts
  import opened Diffs
  import opened Sealing
  import opened Stores
  import opened Paths
  import opened Replicas
  import opened Protocol
  import opened ProtocolInvariant

  /** Steps that touch one device and nothing shared. */
  lemma PrivateStep(w: World, w': World, d: DeviceId, dev: Device)
    requires Inv(w)
    requires w' == w.(devices := w.devices[d := dev])
    requires DeviceInv(w', d, dev)
    ensures Inv(w')
  {
    forall e | e != d ensures Grows(w, w', e) { GrowsReflexive(w, w', e); }
    OthersStay(w, w', d);
  }

  lemma JoinKeeps(w: World, d: DeviceId, newcomer: Device, w': World)
    requires Inv(w) && Step(w, d, Join(newcomer), w')
    ensures Inv(w')
  {
    PrivateStep(w, w', d, newcomer);
  }

  lemma IdleKeeps(w: World, d: DeviceId, dev: Device, w': World)
    requires Inv(w) && d in w.devices && dev.phase.Idle? && dev.cache == w.devices[d].cache
    requires w' == w.(devices := w.devices[d := dev])
    ensures Inv(w')
  {
    assert DeviceInv(w, d, w.devices[d]);
    PrivateStep(w, w', d, dev);
  }

  lemma SaveKeeps(w: World, d: DeviceId, w': World)
    requires Inv(w) && Step(w, d, Save, w')
    ensures Inv(w')
  {
    assert DeviceInv(w, d, w.devices[d]);
    PrivateStep(w, w', d, w'.devices[d]);
  }

  // ---- scanning -----------------------------------------------------------------------------

  lemma FreshIsKnown(w: World, d: DeviceId, ids: map<Path, BlobId>, w': World, p: Path)
    requires d in w.devices
    requires var dev := w.devices[d];
      && ids.Keys == Staged(ReplicaOf(dev, dev.cache), dev.managed)
      && ScanBirths(w.births, w'.births, ScanAll(ReplicaOf(dev, dev.cache), dev.managed, d, ids).local, dev.disk, ids)
    requires p in ids
    ensures KnownOption(w'.births, p,
      ScanPath(Lookup(w.devices[d].cache.entries, p), Lookup(w.devices[d].disk, p), w.devices[d].cache.clock, d, IdFor(ids, p)))
  {
    var dev := w.devices[d];
    ScanAllAt(ReplicaOf(dev, dev.cache), dev.managed, d, ids, p);
    hide ScanAll;
  }

  lemma ScannedIsKnown(w: World, d: DeviceId, resolver: Option<Resolver>, now: nat, ids: map<Path, BlobId>, w': World, p: Path)
    requires Inv(w) && StartStep(w, d, resolver, now, ids, w')
    requires p in w'.devices[d].phase.job.local.entries
    ensures var e := w'.devices[d].phase.job.local.entries[p];
      && Known(w'.births, p, e)
      && (e.blobId in ids.Values || Uploaded(w.objects, e.blobId))
  {
    var dev := w.devices[d];
    var r := ReplicaOf(dev, dev.cache);
    var prev, file := Lookup(dev.cache.entries, p), Lookup(dev.disk, p);
    assert DeviceInv(w, d, dev);
    ScanAllAt(r, dev.managed, d, ids, p);
    if prev.Some? { KnownGrows(w.births, w'.births, p, prev.value); }
    if p in dev.managed {
      assert p in Staged(r, dev.managed) <==> NeedsSeal(prev, file);
      if p in ids { FreshIsKnown(w, d, ids, w', p); }
      hide Known, Inv, ScanBirths, FreshIds, AllUploaded, Uploaded, StoreInv, PhaseInv, ScanAll, ScanPath, RoomToBump;
      ScanIsKnown(w'.births, p, prev, file, dev.cache.clock, d, IdFor(ids, p));
    }
  }

  lemma ScannedAll(w: World, d: DeviceId, resolver: Option<Resolver>, now: nat, ids: map<Path, BlobId>, w': World)
    requires Inv(w) && StartStep(w, d, resolver, now, ids, w')
    ensures var m := w'.devices[d].phase.job.local;
      && AllKnown(w'.births, m)
      && forall p | p in m.entries :: m.entries[p].blobId in ids.Values || Uploaded(w.objects, m.entries[p].blobId)
  {
    hide Inv, Known, Uploaded;
    var m := w'.devices[d].phase.job.local;
    forall p | p in m.entries
      ensures Known(w'.births, p, m.entries[p])
      ensures m.entries[p].blobId in ids.Values || Uploaded(w.objects, m.entries[p].blobId)
    {
      ScannedIsKnown(w, d, resolver, now, ids, w', p);
    }
  }

  lemma ScannedAgrees(w: World, d: DeviceId, resolver: Option<Resolver>, now: nat, ids: map<Path, BlobId>, w': World)
    requires StartStep(w, d, resolver, now, ids, w')
    ensures var dev' := w'.devices[d];
      AllAgree(ReplicaOf(dev', dev'.phase.job.local), dev'.managed)
  {
    var dev := w.devices[d];
    ScanAllAgrees(ReplicaOf(dev, dev.cache), dev.managed, d, ids);
  }

  lemma StartPhase(w: World, d: DeviceId, resolver: Option<Resolver>, now: nat, ids: map<Path, BlobId>, w': World)
    requires Inv(w) && StartStep(w, d, resolver, now, ids, w')
    ensures PhaseInv(w', d, w'.devices[d])
  {
    hide Inv, AllKnown, AllAgree, RoomToBump, FreshIds;
    ScannedAll(w, d, resolver, now, ids, w');
    ScannedAgrees(w, d, resolver, now, ids, w');
    CacheOf(w, d);
  }

  lemma CacheOf(w: World, d: DeviceId)
    requires Inv(w) && d in w.devices
    ensures CacheInv(w, w.devices[d])
  {
    assert DeviceInv(w, d, w.devices[d]);
  }

  lemma StartKeeps(w: World, d: DeviceId, resolver: Option<Resolver>, now: nat, ids: map<Path, BlobId>, w': World)
    requires Inv(w) && StartStep(w, d, resolver, now, ids, w')
    ensures Inv(w')
  {
    var dev := w.devices[d];
    assert CacheInv(w, dev) && StoreInv(w) by { assert DeviceInv(w, d, dev); }
    StartPhase(w, d, resolver, now, ids, w');
    hide PhaseInv, ScanAll, StoreInv;
    forall e ensures Grows(w, w', e) { GrowsBirths(w, w', e); }
    KnownStays(w, w', d, dev.cache);
    StoreStays(w, w', d);
    OthersStay(w, w', d);
  }

  /** The store's part of the invariant survives births alone. */
  lemma StoreStays(w: World, w': World, d: DeviceId)
    requires StoreInv(w)
    requires w'.objects == w.objects && w'.history == w.history
    requires forall b | b in w.births :: b in w'.births && w'.births[b] == w.births[b]
    ensures StoreInv(w')
  {
    GrowsBirths(w, w', d);
    forall i | 0 <= i < |w.history|
      ensures AllKnown(w'.births, w.history[i].manifest) && AllUploaded(w'.objects, w.history[i].manifest)
    {
      KnownStays(w, w', d, w.history[i].manifest);
    }
  }

  lemma GrowsBirths(w: World, w': World, d: DeviceId)
    requires w'.objects == w.objects && w'.history == w.history
    requires forall b | b in w.births :: b in w'.births && w'.births[b] == w.births[b]
    ensures Grows(w, w', d)
  {}

  // ---- blobs ---------------------------------------------------------------------------------

  /** Putting genuine blobs keeps everything the store promises. */
  lemma BlobPutKeepsStore(w: World, w': World, d: DeviceId)
    requires StoreInv(w)
    requires w'.history == w.history
    requires forall k | k in w.objects :: k in w'.objects
    requires ManifestKey in w'.objects <==> ManifestKey in w.objects
    requires ManifestKey in w.objects ==> w'.objects[ManifestKey] == w.objects[ManifestKey]
    requires forall b | b in w.births :: b in w'.births && w'.births[b] == w.births[b]
    requires BlobsGenuine(w'.objects, w'.births)
    ensures StoreInv(w')
    ensures forall e :: Grows(w, w', e)
  {
    forall e ensures Grows(w, w', e) {}
    forall i | 0 <= i < |w.history|
      ensures AllKnown(w'.births, w.history[i].manifest) && AllUploaded(w'.objects, w.history[i].manifest)
    {
      KnownStays(w, w', d, w.history[i].manifest);
    }
  }

  lemma HeaderDone(w: World, d: DeviceId, dev: Device, id: BlobId)
    requires dev.phase.Uploading? && PhaseInv(w, d, dev) && HeaderKey(id) in w.objects
    ensures PhaseInv(w, d, dev.(phase := dev.phase.(headers := dev.phase.headers - {id})))
  {}

  lemma BodyDone(w: World, d: DeviceId, dev: Device, id: BlobId)
    requires dev.phase.Uploading? && PhaseInv(w, d, dev) && BodyKey(id) in w.objects && id !in dev.phase.headers
    ensures PhaseInv(w, d, dev.(phase := dev.phase.(bodies := dev.phase.bodies - {id})))
  {}

  lemma UploadHeaderKeeps(w: World, d: DeviceId, id: BlobId, w': World)
    requires Inv(w) && Step(w, d, UploadHeader(id), w')
    ensures Inv(w')
  {
    var dev := w.devices[d];
    assert DeviceInv(w, d, dev);
    BlobPutKeepsStore(w, w', d);
    DeviceStays(w, w', d, dev);
    HeaderDone(w', d, dev, id);
    OthersStay(w, w', d);
  }

  lemma UploadBodyKeeps(w: World, d: DeviceId, id: BlobId, w': World)
    requires Inv(w) && Step(w, d, UploadBody(id), w')
    ensures Inv(w')
  {
    var dev := w.devices[d];
    assert DeviceInv(w, d, dev);
    BlobPutKeepsStore(w, w', d);
    DeviceStays(w, w', d, dev);
    BodyDone(w', d, dev, id);
    OthersStay(w, w', d);
  }

  // ---- listing and fetching ------------------------------------------------------------------

  lemma ListKeeps(w: World, d: DeviceId, w': World)
    requires Inv(w) && Step(w, d, ListManifest, w')
    ensures Inv(w')
  {
    var dev := w.devices[d];
    assert DeviceInv(w, d, dev);
    var job := dev.phase.job;
    if dev.phase.Uploading? {
      assert AllUploaded(w.objects, job.local);
    }
    PrivateStep(w, w', d, w'.devices[d]);
  }

  /** A fetch that is accepted returns the last push, under the etag that was listed. */
  lemma FetchIsLast(w: World, job: Job, etag: Option<Etag>)
    requires ManifestIsLast(w.objects, w.history) && ListedInv(w, job, etag)
    requires Accept(Fetch(w.objects, etag, job), job).Ok?
    ensures Accept(Fetch(w.objects, etag, job), job).value == (BaseOf(w.history, |w.history|), etag)
  {
    if ManifestKey !in w.objects {
      assert w.history == [] && etag.None?;
    }
  }

  lemma FetchedNow(w: World, job: Job, etag: Option<Etag>)
    requires ListedInv(w, job, etag)
    requires etag.None? ==> w.history == []
    ensures FetchedInv(w, job, etag, BaseOf(w.history, |w.history|))
  {}

  lemma AcceptedWithoutEtag(w: World, job: Job, etag: Option<Etag>)
    requires ManifestIsLast(w.objects, w.history)
    requires Accept(Fetch(w.objects, etag, job), job).Ok? && etag.None?
    ensures w.history == []
  {}

  lemma GetKeeps(w: World, d: DeviceId, w': World)
    requires Inv(w) && GetStep(w, d, w')
    ensures Inv(w')
  {
    var dev := w.devices[d];
    assert DeviceInv(w, d, dev);
    var job, etag := dev.phase.job, dev.phase.etag;
    var base := BaseOf(w.history, |w.history|);
    if Accept(Fetch(w.objects, etag, job), job).Ok? {
      FetchIsLast(w, job, etag);
      if etag.None? { AcceptedWithoutEtag(w, job, etag); }
      FetchedNow(w, job, etag);
      NothingDoneYet(dev, job, base);
    }
    PrivateStep(w, w', d, w'.devices[d]);
  }

  lemma NothingDoneYet(dev: Device, job: Job, base: Manifest)
    ensures Absorbed(dev, job, base, job.local.entries.Keys + base.entries.Keys)
  {}

  // ---- applying ----------------------------------------------------------------------------------

  /** Only the paths still to do may be unabsorbed, so settling one path settles it for good. */
  lemma SettleOne(dev: Device, job: Job, base: Manifest, todo: set<Path>, p: Path, s: PathState)
    requires Absorbed(dev, job, base, todo)
    requires p in dev.managed ==> Absorbs(s.entry, Lookup(base.entries, p))
    requires p in dev.managed && job.attempt == 0 ==> Advances(s.entry, Lookup(base.entries, p))
    ensures Absorbed(dev, job.(local := With(ReplicaOf(dev, job.local), p, s).local), base, todo - {p})
  {
    var r := ReplicaOf(dev, job.local);
    forall q ensures q != p ==> At(With(r, p, s), q) == At(r, q) { WithAt(r, p, s, q); }
    WithAt(r, p, s, p);
  }

  lemma SettleKeepsJob(w: World, d: DeviceId, dev: Device, p: Path, s: PathState)
    requires d in w.devices && w.devices[d] == dev && dev.phase.Applying?
    requires JobInv(w, d, dev, dev.phase.job) && AllUploaded(w.objects, dev.phase.job.local)
    requires KnownOption(w.births, p, s.entry)
    requires s.entry.Some? ==> Uploaded(w.objects, s.entry.value.blobId)
    requires p in dev.managed && Agrees(s.entry, s.file)
    ensures var dev' := Settle(w, d, p, s).devices[d];
      JobInv(w, d, dev', dev'.phase.job) && AllUploaded(w.objects, dev'.phase.job.local)
  {
    var job := dev.phase.job;
    var r := ReplicaOf(dev, job.local);
    var dev' := Settle(w, d, p, s).devices[d];
    WithAt(r, p, s, p);
    forall q | q in dev'.phase.job.local.entries
      ensures Known(w.births, q, dev'.phase.job.local.entries[q])
      ensures Uploaded(w.objects, dev'.phase.job.local.entries[q].blobId)
    {
      WithAt(r, p, s, q);
    }
    forall q | q in dev.managed
      ensures Agrees(Lookup(dev'.phase.job.local.entries, q), Lookup(dev'.disk, q))
    {
      WithAt(r, p, s, q);
    }
  }

  /** One managed path is settled and the store keeps its promises: the invariant holds again. */
  lemma SettleKeeps(w: World, d: DeviceId, p: Path, s: PathState)
    requires Inv(w) && d in w.devices && w.devices[d].phase.Applying?
    requires PhaseInv(w, d, w.devices[d])
    requires p in w.devices[d].managed && p in w.devices[d].phase.todo
    requires KnownOption(w.births, p, s.entry)
    requires s.entry.Some? ==> Uploaded(w.objects, s.entry.value.blobId)
    requires Agrees(s.entry, s.file)
    requires Absorbs(s.entry, Lookup(w.devices[d].phase.base.entries, p))
    requires w.devices[d].phase.job.attempt == 0 ==> Advances(s.entry, Lookup(w.devices[d].phase.base.entries, p))
    ensures Inv(Settle(w, d, p, s))
  {
    var dev := w.devices[d];
    var w' := Settle(w, d, p, s);
    var dev' := w'.devices[d];
    var ph := dev.phase;
    SettleKeepsJob(w, d, dev, p, s);
    SettleOne(dev, ph.job, ph.base, ph.todo, p, s);
    assert dev'.phase.todo <= dev'.phase.job.local.entries.Keys + ph.base.entries.Keys by {
      forall q | q in ph.todo && q != p ensures q in dev'.phase.job.local.entries.Keys + ph.base.entries.Keys {
        WithAt(ReplicaOf(dev, ph.job.local), p, s, q);
        assert Lookup(dev'.phase.job.local.entries, q) == Lookup(ph.job.local.entries, q);
      }
    }
    assert Absorbed(dev', dev'.phase.job, ph.base, dev'.phase.todo);
    assert PhaseInv(w, d, dev');
    GrowsReflexive(w, w', d);
    assert DeviceInv(w, d, dev);
    DeviceStays(w, w', d, dev');
    PrivateStep(w, w', d, dev');
  }

  /** Blobs under a fresh id can be put at any time. */
  lemma PublishKeeps(w: World, id: BlobId, b: Birth)
    requires Inv(w) && id !in w.births
    ensures Inv(Publish(w, id, b))
    ensures Uploaded(Publish(w, id, b).objects, id) && id in Publish(w, id, b).births && Publish(w, id, b).births[id] == b
  {
    var w' := Publish(w, id, b);
    BlobPutKeepsStore(w, w', "");
    forall e | e in w'.devices ensures DeviceInv(w', e, w'.devices[e]) {
      DeviceStays(w, w', e, w.devices[e]);
    }
  }

  /** Without a reseal the entry names a blob one of the two sides already named. */
  lemma ApplyNamesOldBlob(ctx: Context, policy: Policy, op: DiffOp, version: u64, s: PathState, r: Option<Entry>, id: BlobId)
    requires s.entry.Some? || r.Some?
    requires op == Classify(op.path, s.entry, r)
    requires ApplyPath(ctx, policy, op, version, s, id).Applied? && !UsesFreshId(ctx, policy, op)
    ensures var e := ApplyPath(ctx, policy, op, version, s, id).state.entry;
      e.Some? && ((s.entry.Some? && e.value.blobId == s.entry.value.blobId) || (r.Some? && e.value.blobId == r.value.blobId))
  {}

  /** With one it is the file's content, sealed under the fresh id. */
  lemma ApplyReseals(ctx: Context, policy: Policy, op: DiffOp, version: u64, s: PathState, r: Option<Entry>, id: BlobId)
    requires s.entry.Some? || r.Some?
    requires op == Classify(op.path, s.entry, r)
    requires ApplyPath(ctx, policy, op, version, s, id).Applied? && UsesFreshId(ctx, policy, op)
    ensures s.file.Some?
    ensures var e := ApplyPath(ctx, policy, op, version, s, id).state.entry;
      e.Some? && e.value.blobId == id && !e.value.deleted && ProperBirth(id, Birth(op.path, s.file.value.bytes, e.value))
  {}

  /** The remote side of a running diff: known, and uploaded. */
  lemma BaseIsKnown(w: World, job: Job, etag: Option<Etag>, base: Manifest)
    requires StoreInv(w) && FetchedInv(w, job, etag, base)
    ensures AllKnown(w.births, base) && AllUploaded(w.objects, base)
    ensures base.entries != map[] ==> w.history != []
    ensures base.version <= LastVersion(w.history)
  {
    if etag.Some? {
      var j :| etag.value.n <= j <= |w.history| && base == BaseOf(w.history, j);
      assert base == w.history[j - 1].manifest;
      VersionsRise(w.history, j, |w.history|);
    }
  }

  lemma {:induction false} VersionsRise(history: seq<Push>, i: nat, j: nat)
    requires Chained(history) && i <= j <= |history|
    ensures BaseOf(history, i).version <= BaseOf(history, j).version
    ensures i < j ==> BaseOf(history, i).version < BaseOf(history, j).version
    decreases j
  {
    if i < j {
      VersionsRise(history, i, j - 1);
      assert Linked(history, j - 1);
    }
  }

  /** What is true when a managed path is about to be applied. */
  ghost predicate Ready(w: World, d: DeviceId, p: Path, op: DiffOp, s: PathState, r: Option<Entry>) {
    && Inv(w) && d in w.devices && w.devices[d].phase.Applying?
    && var dev := w.devices[d];
    && var job, base := dev.phase.job, dev.phase.base;
    && p in dev.phase.todo && p in dev.managed
    && s == At(ReplicaOf(dev, job.local), p)
    && r == Lookup(base.entries, p)
    && (s.entry.Some? || r.Some?)
    && op == Classify(p, s.entry, r)
  }

  lemma ApplyingInv(w: World, d: DeviceId)
    requires Inv(w) && d in w.devices
    ensures StoreInv(w) && PhaseInv(w, d, w.devices[d])
  {
    assert DeviceInv(w, d, w.devices[d]);
  }

  lemma ClassifyNamesPath(op: DiffOp, p: Path, l: Option<Entry>, r: Option<Entry>)
    requires (l.Some? || r.Some?) && op == Classify(p, l, r)
    ensures op.path == p
  {}

  lemma ReadyFacts(w: World, d: DeviceId, p: Path, op: DiffOp, s: PathState, r: Option<Entry>)
    requires Ready(w, d, p, op, s, r)
    ensures PhaseInv(w, d, w.devices[d])
    ensures w.devices[d].phase.job.ctx.device == d
    ensures KnownOption(w.births, p, s.entry) && KnownOption(w.births, p, r)
    ensures s.entry.Some? ==> Uploaded(w.objects, s.entry.value.blobId)
    ensures r.Some? ==> Uploaded(w.objects, r.value.blobId) && w.history != []
    ensures Agrees(s.entry, s.file)
    ensures op.path == p
  {
    hide Inv, StoreInv, Known, Agrees, Absorbed, OthersPushed, FetchedInv, Classify, Uploaded;
    ClassifyNamesPath(op, p, s.entry, r);
    var dev := w.devices[d];
    ApplyingInv(w, d);
    BaseIsKnown(w, dev.phase.job, dev.phase.etag, dev.phase.base);
  }

  lemma RetryKeeps(w: World, d: DeviceId, p: Path, op: DiffOp, s: PathState, r: Option<Entry>)
    requires Ready(w, d, p, op, s, r) && w.devices[d].phase.job.attempt > 0
    ensures Inv(Settle(w, d, p, RetryPath(op, s, w.devices[d].phase.job.ctx.now)))
  {
    hide Inv, PhaseInv;
    var now := w.devices[d].phase.job.ctx.now;
    ReadyFacts(w, d, p, op, s, r);
    RetryKeepsAgreement(op, s, r, now);
    RetryAbsorbs(op, s, r, now);
    SettleKeeps(w, d, p, RetryPath(op, s, now));
  }

  lemma ApplyOldKeeps(w: World, d: DeviceId, p: Path, op: DiffOp, s: PathState, r: Option<Entry>, id: BlobId)
    requires Ready(w, d, p, op, s, r)
    requires var job := w.devices[d].phase.job; var policy := w.devices[d].managed[p];
      && ApplyPath(job.ctx, policy, op, job.local.version, s, id).Applied?
      && !UsesFreshId(job.ctx, policy, op)
      && (op.Conflicting? ==> Clocks.Get(Merge(op.local.clock, op.remote.clock), d) < U64_MAX)
    ensures var job := w.devices[d].phase.job;
      Inv(Settle(w, d, p, ApplyPath(job.ctx, w.devices[d].managed[p], op, job.local.version, s, id).state))
  {
    hide Inv, PhaseInv, Settle, Publish, ApplyPath, Classify, Known, Merge, Absorbs, Advances, Agrees;
    var job, policy := w.devices[d].phase.job, w.devices[d].managed[p];
    ReadyFacts(w, d, p, op, s, r);
    ApplyKeepsAgreement(w.births, job.ctx, policy, op, job.local.version, s, r, id);
    ApplyAdvances(job.ctx, policy, op, job.local.version, s, r, id);
    ApplyIsKnown(w.births, job.ctx, policy, op, job.local.version, s, r, id);
    ApplyNamesOldBlob(job.ctx, policy, op, job.local.version, s, r, id);
    SettleKeeps(w, d, p, ApplyPath(job.ctx, policy, op, job.local.version, s, id).state);
  }

  lemma ApplyFreshKeeps(w: World, d: DeviceId, p: Path, op: DiffOp, s: PathState, r: Option<Entry>, id: BlobId)
    requires Ready(w, d, p, op, s, r)
    requires var job := w.devices[d].phase.job; var policy := w.devices[d].managed[p];
      && ApplyPath(job.ctx, policy, op, job.local.version, s, id).Applied?
      && UsesFreshId(job.ctx, policy, op)
      && (op.Conflicting? ==> Clocks.Get(Merge(op.local.clock, op.remote.clock), d) < U64_MAX)
    requires id !in w.births && s.file.Some?
    requires ApplyPath(w.devices[d].phase.job.ctx, w.devices[d].managed[p], op, w.devices[d].phase.job.local.version, s, id).state.entry.Some?
    ensures var job := w.devices[d].phase.job;
      var s' := ApplyPath(job.ctx, w.devices[d].managed[p], op, job.local.version, s, id).state;
      Inv(Publish(Settle(w, d, p, s'), id, Birth(p, s.file.value.bytes, s'.entry.value)))
  {
    hide Inv, PhaseInv, With, ApplyPath, Classify, Known, Merge, Absorbs, Advances, Agrees;
    var job, policy := w.devices[d].phase.job, w.devices[d].managed[p];
    var s' := ApplyPath(job.ctx, policy, op, job.local.version, s, id).state;
    var b := Birth(p, s.file.value.bytes, s'.entry.value);
    ReadyFacts(w, d, p, op, s, r);
    ApplyKeepsAgreement(w.births, job.ctx, policy, op, job.local.version, s, r, id);
    ApplyAdvances(job.ctx, policy, op, job.local.version, s, r, id);
    ApplyReseals(job.ctx, policy, op, job.local.version, s, r, id);
    PublishKeeps(w, id, b);
    var published := Publish(w, id, b);
    assert Ready(published, d, p, op, s, r);
    ReadyFacts(published, d, p, op, s, r);
    SettleKeeps(published, d, p, s');
    assert Settle(published, d, p, s') == Publish(Settle(w, d, p, s'), id, b);
  }

  lemma StopKeeps(w: World, d: DeviceId, p: Path, op: DiffOp, s: PathState, r: Option<Entry>)
    requires Ready(w, d, p, op, s, r) && op.Conflicting?
    ensures Inv(SetPhase(w, d, Saving(w.devices[d].phase.job)))
  {
    ReadyFacts(w, d, p, op, s, r);
    var w' := SetPhase(w, d, Saving(w.devices[d].phase.job));
    assert DeviceInv(w, d, w.devices[d]);
    PrivateStep(w, w', d, w'.devices[d]);
  }

  lemma CrashKeeps(w: World, d: DeviceId)
    requires Inv(w) && d in w.devices
    ensures Inv(SetPhase(w, d, Idle))
  {
    IdleKeeps(w, d, w.devices[d].(phase := Idle), SetPhase(w, d, Idle));
  }

  lemma SkipKeeps(w: World, d: DeviceId, p: Path)
    requires Inv(w) && d in w.devices && w.devices[d].phase.Applying? && p !in w.devices[d].managed
    ensures var ph := w.devices[d].phase; Inv(SetPhase(w, d, ph.(todo := ph.todo - {p})))
  {
    hide StoreInv;
    var ph := w.devices[d].phase;
    var w' := SetPhase(w, d, ph.(todo := ph.todo - {p}));
    assert DeviceInv(w, d, w.devices[d]);
    PrivateStep(w, w', d, w'.devices[d]);
  }

  lemma ApplyStepKeeps(w: World, d: DeviceId, p: Path, id: BlobId, w': World)
    requires Inv(w) && ApplyStep(w, d, p, id, w')
    ensures Inv(w')
  {
    hide Inv, Settle, Publish, SetPhase;
    var dev := w.devices[d];
    var job, base := dev.phase.job, dev.phase.base;
    if p !in dev.managed {
      SkipKeeps(w, d, p);
    } else {
      var op := ClassifyAt(job.local.entries, base.entries, p);
      var policy, retry := dev.managed[p], job.attempt > 0;
      var s, r := At(ReplicaOf(dev, job.local), p), Lookup(base.entries, p);
      assert Ready(w, d, p, op, s, r);
      if Reads(job.ctx, policy, op, retry) && FetchBlob(w.objects, p, op.remote).Err? {
        CrashKeeps(w, d);
      } else if retry {
        RetryKeeps(w, d, p, op, s, r);
      } else {
        match ApplyPath(job.ctx, policy, op, job.local.version, s, id)
        case Failed(_) => CrashKeeps(w, d);
        case Stopped => StopKeeps(w, d, p, op, s, r);
        case Applied(s') =>
          if UsesFreshId(job.ctx, policy, op) {
            ApplyReseals(job.ctx, policy, op, job.local.version, s, r, id);
            ApplyFreshKeeps(w, d, p, op, s, r, id);
          } else {
            ApplyOldKeeps(w, d, p, op, s, r, id);
          }
      }
    }
  }

  // ---- pushing -------------------------------------------------------------------------------

  lemma ApplyDoneKeeps(w: World, d: DeviceId, w': World)
    requires Inv(w) && Step(w, d, ApplyDone, w')
    ensures Inv(w')
  {
    var dev := w.devices[d];
    assert DeviceInv(w, d, dev);
    var ph := dev.phase;
    if ph.job.attempt == 0 {
      MergeIsLeastUpperBound(Bump(ph.job.local.clock, d), ph.base.clock, ph.base.clock);
    }
    PrivateStep(w, w', d, w'.devices[d]);
  }

  /** If the guard still holds, nothing was pushed since the fetch. */
  lemma GuardMeansUnchanged(w: World, job: Job, etag: Option<Etag>, base: Manifest)
    requires ManifestIsLast(w.objects, w.history) && FetchedInv(w, job, etag, base)
    requires GuardHolds(w.objects, ManifestKey, PutGuard(etag))
    ensures base == BaseOf(w.history, |w.history|)
  {}

  /** If it does not, some push came after the listing. */
  lemma NoGuardMeansPushed(w: World, job: Job, etag: Option<Etag>, base: Manifest)
    requires ManifestIsLast(w.objects, w.history) && FetchedInv(w, job, etag, base)
    requires !GuardHolds(w.objects, ManifestKey, PutGuard(etag))
    ensures job.began + job.attempt + 1 <= |w.history|
    ensures w.history != []
  {}

  lemma OutgoingIsGood(dev: Device, job: Job, base: Manifest)
    requires Absorbed(dev, job, base, {})
    requires Max(job.local.version, base.version) < U64_MAX
    requires job.attempt == 0 ==> Clocks.Leq(base.clock, job.local.clock)
    ensures GoodPush(Push(Outgoing(job.local, base, dev.managed.Keys), base, job.attempt == 0, dev.managed.Keys))
  {
    var out := Outgoing(job.local, base, dev.managed.Keys);
    OutgoingIsMonotone(job.local, base, dev.managed.Keys);
    hide MonotonePush;
    forall p | p in dev.managed
      ensures job.attempt == 0 ==> Advances(Lookup(out.entries, p), Lookup(base.entries, p))
    {
      OutgoingAt(job.local, base, dev.managed.Keys, p);
    }
  }

  lemma OutgoingIsKnown(w: World, local: Manifest, base: Manifest, managed: set<Path>)
    requires AllKnown(w.births, local) && AllUploaded(w.objects, local)
    requires AllKnown(w.births, base) && AllUploaded(w.objects, base)
    ensures AllKnown(w.births, Outgoing(local, base, managed)) && AllUploaded(w.objects, Outgoing(local, base, managed))
  {
    var out := Outgoing(local, base, managed);
    forall p | p in out.entries ensures Known(w.births, p, out.entries[p]) && Uploaded(w.objects, out.entries[p].blobId) {
      OutgoingAt(local, base, managed, p);
      assert Lookup(out.entries, p) == Lookup(local.entries, p) || Lookup(out.entries, p) == Lookup(base.entries, p);
    }
  }

  lemma AppendStore(w: World, w': World, push: Push, len: nat, now: nat)
    requires StoreInv(w)
    requires push.base == BaseOf(w.history, |w.history|) && GoodPush(push)
    requires AllKnown(w.births, push.manifest) && AllUploaded(w.objects, push.manifest)
    requires w'.births == w.births && w'.history == w.history + [push]
    requires w'.objects == AfterPut(w.objects, ManifestKey, ManifestObject(push.manifest, now, len))
    ensures StoreInv(w')
    ensures LastVersion(w'.history) == push.manifest.version > LastVersion(w.history)
  {
    hide GoodPush, Known;
    forall i | 0 <= i < |w'.history| ensures Linked(w'.history, i) {
      if i < |w.history| { assert Linked(w.history, i); }
    }
    forall i | 0 <= i < |w'.history|
      ensures AllKnown(w'.births, w'.history[i].manifest) && AllUploaded(w'.objects, w'.history[i].manifest)
    {
      if i < |w.history| { assert w'.history[i] == w.history[i]; }
    }
    GoodPushRises(push);
  }

  lemma GoodPushRises(push: Push)
    requires GoodPush(push)
    ensures push.base.version < push.manifest.version
  {}

  lemma PushSucceeds(w: World, d: DeviceId, len: nat, w': World)
    requires Inv(w) && PushStep(w, d, len, w')
    requires GuardHolds(w.objects, ManifestKey, PutGuard(w.devices[d].phase.etag))
    ensures Inv(w')
    ensures w'.history == w.history + [w'.history[|w.history|]]
    ensures w'.history[|w.history|].base == w.devices[d].phase.base == BaseOf(w.history, |w.history|)
  {
    var dev := w.devices[d];
    var job, etag, base := dev.phase.job, dev.phase.etag, dev.phase.base;
    CacheOf(w, d);
    ApplyingInv(w, d);
    hide Inv, GoodPush, MonotonePush, Known, Absorbs, Advances, Outgoing, AllAgree;
    StoreHas(w);
    GuardMeansUnchanged(w, job, etag, base);
    BaseIsKnown(w, job, etag, base);
    OutgoingIsGood(dev, job, base);
    OutgoingIsKnown(w, job.local, base, dev.managed.Keys);
    AppendStore(w, w', w'.history[|w.history|], len, job.ctx.now);
    OutgoingName(job.local, base, dev.managed.Keys);
    PushedDevice(w, d, len, w');
    PushedOthers(w, d, len, w');
  }

  lemma StoreHas(w: World)
    requires StoreInv(w)
    ensures ManifestIsLast(w.objects, w.history)
  {}

  lemma OutgoingName(local: Manifest, base: Manifest, managed: set<Path>)
    ensures Outgoing(local, base, managed).deviceId == local.deviceId
    ensures Outgoing(local, base, managed).version == SaturatingInc(Max(local.version, base.version))
  {}

  lemma PushedDevice(w: World, d: DeviceId, len: nat, w': World)
    requires PushStep(w, d, len, w')
    requires GuardHolds(w.objects, ManifestKey, PutGuard(w.devices[d].phase.etag))
    requires CacheInv(w, w.devices[d]) && PhaseInv(w, d, w.devices[d])
    requires LastVersion(w.history) < LastVersion(w'.history)
    ensures DeviceInv(w', d, w'.devices[d])
  {
    hide MonotonePush, Absorbed, Known, Agrees, GuardHolds, OutgoingEntries, OutgoingRecords;
    var dev := w.devices[d];
    var job := dev.phase.job;
    OutgoingName(job.local, dev.phase.base, dev.managed.Keys);
  }

  lemma PushedOthers(w: World, d: DeviceId, len: nat, w': World)
    requires Inv(w) && PushStep(w, d, len, w')
    requires GuardHolds(w.objects, ManifestKey, PutGuard(w.devices[d].phase.etag))
    requires PhaseInv(w, d, w.devices[d])
    requires LastVersion(w.history) < LastVersion(w'.history)
    requires StoreInv(w') && DeviceInv(w', d, w'.devices[d])
    ensures Inv(w')
  {
    hide Inv, StoreInv, DeviceInv, JobInv, FetchedInv, Absorbed;
    OutgoingName(w.devices[d].phase.job.local, w.devices[d].phase.base, w.devices[d].managed.Keys);
    forall e | e != d ensures Grows(w, w', e) {}
    OthersStay(w, w', d);
  }

  lemma PushKeeps(w: World, d: DeviceId, len: nat, w': World)
    requires Inv(w) && PushStep(w, d, len, w')
    ensures Inv(w')
  {
    var dev := w.devices[d];
    if GuardHolds(w.objects, ManifestKey, PutGuard(dev.phase.etag)) {
      PushSucceeds(w, d, len, w');
    } else if dev.phase.job.attempt + 1 < MAX_CAS_RETRIES {
      CacheOf(w, d);
      ApplyingInv(w, d);
      hide Inv;
      StoreHas(w);
      NoGuardMeansPushed(w, dev.phase.job, dev.phase.etag, dev.phase.base);
      PrivateStep(w, w', d, w'.devices[d]);
    } else {
      CrashKeeps(w, d);
    }
  }
}
