/** The imperative sync and the step system, held against each other. */
module EngineAndProtocol {
  import opened Prelude
  import opened Clocks
  import opened Manifests
  import opened Diffs
  import opened Conflicts
  import opened Sealing
  import opened Stores
  import opened Paths
  import opened Replicas
  import opened Protocol
  import opened ProtocolInvariant
  import opened ProtocolSteps
  import opened ProtocolTheorems
  import opened QuietSyncs
  import opened QuietSteps
  import Engine
  import Progress
  import opened SyncModel

  /** The engine object runs for the plan's device, and its run drew the plan's ids. */
  ghost predicate RunsFor(e: Engine.Engine, run: Engine.Run, q: Plan)
    requires q.ctx.device in q.start.devices
  {
    && e.managed == DeviceOf(q).managed && e.ctx == q.ctx
    && run.first.ids == q.ids && run.first.reseals == q.reseals
  }

  /** The device of the step system is where the engine has left its own. */
  ghost predicate SamePlace(e: Engine.Engine, w: World, d: DeviceId)
    reads e.local, e.disk
  {
    && d in w.devices && w.devices[d].phase.Idle?
    && ReplicaOf(w.devices[d], w.devices[d].cache) == e.State()
  }

  lemma StoredIsBase(objects: Objects, history: seq<Push>, before: Objects, base: Manifest)
    requires ManifestIsLast(objects, history) && Progress.Replaces(before, base)
    requires Lookup(before, ManifestKey) == Lookup(objects, ManifestKey)
    ensures base == BaseOf(history, |history|)
  {}

  /** What a sync of the engine does that is refused no put, over a manifest the step system has reached. */
  lemma EngineEndsAsSpecified(e: Engine.Engine, wrote: seq<Written>, run: Engine.Run, report: Engine.Report,
      past: seq<World>, q: Plan)
    requires IsRun(past) && Last(past) == q.start && q.ctx.device in q.start.devices && RunsFor(e, run, q)
    requires e.Completed(Before(q), wrote, run, report) && run.refused == 0
    requires Lookup(run.before, ManifestKey) == Lookup(q.start.objects, ManifestKey)
    ensures (e.State(), run.pushed) == EndOf(q)
    ensures Completes(QuietSyncs.Scanned(q), e.managed, q.ctx, StoreOf(q.start), q.reseals)
  {
    RunInvariant(past, |past| - 1);
    assert StoreInv(q.start);
    hide IsRun, Inv, ManifestIsLast, Progress.Replaces, SyncOver, Completes, ScanAll;
    StoredIsBase(q.start.objects, q.start.history, run.before, run.bases[0]);
    assert run.bases == [StoreOf(q.start)];
  }

  /** The cache, the disk and the copies are the engine's, and so is the manifest that was pushed. */
  ghost predicate SameEnd(e: Engine.Engine, run: Engine.Run, w: World, d: DeviceId)
    reads e.local, e.disk, e.store, e.store.inner
  {
    && SamePlace(e, w, d)
    && w.history != [] && w.history[|w.history| - 1].manifest == run.pushed
    && ManifestKey in w.objects && ManifestKey in e.store.Objects()
    && var mine, theirs := w.objects[ManifestKey].data, e.store.Objects()[ManifestKey].data;
    && mine.ManifestObject? && theirs.ManifestObject?
    && mine.manifest == theirs.manifest == run.pushed && mine.sealedAt == theirs.sealedAt
  }

  lemma FinishedIsSameEnd(e: Engine.Engine, wrote: seq<Written>, run: Engine.Run, report: Engine.Report, q: Plan, w: World, len: nat)
    requires q.ctx.device in q.start.devices && RunsFor(e, run, q) && DeviceOf(q).phase.Idle?
    requires e.Completed(Before(q), wrote, run, report) && (e.State(), run.pushed) == EndOf(q)
    requires Finished(q, w, len)
    ensures SameEnd(e, run, w, q.ctx.device)
  {
    hide EndOf, SyncOver, ScanAll, Completes, Progress.Replaces;
  }

  /**
   Whatever steps the protocol's device takes for its sync, undisturbed and to a push: if they draw the ids the
   engine drew, the device ends with the engine's cache, disk and copies, and the store with the same manifest.
   */
  lemma StepsEndLikeTheEngine(e: Engine.Engine, wrote: seq<Written>, run: Engine.Run, report: Engine.Report,
      past: seq<World>, longer: seq<World>, d: DeviceId) returns (q: Plan)
    requires IsRun(past) && OneSync(past, d, longer) && AtRest(Last(past), d) && AtRest(Last(longer), d)
    requires |Last(longer).history| > |Last(past).history|
    ensures q.start == Last(past) && q.ctx.device == d && d in q.start.devices
    ensures
      && RunsFor(e, run, q) && e.Completed(Before(q), wrote, run, report) && run.refused == 0
      && Lookup(run.before, ManifestKey) == Lookup(q.start.objects, ManifestKey)
      ==> SameEnd(e, run, Last(longer), d)
  {
    var len;
    q, len := UndisturbedSyncIsSpecified(past, d, longer);
    hide IsRun, OneSync, EndOf, AllDone, SameEnd, RunsFor;
    assert d in q.start.devices && DeviceOf(q).phase.Idle?;
    if
      && RunsFor(e, run, q) && e.Completed(Before(q), wrote, run, report) && run.refused == 0
      && Lookup(run.before, ManifestKey) == Lookup(q.start.objects, ManifestKey)
    {
      EngineEndsAsSpecified(e, wrote, run, report, past, q);
      FinishedIsSameEnd(e, wrote, run, report, q, Last(longer), len);
    }
  }

  /** And there are such steps, wherever the device is ready for its sync. */
  lemma EngineSyncIsARun(e: Engine.Engine, wrote: seq<Written>, run: Engine.Run, report: Engine.Report,
      past: seq<World>, q: Plan) returns (longer: seq<World>)
    requires IsRun(past) && Last(past) == q.start && QuietSyncs.Ready(q) && RunsFor(e, run, q)
    requires e.Completed(Before(q), wrote, run, report) && run.refused == 0
    requires Lookup(run.before, ManifestKey) == Lookup(q.start.objects, ManifestKey)
    ensures Continues(q, past, longer) && SameEnd(e, run, Last(longer), q.ctx.device)
  {
    longer := QuietSyncRuns(q, past);
    ReadyDevice(q);
    hide IsRun, QuietSyncs.Ready, Continues, SameEnd, RunsFor, EndOf, Finished;
    EngineEndsAsSpecified(e, wrote, run, report, past, q);
    FinishedIsSameEnd(e, wrote, run, report, q, Last(longer), 0);
  }

  // ---- a device that is ready succeeds -----------------------------------------------------------------------

  /** No more operations seal than there are paths that draw. */
  lemma {:induction false} SealCountWithin(e: Engine.Engine, ops: seq<DiffOp>, k: nat, paths: set<Path>)
    requires k <= |ops| && forall i, j | 0 <= i < j < |ops| :: ops[i].path != ops[j].path
    requires forall i | 0 <= i < k :: e.Seals(ops[i]) ==> ops[i].path in paths
    ensures e.SealCount(ops, k) <= |paths|
  {
    if k > 0 {
      var last := ops[k - 1];
      if e.Seals(last) {
        assert paths == paths - {last.path} + {last.path};
        SealCountWithin(e, ops, k - 1, paths - {last.path});
      } else {
        SealCountWithin(e, ops, k - 1, paths);
      }
    }
  }

  lemma StoredOpens(past: seq<World>, p: Path)
    requires IsRun(past) && past != [] && p in StoreOf(Last(past)).entries
    requires StoreOf(Last(past)).entries[p].size <= 256 * 1024 * 1024 - 40
    ensures FetchBlob(Last(past).objects, p, StoreOf(Last(past)).entries[p]).Ok?
  {
    hide FetchBlob, IsRun;
    EveryEntryOpensIff(past, |past| - 1, p);
  }

  /** A path that goes in the step system goes in the engine. */
  lemma ConcernedPasses(e: Engine.Engine, past: seq<World>, q: Plan, op: DiffOp)
    requires IsRun(past) && Last(past) == q.start && q.ctx.device in q.start.devices
    requires e.managed == DeviceOf(q).managed && e.ctx == q.ctx
    requires op.path in e.managed ==>
      && Concerned(q, op.path) && op == OpAt(q, op.path) && PathGoes(q, op.path)
      && OutcomeAt(QuietSyncs.Scanned(q), e.managed, q.ctx, StoreOf(q.start), q.reseals, op.path).Applied?
    ensures e.Answered(op) && e.Available(q.start.objects, op) && !e.Stops(op)
    ensures e.Seals(op) ==> op.path in q.reseals
  {
    hide ScanAll, FetchBlob, IsRun, LatestChoice, ApplyResolution;
    var p := op.path;
    if p in e.managed && (op.PullLocal? || op.Conflicting?) {
      RemoteOf(p, Lookup(QuietSyncs.Scanned(q).local.entries, p), Lookup(StoreOf(q.start).entries, p));
      RunNotEmpty(past);
      StoredOpens(past, p);
    }
    hide Classify;
  }

  /**
   Wherever the step system's device is ready for its sync, the engine's goes through: without other clients
   `Sync` answers Ok, for ids enough and new, and no resolver stops it.
   */
  lemma ReadyDeviceSucceeds(e: Engine.Engine, past: seq<World>, q: Plan, a: Engine.Attempt, n: nat)
    requires IsRun(past) && Last(past) == q.start && QuietSyncs.Ready(q)
    requires e.managed == DeviceOf(q).managed && e.ctx == q.ctx && a.ids == q.ids
    requires e.Diffed(Before(q), StoreOf(q.start), a) && |q.ids| + |q.reseals| <= n
    ensures var accepted := e.Accepts(q.start.objects, Engine.Engine.Anchored(DeviceOf(q).cache), DeviceOf(q).cache.version);
      && accepted.Ok? && accepted.value.0 == StoreOf(q.start)
      && e.AttemptGoes(Before(q), q.start.objects, accepted, n, a)
    ensures forall i | 0 <= i < |a.ops| :: !e.Stops(a.ops[i])
  {
    hide IsRun, QuietSyncs.Ready, ScanAll, IsDiff, ApplyPath, FetchManifest, AcceptFetched;
    ReadyDevice(q);
    ReadyIsAccepted(e, past, q);
    AllPass(e, past, q, a.ops);
    DistinctPaths(a.ops, QuietSyncs.Scanned(q).local.entries, StoreOf(q.start).entries);
    SealCountWithin(e, a.ops, |a.ops|, q.reseals.Keys);
    StagedIds(q);
    hide e.Stops, e.Answered, e.Available, e.Seals, Staged;
    assert e.GoesTo(a.ops, |a.ops|, q.start.objects, n - |Staged(Before(q), e.managed)|);
  }

  lemma ReadyIsAccepted(e: Engine.Engine, past: seq<World>, q: Plan)
    requires IsRun(past) && Last(past) == q.start && QuietSyncs.Ready(q) && e.ctx == q.ctx
    ensures e.Accepts(q.start.objects, Engine.Engine.Anchored(DeviceOf(q).cache), DeviceOf(q).cache.version)
      == Ok((StoreOf(q.start), EtagOf(q)))
  {
    RunNotEmpty(past);
    RunInvariant(past, |past| - 1);
    FetchIsAccepted(q);
    ReadyDevice(q);
    hide IsRun, Inv, QuietSyncs.Ready, ScanAll, FetchManifest, AcceptFetched;
  }

  lemma AllPass(e: Engine.Engine, past: seq<World>, q: Plan, ops: seq<DiffOp>)
    requires IsRun(past) && Last(past) == q.start && QuietSyncs.Ready(q)
    requires e.managed == DeviceOf(q).managed && e.ctx == q.ctx
    requires IsDiff(ops, QuietSyncs.Scanned(q).local.entries, StoreOf(q.start).entries)
    ensures forall i | 0 <= i < |ops| ::
      e.Answered(ops[i]) && e.Available(q.start.objects, ops[i]) && !e.Stops(ops[i]) && (e.Seals(ops[i]) ==> ops[i].path in q.reseals)
  {
    hide IsRun, ScanAll, ApplyPath, PathGoes, Served, FreshIds, RoomToBump, Staged;
    var l, r := QuietSyncs.Scanned(q).local.entries, StoreOf(q.start).entries;
    forall i | 0 <= i < |ops|
      ensures e.Answered(ops[i]) && e.Available(q.start.objects, ops[i]) && !e.Stops(ops[i])
      ensures e.Seals(ops[i]) ==> ops[i].path in q.reseals
    {
      var p := ops[i].path;
      PathOf(l, r, p);
      if p in e.managed {
        assert Concerned(q, p);
        assert PathGoes(q, p);
        assert OutcomeAt(QuietSyncs.Scanned(q), e.managed, q.ctx, StoreOf(q.start), q.reseals, p).Applied?;
      }
      ConcernedPasses(e, past, q, ops[i]);
    }
  }

  lemma PathOf(l: map<Path, Entry>, r: map<Path, Entry>, p: Path)
    requires p in l || p in r
    ensures ClassifyAt(l, r, p).path == p
  {}

  lemma DistinctPaths(ops: seq<DiffOp>, l: map<Path, Entry>, r: map<Path, Entry>)
    requires IsDiff(ops, l, r)
    ensures forall i, j | 0 <= i < j < |ops| :: ops[i].path != ops[j].path
  {}

  lemma StagedIds(q: Plan)
    requires QuietSyncs.Ready(q)
    ensures |Staged(Before(q), DeviceOf(q).managed)| == |q.ids.Keys| == |q.ids| && |q.reseals.Keys| == |q.reseals|
  {}
}
