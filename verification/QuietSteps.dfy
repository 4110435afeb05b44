/**
 Any undisturbed sync of the step system, whatever order its steps come in: if it comes to rest after
 a push, it has done what the specification says, for the ids it drew.
 */
module QuietSteps {
  import opened Prelude
  import opened Clocks
  import opened Manifests
  import opened Conflicts
  import opened Diffs
  import opened Sealing
  import opened Stores
  import opened Paths
  import opened Replicas
  import opened SyncModel
  import opened Protocol
  import opened ProtocolInvariant
  import opened ProtocolSteps
  import opened ProtocolTheorems
  import opened QuietSyncs
  import Progress

  // ---- what the steps have drawn ------------------------------------------------------------------

  /** The ids are the ones the scan drew, and the counters had room for it. */
  ghost predicate Begins(q: Plan) {
    && q.ctx.device in q.start.devices
    && DeviceOf(q).phase.Idle?
    && RoomToBump(DeviceOf(q).cache, q.ctx.device)
    && q.ids.Keys == Staged(Before(q), DeviceOf(q).managed)
    && FreshIds(q.start, q.ids)
  }

  /** A path that was sealed again got a new id, and one that conflicted had room in its counter. */
  predicate PathDrew(q: Plan, p: Path)
    requires q.ctx.device in q.start.devices && Concerned(q, p)
  {
    var op := OpAt(q, p);
    && (UsesFreshId(q.ctx, DeviceOf(q).managed[p], op) ==>
         IdFor(q.reseals, p) !in q.start.births && IdFor(q.reseals, p) !in q.ids.Values)
    && (op.Conflicting? ==> Get(Merge(op.local.clock, op.remote.clock), q.ctx.device) < U64_MAX)
  }

  ghost predicate Drew(q: Plan, done: set<Path>)
    requires q.ctx.device in q.start.devices
  {
    forall p | p in done && Concerned(q, p) :: PathDrew(q, p)
  }

  /** Every path was applied, and drew what it needed. */
  ghost predicate AllDone(q: Plan) {
    && Begins(q)
    && Drew(q, AllPaths(q))
    && Completes(Scanned(q), DeviceOf(q).managed, q.ctx, StoreOf(q.start), q.reseals)
  }

  // ---- where an undisturbed sync can be -------------------------------------------------------------

  ghost predicate Alone(q: Plan, w: World) {
    && q.ctx.device in q.start.devices && q.ctx.device in w.devices
    && q.start.births.Keys + q.ids.Values <= w.births.Keys
    && (forall e | e != q.ctx.device :: Lookup(w.devices, e) == Lookup(q.start.devices, e))
  }

  ghost predicate OverOrNot(q: Plan, w: World) {
    w.history == q.start.history || (AllDone(q) && exists len :: Finished(q, w, len))
  }

  ghost predicate AfterPush(q: Plan, w: World) {
    AllDone(q) && exists len :: Pushed(q, w, len)
  }

  /** In each phase the device holds exactly what the specification gives at that point. */
  ghost predicate Stage(q: Plan, w: World) {
    && Begins(q) && Alone(q, w)
    && var phase := w.devices[q.ctx.device].phase;
    match phase
    case Idle => OverOrNot(q, w)
    case Uploading(job, _, _) => job == JobOf(q) && Holding(q, w, Before(q), phase)
    case Listing(_) => false
    case Getting(_, _) => phase == Getting(JobOf(q), EtagOf(q)) && Holding(q, w, Before(q), phase)
    case Applying(_, _, _, todo) => Midway(q, w, todo) && Drew(q, AllPaths(q) - todo)
    case Pushing(_, _, _) =>
      AllDone(q) && Holding(q, w, PreparedOf(q), Pushing(JobOf(q).(local := PreparedOf(q).local), EtagOf(q), StoreOf(q.start)))
    case Saving(_) => w.history == q.start.history || AfterPush(q, w)
  }

  // ---- the steps ----------------------------------------------------------------------------------------

  lemma StageStarts(w: World, d: DeviceId, resolver: Option<Resolver>, now: nat, ids: map<Path, BlobId>, w': World)
    requires StartStep(w, d, resolver, now, ids, w')
    ensures Stage(Plan(w, Context(d, resolver, now), ids, map[]), w')
  {
    var q := Plan(w, Context(d, resolver, now), ids, map[]);
    hide ScanAll;
    assert w'.births.Keys == w.births.Keys + ids.Values;
    hide ScanBirths, FreshIds;
    assert JobOf(q) == w'.devices[d].phase.job;
  }

  lemma UploadStays(q: Plan, w: World, a: Action, w': World)
    requires Stage(q, w) && Step(w, q.ctx.device, a, w') && (a.UploadHeader? || a.UploadBody?)
    ensures Stage(q, w')
  {
    hide Begins, ScanAll, AllDone, Midway, Drew, PreparedOf, AfterPush, OverOrNot, JobOf;
  }

  lemma ListStays(q: Plan, w: World, w': World)
    requires Stage(q, w) && Step(w, q.ctx.device, ListManifest, w')
    ensures Stage(q, w')
  {
    hide Begins, ScanAll, AllDone, Midway, Drew, PreparedOf, AfterPush, OverOrNot, JobOf;
    SameListing(w.objects, q.start.objects);
  }

  lemma GetStays(q: Plan, w: World, w': World)
    requires Stage(q, w) && Inv(q.start) && Step(w, q.ctx.device, GetManifest, w')
    ensures Stage(q, w')
  {
    hide Begins, ScanAll, AllDone, Drew, PreparedOf, AfterPush, Fetch, Accept, Finished, Progress.Applying, Midway, JobOf, StoreOf,
      EtagOf, AllPaths;
    BeginsIn(q);
    assert w.devices[q.ctx.device].phase.Getting?;
    SameFetchOf(q, w);
    FetchIsBase(q);
    GotAll(q);
    AloneStep(q, w, w');
    if w'.devices[q.ctx.device].phase.Applying? {
      GotMidway(q, w, w');
    }
  }

  lemma GotAll(q: Plan)
    requires q.ctx.device in q.start.devices
    ensures AllPaths(q) == JobOf(q).local.entries.Keys + StoreOf(q.start).entries.Keys
  {
    hide ScanAll;
  }

  lemma SameFetchOf(q: Plan, w: World)
    requires q.ctx.device in q.start.devices && Lookup(w.objects, ManifestKey) == Lookup(q.start.objects, ManifestKey)
    ensures Fetch(w.objects, EtagOf(q), JobOf(q)) == Fetch(q.start.objects, EtagOf(q), JobOf(q))
  {
    SameFetch(q, w);
  }

  /** If the fetch is accepted, it returns the last push under the listed etag. */
  lemma FetchIsBase(q: Plan)
    requires q.ctx.device in q.start.devices && Inv(q.start)
    ensures var answer := Accept(Fetch(q.start.objects, EtagOf(q), JobOf(q)), JobOf(q));
      answer.Ok? ==> answer.value == (StoreOf(q.start), EtagOf(q))
  {
    var w, job := q.start, JobOf(q);
    assert StoreInv(w);
    StoreHas(w);
    hide Inv, StoreInv, ScanAll, Fetch, Accept;
    if Accept(Fetch(w.objects, EtagOf(q), job), job).Ok? { FetchIsLast(w, job, EtagOf(q)); }
  }

  lemma GotMidway(q: Plan, w: World, w': World)
    requires q.ctx.device in q.start.devices && Alone(q, w')
    requires Holding(q, w, Before(q), Getting(JobOf(q), EtagOf(q)))
    requires w' == SetPhase(w, q.ctx.device, Applying(JobOf(q), EtagOf(q), StoreOf(q.start), AllPaths(q)))
    ensures Midway(q, w', AllPaths(q)) && Drew(q, AllPaths(q) - AllPaths(q))
  {
    assert AllPaths(q) - AllPaths(q) == {};
    ScanKeepsFiles(q);
    hide ScanAll, Progress.Applying;
    Progress.ApplyingStarts(Scanned(q), DeviceOf(q).managed, q.ctx, StoreOf(q.start), q.reseals);
    var dev := w'.devices[q.ctx.device];
    assert ReplicaOf(dev, dev.phase.job.local) == Scanned(q);
  }
  // ---- applying one path ----------------------------------------------------------------------------------

  /** The plan with the id this path draws. */
  function Drawing(q: Plan, p: Path, id: BlobId): Plan {
    q.(reseals := q.reseals[p := id])
  }

  lemma MidwayDraws(q: Plan, w: World, todo: set<Path>, p: Path, id: BlobId)
    requires Midway(q, w, todo) && p in todo
    ensures Midway(Drawing(q, p, id), w, todo)
  {
    var dev, done := w.devices[q.ctx.device], AllPaths(q) - todo;
    hide ScanAll;
    ApplyingDraws(ReplicaOf(dev, dev.phase.job.local), Scanned(q), DeviceOf(q).managed, q.ctx, StoreOf(q.start), q.reseals, done, p, id);
    hide Progress.Applying;
  }

  /** An id for a path that is still to do changes nothing. */
  lemma ApplyingDraws(s: Replica, w: Replica, managed: Managed, ctx: Context, base: Manifest, ids: map<Path, BlobId>,
      done: set<Path>, p: Path, id: BlobId)
    requires Progress.Applying(s, w, managed, ctx, base, ids, done) && p !in done
    ensures Progress.Applying(s, w, managed, ctx, base, ids[p := id], done)
  {
    hide OutcomeAt, PathAfter, At;
    forall r
      ensures (At(s, r) == if r in done then PathAfter(w, managed, ctx, base, ids[p := id], r) else At(w, r))
      ensures r in done && Concerns(w, managed, base, r) ==> OutcomeAt(w, managed, ctx, base, ids[p := id], r).Applied?
    {
      if r != p { Progress.IdElsewhere(w, managed, ctx, base, ids, p, id, r); }
    }
  }

  lemma DrewOneMore(q: Plan, done: set<Path>, p: Path, id: BlobId)
    requires q.ctx.device in q.start.devices && Drew(q, done) && p !in done
    requires Concerned(q, p) ==> PathDrew(Drawing(q, p, id), p)
    ensures Drew(Drawing(q, p, id), done + {p})
  {
    hide ScanAll, Classify, UsesFreshId;
    var q2 := Drawing(q, p, id);
    forall r | r in done + {p} && Concerned(q2, r) ensures PathDrew(q2, r) {
      if r != p { assert PathDrew(q, r); }
    }
  }

  /** What stays when the device's own state has been settled. */
  lemma AloneStays(q: Plan, w: World, w': World)
    requires Alone(q, w)
    requires w'.births.Keys >= w.births.Keys
    requires forall e | e != q.ctx.device :: Lookup(w'.devices, e) == Lookup(w.devices, e)
    requires q.ctx.device in w'.devices
    ensures Alone(q, w')
  {}

  /** The step left the path in its final state. */
  lemma SettledStays(q: Plan, w: World, todo: set<Path>, p: Path, id: BlobId, state: PathState, w': World)
    requires q.ctx.device in q.start.devices && p in todo && p in AllPaths(q) && Concerned(q, p)
    requires Begins(q) && Alone(q, w) && Midway(q, w, todo) && Drew(q, AllPaths(q) - todo)
    requires OutcomeAt(Scanned(q), DeviceOf(q).managed, q.ctx, StoreOf(q.start), map[p := id], p) == Applied(state)
    requires var op := OpAt(q, p); op.Conflicting? ==> Get(Merge(op.local.clock, op.remote.clock), q.ctx.device) < U64_MAX
    requires q.ctx.device in w.devices && w.devices[q.ctx.device].phase.Applying?
    requires if UsesFreshId(q.ctx, DeviceOf(q).managed[p], OpAt(q, p))
      then id !in w.births && exists b: Birth :: w' == Publish(Settle(w, q.ctx.device, p, state), id, b)
      else w' == Settle(w, q.ctx.device, p, state)
    ensures Stage(Drawing(q, p, id), w')
  {
    hide ScanAll, Progress.Applying, Classify, UsesFreshId, Midway, Drew, Alone, Begins, OutcomeAt, Settle, Publish, Stage;
    var q2, settled := Drawing(q, p, id), Settle(w, q.ctx.device, p, state);
    MidwayDraws(q, w, todo, p, id);
    SameOutcome(q, p, id);
    SettledMidway(q2, w, todo, p, state);
    SettleIsLocal(q, w, p, state);
    IdsAreTaken(q, w);
    DrewThis(q, todo, p, id);
    if UsesFreshId(q.ctx, DeviceOf(q).managed[p], OpAt(q, p)) {
      var b: Birth :| w' == Publish(settled, id, b);
      PublishIsLocal(q2, settled, todo - {p}, id, b);
    }
    AloneStays(q, w, w');
    AloneDraws(q, w', p, id);
    StageOfMidway(q2, w', todo - {p});
  }

  lemma IdsAreTaken(q: Plan, w: World)
    requires Alone(q, w)
    ensures q.start.births.Keys + q.ids.Values <= w.births.Keys
  {}

  lemma DrewThis(q: Plan, todo: set<Path>, p: Path, id: BlobId)
    requires q.ctx.device in q.start.devices && Drew(q, AllPaths(q) - todo) && p in todo && p in AllPaths(q) && Concerned(q, p)
    requires UsesFreshId(q.ctx, DeviceOf(q).managed[p], OpAt(q, p)) ==> id !in q.start.births && id !in q.ids.Values
    requires var op := OpAt(q, p); op.Conflicting? ==> Get(Merge(op.local.clock, op.remote.clock), q.ctx.device) < U64_MAX
    ensures Drew(Drawing(q, p, id), AllPaths(q) - (todo - {p}))
  {
    hide ScanAll, Classify, UsesFreshId, Drew;
    assert PathDrew(Drawing(q, p, id), p);
    DrewOneMore(q, AllPaths(q) - todo, p, id);
    assert AllPaths(q) - (todo - {p}) == AllPaths(q) - todo + {p};
  }

  lemma PublishIsLocal(q: Plan, w: World, todo: set<Path>, id: BlobId, b: Birth)
    requires Midway(q, w, todo)
    ensures Midway(q, Publish(w, id, b), todo)
    ensures Publish(w, id, b).devices == w.devices && Publish(w, id, b).births.Keys >= w.births.Keys
  {
    hide ScanAll, Progress.Applying;
  }

  lemma AloneDraws(q: Plan, w: World, p: Path, id: BlobId)
    ensures Alone(q, w) ==> Alone(Drawing(q, p, id), w)
    ensures Begins(q) ==> Begins(Drawing(q, p, id))
  {
    hide ScanAll, FreshIds, RoomToBump, Staged;
  }

  lemma StageOfMidway(q: Plan, w: World, todo: set<Path>)
    requires Begins(q) && Alone(q, w) && Midway(q, w, todo) && Drew(q, AllPaths(q) - todo)
    ensures Stage(q, w)
  {
    hide Begins, Alone, Drew, Progress.Applying, ScanAll;
  }

  lemma SameOutcome(q: Plan, p: Path, id: BlobId)
    requires q.ctx.device in q.start.devices && Concerned(q, p)
    ensures OutcomeAt(Scanned(q), DeviceOf(q).managed, q.ctx, StoreOf(q.start), map[p := id], p)
      == OutcomeAt(Scanned(q), DeviceOf(q).managed, q.ctx, StoreOf(q.start), q.reseals[p := id], p)
  {
    hide ScanAll, ApplyPath;
  }

  lemma SettleIsLocal(q: Plan, w: World, p: Path, state: PathState)
    requires q.ctx.device in w.devices && w.devices[q.ctx.device].phase.Applying?
    ensures var w' := Settle(w, q.ctx.device, p, state);
      && q.ctx.device in w'.devices && w'.devices[q.ctx.device].phase.Applying? && w'.births == w.births
      && (forall e | e != q.ctx.device :: Lookup(w'.devices, e) == Lookup(w.devices, e))
  {
    hide With;
  }
  /** What a step on a managed path does, in terms of the plan. */
  lemma ReadStep(q: Plan, w: World, todo: set<Path>, p: Path, id: BlobId, w': World)
    requires Midway(q, w, todo) && ApplyStep(w, q.ctx.device, p, id, w') && p in todo && Concerned(q, p)
    ensures var out := OutcomeAt(Scanned(q), DeviceOf(q).managed, q.ctx, StoreOf(q.start), map[p := id], p);
      || w' == SetPhase(w, q.ctx.device, Idle)
      || w' == SetPhase(w, q.ctx.device, Saving(w.devices[q.ctx.device].phase.job))
      || (out.Applied? && SettledBy(q, w, p, id, out.state, w'))
  {
    AtPath(q, w, todo, p);
    var dev := w.devices[q.ctx.device];
    var job := dev.phase.job;
    FirstJob(q);
    assert job.ctx == q.ctx && job.attempt == 0 && dev.phase.base == StoreOf(q.start) && dev.managed == DeviceOf(q).managed;
    assert ClassifyAt(job.local.entries, dev.phase.base.entries, p) == OpAt(q, p);
    var s := At(ReplicaOf(dev, job.local), p);
    assert s == At(Scanned(q), p) && IdFor(map[p := id], p) == id;
    hide ScanAll, Classify, UsesFreshId, Reads, FetchBlob, Progress.Applying, ApplyPath, Settle, Publish, At, Midway, JobOf, StoreOf;
  }

  ghost predicate SettledBy(q: Plan, w: World, p: Path, id: BlobId, state: PathState, w': World)
    requires q.ctx.device in q.start.devices && Concerned(q, p)
  {
    && q.ctx.device in w.devices && w.devices[q.ctx.device].phase.Applying?
    && var op := OpAt(q, p);
    && (op.Conflicting? ==> Get(Merge(op.local.clock, op.remote.clock), q.ctx.device) < U64_MAX)
    && if UsesFreshId(q.ctx, DeviceOf(q).managed[p], op)
       then id !in w.births && exists b: Birth :: w' == Publish(Settle(w, q.ctx.device, p, state), id, b)
       else w' == Settle(w, q.ctx.device, p, state)
  }

  lemma ApplyStays(q: Plan, w: World, p: Path, id: BlobId, w': World) returns (q2: Plan)
    requires Stage(q, w) && ApplyStep(w, q.ctx.device, p, id, w')
    ensures q2 == q || q2 == Drawing(q, p, id)
    ensures Stage(q2, w')
  {
    hide Begins, ScanAll, Midway, Alone, Drew, ApplyStep, OutcomeAt, Stage;
    q2 := q;
    var todo := StageAtApply(q, w, p, id, w');
    var dev := w.devices[q.ctx.device];
    if Concerned(q, p) {
      ReadStep(q, w, todo, p, id, w');
      var out := OutcomeAt(Scanned(q), DeviceOf(q).managed, q.ctx, StoreOf(q.start), map[p := id], p);
      PathsOfPlan(q, w, todo);
      if w' == SetPhase(w, q.ctx.device, Idle) || w' == SetPhase(w, q.ctx.device, Saving(dev.phase.job)) {
        HaltedStays(q, w, todo, w');
      } else {
        SettledStays(q, w, todo, p, id, out.state, w');
        q2 := Drawing(q, p, id);
      }
    } else {
      SkipStays(q, w, todo, p, id, w');
    }
  }

  lemma StageAtApply(q: Plan, w: World, p: Path, id: BlobId, w': World) returns (todo: set<Path>)
    requires Stage(q, w) && ApplyStep(w, q.ctx.device, p, id, w')
    ensures q.ctx.device in q.start.devices && q.ctx.device in w.devices && p in todo
    ensures Midway(q, w, todo) && Begins(q) && Alone(q, w) && Drew(q, AllPaths(q) - todo)
  {
    hide Begins, ScanAll, Alone, Drew, ApplyPath, FetchBlob, Reads, UsesFreshId, Classify, Midway, AllDone, JobOf, Holding;
    todo := w.devices[q.ctx.device].phase.todo;
    assert Alone(q, w) && Begins(q);
    BeginsIn(q);
  }

  lemma BeginsIn(q: Plan)
    requires Begins(q)
    ensures q.ctx.device in q.start.devices
  {}

  lemma PathsOfPlan(q: Plan, w: World, todo: set<Path>)
    requires Midway(q, w, todo)
    ensures todo <= AllPaths(q) && w.devices[q.ctx.device].phase.Applying? && w.history == q.start.history
  {}

  /** A failure or an abort pushes nothing. */
  lemma HaltedStays(q: Plan, w: World, todo: set<Path>, w': World)
    requires Begins(q) && Alone(q, w) && Midway(q, w, todo)
    requires w' == SetPhase(w, q.ctx.device, Idle) || w' == SetPhase(w, q.ctx.device, Saving(w.devices[q.ctx.device].phase.job))
    ensures Stage(q, w')
  {
    hide Begins, Alone, ScanAll, Midway, AllDone, Drew, Finished, Pushed;
    PathsOfPlan(q, w, todo);
    BeginsIn(q);
    AloneIn(q, w);
    AloneStep(q, w, w');
  }

  lemma SkipStays(q: Plan, w: World, todo: set<Path>, p: Path, id: BlobId, w': World)
    requires Begins(q) && Alone(q, w) && Midway(q, w, todo) && Drew(q, AllPaths(q) - todo)
    requires ApplyStep(w, q.ctx.device, p, id, w') && p in todo && !Concerned(q, p)
    ensures Stage(q, w')
  {
    AtPath(q, w, todo, p);
    SkippedMidway(q, w, todo, p);
    assert w' == SetPhase(w, q.ctx.device, w.devices[q.ctx.device].phase.(todo := todo - {p}));
    hide ScanAll, Begins, Progress.Applying, Concerned, ApplyStep;
    assert Drew(q, AllPaths(q) - (todo - {p})) by { DrewSkips(q, todo, p); }
    AloneStays(q, w, w');
    StageOfMidway(q, w', todo - {p});
  }

  lemma DrewSkips(q: Plan, todo: set<Path>, p: Path)
    requires q.ctx.device in q.start.devices && Drew(q, AllPaths(q) - todo) && !Concerned(q, p)
    ensures Drew(q, AllPaths(q) - (todo - {p}))
  {
    hide ScanAll, Classify, UsesFreshId, PathDrew;
  }

  // ---- the push and the end ---------------------------------------------------------------------------------

  lemma DoneStays(q: Plan, w: World, w': World)
    requires Stage(q, w) && Step(w, q.ctx.device, ApplyDone, w')
    ensures Stage(q, w')
  {
    var d := q.ctx.device;
    assert Midway(q, w, {}) && Begins(q) && Alone(q, w) && Drew(q, AllPaths(q) - {});
    assert AllPaths(q) - {} == AllPaths(q);
    EverythingDone(q, w);
    hide Begins, ScanAll, Drew, Progress.Applying, AllDone, Midway, Alone;
    var w2 := FinishedApplying(q, w);
    OneWayDone(w, d, w', w2);
    hide Step;
    AloneStep(q, w, w');
  }

  lemma EverythingDone(q: Plan, w: World)
    requires Begins(q) && Midway(q, w, {}) && Drew(q, AllPaths(q))
    ensures AllDone(q)
  {
    hide Begins, ScanAll, Drew, Progress.Applying;
    var dev := w.devices[q.ctx.device];
    assert AllPaths(q) - {} == AllPaths(q);
    Progress.AppliedAll(ReplicaOf(dev, dev.phase.job.local), Scanned(q), DeviceOf(q).managed, q.ctx, StoreOf(q.start), q.reseals, AllPaths(q));
  }

  lemma OneWayDone(w: World, d: DeviceId, w1: World, w2: World)
    requires Step(w, d, ApplyDone, w1) && Step(w, d, ApplyDone, w2)
    ensures w1 == w2
    ensures d in w1.devices && w1.births == w.births && forall e | e != d :: Lookup(w1.devices, e) == Lookup(w.devices, e)
  {}

  lemma AloneStep(q: Plan, w: World, w': World)
    requires Alone(q, w) && w'.births == w.births && q.ctx.device in w'.devices
    requires forall e | e != q.ctx.device :: Lookup(w'.devices, e) == Lookup(w.devices, e)
    ensures Alone(q, w')
  {}
  lemma PushStays(q: Plan, w: World, len: nat, w': World)
    requires Stage(q, w) && Step(w, q.ctx.device, PushManifest(len), w')
    ensures Stage(q, w')
  {
    hide Begins, AllDone, ScanAll, Midway, Stage, Alone, Holding, Step, Pushed, PreparedOf, JobOf;
    StageAtPush(q, w, len, w');
    PushedBySteps(q, w, len, w');
    AloneStep(q, w, w');
    StageOfPushed(q, w', len);
  }

  lemma StageAtPush(q: Plan, w: World, len: nat, w': World)
    requires Stage(q, w) && Step(w, q.ctx.device, PushManifest(len), w')
    ensures q.ctx.device in q.start.devices && AllDone(q) && Begins(q) && Alone(q, w)
    ensures Holding(q, w, PreparedOf(q), Pushing(JobOf(q).(local := PreparedOf(q).local), EtagOf(q), StoreOf(q.start)))
  {
    hide Begins, AllDone, ScanAll, Midway, Alone, Holding, PreparedOf, JobOf, Outgoing, GuardHolds;
    assert Begins(q);
    BeginsIn(q);
    AloneIn(q, w);
    assert w.devices[q.ctx.device].phase.Pushing?;
  }

  lemma AloneIn(q: Plan, w: World)
    requires Alone(q, w)
    ensures q.ctx.device in w.devices
  {}

  lemma PushedBySteps(q: Plan, w: World, len: nat, w': World)
    requires q.ctx.device in q.start.devices && Step(w, q.ctx.device, PushManifest(len), w')
    requires Holding(q, w, PreparedOf(q), Pushing(JobOf(q).(local := PreparedOf(q).local), EtagOf(q), StoreOf(q.start)))
    ensures Pushed(q, w', len) && w'.births == w.births && q.ctx.device in w'.devices
    ensures forall e | e != q.ctx.device :: Lookup(w'.devices, e) == Lookup(w.devices, e)
  {
    hide PreparedOf, Outgoing, EndOf, ScanAll, Final, GuardHolds, PutGuard, ListedEtag, JobOf, StoreOf;
    PreparedEnds(q);
    ListedGuardHolds(q.start.objects);
    SameListing(w.objects, q.start.objects);
    FirstJob(q);
  }

  lemma StageOfPushed(q: Plan, w: World, len: nat)
    requires Begins(q) && AllDone(q) && Alone(q, w) && Pushed(q, w, len)
    ensures Stage(q, w)
  {
    hide Begins, AllDone, ScanAll, Midway, Alone, EndOf;
    assert AfterPush(q, w);
    BeginsIn(q);
  }

  lemma SaveStays(q: Plan, w: World, w': World)
    requires Stage(q, w) && Step(w, q.ctx.device, Save, w')
    ensures Stage(q, w')
  {
    hide Begins, AllDone, ScanAll, Midway, EndOf, Stage, Alone, Finished, Pushed, Step;
    StageAtSave(q, w, w');
    BeginsIdle(q);
    AloneStep(q, w, w');
    if AfterPush(q, w) {
      var len :| Pushed(q, w, len);
      SavedFinished(q, w, len, w');
    }
    RestingStage(q, w');
  }

  lemma StageAtSave(q: Plan, w: World, w': World)
    requires Stage(q, w) && Step(w, q.ctx.device, Save, w')
    ensures Begins(q) && Alone(q, w) && (w.history == q.start.history || AfterPush(q, w))
    ensures w'.history == w.history && w'.births == w.births && AtRest(w', q.ctx.device)
    ensures forall e | e != q.ctx.device :: Lookup(w'.devices, e) == Lookup(w.devices, e)
  {
    hide Begins, AllDone, ScanAll, Midway, Alone, AfterPush, JobOf;
    assert Begins(q) && Alone(q, w);
    AloneIn(q, w);
    assert w.devices[q.ctx.device].phase.Saving?;
  }

  lemma RestingStage(q: Plan, w: World)
    requires Begins(q) && Alone(q, w) && AtRest(w, q.ctx.device) && OverOrNot(q, w)
    ensures Stage(q, w)
  {
    hide Begins, AllDone, ScanAll, Midway, OverOrNot;
    BeginsIn(q);
  }

  lemma BeginsIdle(q: Plan)
    requires Begins(q)
    ensures q.ctx.device in q.start.devices && DeviceOf(q).phase.Idle?
  {}

  lemma SavedFinished(q: Plan, w: World, len: nat, w': World)
    requires Pushed(q, w, len) && DeviceOf(q).phase.Idle? && Step(w, q.ctx.device, Save, w')
    ensures Finished(q, w', len)
  {
    var d := q.ctx.device;
    hide EndOf, ScanAll;
    forall e ensures Lookup(w'.devices, e) == Lookup(q.start.devices[d := w'.devices[d]], e) {
      assert e != d ==> Lookup(w.devices, e) == Lookup(q.start.devices, e);
    }
    SameLookups(w'.devices, q.start.devices[d := w'.devices[d]]);
  }

  /** Every step of the sync leaves the device where the specification has it. */
  lemma StageStep(q: Plan, w: World, w': World) returns (q2: Plan)
    requires Stage(q, w) && Inv(q.start) && SyncStep(w, q.ctx.device, w') && !AtRest(w, q.ctx.device)
    ensures q2 == q.(reseals := q2.reseals) && Stage(q2, w')
  {
    q2 := q;
    var a :| OfASync(a) && Step(w, q.ctx.device, a, w');
    hide Stage, Inv;
    match a
    case Start(_, _, _) => StartsAtRest(w, q.ctx.device, a, w');
    case UploadHeader(_) => UploadStays(q, w, a, w');
    case UploadBody(_) => UploadStays(q, w, a, w');
    case ListManifest => ListStays(q, w, w');
    case GetManifest => GetStays(q, w, w');
    case ApplyOne(p, id) => q2 := ApplyStays(q, w, p, id, w');
    case ApplyDone => DoneStays(q, w, w');
    case PushManifest(len) => PushStays(q, w, len, w');
    case Save => SaveStays(q, w, w');
  }

  lemma StartsAtRest(w: World, d: DeviceId, a: Action, w': World)
    requires Step(w, d, a, w') && a.Start?
    ensures AtRest(w, d)
  {}

  // ---- the whole sync -----------------------------------------------------------------------------------------

  /** The first step of a sync of a device at rest is its start. */
  lemma FirstStep(w: World, d: DeviceId, w': World) returns (q: Plan)
    requires SyncStep(w, d, w') && AtRest(w, d)
    ensures q.start == w && q.ctx.device == d && Stage(q, w')
  {
    var a :| OfASync(a) && Step(w, d, a, w');
    if !a.Start? { MovesFromMotion(w, d, a, w'); }
    StageStarts(w, d, a.resolver, a.now, a.ids, w');
    q := Plan(w, Context(d, a.resolver, a.now), a.ids, map[]);
  }

  lemma {:induction false} AlongTheWay(run: seq<World>, d: DeviceId, longer: seq<World>, k: nat) returns (q: Plan)
    requires IsRun(run) && OneSync(run, d, longer) && AtRest(Last(run), d) && |run| <= k < |longer|
    ensures q.start == Last(run) && q.ctx.device == d && Stage(q, longer[k])
  {
    hide Stage, AtRest, SyncStep, Inv, IsRun;
    assert SyncStep(longer[k - 1], d, longer[k]);
    if k == |run| {
      assert longer[k - 1] == Last(run);
      q := FirstStep(Last(run), d, longer[k]);
    } else {
      q := AlongTheWay(run, d, longer, k - 1);
      assert Inv(q.start) by { RunNotEmpty(run); RunInvariant(run, |run| - 1); }
      assert !AtRest(longer[k - 1], d);
      q := StageStep(q, longer[k - 1], longer[k]);
    }
  }

  lemma RunNotEmpty(run: seq<World>)
    requires IsRun(run)
    ensures run != []
  {}

  /**
   Whatever order its steps come in, whatever ids it draws on the way and whatever the size of what it puts: a
   sync that nobody disturbs and that is at rest again after a push has left the cache, the disk, the copies
   and the store exactly as the specification of a sync says, for those ids.
   */
  lemma UndisturbedSyncIsSpecified(run: seq<World>, d: DeviceId, longer: seq<World>) returns (q: Plan, len: nat)
    requires IsRun(run) && OneSync(run, d, longer) && AtRest(Last(run), d)
    requires AtRest(Last(longer), d) && |Last(longer).history| > |Last(run).history|
    ensures q.start == Last(run) && q.ctx.device == d
    ensures AllDone(q) && Finished(q, Last(longer), len)
  {
    hide IsRun, Finished, AllDone, Begins, Alone;
    assert longer != run;
    q := AlongTheWay(run, d, longer, |longer| - 1);
    len :| Finished(q, Last(longer), len);
  }
}
