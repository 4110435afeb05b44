/** One whole sync as a function of what it fetched: the specification of the engine's loops. */
module SyncModel {
  import opened Prelude
  import opened Clocks
  import opened Manifests
  import opened Conflicts
  import opened Diffs
  import opened Sealing
  import opened Paths
  import opened Replicas

  function Reach(w: Replica, base: Manifest): set<Path> {
    w.local.entries.Keys + w.local.resolutions.Keys + w.disk.Keys + w.sidecars.Keys + base.entries.Keys
  }

  /** The replica whose every path is in the state `f` gives. */
  function Rebuild(w: Replica, reach: set<Path>, f: Path -> PathState): Replica {
    Replica(
      w.local.(
        entries := map p | p in reach && f(p).entry.Some? :: f(p).entry.value,
        resolutions := map p | p in reach && f(p).record.Some? :: f(p).record.value),
      map p | p in reach && f(p).file.Some? :: f(p).file.value,
      map p | p in reach && f(p).sidecar.Some? :: f(p).sidecar.value)
  }

  const NOTHING := PathState(None, None, None, None)

  lemma RebuildAt(w: Replica, reach: set<Path>, f: Path -> PathState, p: Path)
    requires p in reach || f(p) == NOTHING
    ensures At(Rebuild(w, reach, f), p) == f(p)
  {}

  lemma SamePathsSameReplica(a: Replica, b: Replica)
    requires forall p :: At(a, p) == At(b, p)
    requires a.local.version == b.local.version && a.local.clock == b.local.clock && a.local.deviceId == b.local.deviceId
    ensures a == b
  {
    forall p ensures Lookup(a.local.entries, p) == Lookup(b.local.entries, p)
      && Lookup(a.local.resolutions, p) == Lookup(b.local.resolutions, p)
      && Lookup(a.disk, p) == Lookup(b.disk, p) && Lookup(a.sidecars, p) == Lookup(b.sidecars, p)
    {
      assert At(a, p) == At(b, p);
    }
    SameLookups(a.local.entries, b.local.entries);
    SameLookups(a.local.resolutions, b.local.resolutions);
    SameLookups(a.disk, b.disk);
    SameLookups(a.sidecars, b.sidecars);
  }

  // ---- applying a fetched manifest --------------------------------------------------------------

  /** Whether the first diff has an operation for a path this device manages. */
  predicate Concerns(w: Replica, managed: Managed, base: Manifest, p: Path) {
    p in managed && (p in w.local.entries || p in base.entries)
  }

  function OutcomeAt(w: Replica, managed: Managed, ctx: Context, base: Manifest, ids: map<Path, BlobId>, p: Path): Outcome
    requires Concerns(w, managed, base, p)
  {
    ApplyPath(ctx, managed[p], ClassifyAt(w.local.entries, base.entries, p), w.local.version, At(w, p), IdFor(ids, p))
  }

  function PathAfter(w: Replica, managed: Managed, ctx: Context, base: Manifest, ids: map<Path, BlobId>, p: Path): PathState {
    if Concerns(w, managed, base, p) && OutcomeAt(w, managed, ctx, base, ids, p).Applied?
    then OutcomeAt(w, managed, ctx, base, ids, p).state
    else At(w, p)
  }

  function ApplyAll(w: Replica, managed: Managed, ctx: Context, base: Manifest, ids: map<Path, BlobId>): Replica {
    Rebuild(w, Reach(w, base), p => PathAfter(w, managed, ctx, base, ids, p))
  }

  lemma ApplyAllAt(w: Replica, managed: Managed, ctx: Context, base: Manifest, ids: map<Path, BlobId>, p: Path)
    ensures At(ApplyAll(w, managed, ctx, base, ids), p) == PathAfter(w, managed, ctx, base, ids, p)
  {
    hide ApplyPath;
    RebuildAt(w, Reach(w, base), q => PathAfter(w, managed, ctx, base, ids, q), p);
  }

  /** No path stops or fails the sync. */
  ghost predicate Completes(w: Replica, managed: Managed, ctx: Context, base: Manifest, ids: map<Path, BlobId>) {
    forall p | Concerns(w, managed, base, p) :: OutcomeAt(w, managed, ctx, base, ids, p).Applied?
  }

  function PathRetried(w: Replica, managed: Managed, now: nat, base: Manifest, p: Path): PathState {
    if Concerns(w, managed, base, p)
    then RetryPath(ClassifyAt(w.local.entries, base.entries, p), At(w, p), now)
    else At(w, p)
  }

  function RetryAll(w: Replica, managed: Managed, now: nat, base: Manifest): Replica {
    Rebuild(w, Reach(w, base), p => PathRetried(w, managed, now, base, p))
  }

  lemma RetryAllAt(w: Replica, managed: Managed, now: nat, base: Manifest, p: Path)
    ensures At(RetryAll(w, managed, now, base), p) == PathRetried(w, managed, now, base, p)
  {
    RebuildAt(w, Reach(w, base), q => PathRetried(w, managed, now, base, q), p);
  }

  // ---- the whole sync ---------------------------------------------------------------------------

  /** After the scan and the first fetched manifest, ready for the first put. */
  function Prepared(w: Replica, managed: Managed, ctx: Context, base: Manifest, ids: map<Path, BlobId>, reseals: map<Path, BlobId>)
    : Replica
  {
    var applied := ApplyAll(ScanAll(w, managed, ctx.device, ids), managed, ctx, base, reseals);
    applied.(local := Finish(applied.local, base, ctx.device))
  }

  /** After the manifests fetched by the retries, in turn. */
  function Rebased(w: Replica, managed: Managed, now: nat, bases: seq<Manifest>): Replica {
    if bases == [] then w
    else RetryAll(Rebased(w, managed, now, bases[..|bases| - 1]), managed, now, bases[|bases| - 1])
  }

  function Final(w: Replica, managed: Managed, base: Manifest): (Replica, Manifest) {
    var out := Outgoing(w.local, base, managed.Keys);
    (w.(local := w.local.(version := out.version)), out)
  }

  /** A sync whose attempts fetched `bases`: what the device is left with, and what it pushed. */
  function SyncOver(w: Replica, managed: Managed, ctx: Context, bases: seq<Manifest>, ids: map<Path, BlobId>,
      reseals: map<Path, BlobId>): (Replica, Manifest)
    requires bases != []
  {
    Final(Rebased(Prepared(w, managed, ctx, bases[0], ids, reseals), managed, ctx.now, bases[1..]), managed, bases[|bases| - 1])
  }

  // ---- what a sync without contention does to one managed path -----------------------------------

  /** The pedigrees of the blobs this sync seals for a path. */
  ghost predicate SealsKnown(births: map<BlobId, Birth>, w: Replica, managed: Managed, ctx: Context, base: Manifest,
      ids: map<Path, BlobId>, reseals: map<Path, BlobId>, p: Path)
  {
    && var scanned := ScanAll(w, managed, ctx.device, ids);
    && KnownOption(births, p, Lookup(w.local.entries, p))
    && KnownOption(births, p, Lookup(base.entries, p))
    && KnownOption(births, p, Lookup(scanned.local.entries, p))
    && KnownOption(births, p, PathAfter(scanned, managed, ctx, base, reseals, p).entry)
  }

  /** If the path conflicts, this device's counter on the merged clock is not saturated. */
  predicate Roomy(w: Replica, base: Manifest, device: DeviceId, p: Path) {
    p in w.local.entries || p in base.entries ==>
      var op := ClassifyAt(w.local.entries, base.entries, p);
      op.Conflicting? ==> Get(Merge(op.local.clock, op.remote.clock), device) < U64_MAX
  }

  lemma FinishedAt(w: Replica, managed: Managed, ctx: Context, base: Manifest, ids: map<Path, BlobId>,
      reseals: map<Path, BlobId>, p: Path)
    ensures var (after, out) := SyncOver(w, managed, ctx, [base], ids, reseals);
      && At(after, p) == PathAfter(ScanAll(w, managed, ctx.device, ids), managed, ctx, base, reseals, p)
      && (p in managed ==> Lookup(out.entries, p) == At(after, p).entry)
  {
    hide ApplyAll, ScanAll, PathAfter;
    var scanned := ScanAll(w, managed, ctx.device, ids);
    var prepared := Prepared(w, managed, ctx, base, ids, reseals);
    ApplyAllAt(scanned, managed, ctx, base, reseals, p);
    OutgoingAt(prepared.local, base, managed.Keys, p);
    assert [base][1..] == [];
  }

  /**
   One uncontended sync and one managed path: disk and manifest agree, the store gets the device's
   entry, and that entry is the store's old one or strictly later.
   */
  lemma QuietSyncAdvances(births: map<BlobId, Birth>, w: Replica, managed: Managed, ctx: Context, base: Manifest,
      ids: map<Path, BlobId>, reseals: map<Path, BlobId>, p: Path)
    requires p in managed
    requires SealsKnown(births, w, managed, ctx, base, ids, reseals, p)
    requires Completes(ScanAll(w, managed, ctx.device, ids), managed, ctx, base, reseals)
    requires Roomy(ScanAll(w, managed, ctx.device, ids), base, ctx.device, p)
    ensures var (after, out) := SyncOver(w, managed, ctx, [base], ids, reseals);
      && Agrees(At(after, p).entry, At(after, p).file)
      && Lookup(out.entries, p) == At(after, p).entry
      && Advances(At(after, p).entry, Lookup(base.entries, p))
  {
    var scanned := ScanAll(w, managed, ctx.device, ids);
    FinishedAt(w, managed, ctx, base, ids, reseals, p);
    ScanAllAgrees(w, managed, ctx.device, ids);
    var s, r := At(scanned, p), Lookup(base.entries, p);
    hide SyncOver, ScanAll, Known, Agrees, Advances, ApplyPath, Classify;
    if Concerns(scanned, managed, base, p) {
      var op := ClassifyAt(scanned.local.entries, base.entries, p);
      ClassifyPath(p, s.entry, r);
      ApplyKeepsAgreement(births, ctx, managed[p], op, scanned.local.version, s, r, IdFor(reseals, p));
      ApplyAdvances(ctx, managed[p], op, scanned.local.version, s, r, IdFor(reseals, p));
    } else {
      NothingAdvances(s.entry, r);
    }
  }

  lemma ClassifyPath(p: Path, l: Option<Entry>, r: Option<Entry>)
    requires l.Some? || r.Some?
    ensures Classify(p, l, r).path == p
  {}

  lemma NothingAdvances(l: Option<Entry>, r: Option<Entry>)
    requires r.None?
    ensures Advances(l, r)
  {}

  /**
   A device whose disk agrees with an entry that is the store's or older ends up with exactly the
   store's entry, and leaves the store's entry as it was.
   */
  lemma QuietSyncCatchesUp(w: Replica, managed: Managed, ctx: Context, base: Manifest, ids: map<Path, BlobId>,
      reseals: map<Path, BlobId>, p: Path)
    requires p in managed
    requires Agrees(At(w, p).entry, At(w, p).file)
    requires Advances(Lookup(base.entries, p), At(w, p).entry)
    ensures var (after, out) := SyncOver(w, managed, ctx, [base], ids, reseals);
      && At(after, p).entry == Lookup(base.entries, p) == Lookup(out.entries, p)
      && Agrees(At(after, p).entry, At(after, p).file)
  {
    var scanned := ScanAll(w, managed, ctx.device, ids);
    FinishedAt(w, managed, ctx, base, ids, reseals, p);
    ScanAllAt(w, managed, ctx.device, ids, p);
    ScanMakesAgree(Lookup(w.local.entries, p), Lookup(w.disk, p), w.local.clock, ctx.device, IdFor(ids, p));
    hide SyncOver, ScanAll, NeedsSeal;
    var s, r := At(scanned, p), Lookup(base.entries, p);
    assert s == At(w, p);
    if r.Some? {
      var op := ClassifyAt(scanned.local.entries, base.entries, p);
      CatchUp(ctx, managed[p], op, scanned.local.version, s, r.value, IdFor(reseals, p));
    }
  }

  // ---- any number of retries ---------------------------------------------------------------------

  ghost predicate Pedigreed(births: map<BlobId, Birth>, entries: map<Path, Entry>) {
    forall p | p in entries :: Known(births, p, entries[p])
  }

  lemma PedigreedAt(births: map<BlobId, Birth>, entries: map<Path, Entry>, p: Path)
    requires Pedigreed(births, entries)
    ensures KnownOption(births, p, Lookup(entries, p))
  {}

  lemma RetryAllKeeps(births: map<BlobId, Birth>, w: Replica, managed: Managed, now: nat, base: Manifest)
    requires Pedigreed(births, w.local.entries) && Pedigreed(births, base.entries)
    requires AllAgree(w, managed)
    ensures Pedigreed(births, RetryAll(w, managed, now, base).local.entries)
    ensures AllAgree(RetryAll(w, managed, now, base), managed)
    ensures AllAbsorbed(RetryAll(w, managed, now, base).local, base, managed.Keys)
  {
    var after := RetryAll(w, managed, now, base);
    hide RetryAll, Known, Agrees, Absorbs;
    forall p
      ensures KnownOption(births, p, At(after, p).entry)
      ensures p in managed ==> Agrees(At(after, p).entry, At(after, p).file)
      ensures p in managed ==> Absorbs(At(after, p).entry, Lookup(base.entries, p))
    {
      RetryAllAt(w, managed, now, base, p);
      RetriedPath(births, w, managed, now, base, p);
    }
    assert forall p | p in after.local.entries :: At(after, p).entry == Some(after.local.entries[p]);
  }

  lemma RetriedPath(births: map<BlobId, Birth>, w: Replica, managed: Managed, now: nat, base: Manifest, p: Path)
    requires Pedigreed(births, w.local.entries) && Pedigreed(births, base.entries)
    requires AllAgree(w, managed)
    ensures var s := PathRetried(w, managed, now, base, p);
      && KnownOption(births, p, s.entry)
      && (p in managed ==> Agrees(s.entry, s.file) && Absorbs(s.entry, Lookup(base.entries, p)))
  {
    PedigreedAt(births, w.local.entries, p);
    PedigreedAt(births, base.entries, p);
    var s, r := At(w, p), Lookup(base.entries, p);
    if Concerns(w, managed, base, p) {
      var op := ClassifyAt(w.local.entries, base.entries, p);
      RetryKeepsAgreement(op, s, r, now);
      RetryAbsorbs(op, s, r, now);
    }
  }

  lemma {:induction false} RebasedKeeps(births: map<BlobId, Birth>, w: Replica, managed: Managed, now: nat, bases: seq<Manifest>)
    requires Pedigreed(births, w.local.entries) && AllAgree(w, managed)
    requires forall i | 0 <= i < |bases| :: Pedigreed(births, bases[i].entries)
    ensures Pedigreed(births, Rebased(w, managed, now, bases).local.entries)
    ensures AllAgree(Rebased(w, managed, now, bases), managed)
    ensures bases != [] ==> AllAbsorbed(Rebased(w, managed, now, bases).local, bases[|bases| - 1], managed.Keys)
  {
    hide Pedigreed, AllAgree, AllAbsorbed, RetryAll;
    if bases != [] {
      RebasedKeeps(births, w, managed, now, bases[..|bases| - 1]);
      RetryAllKeeps(births, Rebased(w, managed, now, bases[..|bases| - 1]), managed, now, bases[|bases| - 1]);
    }
  }

  lemma PreparedKeeps(births: map<BlobId, Birth>, w: Replica, managed: Managed, ctx: Context, base: Manifest,
      ids: map<Path, BlobId>, reseals: map<Path, BlobId>)
    requires Pedigreed(births, ScanAll(w, managed, ctx.device, ids).local.entries) && Pedigreed(births, base.entries)
    requires Completes(ScanAll(w, managed, ctx.device, ids), managed, ctx, base, reseals)
    ensures AllAgree(Prepared(w, managed, ctx, base, ids, reseals), managed)
    ensures AllAbsorbed(Prepared(w, managed, ctx, base, ids, reseals).local, base, managed.Keys)
  {
    var scanned := ScanAll(w, managed, ctx.device, ids);
    var prepared := Prepared(w, managed, ctx, base, ids, reseals);
    ScanAllAgrees(w, managed, ctx.device, ids);
    hide ScanAll, ApplyAll, Known, Agrees, Absorbs, Advances;
    forall p | p in managed
      ensures Agrees(At(prepared, p).entry, At(prepared, p).file)
      ensures Absorbs(At(prepared, p).entry, Lookup(base.entries, p))
    {
      ApplyAllAt(scanned, managed, ctx, base, reseals, p);
      assert At(prepared, p) == PathAfter(scanned, managed, ctx, base, reseals, p);
      AppliedPath(births, scanned, managed, ctx, base, reseals, p);
    }
  }

  lemma AppliedPath(births: map<BlobId, Birth>, w: Replica, managed: Managed, ctx: Context, base: Manifest,
      ids: map<Path, BlobId>, p: Path)
    requires p in managed
    requires Pedigreed(births, w.local.entries) && Pedigreed(births, base.entries)
    requires AllAgree(w, managed)
    requires Completes(w, managed, ctx, base, ids)
    ensures var s := PathAfter(w, managed, ctx, base, ids, p);
      && Agrees(s.entry, s.file) && Absorbs(s.entry, Lookup(base.entries, p))
  {
    PedigreedAt(births, w.local.entries, p);
    PedigreedAt(births, base.entries, p);
    hide Known, Agrees, Absorbs, Advances, ApplyPath, Classify;
    var s, r := At(w, p), Lookup(base.entries, p);
    if Concerns(w, managed, base, p) {
      var op := ClassifyAt(w.local.entries, base.entries, p);
      ClassifyPath(p, s.entry, r);
      ApplyKeepsAgreement(births, ctx, managed[p], op, w.local.version, s, r, IdFor(ids, p));
      ApplyAdvances(ctx, managed[p], op, w.local.version, s, r, IdFor(ids, p));
    } else {
      NothingToAbsorb(s.entry, r);
    }
  }

  lemma NothingToAbsorb(l: Option<Entry>, r: Option<Entry>)
    requires r.None?
    ensures Absorbs(l, r)
  {}

  /**
   A sync with any number of retries leaves disk and manifest in agreement on every managed path,
   and its push is monotone over the last manifest it fetched.
   */
  lemma SyncOverIsSound(births: map<BlobId, Birth>, w: Replica, managed: Managed, ctx: Context, bases: seq<Manifest>,
      ids: map<Path, BlobId>, reseals: map<Path, BlobId>)
    requires bases != []
    requires Pedigreed(births, ScanAll(w, managed, ctx.device, ids).local.entries)
    requires Pedigreed(births, Prepared(w, managed, ctx, bases[0], ids, reseals).local.entries)
    requires forall i | 0 <= i < |bases| :: Pedigreed(births, bases[i].entries)
    requires Completes(ScanAll(w, managed, ctx.device, ids), managed, ctx, bases[0], reseals)
    ensures var (after, out) := SyncOver(w, managed, ctx, bases, ids, reseals);
      && AllAgree(after, managed)
      && MonotonePush(bases[|bases| - 1], out)
  {
    hide Prepared, Pedigreed, Completes, MonotonePush, AllAbsorbed, AllAgree, Rebased, Final, ScanAll;
    var prepared := Prepared(w, managed, ctx, bases[0], ids, reseals);
    PreparedKeeps(births, w, managed, ctx, bases[0], ids, reseals);
    RebasedIsReady(births, prepared, managed, ctx.now, bases);
    FinalIsSound(Rebased(prepared, managed, ctx.now, bases[1..]), managed, bases[|bases| - 1]);
  }

  /** The replica before the last put: it agrees with its disk and has absorbed the manifest it will replace. */
  lemma RebasedIsReady(births: map<BlobId, Birth>, prepared: Replica, managed: Managed, now: nat, bases: seq<Manifest>)
    requires bases != []
    requires Pedigreed(births, prepared.local.entries) && AllAgree(prepared, managed)
    requires AllAbsorbed(prepared.local, bases[0], managed.Keys)
    requires forall i | 0 <= i < |bases| :: Pedigreed(births, bases[i].entries)
    ensures AllAgree(Rebased(prepared, managed, now, bases[1..]), managed)
    ensures AllAbsorbed(Rebased(prepared, managed, now, bases[1..]).local, bases[|bases| - 1], managed.Keys)
  {
    hide Pedigreed, AllAbsorbed, AllAgree, Rebased;
    RebasedKeeps(births, prepared, managed, now, bases[1..]);
    if |bases| > 1 {
      assert bases[1..][|bases[1..]| - 1] == bases[|bases| - 1];
    } else {
      assert bases[1..] == [];
      RebasedOverNone(prepared, managed, now);
    }
  }

  lemma RebasedOverNone(w: Replica, managed: Managed, now: nat)
    ensures Rebased(w, managed, now, []) == w
  {}

  lemma FinalIsSound(w: Replica, managed: Managed, base: Manifest)
    requires AllAgree(w, managed) && AllAbsorbed(w.local, base, managed.Keys)
    ensures AllAgree(Final(w, managed, base).0, managed)
    ensures MonotonePush(base, Final(w, managed, base).1)
  {
    hide MonotonePush, AllAbsorbed, Outgoing, Agrees;
    OutgoingIsMonotone(w.local, base, managed.Keys);
  }
}
