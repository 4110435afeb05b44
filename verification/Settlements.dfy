/** How a conflict ends: whose version a device keeps, under which clock, and what it notes of it. */
module Settlements {
  import opened Prelude
  import opened Clocks
  import opened Manifests
  import opened Conflicts
  import opened Diffs
  import opened Sealing
  import opened Paths
  import opened Replicas
  import opened SyncModel

  function ContentOf(e: Entry): Option<Bytes> {
    if e.deleted then None else Some(e.contentHash.preimage)
  }

  function BytesOf(file: Option<File>): Option<Bytes> {
    if file.Some? then Some(file.value.bytes) else None
  }

  /** Two versions with a pedigree conflict, and the device's file is its own version. */
  predicate Meets(births: map<BlobId, Birth>, p: Path, l: Entry, r: Entry, s: PathState) {
    && Known(births, p, l) && Known(births, p, r)
    && Classify(p, Some(l), Some(r)).Conflicting?
    && s.entry == Some(l) && Agrees(s.entry, s.file)
  }

  function Settle(ctx: Context, policy: Policy, p: Path, l: Entry, r: Entry, version: u64, s: PathState, id: BlobId): Outcome {
    ApplyPath(ctx, policy, Conflicting(p, l, r), version, s, id)
  }

  /** The path holds the version of side `x`: its content or its deletion, on disk and in the manifest, and a record that says so. */
  predicate Keeps(out: Outcome, x: Entry, other: Entry, version: u64, clock: Clock) {
    && out.Applied?
    && BytesOf(out.state.file) == ContentOf(x)
    && out.state.entry.Some? && out.state.entry.value.contentHash == x.contentHash && out.state.entry.value.deleted == x.deleted
    && out.state.record == Some(ResolutionRecord(version, x.blobId, [other.blobId], clock))
  }

  /** The local side is kept: a live one leaves the file untouched and is sealed again from it. */
  predicate KeepsLocal(out: Outcome, l: Entry, r: Entry, s: PathState, version: u64, clock: Clock, id: BlobId) {
    && Keeps(out, l, r, version, clock)
    && (!l.deleted ==>
         && out.state.file == s.file
         && Describes(out.state.entry.value, s.file.value)
         && out.state.entry.value.blobId == id
         && out.state.entry.value.aadVersion == SaturatingInc(l.aadVersion))
  }

  /** The remote side is kept: a live one replaces the file and is taken over as it is. */
  predicate KeepsRemote(out: Outcome, l: Entry, r: Entry, now: nat, version: u64) {
    && Keeps(out, r, l, version, r.clock)
    && (!r.deleted ==> out.state.entry == Some(r) && out.state.file == Some(File(r.contentHash.preimage, now)))
  }

  lemma LiveSidesDiffer(births: map<BlobId, Birth>, p: Path, l: Entry, r: Entry, s: PathState)
    requires Meets(births, p, l, r, s)
    ensures !l.deleted ==> l.blobId != r.blobId
    ensures !l.deleted ==> s.file.Some? && s.file.value.bytes == l.contentHash.preimage
  {
    if l.blobId == r.blobId { BlobIdentity(births, p, p, l, r); }
  }

  /**
   Under LatestWins the version kept is the one the other side loses to: by the order of the clocks,
   then by time, then by blob.
   */
  lemma LatestWinsKeepsTheWinner(births: map<BlobId, Birth>, ctx: Context, p: Path, l: Entry, r: Entry, version: u64,
      s: PathState, id: BlobId)
    requires Meets(births, p, l, r, s)
    ensures var out := Settle(ctx, LatestWins, p, l, r, version, s, id);
      || (Loses(r, l) && KeepsLocal(out, l, r, s, version, l.clock, id))
      || (Loses(l, r) && KeepsRemote(out, l, r, ctx.now, version))
  {
    LiveSidesDiffer(births, p, l, r, s);
    CompareReverses(l.clock, r.clock);
    hide Known, Classify, CompareClocks, After;
  }

  /** The other device, which holds `r` and meets `l`, ends with the same content or the same deletion. */
  lemma BothSidesKeepTheSame(births: map<BlobId, Birth>, p: Path, l: Entry, r: Entry,
      ctx: Context, version: u64, s: PathState, id: BlobId, ctx2: Context, version2: u64, s2: PathState, id2: BlobId)
    requires Meets(births, p, l, r, s) && Meets(births, p, r, l, s2)
    ensures var one, two := Settle(ctx, LatestWins, p, l, r, version, s, id), Settle(ctx2, LatestWins, p, r, l, version2, s2, id2);
      && one.Applied? && two.Applied?
      && BytesOf(one.state.file) == BytesOf(two.state.file)
      && one.state.entry.value.deleted == two.state.entry.value.deleted
      && one.state.record.value.chosenBlob == two.state.record.value.chosenBlob
  {
    LatestWinsKeepsTheWinner(births, ctx, p, l, r, version, s, id);
    LatestWinsKeepsTheWinner(births, ctx2, p, r, l, version2, s2, id2);
    if Loses(l, r) && Loses(r, l) {
      LosingBothWays(l, r);
      BlobIdentity(births, p, p, l, r);
      LiveSidesDiffer(births, p, l, r, s);
      LiveSidesDiffer(births, p, r, l, s2);
    }
    hide Settle, Loses, Classify;
  }

  /** Under Prompt the answer is obeyed: it decides whose version is kept, whether to stop, and whether to fail. */
  lemma AnswerIsObeyed(births: map<BlobId, Birth>, ctx: Context, p: Path, l: Entry, r: Entry, version: u64, s: PathState, id: BlobId)
    requires Meets(births, p, l, r, s)
    ensures var out := Settle(ctx, Prompt, p, l, r, version, s, id);
      if ctx.resolver.None? then out == Failed(UnresolvedConflict)
      else
        match ctx.resolver.value(Conflict(p, l, r))
        case Err(e) => out == Failed(e)
        case Ok(Abort) => out == Stopped
        case Ok(KeepLocal) => KeepsLocal(out, l, r, s, version, l.clock, id) && out.state.sidecar == s.sidecar
        case Ok(KeepRemote) => KeepsRemote(out, l, r, ctx.now, version) && out.state.sidecar == s.sidecar
        case Ok(KeepBoth) => KeepsLocal(out, l, r, s, version, Merge(l.clock, r.clock), id) && out.state.sidecar == s.sidecar
  {
    LiveSidesDiffer(births, p, l, r, s);
    hide Known, Classify, CompareClocks, After;
  }

  /** Under Manual the local version is kept, and a live one gets the remote's content beside it. */
  lemma ManualKeepsBoth(births: map<BlobId, Birth>, ctx: Context, p: Path, l: Entry, r: Entry, version: u64, s: PathState, id: BlobId)
    requires Meets(births, p, l, r, s)
    ensures var out := Settle(ctx, Manual, p, l, r, version, s, id);
      && KeepsLocal(out, l, r, s, version, Merge(l.clock, r.clock), id)
      && out.state.sidecar == if l.deleted then s.sidecar else Some(r.contentHash.preimage)
  {
    LiveSidesDiffer(births, p, l, r, s);
    hide Known, Classify, CompareClocks, After;
  }

  /** The larger of the two counters, one more on this device's own unless it is saturated. */
  ghost predicate Covers(l: Clock, r: Clock, device: DeviceId, c: Clock) {
    forall d :: Get(c, d) == if d == device then SaturatingInc(Max(Get(l, d), Get(r, d))) else Max(Get(l, d), Get(r, d))
  }

  /**
   Under every policy a conflict ends with the remote's live entry as it is, or with an entry sealed anew
   or marked deleted whose clock covers both sides, strictly while this device's counter has room.
   */
  lemma SettledClockCoversBoth(births: map<BlobId, Birth>, ctx: Context, policy: Policy, p: Path, l: Entry, r: Entry, version: u64,
      s: PathState, id: BlobId)
    requires Meets(births, p, l, r, s)
    requires Settle(ctx, policy, p, l, r, version, s, id).Applied? && id != r.blobId
    ensures ClockCovers(l, r, ctx.device, Settle(ctx, policy, p, l, r, version, s, id).state.entry)
  {
    AfterCovers(l, r, ctx.device);
    LiveSidesDiffer(births, p, l, r, s);
    hide After, HappensBefore, Leq, Covers, Meets, LatestChoice;
  }

  lemma AfterCovers(l: Entry, r: Entry, device: DeviceId)
    ensures Covers(l.clock, r.clock, device, After(l, r, device))
    ensures Leq(l.clock, After(l, r, device)) && Leq(r.clock, After(l, r, device))
    ensures Get(l.clock, device) < U64_MAX && Get(r.clock, device) < U64_MAX ==>
      HappensBefore(l.clock, After(l, r, device)) && HappensBefore(r.clock, After(l, r, device))
  {
    var merged := Merge(l.clock, r.clock);
    forall d ensures Get(Bump(merged, device), d)
      == if d == device then SaturatingInc(Max(Get(l.clock, d), Get(r.clock, d))) else Max(Get(l.clock, d), Get(r.clock, d))
    {
      GetMerge(l.clock, r.clock, d);
      GetBump(merged, device, d);
    }
    MergeThenBumpDominates(l.clock, r.clock, device);
    GetMerge(l.clock, r.clock, device);
    hide Merge, Bump, HappensBefore, Leq;
  }

  // ---- in a whole sync --------------------------------------------------------------------------------

  /** What a policy promises of a conflict. */
  ghost predicate WellSettled(ctx: Context, policy: Policy, p: Path, l: Entry, r: Entry, version: u64, s: PathState, id: BlobId, out: Outcome) {
    match policy
    case LatestWins =>
      || (Loses(r, l) && KeepsLocal(out, l, r, s, version, l.clock, id))
      || (Loses(l, r) && KeepsRemote(out, l, r, ctx.now, version))
    case Prompt =>
      out.Applied? ==> ctx.resolver.Some? && Obeys(ctx.resolver.value(Conflict(p, l, r)), l, r, version, s, id, ctx.now, out)
    case Manual => KeepsLocal(out, l, r, s, version, Merge(l.clock, r.clock), id)
  }

  predicate Obeys(answer: Result<Choice, SyncError>, l: Entry, r: Entry, version: u64, s: PathState, id: BlobId, now: nat, out: Outcome) {
    match answer
    case Ok(KeepLocal) => KeepsLocal(out, l, r, s, version, l.clock, id)
    case Ok(KeepRemote) => KeepsRemote(out, l, r, now, version)
    case Ok(KeepBoth) => KeepsLocal(out, l, r, s, version, Merge(l.clock, r.clock), id)
    case _ => false
  }

  lemma ConflictIsWellSettled(births: map<BlobId, Birth>, ctx: Context, policy: Policy, p: Path, l: Entry, r: Entry, version: u64,
      s: PathState, id: BlobId)
    requires Meets(births, p, l, r, s)
    ensures WellSettled(ctx, policy, p, l, r, version, s, id, Settle(ctx, policy, p, l, r, version, s, id))
  {
    match policy
    case LatestWins => LatestWinsKeepsTheWinner(births, ctx, p, l, r, version, s, id);
    case Prompt => AnswerIsObeyed(births, ctx, p, l, r, version, s, id);
    case Manual => ManualKeepsBoth(births, ctx, p, l, r, version, s, id);
    hide Settle, Meets, KeepsLocal, KeepsRemote, Loses;
  }

  /** The device's own version stays, with its file, its record and its copy. */
  predicate OwnStays(before: PathState, after: PathState) {
    after == before
  }

  /** The remote's version is taken over. */
  predicate RemoteTaken(before: PathState, after: PathState, r: Entry, now: nat) {
    && after.entry == Some(r) && BytesOf(after.file) == ContentOf(r)
    && (!r.deleted ==> after.file.value.modified == now)
    && after.record == before.record && after.sidecar == before.sidecar
  }

  /**
   Whose version a managed path ends with after an uncontended sync: the remote's if the device has none or
   an older one, the device's own if the store has none, the same or an older one, and otherwise
   what the policy promises, noted at the version the device had.
   */
  ghost predicate EndsWell(ctx: Context, policy: Policy, p: Path, before: PathState, r: Option<Entry>, version: u64, id: BlobId,
      after: PathState)
  {
    if r.None? then OwnStays(before, after)
    else if before.entry.None? || HappensBefore(before.entry.value.clock, r.value.clock) then RemoteTaken(before, after, r.value, ctx.now)
    else if before.entry == r || HappensBefore(r.value.clock, before.entry.value.clock) then OwnStays(before, after)
    else
      && WellSettled(ctx, policy, p, before.entry.value, r.value, version, before, id, Applied(after))
      && (id != r.value.blobId ==> ClockCovers(before.entry.value, r.value, ctx.device, after.entry))
  }

  /** The remote's live entry as it is, or a clock that covers both sides. */
  ghost predicate ClockCovers(l: Entry, r: Entry, device: DeviceId, e: Option<Entry>) {
    && e.Some?
    && if e.value.blobId == r.blobId && !e.value.deleted then e.value == r
       else
         && Covers(l.clock, r.clock, device, e.value.clock)
         && Leq(l.clock, e.value.clock) && Leq(r.clock, e.value.clock)
         && (Get(l.clock, device) < U64_MAX && Get(r.clock, device) < U64_MAX ==>
              HappensBefore(l.clock, e.value.clock) && HappensBefore(r.clock, e.value.clock))
  }

  lemma PathEndsWell(births: map<BlobId, Birth>, ctx: Context, policy: Policy, p: Path, s: PathState, r: Option<Entry>, version: u64,
      id: BlobId)
    requires s.entry.Some? || r.Some?
    requires KnownOption(births, p, s.entry) && KnownOption(births, p, r) && Agrees(s.entry, s.file)
    requires ApplyPath(ctx, policy, Classify(p, s.entry, r), version, s, id).Applied?
    ensures EndsWell(ctx, policy, p, s, r, version, id, ApplyPath(ctx, policy, Classify(p, s.entry, r), version, s, id).state)
  {
    hide Resolve, ApplyResolution, Known, WellSettled, HappensBefore, ClockCovers;
    if s.entry.Some? && r.Some? {
      ClassifyExactly(p, s.entry, r);
      var l := s.entry.value;
      if Classify(p, s.entry, r).Conflicting? {
        ConflictIsWellSettled(births, ctx, policy, p, l, r.value, version, s, id);
        if id != r.value.blobId { SettledClockCoversBoth(births, ctx, policy, p, l, r.value, version, s, id); }
      }
    }
  }

  /** So every managed path of every uncontended sync that runs through ends, on the device and in what it pushed. */
  lemma SyncEndsWell(births: map<BlobId, Birth>, w: Replica, managed: Managed, ctx: Context, base: Manifest, ids: map<Path, BlobId>,
      reseals: map<Path, BlobId>, p: Path)
    requires p in managed
    requires var scanned := ScanAll(w, managed, ctx.device, ids);
      && KnownOption(births, p, Lookup(scanned.local.entries, p)) && KnownOption(births, p, Lookup(base.entries, p))
      && Completes(scanned, managed, ctx, base, reseals)
    ensures var scanned := ScanAll(w, managed, ctx.device, ids);
      var (after, out) := SyncOver(w, managed, ctx, [base], ids, reseals);
      && EndsWell(ctx, managed[p], p, At(scanned, p), Lookup(base.entries, p), w.local.version, IdFor(reseals, p), At(after, p))
      && Lookup(out.entries, p) == At(after, p).entry
      && after.local.version == out.version
  {
    var scanned := ScanAll(w, managed, ctx.device, ids);
    FinishedAt(w, managed, ctx, base, ids, reseals, p);
    ScanAllAgrees(w, managed, ctx.device, ids);
    assert scanned.local.version == w.local.version;
    var s, r := At(scanned, p), Lookup(base.entries, p);
    assert Agrees(s.entry, s.file);
    hide SyncOver, ScanAll, Known, Agrees, ApplyPath, Classify, EndsWell;
    if Concerns(scanned, managed, base, p) {
      assert OutcomeAt(scanned, managed, ctx, base, reseals, p).Applied?;
      PathEndsWell(births, ctx, managed[p], p, s, r, w.local.version, IdFor(reseals, p));
    } else {
      NothingEndsWell(ctx, managed[p], p, s, w.local.version, IdFor(reseals, p));
    }
  }

  lemma NothingEndsWell(ctx: Context, policy: Policy, p: Path, s: PathState, version: u64, id: BlobId)
    ensures EndsWell(ctx, policy, p, s, None, version, id, s)
  {}

  /** A path the device does not manage stays as it was on the device, and is pushed as the winner of the two sides. */
  lemma SyncLeavesOthers(w: Replica, managed: Managed, ctx: Context, base: Manifest, ids: map<Path, BlobId>,
      reseals: map<Path, BlobId>, p: Path)
    requires p !in managed
    ensures var (after, out) := SyncOver(w, managed, ctx, [base], ids, reseals);
      && At(after, p) == At(w, p)
      && var l, r, e := Lookup(w.local.entries, p), Lookup(base.entries, p), Lookup(out.entries, p);
      && (e == l || e == r) && (e.None? <==> l.None? && r.None?)
      && (l.Some? && r.Some? ==> MergedWell(l.value, r.value, e.value))
  {
    var scanned := ScanAll(w, managed, ctx.device, ids);
    var prepared := Prepared(w, managed, ctx, base, ids, reseals);
    FinishedAt(w, managed, ctx, base, ids, reseals, p);
    ScanAllAt(w, managed, ctx.device, ids, p);
    ApplyAllAt(scanned, managed, ctx, base, reseals, p);
    OutgoingIsTheWinner(prepared.local, base, managed.Keys, p);
    assert [base][1..] == [];
    hide ScanAll, ApplyAll, Outgoing, MergedWell, ScanPath, ApplyPath;
  }

  /**
   What a whole scan writes down of each managed path: nothing where entry and file agreed, the file where it is
   new or changed, and a deletion where it is gone.
   */
  lemma ScanAllDescribes(w: Replica, managed: Managed, device: DeviceId, ids: map<Path, BlobId>, p: Path)
    requires p in managed
    ensures var prev, file := Lookup(w.local.entries, p), Lookup(w.disk, p);
      var e := Lookup(ScanAll(w, managed, device, ids).local.entries, p);
      if Agrees(prev, file) then e == prev
      else if file.Some? then
        && e.Some? && Describes(e.value, file.value) && e.value.blobId == IdFor(ids, p)
        && e.value.aadVersion == (if prev.None? then 1 else SaturatingInc(prev.value.aadVersion))
        && Bumped(if prev.None? then w.local.clock else prev.value.clock, e.value.clock, device)
      else
        && prev.Some? && e.Some? && e.value == prev.value.(deleted := true, clock := e.value.clock)
        && Bumped(prev.value.clock, e.value.clock, device)
    ensures At(ScanAll(w, managed, device, ids), p) == At(w, p).(entry := Lookup(ScanAll(w, managed, device, ids).local.entries, p))
  {
    var prev, file, id := Lookup(w.local.entries, p), Lookup(w.disk, p), IdFor(ids, p);
    ScanAllAt(w, managed, device, ids, p);
    ScanMakesAgree(prev, file, w.local.clock, device, id);
    if !Agrees(prev, file) {
      if file.Some? { ScanDescribesTheFile(prev, file.value, w.local.clock, device, id); }
      else { ScanMarksDeletion(prev, w.local.clock, device, id); }
    }
    hide ScanAll, ScanPath, Describes, Bumped;
  }

  /** On a retry the remote's version is taken over where it is newer, and everywhere else, conflicts included, the own one stays. */
  lemma RetryTakesOrKeeps(p: Path, s: PathState, r: Option<Entry>, now: nat)
    requires s.entry.Some? || r.Some?
    ensures var after := RetryPath(Classify(p, s.entry, r), s, now);
      if r.Some? && (s.entry.None? || HappensBefore(s.entry.value.clock, r.value.clock))
      then RemoteTaken(s, after, r.value, now)
      else OwnStays(s, after)
  {
    ClassifyExactly(p, s.entry, r);
    hide HappensBefore;
  }
}
