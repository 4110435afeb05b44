/**
 What one sync does to one path: scanning it, applying the remote's version of it, re-applying on
 a retry, and merging it into the outgoing manifest when the device does not manage it.
 */
module Paths {
  import opened Prelude
  import opened Clocks
  import opened Manifests
  import opened Conflicts
  import opened Diffs
  import opened Sealing

  datatype File = File(bytes: Bytes, modified: Time)

  /** Everything a device holds about one managed path. */
  datatype PathState = PathState(
    entry: Option<Entry>,
    file: Option<File>,
    record: Option<ResolutionRecord>,
    sidecar: Option<Bytes>)

  /** The parts of a sync's inputs that do not change while it runs. */
  datatype Context = Context(device: DeviceId, resolver: Option<Resolver>, now: nat)

  /** Live entry: the file's bytes have the entry's hash. Tombstone or no entry: no file. */
  predicate Agrees(entry: Option<Entry>, file: Option<File>) {
    if entry.Some? && !entry.value.deleted
    then file.Some? && Sha256(file.value.bytes) == entry.value.contentHash
    else file.None?
  }

  // ---- scanning ----------------------------------------------------------------------------

  predicate NeedsSeal(prev: Option<Entry>, file: Option<File>) {
    file.Some? && (prev.Some? ==> prev.value.deleted || Sha256(file.value.bytes) != prev.value.contentHash)
  }

  function ScanPath(prev: Option<Entry>, file: Option<File>, aggregate: Clock, device: DeviceId, id: BlobId)
    : Option<Entry>
  {
    match (file, prev)
    case (Some(f), Some(e)) =>
      if NeedsSeal(prev, file)
      then Some(SealedEntry(id, SaturatingInc(e.aadVersion), Bump(e.clock, device), f.bytes, f.modified))
      else prev
    case (Some(f), None) => Some(SealedEntry(id, 1, Bump(aggregate, device), f.bytes, f.modified))
    case (None, Some(e)) => if e.deleted then prev else Some(e.(deleted := true, clock := Bump(e.clock, device)))
    case (None, None) => None
  }

  lemma ScanMakesAgree(prev: Option<Entry>, file: Option<File>, aggregate: Clock, device: DeviceId, id: BlobId)
    ensures Agrees(ScanPath(prev, file, aggregate, device, id), file)
    ensures Agrees(prev, file) ==> ScanPath(prev, file, aggregate, device, id) == prev && !NeedsSeal(prev, file)
  {}

  /**
   A scan that changes an entry moves it on: a strictly later clock, the file's own content under a
   higher version, or the same blob marked deleted.
   */
  lemma ScanMovesOn(prev: Entry, file: Option<File>, aggregate: Clock, device: DeviceId, id: BlobId)
    requires Get(prev.clock, device) < U64_MAX && prev.aadVersion < U64_MAX
    requires ScanPath(Some(prev), file, aggregate, device, id) != Some(prev)
    ensures var e := ScanPath(Some(prev), file, aggregate, device, id);
      && e.Some? && HappensBefore(prev.clock, e.value.clock)
      && (e.value.deleted <==> file.None?)
      && if file.Some?
         then e.value.aadVersion > prev.aadVersion && e.value.blobId == id && e.value.size == |file.value.bytes|
         else e.value == prev.(clock := e.value.clock, deleted := true)
  {
    BumpAdvances(prev.clock, device);
  }

  /** The entry describes this file as it is on disk. */
  predicate Describes(e: Entry, f: File) {
    && !e.deleted && e.contentHash == Sha256(f.bytes) && e.size == |f.bytes| && e.modified == f.modified
  }

  /** Exactly one counter moved: this device's, by one unless it is saturated. */
  ghost predicate Bumped(before: Clock, after: Clock, device: DeviceId) {
    forall d :: Get(after, d) == if d == device then SaturatingInc(Get(before, d)) else Get(before, d)
  }

  lemma BumpIsBumped(c: Clock, device: DeviceId)
    ensures Bumped(c, Bump(c, device), device)
  {
    forall d ensures Get(Bump(c, device), d) == if d == device then SaturatingInc(Get(c, d)) else Get(c, d) {
      GetBump(c, device, d);
    }
  }

  /**
   What a scan writes down of a file it seals: the file's own content, size and time, under the drawn
   id. A path without an entry starts at version 1 from the aggregate clock; any other goes on from its entry.
   */
  lemma ScanDescribesTheFile(prev: Option<Entry>, file: File, aggregate: Clock, device: DeviceId, id: BlobId)
    requires NeedsSeal(prev, Some(file))
    ensures var e := ScanPath(prev, Some(file), aggregate, device, id);
      && e.Some? && Describes(e.value, file) && e.value.blobId == id
      && e.value.aadVersion == (if prev.None? then 1 else SaturatingInc(prev.value.aadVersion))
      && Bumped(if prev.None? then aggregate else prev.value.clock, e.value.clock, device)
  {
    var before := if prev.None? then aggregate else prev.value.clock;
    BumpIsBumped(before, device);
    hide Bumped, Bump;
  }

  /** A file that is gone leaves its entry, marked deleted one step later; without an entry it leaves nothing. */
  lemma ScanMarksDeletion(prev: Option<Entry>, aggregate: Clock, device: DeviceId, id: BlobId)
    ensures var e := ScanPath(prev, None, aggregate, device, id);
      && (prev.None? || prev.value.deleted ==> e == prev)
      && (prev.Some? && !prev.value.deleted ==>
           && e == Some(prev.value.(deleted := true, clock := e.value.clock)) && Bumped(prev.value.clock, e.value.clock, device))
  {
    if prev.Some? { BumpIsBumped(prev.value.clock, device); }
    hide Bumped, Bump;
  }

  // ---- applying the remote version -----------------------------------------------------------

  datatype Outcome =
    | Applied(state: PathState)
    | Stopped
    | Failed(error: SyncError)

  function Pulled(s: PathState, r: Entry, now: nat): PathState {
    s.(entry := Some(r), file := Some(File(r.contentHash.preimage, now)))
  }

  function Removed(s: PathState, t: Entry): PathState {
    s.(entry := Some(t), file := None)
  }

  /** Both sides of a conflict, plus one step of this device. */
  function After(l: Entry, r: Entry, device: DeviceId): Clock {
    Bump(Merge(l.clock, r.clock), device)
  }

  /** The branches after a conflict's resolution, tested in the order of the source. */
  function ApplyResolution(ctx: Context, policy: Policy, l: Entry, r: Entry, chosen: Entry, record: ResolutionRecord,
      s: PathState, id: BlobId): Outcome
  {
    var noted := s.(record := Some(record));
    if chosen.deleted then Applied(Removed(noted, chosen.(clock := After(l, r, ctx.device))))
    else if chosen.blobId == r.blobId then Applied(Pulled(noted, r, ctx.now))
    else if s.file.None? then Failed(Io)
    else
      var f := s.file.value;
      Applied(noted.(
        entry := Some(SealedEntry(id, SaturatingInc(l.aadVersion), After(l, r, ctx.device), f.bytes, f.modified)),
        sidecar := if policy.Manual? then Some(r.contentHash.preimage) else s.sidecar))
  }

  /** One operation of the first diff, on a path this device manages. */
  function ApplyPath(ctx: Context, policy: Policy, op: DiffOp, version: u64, s: PathState, id: BlobId): Outcome {
    match op
    case PullLocal(_, r) => Applied(Pulled(s, r, ctx.now))
    case PullDeletion(_, r) => Applied(Removed(s, r))
    case PushRemote(_, _) => Applied(s)
    case PushDeletion(_, _) => Applied(s)
    case InSync(_) => Applied(s)
    case Conflicting(p, l, r) =>
      match Resolve(Conflict(p, l, r), policy, ctx.resolver)
      case Err(e) => Failed(e)
      case Ok(Aborted) => Stopped
      case Ok(Resolved(chosen, superseded, clock)) =>
        ApplyResolution(ctx, policy, l, r, chosen, ResolutionRecord(version, chosen.blobId, superseded, clock), s, id)
  }

  /** The same operation on a retry: a conflict keeps the local version as it is. */
  function RetryPath(op: DiffOp, s: PathState, now: nat): PathState {
    match op
    case PullLocal(_, r) => Pulled(s, r, now)
    case PullDeletion(_, r) => Removed(s, r)
    case _ => s
  }

  predicate UsesFreshId(ctx: Context, policy: Policy, op: DiffOp) {
    op.Conflicting?
    && var res := Resolve(Conflict(op.path, op.local, op.remote), policy, ctx.resolver);
       res.Ok? && res.value.Resolved? && !res.value.chosen.deleted && res.value.chosen.blobId != op.remote.blobId
  }

  /** Operations that read the remote entry's content. */
  predicate Reads(ctx: Context, policy: Policy, op: DiffOp, retry: bool) {
    op.PullLocal?
    || (op.Conflicting? && !retry
      && var res := Resolve(Conflict(op.path, op.local, op.remote), policy, ctx.resolver);
         res.Ok? && res.value.Resolved? && !res.value.chosen.deleted
         && (res.value.chosen.blobId == op.remote.blobId || policy.Manual?))
  }

  // ---- what blob ids tell --------------------------------------------------------------------

  /** How a blob came into being: the path and plaintext it was sealed for, and its first entry. */
  datatype Birth = Birth(path: Path, plaintext: Bytes, entry: Entry)

  predicate ProperBirth(id: BlobId, b: Birth) {
    b.entry == SealedEntry(id, b.entry.aadVersion, b.entry.clock, b.plaintext, b.entry.modified)
  }

  /**
   An entry's pedigree: a live entry is the one its blob was sealed with, and a tombstone is that
   entry with a strictly later clock.
   */
  predicate Known(births: map<BlobId, Birth>, p: Path, e: Entry) {
    && e.blobId in births
    && ProperBirth(e.blobId, births[e.blobId])
    && births[e.blobId].path == p
    && var first := births[e.blobId].entry;
       if e.deleted
       then e == first.(clock := e.clock, deleted := true) && HappensBefore(first.clock, e.clock)
       else e == first
  }

  predicate KnownOption(births: map<BlobId, Birth>, p: Path, e: Option<Entry>) {
    e.Some? ==> Known(births, p, e.value)
  }

  /** Two live entries with one blob are equal; a tombstone with that blob is strictly later. */
  lemma BlobIdentity(births: map<BlobId, Birth>, p: Path, q: Path, a: Entry, b: Entry)
    requires Known(births, p, a) && Known(births, q, b) && a.blobId == b.blobId
    ensures p == q
    ensures !a.deleted && !b.deleted ==> a == b
    ensures !a.deleted && b.deleted ==> HappensBefore(a.clock, b.clock)
  {}

  /**
   The engine asks whether the remote side won by comparing blob ids. For a live winner of a
   conflict between two entries with a pedigree the answer is right.
   */
  lemma BlobTestIsRight(births: map<BlobId, Birth>, p: Path, l: Entry, r: Entry, chosen: Entry)
    requires Known(births, p, l) && Known(births, p, r)
    requires Classify(p, Some(l), Some(r)).Conflicting?
    requires chosen == l || chosen == r
    requires !chosen.deleted
    ensures chosen.blobId == r.blobId <==> chosen == r
  {}

  /** Without a pedigree it can be wrong: a live local entry may share its blob with a tombstone. */
  lemma BlobTestCanBeWrong(e: Entry)
    requires !e.deleted
    ensures var t := e.(deleted := true);
      && Classify("p", Some(e), Some(t)).Conflicting?
      && e.blobId == t.blobId && e != t
  {
    StrictPartialOrder(e.clock, e.clock, e.clock);
  }

  lemma KnownGrows(births: map<BlobId, Birth>, more: map<BlobId, Birth>, p: Path, e: Entry)
    requires Known(births, p, e)
    requires forall b | b in births :: b in more && more[b] == births[b]
    ensures Known(more, p, e)
  {}

  /** Scanning yields known entries, given the birth of the blob it seals. */
  lemma ScanIsKnown(births: map<BlobId, Birth>, p: Path, prev: Option<Entry>, file: Option<File>, aggregate: Clock,
      device: DeviceId, id: BlobId)
    requires KnownOption(births, p, prev)
    requires prev.Some? ==> Get(prev.value.clock, device) < U64_MAX
    requires NeedsSeal(prev, file) ==> KnownOption(births, p, ScanPath(prev, file, aggregate, device, id))
    ensures KnownOption(births, p, ScanPath(prev, file, aggregate, device, id))
  {
    if prev.Some? {
      BumpAdvances(prev.value.clock, device);
      var first := births[prev.value.blobId].entry;
      StrictPartialOrder(first.clock, prev.value.clock, Bump(prev.value.clock, device));
    }
  }

  lemma TombstoneMovesOn(births: map<BlobId, Birth>, p: Path, t: Entry, clock: Clock)
    requires Known(births, p, t) && t.deleted && Leq(t.clock, clock)
    ensures Known(births, p, t.(clock := clock))
  {
    LaterStays(births[t.blobId].entry.clock, t.clock, clock);
  }

  lemma PathClassified(op: DiffOp, l: Option<Entry>, r: Option<Entry>)
    requires (l.Some? || r.Some?) && op == Classify(op.path, l, r)
    ensures IsPull(op) ==> r == Some(op.remote)
    ensures op.Conflicting? ==> l == Some(op.local) && r == Some(op.remote)
  {}

  /** So does applying a remote entry. */
  lemma ApplyIsKnown(births: map<BlobId, Birth>, ctx: Context, policy: Policy, op: DiffOp, version: u64, s: PathState,
      r: Option<Entry>, id: BlobId)
    requires s.entry.Some? || r.Some?
    requires op == Classify(op.path, s.entry, r)
    requires KnownOption(births, op.path, s.entry) && KnownOption(births, op.path, r)
    requires ApplyPath(ctx, policy, op, version, s, id).Applied?
    requires UsesFreshId(ctx, policy, op) ==> KnownOption(births, op.path, ApplyPath(ctx, policy, op, version, s, id).state.entry)
    ensures KnownOption(births, op.path, ApplyPath(ctx, policy, op, version, s, id).state.entry)
  {
    hide Classify, CompareClocks, SealedEntry, LatestChoice;
    PathClassified(op, s.entry, r);
    if op.Conflicting? && !UsesFreshId(ctx, policy, op) {
      var after := After(op.local, op.remote, ctx.device);
      var chosen := Resolve(Conflict(op.path, op.local, op.remote), policy, ctx.resolver).value.chosen;
      if chosen.deleted {
        MergeThenBumpDominates(op.local.clock, op.remote.clock, ctx.device);
        TombstoneMovesOn(births, op.path, chosen, after);
      }
    }
  }

  lemma LaterStays(a: Clock, b: Clock, c: Clock)
    requires Leq(b, c)
    ensures HappensBefore(a, b) ==> HappensBefore(a, c)
  {
    StrictPartialOrder(a, b, c);
  }

  /** Applying keeps disk and manifest in agreement, and only the resolver can make it fail. */
  lemma ApplyKeepsAgreement(births: map<BlobId, Birth>, ctx: Context, policy: Policy, op: DiffOp, version: u64,
      s: PathState, r: Option<Entry>, id: BlobId)
    requires s.entry.Some? || r.Some?
    requires op == Classify(op.path, s.entry, r)
    requires KnownOption(births, op.path, s.entry) && KnownOption(births, op.path, r)
    requires Agrees(s.entry, s.file)
    ensures var out := ApplyPath(ctx, policy, op, version, s, id);
      && (out.Applied? ==> Agrees(out.state.entry, out.state.file))
      && (out.Failed? ==> op.Conflicting? && Choose(Conflict(op.path, op.local, op.remote), policy, ctx.resolver) == Err(out.error))
      && (out.Stopped? ==> op.Conflicting? && Choose(Conflict(op.path, op.local, op.remote), policy, ctx.resolver) == Ok(Abort))
  {}

  lemma RetryKeepsAgreement(op: DiffOp, s: PathState, r: Option<Entry>, now: nat)
    requires s.entry.Some? || r.Some?
    requires op == Classify(op.path, s.entry, r)
    requires Agrees(s.entry, s.file)
    ensures Agrees(RetryPath(op, s, now).entry, RetryPath(op, s, now).file)
  {}

  // ---- causal order of what is pushed ----------------------------------------------------------

  /** The entry is there and is not causally older than the one it replaces. */
  predicate Absorbs(next: Option<Entry>, base: Option<Entry>) {
    base.Some? ==> next.Some? && !HappensBefore(next.value.clock, base.value.clock)
  }

  /** The entry is the replaced one or causally later than it. */
  predicate Advances(next: Option<Entry>, base: Option<Entry>) {
    base.Some? ==> next.Some? && (next == base || HappensBefore(base.value.clock, next.value.clock))
  }

  lemma AdvancesTransitive(a: Option<Entry>, b: Option<Entry>, c: Option<Entry>)
    requires Advances(b, a) && Advances(c, b)
    ensures Advances(c, a)
  {
    if a.Some? { StrictPartialOrder(a.value.clock, b.value.clock, c.value.clock); }
  }

  /**
   The first attempt: the new entry absorbs the remote one always, and strictly advances it unless
   this device's counter is saturated.
   */
  lemma ApplyAdvances(ctx: Context, policy: Policy, op: DiffOp, version: u64, s: PathState, r: Option<Entry>, id: BlobId)
    requires s.entry.Some? || r.Some?
    requires op == Classify(op.path, s.entry, r)
    requires ApplyPath(ctx, policy, op, version, s, id).Applied?
    ensures Absorbs(ApplyPath(ctx, policy, op, version, s, id).state.entry, r)
    ensures (op.Conflicting? ==> Get(Merge(op.local.clock, op.remote.clock), ctx.device) < U64_MAX)
      ==> Advances(ApplyPath(ctx, policy, op, version, s, id).state.entry, r)
  {
    hide HappensBefore, Resolve, CompareClocks, Merge, Bump;
    if r.Some? { StrictPartialOrder(r.value.clock, r.value.clock, r.value.clock); }
    if r.Some? && s.entry.Some? {
      StrictPartialOrder(s.entry.value.clock, r.value.clock, s.entry.value.clock);
      StrictPartialOrder(r.value.clock, s.entry.value.clock, r.value.clock);
    }
    if op.Conflicting? {
      MergeThenBumpDominates(op.local.clock, op.remote.clock, ctx.device);
      HappensBeforeIsStrictLeq(After(op.local, op.remote, ctx.device), op.remote.clock);
      StrictPartialOrder(op.remote.clock, op.remote.clock, op.remote.clock);
    }
  }

  lemma RetryAbsorbs(op: DiffOp, s: PathState, r: Option<Entry>, now: nat)
    requires s.entry.Some? || r.Some?
    requires op == Classify(op.path, s.entry, r)
    ensures Absorbs(RetryPath(op, s, now).entry, r)
  {
    if r.Some? { StrictPartialOrder(r.value.clock, r.value.clock, r.value.clock); }
    if r.Some? && s.entry.Some? {
      StrictPartialOrder(s.entry.value.clock, r.value.clock, s.entry.value.clock);
    }
  }

  /** A retry is strict exactly where there is no conflict: a conflict keeps the local version unmerged. */
  lemma RetryAdvancesIff(op: DiffOp, s: PathState, r: Entry, now: nat)
    requires op == Classify(op.path, s.entry, Some(r))
    ensures Advances(RetryPath(op, s, now).entry, Some(r)) <==> !op.Conflicting?
  {}

  /**
   The `.remote` copy. Of a conflict on a path that has a file, the remote content is kept beside
   it exactly when the policy is Manual, whatever the resolver answers, and the local version is
   neither a deletion nor the remote's own blob.
   */
  lemma RemoteCopyIff(ctx: Context, policy: Policy, l: Entry, r: Entry, p: Path, version: u64, s: PathState, id: BlobId)
    requires s.sidecar.None? && s.file.Some?
    ensures var out := ApplyPath(ctx, policy, Conflicting(p, l, r), version, s, id);
      out.Applied? && out.state.sidecar.Some? <==> policy.Manual? && !l.deleted && l.blobId != r.blobId
    ensures var out := ApplyPath(ctx, policy, Conflicting(p, l, r), version, s, id);
      out.Applied? && out.state.sidecar.Some? ==> out.state.sidecar.value == r.contentHash.preimage && out.state.file == s.file
  {}

  /**
   A file new to a device starts from the device's bumped aggregate clock. A remote version of the
   same path is pushed over as if it had been seen, without a conflict, exactly when that clock is
   causally after it.
   */
  lemma NewFileHidesRemoteIff(p: Path, aggregate: Clock, f: File, device: DeviceId, id: BlobId, r: Entry)
    ensures Classify(p, ScanPath(None, Some(f), aggregate, device, id), Some(r)).PushRemote?
      <==> HappensBefore(r.clock, Bump(aggregate, device))
  {
    StrictPartialOrder(Bump(aggregate, device), r.clock, Bump(aggregate, device));
    StrictPartialOrder(r.clock, Bump(aggregate, device), r.clock);
  }

  /** A settled conflict leaves a record of the winner and the loser, made at the device's version. */
  lemma ConflictIsRecorded(ctx: Context, policy: Policy, l: Entry, r: Entry, p: Path, version: u64, s: PathState, id: BlobId)
    requires ApplyPath(ctx, policy, Conflicting(p, l, r), version, s, id).Applied?
    ensures var state := ApplyPath(ctx, policy, Conflicting(p, l, r), version, s, id).state;
      && state.record.Some? && state.record.value.atVersion == version
      && ((state.record.value.chosenBlob == l.blobId && state.record.value.superseded == [r.blobId])
          || (state.record.value.chosenBlob == r.blobId && state.record.value.superseded == [l.blobId]))
      && (state.entry.value.blobId in {l.blobId, r.blobId} || state.entry.value.aadVersion == SaturatingInc(l.aadVersion))
  {}

  /** A device whose own version is the remote's or older takes over exactly the remote's. */
  lemma CatchUp(ctx: Context, policy: Policy, op: DiffOp, version: u64, s: PathState, r: Entry, id: BlobId)
    requires op == Classify(op.path, s.entry, Some(r))
    requires Advances(Some(r), s.entry)
    requires Agrees(s.entry, s.file)
    ensures ApplyPath(ctx, policy, op, version, s, id).Applied?
    ensures ApplyPath(ctx, policy, op, version, s, id).state.entry == Some(r)
    ensures op.InSync? || IsPull(op)
  {}

  // ---- paths this device does not manage ---------------------------------------------------------

  function MergeUnmanaged(l: Option<Entry>, r: Option<Entry>): Option<Entry> {
    match (l, r)
    case (None, _) => r
    case (_, None) => l
    case (Some(a), Some(b)) =>
      var chosen := Winner(a, b);
      if chosen.blobId == b.blobId && chosen.deleted == b.deleted then r else l
  }

  lemma MergeUnmanagedAbsorbs(l: Option<Entry>, r: Option<Entry>)
    ensures Absorbs(MergeUnmanaged(l, r), r)
  {
    if r.Some? { StrictPartialOrder(r.value.clock, r.value.clock, r.value.clock); }
    if l.Some? && r.Some? { WinnerIgnoresSides(l.value, r.value); }
  }

  /** One of the two sides, with the blob and the state of a side that loses to neither. */
  predicate MergedWell(a: Entry, b: Entry, e: Entry) {
    && (e == a || e == b)
    && ((SameVersion(e, a) && Loses(b, a)) || (SameVersion(e, b) && Loses(a, b)))
  }

  predicate SameVersion(a: Entry, b: Entry) {
    a.blobId == b.blobId && a.deleted == b.deleted
  }

  /** The remote side is an older twin: the local side's blob and state, and it loses to the local side. */
  predicate OlderTwin(a: Entry, b: Entry) {
    SameVersion(a, b) && !Loses(a, b)
  }

  /**
   Of two versions of an unmanaged path the winner's blob is kept, deleted or not as the winner is, and
   the same blob whichever side is local. The entry itself loses to neither side exactly when the remote
   one is not an older twin of the local one: the comparison looks at blob and deletion only.
   */
  lemma MergeUnmanagedKeepsTheWinner(a: Entry, b: Entry)
    ensures var e := MergeUnmanaged(Some(a), Some(b));
      && e.Some? && MergedWell(a, b, e.value)
      && (Loses(a, e.value) && Loses(b, e.value) <==> !OlderTwin(a, b))
      && MergeUnmanaged(Some(b), Some(a)).value.blobId == e.value.blobId
  {
    WinnerIsNotBeaten(a, b);
    WinnerIsNotBeaten(b, a);
    WinnerIsNotBeaten(a, a);
    WinnerIsNotBeaten(b, b);
    WinnerIgnoresSides(a, b);
    hide Winner, Loses;
  }

  /** Only tombstones have older twins: with a pedigree two live versions of one blob are one entry. */
  lemma OnlyTombstonesHaveOlderTwins(births: map<BlobId, Birth>, p: Path, a: Entry, b: Entry)
    requires Known(births, p, a) && Known(births, p, b) && OlderTwin(a, b)
    ensures a.deleted && b.deleted
  {
    BlobIdentity(births, p, p, a, b);
    WinnerIsNotBeaten(a, a);
    hide Loses;
  }

  /** Then the older of two tombstones is pushed. */
  lemma OlderTombstoneIsKept(b: Entry, device: DeviceId)
    requires b.deleted && Get(b.clock, device) < U64_MAX
    ensures var a := b.(clock := Bump(b.clock, device));
      HappensBefore(b.clock, a.clock) && OlderTwin(a, b) && MergeUnmanaged(Some(a), Some(b)) == Some(b)
  {
    BumpAdvances(b.clock, device);
    CompareReverses(b.clock, Bump(b.clock, device));
    hide HappensBefore, Bump;
  }

  /** The record kept is one of the two, the newer one, and of two equally old ones the local one. */
  predicate NewerRecord(l: Option<ResolutionRecord>, r: Option<ResolutionRecord>, kept: Option<ResolutionRecord>) {
    && (kept == l || kept == r)
    && (l.Some? ==> kept.Some? && l.value.atVersion <= kept.value.atVersion)
    && (r.Some? ==> kept.Some? && r.value.atVersion <= kept.value.atVersion)
    && (l.Some? && r.Some? && l.value.atVersion == r.value.atVersion ==> kept == l)
  }

  lemma MergeRecordKeepsTheNewer(l: Option<ResolutionRecord>, r: Option<ResolutionRecord>)
    ensures NewerRecord(l, r, MergeRecord(l, r))
  {}

  function MergeRecord(l: Option<ResolutionRecord>, r: Option<ResolutionRecord>): Option<ResolutionRecord> {
    if r.Some? && (l.Some? ==> l.value.atVersion < r.value.atVersion) then r else l
  }
}
