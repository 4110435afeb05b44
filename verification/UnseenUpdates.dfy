/**
 Two reachable runs that show what clocks do not promise. A device that has only passed another
 device's manifest on starts to manage a path, and its first push replaces content it never held;
 and a conflict leaves an entry ahead of the aggregate clock it is pushed with.
 */
module UnseenUpdates {
  import opened Prelude
  import opened Clocks
  import opened Manifests
  import opened Conflicts
  import opened Diffs
  import opened Sealing
  import opened Stores
  import opened Paths
  import opened Replicas
  import opened SyncModel
  import opened Protocol
  import opened ProtocolInvariant
  import opened ProtocolTheorems
  import opened QuietSyncs

  // ---- what happens -----------------------------------------------------------------------------

  /** The device has no file and no copy of the path with this content. */
  predicate NeverHeld(w: World, d: DeviceId, p: Path, content: Bytes) {
    d in w.devices ==>
      && (p in w.devices[d].disk ==> w.devices[d].disk[p].bytes != content)
      && (p in w.devices[d].sidecars ==> w.devices[d].sidecars[p] != content)
  }

  /**
   The last push was the device's, on its first attempt, by the device that manages the path. It
   replaced the one content by the other, with a later clock and no record of a conflict, and the
   device never held what it replaced.
   */
  ghost predicate ReplacesUnseen(run: seq<World>, d: DeviceId, p: Path, was: Bytes, now: Bytes) {
    && IsRun(run) && Last(run).history != []
    && var push := Last(run).history[|Last(run).history| - 1];
    && push.first && p in push.managed && push.manifest.deviceId == d
    && p in push.base.entries && p in push.manifest.entries
    && var before, after := push.base.entries[p], push.manifest.entries[p];
    && !before.deleted && before.contentHash == Sha256(was)
    && !after.deleted && after.contentHash == Sha256(now)
    && HappensBefore(before.clock, after.clock)
    && p !in push.manifest.resolutions
    && forall k | 0 <= k < |run| :: NeverHeld(run[k], d, p, was)
  }

  // ---- the pieces ---------------------------------------------------------------------------------

  lemma Extended(run: seq<World>, d: DeviceId, a: Action, w: World) returns (longer: seq<World>)
    requires IsRun(run) && Step(Last(run), d, a, w)
    ensures IsRun(longer) && longer == run + [w]
  {
    longer := run + [w];
    assert SomeStep(Last(run), w);
    hide Step, SomeStep;
    forall i | 0 <= i < |longer| - 1 ensures SomeStep(longer[i], longer[i + 1]) {
      if i < |run| - 1 { assert SomeStep(run[i], run[i + 1]); }
    }
  }

  lemma {:induction false} FreshId(births: map<BlobId, Birth>) returns (id: BlobId)
    ensures id !in births
  {
    id := FreshAbove(births.Keys);
  }

  lemma {:induction false} FreshAbove(s: set<BlobId>) returns (id: BlobId)
    ensures forall x | x in s :: x < id
    decreases |s|
  {
    id := 0;
    if s != {} {
      var x :| x in s;
      var rest := FreshAbove(s - {x});
      id := if rest > x then rest else x + 1;
      forall y | y in s ensures y < id { if y != x { assert y in s - {x}; } }
    }
  }

  /** What a quiet sync leaves, seen at one path. */
  lemma OutcomeFacts(q: Plan, p: Path)
    requires q.ctx.device in q.start.devices
    ensures var (after, out) := EndOf(q);
      var managed, base, clock := DeviceOf(q).managed, StoreOf(q.start), Merge(Bump(DeviceOf(q).cache.clock, q.ctx.device), StoreOf(q.start).clock);
      && At(after, p) == PathAfter(Scanned(q), managed, q.ctx, base, q.reseals, p)
      && Lookup(out.entries, p) == OutgoingEntry(after.local.entries, base.entries, managed.Keys, p)
      && Lookup(out.resolutions, p) == MergeRecord(At(after, p).record, Lookup(base.resolutions, p))
      && after.local.clock == out.clock == clock
      && after.local.version == out.version == SaturatingInc(Max(DeviceOf(q).cache.version, base.version))
      && out.deviceId == q.ctx.device
  {
    FinishedAt(Before(q), DeviceOf(q).managed, q.ctx, StoreOf(q.start), q.ids, q.reseals, p);
    PreparedEnds(q);
    OutgoingAt(PreparedOf(q).local, StoreOf(q.start), DeviceOf(q).managed.Keys, p);
    hide PathAfter, OutgoingEntries, OutgoingRecords, SyncOver, Merge, Bump, MergeRecord;
    PreparedHead(q);
  }

  lemma PreparedHead(q: Plan)
    requires q.ctx.device in q.start.devices
    ensures PreparedOf(q).local.clock == Merge(Bump(DeviceOf(q).cache.clock, q.ctx.device), StoreOf(q.start).clock)
    ensures PreparedOf(q).local.version == DeviceOf(q).cache.version && PreparedOf(q).local.deviceId == q.ctx.device
  {
    hide PathAfter, Merge, Bump;
  }

  lemma ScannedPath(q: Plan, p: Path)
    requires q.ctx.device in q.start.devices
    ensures At(Scanned(q), p) == At(Before(q), p).(
      entry := ScannedEntry(Before(q), DeviceOf(q).managed, q.ctx.device, q.ids, p))
  {
    ScanAllAt(Before(q), DeviceOf(q).managed, q.ctx.device, q.ids, p);
  }
  /** A quiet sync gives the content to nobody who had it neither before nor has it after. */
  lemma StillNeverHeld(q: Plan, start: seq<World>, run: seq<World>, b: DeviceId, p: Path, x: Bytes)
    requires start != [] && Last(start) == q.start && Continues(q, start, run) && q.ctx.device in q.start.devices && b in q.start.devices
    requires forall k | 0 <= k < |start| :: NeverHeld(start[k], b, p, x)
    requires b == q.ctx.device ==> var after := EndOf(q).0;
      && (p in after.disk ==> after.disk[p].bytes != x) && (p in after.sidecars ==> after.sidecars[p] != x)
    ensures forall k | 0 <= k < |run| :: NeverHeld(run[k], b, p, x)
  {
    hide EndOf, IsRun;
    assert NeverHeld(start[|start| - 1], b, p, x);
    forall k | 0 <= k < |run| ensures NeverHeld(run[k], b, p, x) {
      if k < |start| {
        assert run[k] == start[k];
      } else {
        assert Calm(q, run[k]);
        if b == q.ctx.device { assert FileBetween(q, run[k], p); }
        assert b != q.ctx.device ==> Lookup(run[k].devices, b) == Lookup(q.start.devices, b);
      }
    }
  }

  lemma IsRunOf(q: Plan, start: seq<World>, run: seq<World>)
    requires Continues(q, start, run)
    ensures IsRun(run) && run != []
  {}

  function Newcomer(d: DeviceId, managed: Managed, disk: map<Path, File>): Device {
    Device(managed, EMPTY_MANIFEST.(deviceId := d), disk, map[], Idle)
  }

  /** A device that manages one path, on which its scan found something to push and nothing else. */
  ghost predicate OnlyPushes(q: Plan, p: Path) {
    && q.ctx.device in q.start.devices
    && DeviceOf(q).managed == map[p := LatestWins]
    && p in Scanned(q).local.entries
    && ClassifyAt(Scanned(q).local.entries, StoreOf(q.start).entries, p).PushRemote?
    && (p in StoreOf(q.start).entries ==> StoreOf(q.start).entries[p].size <= MAX_BLOB_BYTES - NONCE_LEN - TAG_LEN)
  }

  lemma PushesComplete(q: Plan, p: Path)
    requires OnlyPushes(q, p)
    ensures Completes(Scanned(q), DeviceOf(q).managed, q.ctx, StoreOf(q.start), q.reseals)
    ensures forall r | Concerned(q, r) :: PathGoes(q, r)
    ensures PathAfter(Scanned(q), DeviceOf(q).managed, q.ctx, StoreOf(q.start), q.reseals, p) == At(Scanned(q), p)
  {
    hide ScanAll, Classify, StoreOf;
  }

  /** A device that manages nothing passes the manifest on. */
  lemma NothingManagedCompletes(q: Plan)
    requires q.ctx.device in q.start.devices && DeviceOf(q).managed == map[]
    ensures Completes(Scanned(q), DeviceOf(q).managed, q.ctx, StoreOf(q.start), q.reseals)
    ensures forall r :: !Concerned(q, r)
    ensures Staged(Before(q), DeviceOf(q).managed) == {}
    ensures forall r :: PathAfter(Scanned(q), DeviceOf(q).managed, q.ctx, StoreOf(q.start), q.reseals, r) == At(Before(q), r)
  {
    forall r ensures At(Scanned(q), r) == At(Before(q), r) { ScannedPath(q, r); }
    hide ScanAll, StoreOf;
  }

  // ---- the first device pushes ----------------------------------------------------------------------

  function FirstEntry(a: DeviceId, x: Bytes): Entry {
    SealedEntry(0, 1, map[a := 1], x, 0)
  }

  ghost predicate Passed(w: World, p: Path, e: Entry, clock: Clock, version: u64) {
    && w.history != []
    && var m := StoreOf(w);
    && Lookup(m.entries, p) == Some(e) && p !in m.resolutions
    && m.clock == clock && m.version == version
    && StoredManifest(w) == Some(ManifestObject(m, 0, 0))
  }

  lemma FinishedPasses(q: Plan, w: World, p: Path, e: Entry)
    requires Finished(q, w, 0) && q.ctx.now == 0
    requires Lookup(EndOf(q).1.entries, p) == Some(e) && p !in EndOf(q).1.resolutions
    ensures Passed(w, p, e, EndOf(q).1.clock, EndOf(q).1.version)
    ensures forall d | d != q.ctx.device :: Lookup(w.devices, d) == Lookup(q.start.devices, d)
    ensures Lookup(w.devices, q.ctx.device) == Some(DeviceOf(q).(cache := EndOf(q).0.local, disk := EndOf(q).0.disk,
      sidecars := EndOf(q).0.sidecars))
  {
    hide EndOf;
  }

  lemma BothJoin(a: DeviceId, b: DeviceId, p: Path, x: Bytes, other: Device) returns (run: seq<World>)
    requires a != b && other == Newcomer(b, other.managed, other.disk)
    requires p in other.disk ==> other.disk[p].bytes != x
    ensures IsRun(run)
    ensures Last(run) == NOTHING_YET.(devices := map[a := Newcomer(a, map[p := LatestWins], map[p := File(x, 0)]), b := other])
    ensures forall k | 0 <= k < |run| :: NeverHeld(run[k], b, p, x)
  {
    var first := Newcomer(a, map[p := LatestWins], map[p := File(x, 0)]);
    var w1 := NOTHING_YET.(devices := map[a := first]);
    var w2 := NOTHING_YET.(devices := map[a := first, b := other]);
    assert w2.devices == w1.devices[b := other];
    run := [NOTHING_YET];
    assert IsRun(run);
    hide IsRun;
    run := Extended(run, a, Join(first), w1);
    run := Extended(run, b, Join(other), w2);
  }

  lemma FirstIsReady(q: Plan, a: DeviceId, p: Path, x: Bytes)
    requires q.ctx == Context(a, None, 0) && q.ids == map[p := 0] && q.reseals == map[]
    requires a in q.start.devices && DeviceOf(q) == Newcomer(a, map[p := LatestWins], map[p := File(x, 0)])
    requires q.start.history == [] && q.start.objects == map[] && q.start.births == map[]
    ensures Ready(q) && OnlyPushes(q, p)
    ensures Lookup(Scanned(q).local.entries, p) == Some(FirstEntry(a, x)) && At(Scanned(q), p).record == None
  {
    ScannedPath(q, p);
    assert Staged(Before(q), DeviceOf(q).managed) == {p};
    assert Bump(map[], a) == map[a := 1];
    hide ScanAll;
    assert OnlyPushes(q, p);
    PushesComplete(q, p);
    hide Completes, PathGoes, OnlyPushes;
  }

  lemma FirstPush(a: DeviceId, b: DeviceId, p: Path, x: Bytes, other: Device) returns (run: seq<World>)
    requires a != b && other == Newcomer(b, other.managed, other.disk)
    requires p in other.disk ==> other.disk[p].bytes != x
    ensures IsRun(run) && run != [] && Passed(Last(run), p, FirstEntry(a, x), map[a := 1], 1)
    ensures b in Last(run).devices && Last(run).devices[b] == other
    ensures forall k | 0 <= k < |run| :: NeverHeld(run[k], b, p, x)
  {
    hide Ready, ScanAll, EndOf, Completes, PathGoes, PathAfter, NeverHeld, Continues, Finished, Passed;
    var start := BothJoin(a, b, p, x, other);
    assert start != [];
    hide IsRun;
    var q := Plan(Last(start), Context(a, None, 0), map[p := 0], map[]);
    FirstIsReady(q, a, p, x);
    run := QuietSyncRuns(q, start);
    PushesComplete(q, p);
    OutcomeFacts(q, p);
    hide OnlyPushes;
    IsRunOf(q, start, run);
    FinishedPasses(q, Last(run), p, FirstEntry(a, x));
    assert Lookup(Last(run).devices, b) == Lookup(q.start.devices, b);
    assert Merge(Bump(map[], a), map[]) == map[a := 1];
    StillNeverHeld(q, start, run, b, p, x);
  }

  // ---- the second device passes it on -----------------------------------------------------------------

  /** The cache of a device that has passed a manifest on: its clock and version, and no entry. */
  function Passing(b: DeviceId, clock: Clock, version: u64): Manifest {
    Manifest(b, clock, map[], map[], version)
  }

  lemma SecondIsReady(q: Plan, b: DeviceId, p: Path, e: Entry, clock: Clock)
    requires q.ctx == Context(b, None, 0) && q.ids == map[] && q.reseals == map[]
    requires b in q.start.devices && DeviceOf(q) == Newcomer(b, map[], map[])
    requires Passed(q.start, p, e, clock, 1)
    ensures Ready(q)
  {
    NothingManagedCompletes(q);
    hide ScanAll, Completes, PathGoes, StoreOf;
  }

  lemma PassedOn(q: Plan, b: DeviceId)
    requires q.ctx.device == b && b in q.start.devices && DeviceOf(q) == Newcomer(b, map[], map[])
    ensures var after := EndOf(q).0;
      && after.disk == map[] && after.sidecars == map[]
      && after.local == Passing(b, Merge(Bump(map[], b), StoreOf(q.start).clock), SaturatingInc(Max(0, StoreOf(q.start).version)))
  {
    var after := EndOf(q).0;
    NothingManagedCompletes(q);
    forall r ensures At(after, r) == NOTHING {
      OutcomeFacts(q, r);
      hide ScanAll, SyncOver, PathAfter, StoreOf;
    }
    OutcomeFacts(q, "");
    PreparedEnds(q);
    PreparedHead(q);
    hide ScanAll, SyncOver, PathAfter, StoreOf, PreparedOf, Merge, Bump;
    var empty := Replica(after.local.(entries := map[], resolutions := map[]), map[], map[]);
    forall r ensures At(after, r) == At(empty, r) {}
    SamePathsSameReplica(after, empty);
  }

  lemma SecondPasses(a: DeviceId, b: DeviceId, p: Path, x: Bytes) returns (run: seq<World>)
    requires a != b
    ensures IsRun(run) && Passed(Last(run), p, FirstEntry(a, x), map[a := 1, b := 1], 2)
    ensures b in Last(run).devices
    ensures Last(run).devices[b] == Device(map[], Passing(b, map[a := 1, b := 1], 2), map[], map[], Idle)
    ensures forall k | 0 <= k < |run| :: NeverHeld(run[k], b, p, x)
  {
    var start := FirstPush(a, b, p, x, Newcomer(b, map[], map[]));
    var q := Plan(Last(start), Context(b, None, 0), map[], map[]);
    SecondIsReady(q, b, p, FirstEntry(a, x), map[a := 1]);
    run := QuietSyncRuns(q, start);
    PassedOn(q, b);
    OutcomeFacts(q, p);
    assert StoreOf(q.start).clock == map[a := 1] && StoreOf(q.start).version == 1;
    assert Lookup(StoreOf(q.start).entries, p) == Some(FirstEntry(a, x)) && p !in StoreOf(q.start).resolutions;
    hide Ready, ScanAll, EndOf, PathAfter, NeverHeld, Continues, Finished, Passed, StoreOf;
    IsRunOf(q, start, run);
    FinishedPasses(q, Last(run), p, FirstEntry(a, x));
    assert Merge(Bump(map[], b), map[a := 1]) == map[a := 1, b := 1];
    StillNeverHeld(q, start, run, b, p, x);
  }

  // ---- and takes the path over ----------------------------------------------------------------------------

  lemma TakesOver(a: DeviceId, b: DeviceId, p: Path, x: Bytes, y: Bytes) returns (run: seq<World>)
    requires a != b && x != y
    ensures IsRun(run) && Passed(Last(run), p, FirstEntry(a, x), map[a := 1, b := 1], 2)
    ensures b in Last(run).devices
    ensures Last(run).devices[b]
      == Device(map[p := LatestWins], Passing(b, map[a := 1, b := 1], 2), map[p := File(y, 0)], map[], Idle)
    ensures forall k | 0 <= k < |run| :: NeverHeld(run[k], b, p, x)
  {
    run := SecondPasses(a, b, p, x);
    var w := Last(run);
    var dev := w.devices[b];
    var managing := w.(devices := w.devices[b := dev.(managed := map[p := LatestWins])]);
    var edited := managing.(devices := managing.devices[b := managing.devices[b].(disk := map[p := File(y, 0)], sidecars := map[])]);
    hide IsRun;
    run := Extended(run, b, Reconfigure(map[p := LatestWins]), managing);
    run := Extended(run, b, Edit(map[p := File(y, 0)], map[]), edited);
  }

  lemma ThirdIsReady(q: Plan, a: DeviceId, b: DeviceId, p: Path, x: Bytes, y: Bytes, id: BlobId)
    requires a != b && |x| <= MAX_BLOB_BYTES - NONCE_LEN - TAG_LEN
    requires q.ctx == Context(b, None, 0) && q.ids == map[p := id] && q.reseals == map[] && id !in q.start.births
    requires Passed(q.start, p, FirstEntry(a, x), map[a := 1, b := 1], 2)
    requires b in q.start.devices && DeviceOf(q)
      == Device(map[p := LatestWins], Passing(b, map[a := 1, b := 1], 2), map[p := File(y, 0)], map[], Idle)
    ensures Ready(q) && OnlyPushes(q, p)
    ensures Lookup(Scanned(q).local.entries, p) == Some(SealedEntry(id, 1, map[a := 1, b := 2], y, 0))
    ensures At(Scanned(q), p).record == None && At(Scanned(q), p).file == Some(File(y, 0)) && At(Scanned(q), p).sidecar == None
    ensures HappensBefore(map[a := 1], map[a := 1, b := 2])
  {
    ScannedPath(q, p);
    assert Staged(Before(q), DeviceOf(q).managed) == {p};
    assert Bump(map[a := 1, b := 1], b) == map[a := 1, b := 2];
    NewFileHidesRemoteIff(p, map[a := 1, b := 1], File(y, 0), b, id, FirstEntry(a, x));
    hide ScanAll, Classify, StoreOf;
    assert b in map[a := 1, b := 2];
    assert HappensBefore(map[a := 1], map[a := 1, b := 2]);
    assert OnlyPushes(q, p);
    PushesComplete(q, p);
    hide Completes, PathGoes, OnlyPushes;
  }

  /**
   The comments promise that a clock dominates everything its device has seen; having seen a clock is
   not having read the content. Two devices, a path managed first by one and then by both, and no
   contention at all are enough for a first-attempt push that replaces content its device never
   held, with no conflict raised or recorded.
   */
  lemma UnseenUpdateIsReplaced(a: DeviceId, b: DeviceId, p: Path, x: Bytes, y: Bytes)
    requires a != b && x != y && |x| <= MAX_BLOB_BYTES - NONCE_LEN - TAG_LEN
    ensures exists run: seq<World> :: ReplacesUnseen(run, b, p, x, y)
  {
    var start := TakesOver(a, b, p, x, y);
    var id := FreshId(Last(start).births);
    var q := Plan(Last(start), Context(b, None, 0), map[p := id], map[]);
    ThirdIsReady(q, a, b, p, x, y, id);
    var run := QuietSyncRuns(q, start);
    PushesComplete(q, p);
    OutcomeFacts(q, p);
    hide Ready, ScanAll, EndOf, OnlyPushes, Completes, PathGoes, PathAfter, HappensBefore, NeverHeld, Continues;
    IsRunOf(q, start, run);
    StillNeverHeld(q, start, run, b, p, x);
    assert ReplacesUnseen(run, b, p, x, y);
  }
  // ---- an entry ahead of its aggregate ------------------------------------------------------------------

  /** The last push carries an entry whose clock its own aggregate clock does not cover. */
  ghost predicate AggregateLags(run: seq<World>, p: Path) {
    && IsRun(run) && Last(run).history != []
    && var m := Last(run).history[|Last(run).history| - 1].manifest;
    p in m.entries && !Leq(m.entries[p].clock, m.clock)
  }

  /** The second device, about to sync its own version of the path under the Manual policy. */
  ghost predicate Meets(q: Plan, a: DeviceId, p: Path, x: Bytes, y: Bytes, id: BlobId, reseal: BlobId) {
    var b := q.ctx.device;
    && a != b && |x| <= MAX_BLOB_BYTES - NONCE_LEN - TAG_LEN
    && q.ctx == Context(b, None, 0) && q.ids == map[p := id] && q.reseals == map[p := reseal]
    && id !in q.start.births && reseal !in q.start.births && id != reseal && id != 0
    && Passed(q.start, p, FirstEntry(a, x), map[a := 1], 1)
    && b in q.start.devices && DeviceOf(q) == Newcomer(b, map[p := Manual], map[p := File(y, 0)])
  }

  function MetLocal(b: DeviceId, y: Bytes, id: BlobId): Entry {
    SealedEntry(id, 1, map[b := 1], y, 0)
  }

  lemma MeetsConflict(q: Plan, a: DeviceId, p: Path, x: Bytes, y: Bytes, id: BlobId, reseal: BlobId)
    requires Meets(q, a, p, x, y, id, reseal)
    ensures Concerned(q, p) && OpAt(q, p) == Conflicting(p, MetLocal(q.ctx.device, y, id), FirstEntry(a, x))
    ensures At(Scanned(q), p).file == Some(File(y, 0))
    ensures Staged(Before(q), DeviceOf(q).managed) == {p}
  {
    ScannedPath(q, p);
    assert Bump(map[], q.ctx.device) == map[q.ctx.device := 1];
    hide ScanAll, StoreOf;
    var l, r := MetLocal(q.ctx.device, y, id), FirstEntry(a, x);
    assert Lookup(Scanned(q).local.entries, p) == Some(l) && Lookup(StoreOf(q.start).entries, p) == Some(r);
    ConflictOfTwo(p, a, q.ctx.device, l, r);
  }

  lemma MetClocks(a: DeviceId, b: DeviceId, x: Bytes, y: Bytes, id: BlobId)
    requires a != b
    ensures Merge(MetLocal(b, y, id).clock, FirstEntry(a, x).clock) == map[a := 1, b := 1]
    ensures After(MetLocal(b, y, id), FirstEntry(a, x), b) == map[a := 1, b := 2]
    ensures Merge(Bump(map[], b), map[a := 1]) == map[a := 1, b := 1]
    ensures !Leq(map[a := 1, b := 2], map[a := 1, b := 1])
  {
    var clock := map[a := 1, b := 2];
    assert b in clock && clock[b] > Get(map[a := 1, b := 1], b);
  }

  lemma ConflictIsReady(q: Plan, a: DeviceId, p: Path, x: Bytes, y: Bytes, id: BlobId, reseal: BlobId)
    requires Meets(q, a, p, x, y, id, reseal)
    ensures Ready(q)
    ensures PathAfter(Scanned(q), DeviceOf(q).managed, q.ctx, StoreOf(q.start), q.reseals, p).entry
      == Some(SealedEntry(reseal, 2, map[a := 1, q.ctx.device := 2], y, 0))
  {
    hide ScanAll, Classify, Completes, After, Merge, Bump, ApplyPath;
    var b := q.ctx.device;
    MeetsConflict(q, a, p, x, y, id, reseal);
    MetClocks(a, b, x, y, id);
    ManualKeepsLocal(q, p, MetLocal(b, y, id), FirstEntry(a, x), File(y, 0));
    ConflictGoes(q, a, p, x, y, id, reseal);
    AppliedCompletes(q);
    hide PathGoes;
  }

  lemma ConflictGoes(q: Plan, a: DeviceId, p: Path, x: Bytes, y: Bytes, id: BlobId, reseal: BlobId)
    requires Meets(q, a, p, x, y, id, reseal)
    requires Concerned(q, p) && OpAt(q, p) == Conflicting(p, MetLocal(q.ctx.device, y, id), FirstEntry(a, x))
    ensures forall o | Concerned(q, o) :: o == p && PathGoes(q, o)
  {
    hide ScanAll, Classify, Merge, Bump;
    MetClocks(a, q.ctx.device, x, y, id);
  }

  lemma AppliedCompletes(q: Plan)
    requires q.ctx.device in q.start.devices
    requires forall o | Concerned(q, o) :: OutcomeAt(Scanned(q), DeviceOf(q).managed, q.ctx, StoreOf(q.start), q.reseals, o).Applied?
    ensures Completes(Scanned(q), DeviceOf(q).managed, q.ctx, StoreOf(q.start), q.reseals)
  {
    hide ScanAll, OutcomeAt, StoreOf;
    forall o | Concerns(Scanned(q), DeviceOf(q).managed, StoreOf(q.start), o)
      ensures OutcomeAt(Scanned(q), DeviceOf(q).managed, q.ctx, StoreOf(q.start), q.reseals, o).Applied?
    {
      assert Concerned(q, o);
    }
  }

  lemma ConflictOfTwo(p: Path, a: DeviceId, b: DeviceId, l: Entry, r: Entry)
    requires a != b && l.clock == map[b := 1] && r.clock == map[a := 1]
    ensures Classify(p, Some(l), Some(r)) == Conflicting(p, l, r)
  {
    assert b in l.clock && a in r.clock;
  }

  lemma ManualKeepsLocal(q: Plan, p: Path, l: Entry, r: Entry, f: File)
    requires q.ctx.device in q.start.devices && DeviceOf(q).managed == map[p := Manual] && Concerned(q, p)
    requires OpAt(q, p) == Conflicting(p, l, r) && !l.deleted && l.blobId != r.blobId && At(Scanned(q), p).file == Some(f)
    ensures var out := OutcomeAt(Scanned(q), DeviceOf(q).managed, q.ctx, StoreOf(q.start), q.reseals, p);
      && out.Applied?
      && out.state.entry == Some(SealedEntry(IdFor(q.reseals, p), SaturatingInc(l.aadVersion), After(l, r, q.ctx.device), f.bytes, f.modified))
  {
    hide ScanAll, Classify, StoreOf;
  }

  /**
   The aggregate clock is said to dominate everything its device has seen. A run with a single conflict shows a
   push whose own entry is ahead of it.
   */
  lemma ConflictOutrunsAggregate(a: DeviceId, b: DeviceId, p: Path, x: Bytes, y: Bytes)
    requires a != b && x != y && |x| <= MAX_BLOB_BYTES - NONCE_LEN - TAG_LEN
    ensures exists run: seq<World> :: AggregateLags(run, p)
  {
    hide Ready, ScanAll, EndOf, PathAfter, Continues, IsRun, NeverHeld, Finished, Passed;
    var start := FirstPush(a, b, p, x, Newcomer(b, map[p := Manual], map[p := File(y, 0)]));
    var top := FreshAbove(Last(start).births.Keys);
    var q := Plan(Last(start), Context(b, None, 0), map[p := top + 1], map[p := top + 2]);
    assert top + 1 !in q.start.births && top + 2 !in q.start.births;
    ConflictIsReady(q, a, p, x, y, top + 1, top + 2);
    var run := QuietSyncRuns(q, start);
    IsRunOf(q, start, run);
    FinishedManifest(q, Last(run));
    LaggingEnd(q, a, p, x, y, top + 1, top + 2);
    assert AggregateLags(run, p);
  }

  lemma FinishedManifest(q: Plan, w: World)
    requires Finished(q, w, 0)
    ensures w.history != [] && w.history[|w.history| - 1].manifest == EndOf(q).1
  {
    hide EndOf;
  }

  lemma LaggingEnd(q: Plan, a: DeviceId, p: Path, x: Bytes, y: Bytes, id: BlobId, reseal: BlobId)
    requires Meets(q, a, p, x, y, id, reseal)
    ensures var m := EndOf(q).1; p in m.entries && !Leq(m.entries[p].clock, m.clock)
  {
    hide ScanAll, EndOf, PathAfter, Merge, Bump, Leq, Ready;
    ConflictIsReady(q, a, p, x, y, id, reseal);
    OutcomeFacts(q, p);
    MetClocks(a, q.ctx.device, x, y, id);
  }
}
