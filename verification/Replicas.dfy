/** A device's manifest and disk as a whole, and the manifest it pushes. */
module Replicas {
  import opened Prelude
  import opened Clocks
  import opened Manifests
  import opened Conflicts
  import opened Diffs
  import opened Sealing
  import opened Paths

  datatype Replica = Replica(local: Manifest, disk: map<Path, File>, sidecars: map<Path, Bytes>)

  /** Which paths a device manages, and how it settles conflicts on each. */
  type Managed = map<Path, Policy>

  function Update<K, V>(m: map<K, V>, k: K, v: Option<V>): map<K, V> {
    if v.Some? then m[k := v.value] else m - {k}
  }

  function At(w: Replica, p: Path): PathState {
    PathState(Lookup(w.local.entries, p), Lookup(w.disk, p), Lookup(w.local.resolutions, p), Lookup(w.sidecars, p))
  }

  function With(w: Replica, p: Path, s: PathState): Replica {
    Replica(
      w.local.(entries := Update(w.local.entries, p, s.entry), resolutions := Update(w.local.resolutions, p, s.record)),
      Update(w.disk, p, s.file),
      Update(w.sidecars, p, s.sidecar))
  }

  lemma WithAt(w: Replica, p: Path, s: PathState, q: Path)
    ensures At(With(w, p, s), q) == if q == p then s else At(w, q)
    ensures With(w, p, s).local.version == w.local.version
    ensures With(w, p, s).local.clock == w.local.clock
    ensures With(w, p, s).local.deviceId == w.local.deviceId
  {}

  // ---- scanning every managed path ---------------------------------------------------------

  function Staged(w: Replica, managed: Managed): set<Path> {
    set p | p in managed && NeedsSeal(Lookup(w.local.entries, p), Lookup(w.disk, p))
  }

  function IdFor(ids: map<Path, BlobId>, p: Path): BlobId {
    if p in ids then ids[p] else 0
  }

  function ScannedEntry(w: Replica, managed: Managed, device: DeviceId, ids: map<Path, BlobId>, p: Path): Option<Entry> {
    if p in managed
    then ScanPath(Lookup(w.local.entries, p), Lookup(w.disk, p), w.local.clock, device, IdFor(ids, p))
    else Lookup(w.local.entries, p)
  }

  function ScanAll(w: Replica, managed: Managed, device: DeviceId, ids: map<Path, BlobId>): Replica {
    w.(local := w.local.(entries :=
      map p | p in w.local.entries.Keys + Staged(w, managed) && ScannedEntry(w, managed, device, ids, p).Some?
        :: ScannedEntry(w, managed, device, ids, p).value))
  }

  lemma ScanAllAt(w: Replica, managed: Managed, device: DeviceId, ids: map<Path, BlobId>, p: Path)
    ensures At(ScanAll(w, managed, device, ids), p)
         == At(w, p).(entry := ScannedEntry(w, managed, device, ids, p))
  {}

  ghost predicate AllAgree(w: Replica, managed: Managed) {
    forall p | p in managed :: Agrees(Lookup(w.local.entries, p), Lookup(w.disk, p))
  }

  lemma ScanAllAgrees(w: Replica, managed: Managed, device: DeviceId, ids: map<Path, BlobId>)
    ensures AllAgree(ScanAll(w, managed, device, ids), managed)
    ensures AllAgree(w, managed) ==> ScanAll(w, managed, device, ids) == w && Staged(w, managed) == {}
  {
    var scanned := ScanAll(w, managed, device, ids);
    forall p | p in managed
      ensures Agrees(Lookup(scanned.local.entries, p), Lookup(scanned.disk, p))
    {
      ScanAllAt(w, managed, device, ids, p);
      ScanMakesAgree(Lookup(w.local.entries, p), Lookup(w.disk, p), w.local.clock, device, IdFor(ids, p));
    }
    if AllAgree(w, managed) {
      forall p ensures Lookup(scanned.local.entries, p) == Lookup(w.local.entries, p) {
        ScanAllAt(w, managed, device, ids, p);
        if p in managed {
          ScanMakesAgree(Lookup(w.local.entries, p), Lookup(w.disk, p), w.local.clock, device, IdFor(ids, p));
        }
      }
      assert forall p | p in managed :: !NeedsSeal(Lookup(w.local.entries, p), Lookup(w.disk, p)) by {
        forall p | p in managed ensures !NeedsSeal(Lookup(w.local.entries, p), Lookup(w.disk, p)) {
          ScanMakesAgree(Lookup(w.local.entries, p), Lookup(w.disk, p), w.local.clock, device, IdFor(ids, p));
        }
      }
      SameLookups(scanned.local.entries, w.local.entries);
    }
  }

  // ---- the manifest that is pushed ------------------------------------------------------------

  function OutgoingEntry(l: map<Path, Entry>, r: map<Path, Entry>, managed: set<Path>, p: Path): Option<Entry> {
    if p in managed then Lookup(l, p) else MergeUnmanaged(Lookup(l, p), Lookup(r, p))
  }

  function OutgoingEntries(l: map<Path, Entry>, r: map<Path, Entry>, managed: set<Path>): map<Path, Entry> {
    map p | p in l.Keys + r.Keys && OutgoingEntry(l, r, managed, p).Some? :: OutgoingEntry(l, r, managed, p).value
  }

  function OutgoingRecords(l: map<Path, ResolutionRecord>, r: map<Path, ResolutionRecord>): map<Path, ResolutionRecord> {
    map p | p in l.Keys + r.Keys :: MergeRecord(Lookup(l, p), Lookup(r, p)).value
  }

  function Outgoing(local: Manifest, base: Manifest, managed: set<Path>): Manifest {
    local.(
      entries := OutgoingEntries(local.entries, base.entries, managed),
      resolutions := OutgoingRecords(local.resolutions, base.resolutions),
      version := SaturatingInc(Max(local.version, base.version)))
  }

  lemma OutgoingAt(local: Manifest, base: Manifest, managed: set<Path>, p: Path)
    ensures Lookup(Outgoing(local, base, managed).entries, p) == OutgoingEntry(local.entries, base.entries, managed, p)
    ensures Lookup(Outgoing(local, base, managed).resolutions, p)
         == MergeRecord(Lookup(local.resolutions, p), Lookup(base.resolutions, p))
  {}

  /**
   What a push says of each path and of itself: a managed path is the device's own, an unmanaged one
   the winner of the two sides, a record the newer one, and the number the one above both.
   */
  lemma OutgoingIsTheWinner(local: Manifest, base: Manifest, managed: set<Path>, p: Path)
    ensures var out := Outgoing(local, base, managed);
      && out.deviceId == local.deviceId && out.clock == local.clock
      && local.version <= out.version && base.version <= out.version
      && (local.version < U64_MAX && base.version < U64_MAX ==>
           local.version < out.version && base.version < out.version && out.version - 1 in {local.version, base.version})
    ensures p in managed ==> Lookup(Outgoing(local, base, managed).entries, p) == Lookup(local.entries, p)
    ensures var l, r, e := Lookup(local.entries, p), Lookup(base.entries, p), Lookup(Outgoing(local, base, managed).entries, p);
      p !in managed ==>
        && (e == l || e == r) && (e.None? <==> l.None? && r.None?)
        && (l.Some? && r.Some? ==> MergedWell(l.value, r.value, e.value))
    ensures var l, r := Lookup(local.resolutions, p), Lookup(base.resolutions, p);
      NewerRecord(l, r, Lookup(Outgoing(local, base, managed).resolutions, p))
  {
    OutgoingAt(local, base, managed, p);
    MergeRecordKeepsTheNewer(Lookup(local.resolutions, p), Lookup(base.resolutions, p));
    if p in local.entries && p in base.entries { MergeUnmanagedKeepsTheWinner(local.entries[p], base.entries[p]); }
    hide MergedWell, NewerRecord, MergeRecord;
  }

  /** Every managed path of `base` has been taken into account. */
  ghost predicate AllAbsorbed(local: Manifest, base: Manifest, managed: set<Path>) {
    forall p | p in managed :: Absorbs(Lookup(local.entries, p), Lookup(base.entries, p))
  }

  predicate RecordKept(next: Option<ResolutionRecord>, prev: Option<ResolutionRecord>) {
    prev.Some? ==> next.Some? && prev.value.atVersion <= next.value.atVersion
  }

  /**
   What every push keeps of the manifest it replaces: no path and no resolution record disappears,
   no record gets older, no entry goes back in causal order, and the version rises.
   */
  ghost predicate MonotonePush(prev: Manifest, next: Manifest) {
    && (forall p :: Absorbs(Lookup(next.entries, p), Lookup(prev.entries, p)))
    && (forall p :: RecordKept(Lookup(next.resolutions, p), Lookup(prev.resolutions, p)))
    && (prev.version < U64_MAX ==> prev.version < next.version)
    && prev.version <= next.version
  }

  lemma OutgoingIsMonotone(local: Manifest, base: Manifest, managed: set<Path>)
    requires AllAbsorbed(local, base, managed)
    ensures MonotonePush(base, Outgoing(local, base, managed))
  {
    var next := Outgoing(local, base, managed);
    forall p ensures Absorbs(Lookup(next.entries, p), Lookup(base.entries, p)) {
      OutgoingAt(local, base, managed, p);
      if p in managed {
        assert Absorbs(Lookup(local.entries, p), Lookup(base.entries, p));
      } else {
        MergeUnmanagedAbsorbs(Lookup(local.entries, p), Lookup(base.entries, p));
      }
    }
    forall p ensures RecordKept(Lookup(next.resolutions, p), Lookup(base.resolutions, p)) {
      OutgoingAt(local, base, managed, p);
    }
  }

  /** After its last preparation the local manifest carries the device's bumped aggregate clock. */
  function Finish(local: Manifest, base: Manifest, device: DeviceId): Manifest {
    local.(clock := Merge(Bump(local.clock, device), base.clock), deviceId := device)
  }

  /**
   The aggregate clock that `Finish` leaves is meant to cover everything seen. It covers the version
   a conflict produced exactly when the two aggregates cover both sides on every other device's
   counter, and on this device's own counter both sides are behind the new aggregate.
   */
  lemma AggregateCoversIff(local: Manifest, base: Manifest, l: Entry, r: Entry, device: DeviceId)
    requires Get(l.clock, device) < U64_MAX && Get(r.clock, device) < U64_MAX && Get(local.clock, device) < U64_MAX
    ensures Leq(After(l, r, device), Finish(local, base, device).clock)
      <==> (forall d | d in l.clock.Keys + r.clock.Keys && d != device ::
              Max(Get(l.clock, d), Get(r.clock, d)) <= Max(Get(local.clock, d), Get(base.clock, d)))
           && Max(Get(l.clock, device), Get(r.clock, device)) < Max(Get(local.clock, device) + 1, Get(base.clock, device))
  {
    KeysOfAfter(l, r, device);
    hide After, Finish, Leq;
    var a, f := After(l, r, device), Finish(local, base, device).clock;
    LeqByGets(a, f);
    forall d ensures Get(a, d) <= Get(f, d) <==> CoversAt(local, base, l, r, device, d) {
      CoversComponent(local, base, l, r, device, d);
    }
    assert CoversAt(local, base, l, r, device, device)
      <==> Max(Get(l.clock, device), Get(r.clock, device)) < Max(Get(local.clock, device) + 1, Get(base.clock, device));
    hide Get;
    assert Leq(a, f) <==> forall d | d in a.Keys :: CoversAt(local, base, l, r, device, d);
  }

  lemma KeysOfAfter(l: Entry, r: Entry, device: DeviceId)
    ensures After(l, r, device).Keys == l.clock.Keys + r.clock.Keys + {device}
  {}

  lemma LeqByGets(a: Clock, b: Clock)
    ensures Leq(a, b) <==> forall d | d in a.Keys :: Get(a, d) <= Get(b, d)
  {}

  lemma CoversComponent(local: Manifest, base: Manifest, l: Entry, r: Entry, device: DeviceId, d: DeviceId)
    requires Get(l.clock, device) < U64_MAX && Get(r.clock, device) < U64_MAX && Get(local.clock, device) < U64_MAX
    ensures Get(After(l, r, device), d) <= Get(Finish(local, base, device).clock, d) <==> CoversAt(local, base, l, r, device, d)
  {
    hide After, Finish;
    GetAfter(l, r, device, d);
    GetFinish(local, base, device, d);
  }

  /** One component of the comparison. */
  predicate CoversAt(local: Manifest, base: Manifest, l: Entry, r: Entry, device: DeviceId, d: DeviceId) {
    var bump := if d == device then 1 else 0;
    var produced := Max(Get(l.clock, d), Get(r.clock, d)) + bump;
    produced <= Get(local.clock, d) + bump || produced <= Get(base.clock, d)
  }

  lemma GetAfter(l: Entry, r: Entry, device: DeviceId, d: DeviceId)
    requires Get(l.clock, device) < U64_MAX && Get(r.clock, device) < U64_MAX
    ensures Get(After(l, r, device), d) == Max(Get(l.clock, d), Get(r.clock, d)) + if d == device then 1 else 0
  {
    GetMerge(l.clock, r.clock, d);
    GetBump(Merge(l.clock, r.clock), device, d);
    hide Merge, Bump;
  }

  lemma GetFinish(local: Manifest, base: Manifest, device: DeviceId, d: DeviceId)
    requires Get(local.clock, device) < U64_MAX
    ensures Get(Finish(local, base, device).clock, d) == Max(Get(local.clock, d) + if d == device then 1 else 0, Get(base.clock, d))
  {
    GetBump(local.clock, device, d);
    GetMerge(Bump(local.clock, device), base.clock, d);
    hide Merge, Bump;
  }
}
