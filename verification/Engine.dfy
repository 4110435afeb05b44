/**
 The sync engine as the source runs it: loops that update the local manifest, the disk and the
 store in place, against a store other clients write to between any two operations.
 */
module Engine {
  import opened Prelude
  import opened Clocks
  import opened Manifests
  import opened Conflicts
  import opened Diffs
  import opened Sealing
  import opened Stores
  import opened Paths
  import opened Replicas
  import opened SyncModel
  import opened Progress
  import Names

  datatype Report = Report(pulled: seq<Path>, pushed: seq<Path>, conflictsResolved: seq<Path>, aborted: bool)

  /** What a sync drew, staged and met on its first attempt: the witnesses of its contract. */
  datatype Attempt = Attempt(ids: map<Path, BlobId>, staged: seq<Path>, ops: seq<DiffOp>, reseals: map<Path, BlobId>,
    done: set<Path>, listed: Objects, read: Objects)

  /** A whole sync: its attempts fetched `bases` in turn, and `refused` of its manifest puts were refused. */
  datatype Run = Run(first: Attempt, bases: seq<Manifest>, refused: nat, before: Objects, pushed: Manifest)

  /** How a conflict ended. */
  datatype Settled = Halted | TookRemote | Deleted | Resealed

  /** The two blobs fetched for a pull. */
  datatype Fetched = Fetched(path: Path, remote: Entry, header: Object, body: Object)

  /** The lists of a report. */
  datatype Kind = Pulls | Conflicts | Taken | Pushed

  /** How a conflict over `r` ends, given its resolution. */
  function EndOf(res: Resolution, r: Entry): Settled {
    match res
    case Aborted => Halted
    case Resolved(chosen, _, _) =>
      if chosen.deleted then Deleted else if chosen.blobId == r.blobId then TookRemote else Resealed
  }

  /** A blob staged for upload. */
  datatype PendingPush = PendingPush(path: Path, entry: Entry, header: Header, body: Body)

  /** The random source behind `seal`: each seal takes the next fresh header id, or fails. */
  class Sealer {
    var tape: seq<BlobId>

    constructor (tape: seq<BlobId>)
      ensures this.tape == tape
    {
      this.tape := tape;
    }

    method Draw() returns (r: Result<BlobId, SyncError>)
      modifies this
      ensures r.Ok? ==> old(tape) == [r.value] + tape
      ensures r.Err? ==> old(tape) == tape == [] && r.error == Crypto
    {
      if tape == [] { return Err(Crypto); }
      r := Ok(tape[0]);
      tape := tape[1..];
    }
  }

  /** The local manifest, updated in place through `&mut`. */
  class LocalManifest {
    var deviceId: DeviceId
    var clock: Clock
    var entries: map<Path, Entry>
    var resolutions: map<Path, ResolutionRecord>
    var version: u64

    constructor (m: Manifest)
      ensures Value() == m
    {
      deviceId, clock, entries, resolutions, version := m.deviceId, m.clock, m.entries, m.resolutions, m.version;
    }

    function Value(): Manifest
      reads this
    {
      Manifest(deviceId, clock, entries, resolutions, version)
    }

    /** Adds the remote's records and entries for paths this device does not manage. */
    method MergeUnmanagedEntries(remote: Manifest, managed: Managed)
      modifies this
      ensures Value() == old(Value()).(
        entries := OutgoingEntries(old(entries), remote.entries, managed.Keys),
        resolutions := OutgoingRecords(old(resolutions), remote.resolutions))
    {
      MergeRecords(remote);
      var todo := remote.entries.Keys;
      while todo != {}
        invariant todo <= remote.entries.Keys
        invariant Value() == old(Value()).(entries := entries,
          resolutions := OutgoingRecords(old(resolutions), remote.resolutions))
        invariant forall p :: (Lookup(entries, p) ==
          if p in todo then Lookup(old(entries), p) else OutgoingEntry(old(entries), remote.entries, managed.Keys, p))
      {
        var p :| p in todo;
        var r := remote.entries[p];
        if p in managed {
          // Managed here: this device's state is authoritative.
        } else if p !in entries {
          entries := entries[p := r];
        } else {
          var chosen := Winner(entries[p], r);
          if chosen.blobId == r.blobId && chosen.deleted == r.deleted {
            entries := entries[p := r];
          }
        }
        todo := todo - {p};
      }
      forall p ensures Lookup(entries, p) == Lookup(OutgoingEntries(old(entries), remote.entries, managed.Keys), p) {
        OutgoingAt(old(Value()), remote, managed.Keys, p);
      }
      SameLookups(entries, OutgoingEntries(old(entries), remote.entries, managed.Keys));
    }

    method MergeRecords(remote: Manifest)
      modifies this`resolutions
      ensures resolutions == OutgoingRecords(old(resolutions), remote.resolutions)
    {
      var todo := remote.resolutions.Keys;
      while todo != {}
        invariant todo <= remote.resolutions.Keys
        invariant forall p :: (Lookup(resolutions, p) ==
          if p in todo then Lookup(old(resolutions), p) else MergeRecord(Lookup(old(resolutions), p), Lookup(remote.resolutions, p)))
      {
        var p :| p in todo;
        var r := remote.resolutions[p];
        if p !in resolutions || resolutions[p].atVersion < r.atVersion {
          resolutions := resolutions[p := r];
        }
        todo := todo - {p};
      }
      SameLookups(resolutions, OutgoingRecords(old(resolutions), remote.resolutions));
    }
  }

  /** The managed files and the `.remote` copies beside them. */
  class Disk {
    var files: map<Path, File>
    var sidecars: map<Path, Bytes>

    constructor (files: map<Path, File>, sidecars: map<Path, Bytes>)
      ensures this.files == files && this.sidecars == sidecars
    {
      this.files, this.sidecars := files, sidecars;
    }

    method Write(p: Path, bytes: Bytes, now: nat)
      modifies this`files
      ensures files == old(files)[p := File(bytes, now)]
    {
      files := files[p := File(bytes, now)];
    }

    method Remove(p: Path)
      modifies this`files
      ensures files == old(files) - {p}
    {
      files := files - {p};
    }

    method WriteRemoteCopy(p: Path, bytes: Bytes)
      modifies this`sidecars
      ensures sidecars == old(sidecars)[p := bytes]
    {
      sidecars := sidecars[p := bytes];
    }
  }

  /** One call of `sync`: the store, the device's state, and the inputs that do not change. */
  class Engine {
    const store: SharedStore
    const local: LocalManifest
    const disk: Disk
    const sealer: Sealer
    const ctx: Context
    const files: seq<Path>
    const managed: Managed
    const sealedLen: Manifest -> nat

    constructor (store: SharedStore, local: LocalManifest, disk: Disk, sealer: Sealer, ctx: Context, files: seq<Path>,
        managed: Managed, sealedLen: Manifest -> nat)
      ensures this.store == store && this.local == local && this.disk == disk && this.sealer == sealer
      ensures this.ctx == ctx && this.files == files && this.managed == managed && this.sealedLen == sealedLen
    {
      this.store, this.local, this.disk, this.sealer := store, local, disk, sealer;
      this.ctx, this.files, this.managed, this.sealedLen := ctx, files, managed, sealedLen;
    }

    /** The files are distinct and are the managed paths. */
    ghost predicate Valid() {
      Names.Distinct(files) && forall p :: p in files <==> p in managed
    }

    function State(): Replica
      reads local, disk
    {
      Replica(local.Value(), disk.files, disk.sidecars)
    }

    // ---- scanning -----------------------------------------------------------------------------

    /** The blobs of a staged path are the ones its entry was sealed with. */
    static predicate StagedWell(s: PendingPush) {
      && s.header == SealHeader(s.entry.blobId, s.path, s.entry.aadVersion)
      && s.body == Body(s.header, s.entry.contentHash.preimage)
    }

    /** One file of the scan. */
    method ScanFile(p: Path) returns (r: Result<Option<PendingPush>, SyncError>, ghost id: BlobId)
      modifies local`entries, sealer
      ensures r.Ok? ==> local.entries == Update(old(local.entries), p,
        ScanPath(Lookup(old(local.entries), p), Lookup(disk.files, p), local.clock, ctx.device, id))
      ensures r.Ok? ==> (r.value.Some? <==> NeedsSeal(Lookup(old(local.entries), p), Lookup(disk.files, p)))
      ensures r.Ok? && r.value.Some? ==> r.value.value.path == p && StagedWell(r.value.value)
      ensures r.Ok? && r.value.Some? ==> Lookup(local.entries, p) == Some(r.value.value.entry)
      ensures r.Ok? && r.value.Some? ==> old(sealer.tape) == [id] + sealer.tape && r.value.value.entry.blobId == id
      ensures r.Ok? && r.value.None? ==> sealer.tape == old(sealer.tape)
      ensures r.Err? ==> NeedsSeal(Lookup(old(local.entries), p), Lookup(disk.files, p)) && old(sealer.tape) == sealer.tape
      ensures r.Err? ==> r.error == Crypto && sealer.tape == []
    {
      id := 0;
      var prev := Lookup(local.entries, p);
      if p in disk.files {
        var f := disk.files[p];
        if prev.Some? && Sha256(f.bytes) == prev.value.contentHash && !prev.value.deleted {
          return Ok(None), id;
        }
        var clock := if prev.Some? then Bump(prev.value.clock, ctx.device) else Bump(local.clock, ctx.device);
        var version: u64 := if prev.Some? then SaturatingInc(prev.value.aadVersion) else 1;
        var drawn := sealer.Draw();
        if drawn.Err? { return Err(drawn.error), id; }
        id := drawn.value;
        var entry := SealedEntry(drawn.value, version, clock, f.bytes, f.modified);
        local.entries := local.entries[p := entry];
        return Ok(Some(PendingPush(p, entry, SealHeader(drawn.value, p, version), SealBody(drawn.value, p, version, f.bytes)))), id;
      }
      if prev.Some? && !prev.value.deleted {
        var t := prev.value;
        local.entries := local.entries[p := t.(deleted := true, clock := Bump(t.clock, ctx.device))];
      }
      return Ok(None), id;
    }

    static function PathsOf(staged: seq<PendingPush>): seq<Path> {
      seq(|staged|, i requires 0 <= i < |staged| => staged[i].path)
    }

    method ScanLocal() returns (r: Result<seq<PendingPush>, SyncError>, ghost ids: map<Path, BlobId>)
      requires Valid()
      modifies local, sealer
      ensures r.Ok? ==> State() == ScanAll(old(State()), managed, ctx.device, ids)
      ensures r.Ok? ==> forall p :: p in Staged(old(State()), managed) <==> p in PathsOf(r.value)
      ensures r.Ok? ==> forall s | s in r.value :: StagedWell(s) && Lookup(local.entries, s.path) == Some(s.entry)
      ensures r.Ok? ==> forall s | s in r.value :: s.entry.blobId in IdsOf(old(sealer.tape))
      ensures r.Ok? ==> Drawn(old(sealer.tape), sealer.tape, |Staged(old(State()), managed)|)
      ensures r.Ok? <==> |Staged(old(State()), managed)| <= |old(sealer.tape)|
      ensures r.Err? ==> r.error == Crypto && sealer.tape == []
    {
      hide ScanPath, NeedsSeal, StagedWell, ScannedEntry, ScanAll, Valid, Staged, Drawn, StagedSoFar;
      var staged := [];
      ids := map[];
      ghost var w := State();
      NothingDrawn(sealer.tape);
      NothingStaged(w);
      for k := 0 to |files|
        invariant State() == w.(local := w.local.(entries := local.entries))
        invariant forall p :: (Lookup(local.entries, p) ==
          if p in files[..k] then ScannedEntry(w, managed, ctx.device, ids, p) else Lookup(w.local.entries, p))
        invariant forall s | s in staged :: StagedWell(s) && s.path in files[..k] && Lookup(local.entries, s.path) == Some(s.entry)
        invariant StagedSoFar(w, k, PathsOf(staged))
        invariant forall s | s in staged :: s.entry.blobId in IdsOf(old(sealer.tape))
        invariant Drawn(old(sealer.tape), sealer.tape, |staged|)
      {
        var p := files[k];
        NotYet(k);
        ghost var tape := sealer.tape;
        var one, id := ScanFile(p);
        StagedNext(w, k, PathsOf(staged));
        if one.Err? { NoneLeft(old(sealer.tape), tape, |staged|); return Err(one.error), ids; }
        ScannedNext(w, ids, p, id);
        ids := ids[p := id];
        if one.value.Some? {
          DrawnNext(old(sealer.tape), tape, |staged|, id, sealer.tape);
          assert PathsOf(staged + [one.value.value]) == PathsOf(staged) + [p];
          staged := staged + [one.value.value];
        }
      }
      assert files[..|files|] == files;
      FilesAreManaged();
      ScannedWhole(w, ids);
      StagedWhole(w, PathsOf(staged));
      DrawnWithin(old(sealer.tape), sealer.tape, |staged|);
      r := Ok(staged);
    }

    /** `n` ids have been drawn. */
    static ghost predicate Drawn(tape: seq<BlobId>, left: seq<BlobId>, n: nat) {
      n <= |tape| && tape[n..] == left
    }

    static lemma NothingDrawn(tape: seq<BlobId>)
      ensures Drawn(tape, tape, 0)
    {}

    static lemma DrawnNext(tape: seq<BlobId>, left: seq<BlobId>, n: nat, id: BlobId, left2: seq<BlobId>)
      requires Drawn(tape, left, n) && left == [id] + left2
      ensures Drawn(tape, left2, n + 1) && id in IdsOf(tape)
    {
      assert tape[n] == left[0] == id;
      assert tape[n + 1..] == tape[n..][1..] == left[1..] == left2;
    }

    static lemma NoneLeft(tape: seq<BlobId>, left: seq<BlobId>, n: nat)
      requires Drawn(tape, left, n) && left == []
      ensures |tape| == n
    {}

    static lemma DrawnWithin(tape: seq<BlobId>, left: seq<BlobId>, n: nat)
      requires Drawn(tape, left, n)
      ensures n <= |tape| && |left| == |tape| - n && tape[|tape| - |left|..] == left
    {}

    /** The paths staged of the first `k` files, each once. */
    ghost predicate StagedSoFar(w: Replica, k: nat, paths: seq<Path>) {
      && k <= |files|
      && (forall p :: p in paths <==> p in files[..k] && NeedsSeal(Lookup(w.local.entries, p), Lookup(w.disk, p)))
      && |set p | p in paths| == |paths|
    }

    lemma NothingStaged(w: Replica)
      ensures StagedSoFar(w, 0, PathsOf([]))
    {
      assert (set p | p in PathsOf([])) == {};
    }

    /** One file more, staged if it is to be sealed. */
    lemma StagedNext(w: Replica, k: nat, paths: seq<Path>)
      requires StagedSoFar(w, k, paths) && Valid() && k < |files|
      ensures var p := files[k];
        if NeedsSeal(Lookup(w.local.entries, p), Lookup(w.disk, p))
        then StagedSoFar(w, k + 1, paths + [p]) && |paths| < |Staged(w, managed)|
        else StagedSoFar(w, k + 1, paths)
    {
      hide NeedsSeal, Valid, Staged, Lookup;
      var p := files[k];
      NotYet(k);
      if NeedsSeal(Lookup(w.local.entries, p), Lookup(w.disk, p)) {
        assert p !in paths;
        OnePathMore(paths, p);
        StagedAmong(w, k + 1, paths + [p]);
      }
    }

    static lemma OnePathMore(paths: seq<Path>, p: Path)
      requires p !in paths
      ensures |set q | q in paths + [p]| == |set q | q in paths| + 1
    {
      assert (set q | q in paths + [p]) == (set q | q in paths) + {p};
    }

    lemma StagedAmong(w: Replica, k: nat, paths: seq<Path>)
      requires StagedSoFar(w, k, paths) && Valid()
      ensures |paths| <= |Staged(w, managed)|
    {
      FilesAreManaged();
      hide NeedsSeal, Valid, Lookup;
      forall p | p in paths ensures p in files {}
      var all := set p | p in paths;
      assert all <= Staged(w, managed);
      Fewer(all, Staged(w, managed));
    }

    static lemma Fewer(a: set<Path>, b: set<Path>)
      requires a <= b
      ensures |a| <= |b|
    {
      assert b == a + (b - a);
    }

    lemma StagedWhole(w: Replica, paths: seq<Path>)
      requires StagedSoFar(w, |files|, paths) && Valid()
      ensures |Staged(w, managed)| == |paths|
      ensures forall p :: p in Staged(w, managed) <==> p in paths
    {
      assert files[..|files|] == files;
      FilesAreManaged();
      hide NeedsSeal, Valid;
      assert (set p | p in paths) == Staged(w, managed);
    }

    lemma FilesAreManaged()
      requires Valid()
      ensures forall p :: p in files <==> p in managed
    {}

    lemma NotYet(k: nat)
      requires Valid() && k < |files|
      ensures files[k] in managed && files[k] !in files[..k]
      ensures files[..k + 1] == files[..k] + [files[k]]
    {
      assert files[k] in files;
    }

    lemma ScannedNext(w: Replica, ids: map<Path, BlobId>, p: Path, id: BlobId)
      requires p in managed
      ensures ScannedEntry(w, managed, ctx.device, ids[p := id], p)
        == ScanPath(Lookup(w.local.entries, p), Lookup(w.disk, p), w.local.clock, ctx.device, id)
      ensures forall q | q != p :: ScannedEntry(w, managed, ctx.device, ids[p := id], q) == ScannedEntry(w, managed, ctx.device, ids, q)
    {}

    lemma ScannedWhole(w: Replica, ids: map<Path, BlobId>)
      requires Valid()
      requires State() == w.(local := w.local.(entries := local.entries))
      requires forall p :: (Lookup(local.entries, p) ==
        if p in files then ScannedEntry(w, managed, ctx.device, ids, p) else Lookup(w.local.entries, p))
      ensures State() == ScanAll(w, managed, ctx.device, ids)
    {
      forall p ensures Lookup(local.entries, p) == Lookup(ScanAll(w, managed, ctx.device, ids).local.entries, p) {
        ScanAllAt(w, managed, ctx.device, ids, p);
      }
      SameLookups(local.entries, ScanAll(w, managed, ctx.device, ids).local.entries);
    }

    /** A scan introduces no blob beyond the staged ones. */
    lemma ScannedBlobs(w: Replica, ids: map<Path, BlobId>)
      ensures var scanned := ScanAll(w, managed, ctx.device, ids);
        forall p | p in scanned.local.entries :: (p, scanned.local.entries[p].blobId) in NamedBy(w.local) || p in Staged(w, managed)
    {
      var scanned := ScanAll(w, managed, ctx.device, ids);
      forall p | p in scanned.local.entries
        ensures (p, scanned.local.entries[p].blobId) in NamedBy(w.local) || p in Staged(w, managed)
      {
        ScanAllAt(w, managed, ctx.device, ids, p);
      }
    }

    // ---- blobs ----------------------------------------------------------------------------------

    static ghost function BlobPuts(header: Header, body: Body): seq<Written> {
      [Written(HeaderKey(header.id), HeaderObject(header), None), Written(BodyKey(header.id), BodyObject(body), None)]
    }

    method PutBlobs(header: Header, body: Body)
      modifies store, store.inner
      ensures Evolves(old(store.Objects()), store.Objects())
      ensures old(store.schedule) == [] ==> Beside(old(store.Objects()), store.Objects(), {header.id})
      ensures store.written == old(store.written) + BlobPuts(header, body)
      ensures old(store.schedule) == [] ==> store.schedule == [] && ManifestCount(store.Objects()) == ManifestCount(old(store.Objects()))
    {
      ghost var first := store.Objects();
      var r, before := store.Put(HeaderKey(header.id), HeaderObject(header), None);
      PutEvolves(before, HeaderKey(header.id), HeaderObject(header));
      ghost var second := store.Objects();
      EvolvesTransitive(first, before, second);
      r, before := store.Put(BodyKey(header.id), BodyObject(body), None);
      PutEvolves(before, BodyKey(header.id), BodyObject(body));
      EvolvesTransitive(first, second, before);
      EvolvesTransitive(first, before, store.Objects());
    }

    /** Uploads every staged blob, and records the entries again. */
    method Upload(staged: seq<PendingPush>, ghost ids: set<BlobId>) returns (pushed: seq<Path>)
      requires forall s | s in staged :: StagedWell(s) && Lookup(local.entries, s.path) == Some(s.entry)
      requires forall s | s in staged :: s.entry.blobId in ids
      modifies local`entries, store, store.inner
      ensures local.entries == old(local.entries)
      ensures pushed == PathsOf(staged)
      ensures Evolves(old(store.Objects()), store.Objects())
      ensures OnlyBlobs(old(store.written), store.written)
      ensures forall s | s in staged :: Backed(store.written, s.path, s.entry)
      ensures old(store.schedule) == [] ==> Beside(old(store.Objects()), store.Objects(), ids)
      ensures old(store.schedule) == [] ==> store.schedule == [] && ManifestCount(store.Objects()) == ManifestCount(old(store.Objects()))
    {
      hide Evolves, Beside;
      StillThere(store.Objects());
      BesideNothing(store.Objects(), ids);
      for k := 0 to |staged|
        modifies store, store.inner
        invariant old(store.schedule) == [] ==> Beside(old(store.Objects()), store.Objects(), ids)
        invariant Evolves(old(store.Objects()), store.Objects())
        invariant OnlyBlobs(old(store.written), store.written)
        invariant forall s | s in staged[..k] :: Backed(store.written, s.path, s.entry)
        invariant old(store.schedule) == [] ==> store.schedule == [] && ManifestCount(store.Objects()) == ManifestCount(old(store.Objects()))
      {
        var s := staged[k];
        assert s in staged;
        ghost var before := store.Objects();
        PutBlobs(s.header, s.body);
        if old(store.schedule) == [] { BesideOneMore(old(store.Objects()), before, ids, s.header.id, store.Objects()); }
        EvolvesTransitive(old(store.Objects()), before, store.Objects());
        assert staged[..k + 1] == staged[..k] + [s];
      }
      pushed := [];
      for k := 0 to |staged|
        modifies local`entries
        invariant local.entries == old(local.entries)
        invariant pushed == PathsOf(staged[..k])
      {
        assert staged[k] in staged;
        local.entries := local.entries[staged[k].path := staged[k].entry];
        assert PathsOf(staged[..k + 1]) == PathsOf(staged[..k]) + [staged[k].path];
        pushed := pushed + [staged[k].path];
      }
      assert staged[..|staged|] == staged;
    }

    lemma StillThere(objects: Objects)
      ensures Evolves(objects, objects)
    {}

    /** `between` is the content of the store at the first read. */
    method GetBlobs(id: BlobId) returns (r: Result<(Object, Object), SyncError>, ghost between: Objects)
      modifies store`schedule, store.inner
      ensures Evolves(old(store.Objects()), store.Objects())
      ensures Evolves(old(store.Objects()), between) && Evolves(between, store.Objects())
      ensures old(store.schedule) == [] ==> store.schedule == [] && between == store.Objects() == old(store.Objects())
      ensures r == ReadInTurn(between, store.Objects(), id)
    {
      ghost var first := store.Objects();
      var header := store.Get(HeaderKey(id));
      between := store.Objects();
      StillThere(between);
      if header.Err? { return Err(Storage(header.error)), between; }
      var body := store.Get(BodyKey(id));
      EvolvesTransitive(first, between, store.Objects());
      if body.Err? { return Err(Storage(body.error)), between; }
      return Ok((header.value, body.value)), between;
    }

    /** Fetches, authenticates and opens the content of a remote entry. */
    method FetchContent(p: Path, e: Entry) returns (r: Result<Bytes, SyncError>)
      modifies store`schedule, store.inner
      ensures Evolves(old(store.Objects()), store.Objects())
      ensures r.Ok? ==> r.value == e.contentHash.preimage && |r.value| == e.size
      ensures old(store.schedule) == [] ==> store.schedule == [] && store.Objects() == old(store.Objects())
      ensures old(store.schedule) == [] ==> r == FetchBlob(old(store.Objects()), p, e)
    {
      var blobs, _ := GetBlobs(e.blobId);
      if blobs.Err? { return Err(blobs.error); }
      r := OpenPair(blobs.value.0, blobs.value.1, p, e);
    }

    /** Whatever was fetched, what reaches the disk is the content the entry names. */
    method VerifyAndWrite(p: Path, r: Entry, header: Object, body: Object) returns (res: Result<(), SyncError>)
      modifies local`entries, disk`files
      ensures res.Ok? <==> OpenPair(header, body, p, r).Ok?
      ensures res.Ok? ==> State() == With(old(State()), p, Pulled(At(old(State()), p), r, ctx.now))
      ensures res.Err? ==> State() == old(State())
    {
      var content := OpenPair(header, body, p, r);
      if content.Err? { return Err(content.error); }
      disk.Write(p, content.value, ctx.now);
      local.entries := local.entries[p := r];
      SameWith(old(State()), p, Pulled(At(old(State()), p), r, ctx.now), State());
      return Ok(());
    }

    method RemoveFile(p: Path, t: Entry)
      modifies local`entries, disk`files
      ensures State() == With(old(State()), p, Removed(At(old(State()), p), t))
    {
      disk.Remove(p);
      local.entries := local.entries[p := t];
      SameWith(old(State()), p, Removed(At(old(State()), p), t), State());
    }

    lemma SameWith(w: Replica, p: Path, s: PathState, after: Replica)
      requires after.local == w.local.(entries := after.local.entries, resolutions := after.local.resolutions)
      requires after.local.entries == Update(w.local.entries, p, s.entry)
      requires after.local.resolutions == w.local.resolutions && s.record == At(w, p).record
      requires after.disk == Update(w.disk, p, s.file)
      requires after.sidecars == w.sidecars && s.sidecar == At(w, p).sidecar
      ensures after == With(w, p, s)
    {
      assert Update(w.local.resolutions, p, Lookup(w.local.resolutions, p)) == w.local.resolutions;
      assert Update(w.sidecars, p, Lookup(w.sidecars, p)) == w.sidecars;
    }

    lemma UpdateSame<K, V>(m: map<K, V>, k: K)
      ensures Update(m, k, Lookup(m, k)) == m
    {}

    lemma WithTwice(w: Replica, p: Path, s: PathState, t: PathState)
      ensures With(With(w, p, s), p, t) == With(w, p, t)
    {
      assert Update(Update(w.local.entries, p, s.entry), p, t.entry) == Update(w.local.entries, p, t.entry);
      assert Update(Update(w.local.resolutions, p, s.record), p, t.record) == Update(w.local.resolutions, p, t.record);
      assert Update(Update(w.disk, p, s.file), p, t.file) == Update(w.disk, p, t.file);
      assert Update(Update(w.sidecars, p, s.sidecar), p, t.sidecar) == Update(w.sidecars, p, t.sidecar);
    }

    // ---- conflicts --------------------------------------------------------------------------------

    method NoteResolution(p: Path, record: ResolutionRecord)
      modifies local`resolutions
      ensures State() == With(old(State()), p, At(old(State()), p).(record := Some(record)))
    {
      local.resolutions := local.resolutions[p := record];
      UpdateSame(local.entries, p);
      UpdateSame(disk.files, p);
      UpdateSame(disk.sidecars, p);
    }

    /** A conflict on a managed path whose local version is sealed again. */
    predicate Seals(op: DiffOp) {
      op.path in managed && UsesFreshId(ctx, managed[op.path], op)
    }

    /** If it is a conflict here, the resolver answers it. */
    predicate Answered(op: DiffOp) {
      op.path in managed && op.Conflicting? ==> Resolve(Conflict(op.path, op.local, op.remote), managed[op.path], ctx.resolver).Ok?
    }

    /** If the operation reads the remote's content, it is there and opens. */
    predicate Available(objects: Objects, op: DiffOp) {
      op.path in managed && Reads(ctx, managed[op.path], op, false) ==> FetchBlob(objects, op.path, op.remote).Ok?
    }

    /** What the operation needs to go through, with these files and ids at hand. */
    predicate Goes(objects: Objects, op: DiffOp, files: map<Path, File>, tape: seq<BlobId>) {
      Answered(op) && Available(objects, op) && (Seals(op) ==> op.path in files && tape != [])
    }

    predicate GoesOn(objects: Objects, op: DiffOp, files: map<Path, File>, tape: seq<BlobId>) {
      op.Conflicting? ==> Goes(objects, op, files, tape)
    }

    /** What it leaves of the store and of the ids, without other clients. */
    ghost predicate Took(before: Objects, tape: seq<BlobId>, after: Objects, left: seq<BlobId>, op: DiffOp) {
      && Quietly(before, tape, after, left)
      && |left| == |tape| - if Seals(op) then 1 else 0
    }

    /** The remote version won: its content replaces the file. */
    method TakeRemote(p: Path, r: Entry) returns (res: Result<(), SyncError>)
      modifies local`entries, disk`files, store`schedule, store.inner
      ensures old(store.schedule) == [] ==> store.Objects() == old(store.Objects())
      ensures old(store.schedule) == [] ==> (res.Ok? <==> FetchBlob(old(store.Objects()), p, r).Ok?)
      ensures res.Err? ==> Unreadable(old(store.Objects()), store.Objects(), p, r)
      ensures Evolves(old(store.Objects()), store.Objects())
      ensures res.Ok? ==> State() == With(old(State()), p, Pulled(At(old(State()), p), r, ctx.now))
      ensures old(store.schedule) == [] ==> store.schedule == [] && ManifestCount(store.Objects()) == ManifestCount(old(store.Objects()))
    {
      hide Evolves;
      var blobs;
      ghost var between;
      blobs, between := GetBlobs(r.blobId);
      StillThere(store.Objects());
      assert Between(old(store.Objects()), between, store.Objects(), store.Objects());
      if blobs.Err? { return Err(blobs.error); }
      res := VerifyAndWrite(p, r, blobs.value.0, blobs.value.1);
    }

    function ResealedState(policy: Policy, s: PathState, f: File, l: Entry, r: Entry, id: BlobId): PathState {
      s.(entry := Some(SealedEntry(id, SaturatingInc(l.aadVersion), After(l, r, ctx.device), f.bytes, f.modified)),
         sidecar := if policy.Manual? then Some(r.contentHash.preimage) else s.sidecar)
    }

    /** The local version won: under the Manual policy the remote one is written beside it. */
    method Reseal(p: Path, l: Entry, r: Entry) returns (res: Result<(), SyncError>, ghost id: BlobId)
      requires p in managed
      modifies local`entries, disk`sidecars, sealer, store, store.inner
      ensures Evolves(old(store.Objects()), store.Objects())
      ensures OnlyBlobs(old(store.written), store.written)
      ensures res.Ok? ==> p in disk.files
      ensures res.Ok? ==> State() == With(old(State()), p, ResealedState(managed[p], At(old(State()), p), disk.files[p], l, r, id))
      ensures res.Ok? ==> p in local.entries && Backed(store.written, p, local.entries[p])
      ensures old(store.schedule) == [] ==> store.schedule == [] && ManifestCount(store.Objects()) == ManifestCount(old(store.Objects()))
      ensures old(store.schedule) == [] ==>
        (res.Ok? <==>
          && p in disk.files && old(sealer.tape) != []
          && (managed[p].Manual? ==> FetchBlob(old(store.Objects()), p, r).Ok?))
      ensures old(store.schedule) == [] && res.Ok? ==> old(sealer.tape) == [id] + sealer.tape && Beside(old(store.Objects()), store.Objects(), {id})
    {
      hide Beside, FetchBlob, Evolves;
      id := 0;
      ghost var first := store.Objects();
      StillThere(first);
      if managed[p].Manual? {
        var remote := FetchContent(p, r);
        if remote.Err? { return Err(remote.error), id; }
        disk.WriteRemoteCopy(p, remote.value);
      }
      if p !in disk.files { return Err(Io), id; }
      var drawn := sealer.Draw();
      if drawn.Err? { return Err(drawn.error), id; }
      id := drawn.value;
      var f := disk.files[p];
      var version := SaturatingInc(l.aadVersion);
      var entry := SealedEntry(drawn.value, version, After(l, r, ctx.device), f.bytes, f.modified);
      ghost var second := store.Objects();
      PutBlobs(SealHeader(drawn.value, p, version), SealBody(drawn.value, p, version, f.bytes));
      EvolvesTransitive(first, second, store.Objects());
      local.entries := local.entries[p := entry];
      UpdateSame(local.resolutions, p);
      UpdateSame(disk.files, p);
      UpdateSame(old(disk.sidecars), p);
      return Ok(()), id;
    }

    /** One conflict of the first diff on a path this device manages. */
    method SettleConflict(p: Path, l: Entry, r: Entry) returns (res: Result<Settled, SyncError>, ghost id: BlobId)
      requires p in managed
      modifies local`entries, local`resolutions, disk, sealer, store, store.inner
      ensures Evolves(old(store.Objects()), store.Objects())
      ensures OnlyBlobs(old(store.written), store.written)
      ensures old(store.schedule) == [] ==> store.schedule == [] && ManifestCount(store.Objects()) == ManifestCount(old(store.Objects()))
      ensures res.Ok? ==> var resolution := Resolve(Conflict(p, l, r), managed[p], ctx.resolver);
        resolution.Ok? && res.value == EndOf(resolution.value, r)
      ensures res.Ok? ==> var outcome := ApplyPath(ctx, managed[p], Conflicting(p, l, r), old(local.version), At(old(State()), p), id);
        if res.value.Halted? then outcome.Stopped? && State() == old(State())
        else outcome.Applied? && State() == With(old(State()), p, outcome.state)
      ensures res.Ok? && res.value.Resealed? ==> p in local.entries && Backed(store.written, p, local.entries[p])
      ensures old(store.schedule) == [] ==>
        (res.Ok? <==> Goes(old(store.Objects()), Conflicting(p, l, r), old(disk.files), old(sealer.tape)))
      ensures old(store.schedule) == [] && res.Ok? ==>
        Took(old(store.Objects()), old(sealer.tape), store.Objects(), sealer.tape, Conflicting(p, l, r))
    {
      hide With, Resolve, Backed, FetchBlob, Quietly, Beside;
      id := 0;
      ghost var was := State();
      ghost var s := At(was, p);
      StillThere(store.Objects());
      QuietlyStarts(store.Objects(), sealer.tape);
      var resolution := Resolve(Conflict(p, l, r), managed[p], ctx.resolver);
      if resolution.Err? { return Err(resolution.error), id; }
      if resolution.value.Aborted? { return Ok(Halted), id; }
      var chosen := resolution.value.chosen;
      var record := MakeRecord(resolution.value, local.version).value;
      ghost var settled;
      if chosen.deleted {
        res := Ok(Deleted);
        RemoveFile(p, chosen.(clock := After(l, r, ctx.device)));
        settled := Removed(s, chosen.(clock := After(l, r, ctx.device)));
      } else if chosen.blobId == r.blobId {
        res := Ok(TookRemote);
        var taken := TakeRemote(p, r);
        if taken.Err? { return Err(taken.error), id; }
        settled := Pulled(s, r, ctx.now);
      } else {
        res := Ok(Resealed);
        var kept, sealed := Reseal(p, l, r);
        id := sealed;
        if kept.Err? { return Err(kept.error), id; }
        settled := ResealedState(managed[p], s, disk.files[p], l, r, id);
        if old(store.schedule) == [] { OneDrawn(old(store.Objects()), old(sealer.tape), store.Objects(), id, sealer.tape); }
      }
      assert State() == With(was, p, settled);
      WithAt(was, p, settled, p);
      NoteResolution(p, record);
      WithTwice(was, p, settled, settled.(record := Some(record)));
    }

    // ---- applying the first diff ------------------------------------------------------------------

    predicate Ends(op: DiffOp, how: Settled)
      requires op.Conflicting? && op.path in managed
    {
      var resolution := Resolve(Conflict(op.path, op.local, op.remote), managed[op.path], ctx.resolver);
      resolution.Ok? && EndOf(resolution.value, op.remote) == how
    }

    predicate Lists(kind: Kind, op: DiffOp) {
      op.path in managed && match kind
        case Pulls => op.PullLocal?
        case Conflicts => op.Conflicting?
        case Taken => op.Conflicting? && Ends(op, TookRemote)
        case Pushed => op.Conflicting? && (Ends(op, Deleted) || Ends(op, Resealed))
    }

    /** The paths of one kind, in the order of the operations. */
    function Of(kind: Kind, ops: seq<DiffOp>): seq<Path> {
      if ops == [] then []
      else
        var last := ops[|ops| - 1];
        Of(kind, ops[..|ops| - 1]) + if Lists(kind, last) then [last.path] else []
    }

    lemma OfNext(kind: Kind, ops: seq<DiffOp>, k: nat)
      requires k < |ops|
      ensures Of(kind, ops[..k + 1]) == Of(kind, ops[..k]) + if Lists(kind, ops[k]) then [ops[k].path] else []
    {
      assert ops[..k + 1][..k] == ops[..k];
    }

    lemma {:induction false} OfContains(kind: Kind, ops: seq<DiffOp>, p: Path)
      ensures p in Of(kind, ops) <==> exists i | 0 <= i < |ops| :: ops[i].path == p && Lists(kind, ops[i])
    {
      hide Lists;
      if ops != [] {
        var n := |ops| - 1;
        var front := ops[..n];
        OfContains(kind, front, p);
        if i :| 0 <= i < |ops| && ops[i].path == p && Lists(kind, ops[i]) {
          if i < n { assert front[i] == ops[i]; }
        }
      }
    }

    /** Fetches the blobs of every pull before any is applied. */
    method FetchPulls(ops: seq<DiffOp>) returns (res: Result<seq<Fetched>, SyncError>)
      modifies store`schedule, store.inner
      ensures Evolves(old(store.Objects()), store.Objects())
      ensures old(store.schedule) == [] ==> store.schedule == [] && ManifestCount(store.Objects()) == ManifestCount(old(store.Objects()))
      ensures res.Ok? ==> PathsFetched(res.value) == Of(Pulls, ops)
      ensures res.Ok? ==> forall f | f in res.value :: PullLocal(f.path, f.remote) in ops && f.path in managed
      ensures old(store.schedule) == [] ==> store.Objects() == old(store.Objects())
      ensures old(store.schedule) == [] && res.Ok? ==>
        && (forall f | f in res.value :: AsServed(store.Objects(), f))
        && (forall op | op in ops && op.PullLocal? && op.path in managed :: IsFetched(res.value, op))
      ensures old(store.schedule) == [] && res.Err? ==> !PullsGo(store.Objects(), ops)
    {
      hide Evolves, FetchBlob, OpenPair, Available, PullsGo;
      var fetched := [];
      StillThere(store.Objects());
      for k := 0 to |ops|
        invariant Evolves(old(store.Objects()), store.Objects())
        invariant old(store.schedule) == [] ==> store.schedule == [] && ManifestCount(store.Objects()) == ManifestCount(old(store.Objects()))
        invariant PathsFetched(fetched) == Of(Pulls, ops[..k])
        invariant forall f | f in fetched :: PullLocal(f.path, f.remote) in ops && f.path in managed
        invariant old(store.schedule) == [] ==>
          && store.Objects() == old(store.Objects())
          && (forall f | f in fetched :: AsServed(store.Objects(), f))
          && (forall op | op in ops[..k] && op.PullLocal? && op.path in managed :: IsFetched(fetched, op))
      {
        var op := ops[k];
        OfNext(Pulls, ops, k);
        assert ops[..k + 1] == ops[..k] + [op];
        if op.PullLocal? && op.path in managed {
          ghost var before := store.Objects();
          var blobs, _ := GetBlobs(op.remote.blobId);
          EvolvesTransitive(old(store.Objects()), before, store.Objects());
          if blobs.Err? {
            if old(store.schedule) == [] { NotServed(before, ops, op); }
            return Err(blobs.error);
          }
          var one := Fetched(op.path, op.remote, blobs.value.0, blobs.value.1);
          if old(store.schedule) == [] { ServedPair(before, one); }
          FetchedGrows(fetched, one);
          assert PathsFetched(fetched + [one]) == PathsFetched(fetched) + [op.path];
          fetched := fetched + [one];
        }
      }
      assert ops[..|ops|] == ops;
      return Ok(fetched);
    }

    /** Opening the two blobs is what fetching the entry's content gives. */
    static predicate AsServed(objects: Objects, f: Fetched) {
      OpenPair(f.header, f.body, f.path, f.remote) == FetchBlob(objects, f.path, f.remote)
    }

    static ghost predicate IsFetched(fetched: seq<Fetched>, op: DiffOp)
      requires op.PullLocal?
    {
      exists f | f in fetched :: f.path == op.path && f.remote == op.remote
    }

    lemma FetchedGrows(fetched: seq<Fetched>, one: Fetched)
      ensures forall op: DiffOp | op.PullLocal? && IsFetched(fetched, op) :: IsFetched(fetched + [one], op)
      ensures forall op: DiffOp | op.PullLocal? && op.path == one.path && op.remote == one.remote :: IsFetched(fetched + [one], op)
    {
      assert one in fetched + [one];
      forall op: DiffOp | op.PullLocal? && IsFetched(fetched, op) ensures IsFetched(fetched + [one], op) {
        var f :| f in fetched && f.path == op.path && f.remote == op.remote;
        assert f in fetched + [one];
      }
    }

    /** Every pull of a managed path finds its content. */
    ghost predicate PullsGo(objects: Objects, ops: seq<DiffOp>) {
      forall op | op in ops && op.PullLocal? :: Available(objects, op)
    }

    lemma ServedPair(objects: Objects, f: Fetched)
      requires HeaderKey(f.remote.blobId) in objects && BodyKey(f.remote.blobId) in objects
      requires f.header == objects[HeaderKey(f.remote.blobId)].data && f.body == objects[BodyKey(f.remote.blobId)].data
      ensures AsServed(objects, f)
    {
      hide OpenPair;
    }

    lemma NotServed(objects: Objects, ops: seq<DiffOp>, op: DiffOp)
      requires op in ops && op.PullLocal? && op.path in managed
      requires HeaderKey(op.remote.blobId) !in objects || BodyKey(op.remote.blobId) !in objects
      ensures !PullsGo(objects, ops)
    {
      hide OpenPair;
      assert !Available(objects, op);
    }

    lemma OpenedPulls(objects: Objects, ops: seq<DiffOp>, fetched: seq<Fetched>)
      requires forall f | f in fetched :: AsServed(objects, f) && PullLocal(f.path, f.remote) in ops && f.path in managed
      requires forall op | op in ops && op.PullLocal? && op.path in managed :: IsFetched(fetched, op)
      ensures AllOpen(fetched) <==> PullsGo(objects, ops)
    {
      hide OpenPair, FetchBlob;
      if PullsGo(objects, ops) {
        forall f | f in fetched ensures Opens(f) { assert Available(objects, PullLocal(f.path, f.remote)); }
      }
      if AllOpen(fetched) {
        forall op | op in ops && op.PullLocal? ensures Available(objects, op) {
          if op.path in managed {
            var f :| f in fetched && f.path == op.path && f.remote == op.remote;
            assert AsServed(objects, f) && Opens(f);
          }
        }
      }
    }

    static predicate Opens(f: Fetched) {
      OpenPair(f.header, f.body, f.path, f.remote).Ok?
    }

    static ghost predicate AllOpen(fetched: seq<Fetched>) {
      forall f | f in fetched :: Opens(f)
    }

    static function PathsFetched(fetched: seq<Fetched>): seq<Path> {
      seq(|fetched|, i requires 0 <= i < |fetched| => fetched[i].path)
    }

    /** Writes what was fetched, one path after another. */
    method ApplyPulls(fetched: seq<Fetched>, ghost ops: seq<DiffOp>, ghost base: Manifest, ghost named: set<(Path, BlobId)>)
      returns (res: Result<seq<Path>, SyncError>)
      requires IsDiff(ops, local.entries, base.entries)
      requires forall f | f in fetched :: PullLocal(f.path, f.remote) in ops && f.path in managed
      requires Sourced(local.Value(), named, store.written) && NamedBy(base) <= named
      modifies local`entries, disk`files
      ensures res.Ok? ==> res.value == PathsFetched(fetched)
      ensures res.Ok? ==> Applying(State(), old(State()), managed, ctx, base, map[], set p | p in PathsFetched(fetched))
      ensures res.Ok? ==> Sourced(local.Value(), named, store.written)
      ensures res.Ok? <==> AllOpen(fetched)
    {
      hide Applying, Sourced, With, Classify, Opens;
      ghost var w := State();
      var pulled := [];
      ApplyingStarts(w, managed, ctx, base, map[]);
      ghost var done: set<Path> := {};
      for k := 0 to |fetched|
        invariant pulled == PathsFetched(fetched[..k])
        invariant done == set p | p in PathsFetched(fetched[..k])
        invariant Applying(State(), w, managed, ctx, base, map[], done)
        invariant Sourced(local.Value(), named, store.written)
        invariant AllOpen(fetched[..k])
      {
        var f := fetched[k];
        assert f in fetched;
        PullInDiff(ops, w.local.entries, base.entries, f);
        var written := PullOne(f, w, base, done, named);
        if written.Err? { return Err(written.error); }
        assert fetched[..k + 1] == fetched[..k] + [f];
        assert PathsFetched(fetched[..k + 1]) == PathsFetched(fetched[..k]) + [f.path];
        pulled := pulled + [f.path];
        done := done + {f.path};
      }
      assert fetched[..|fetched|] == fetched;
      return Ok(pulled);
    }

    lemma PullInDiff(ops: seq<DiffOp>, l: map<Path, Entry>, r: map<Path, Entry>, f: Fetched)
      requires IsDiff(ops, l, r) && PullLocal(f.path, f.remote) in ops
      ensures f.path in l || f.path in r
      ensures PullLocal(f.path, f.remote) == ClassifyAt(l, r, f.path)
      ensures Lookup(r, f.path) == Some(f.remote)
    {
      hide Classify;
      var i :| 0 <= i < |ops| && ops[i] == PullLocal(f.path, f.remote);
      PulledEntry(f.path, Lookup(l, f.path), Lookup(r, f.path));
    }

    method PullOne(f: Fetched, ghost w: Replica, ghost base: Manifest, ghost done: set<Path>, ghost named: set<(Path, BlobId)>)
      returns (res: Result<(), SyncError>)
      requires f.path in managed && Lookup(base.entries, f.path) == Some(f.remote)
      requires PullLocal(f.path, f.remote) == ClassifyAt(w.local.entries, base.entries, f.path)
      requires Applying(State(), w, managed, ctx, base, map[], done)
      requires Sourced(local.Value(), named, store.written) && NamedBy(base) <= named
      modifies local`entries, disk`files
      ensures res.Ok? ==> Applying(State(), w, managed, ctx, base, map[], done + {f.path})
      ensures res.Ok? ==> Sourced(local.Value(), named, store.written)
      ensures res.Ok? <==> Opens(f)
    {
      hide Applying, Sourced, With, Classify;
      ghost var s := State();
      res := VerifyAndWrite(f.path, f.remote, f.header, f.body);
      if res.Err? { return; }
      PullApplies(s, w, managed, ctx, base, map[], done, f.path, State());
      assert (f.path, f.remote.blobId) in NamedBy(base);
      WithEntries(s, f.path, Pulled(At(s, f.path), f.remote, ctx.now));
      SourcedUpdate(s.local, named, store.written, f.path, f.remote, local.Value());
    }

    lemma WithEntries(w: Replica, p: Path, s: PathState)
      ensures With(w, p, s).local.entries == Update(w.local.entries, p, s.entry)
    {}

    lemma PulledEntry(p: Path, l: Option<Entry>, r: Option<Entry>)
      requires l.Some? || r.Some?
      ensures Classify(p, l, r).path == p
      ensures IsPull(Classify(p, l, r)) ==> r == Some(Classify(p, l, r).remote)
      ensures Classify(p, l, r).Conflicting? ==> Classify(p, l, r) == Conflicting(p, l.value, r.value) && l.Some? && r.Some?
    {}

    /** Deletions and conflicts, one operation. */
    method ApplyOne(op: DiffOp, ghost w: Replica, ghost base: Manifest, ghost ids: map<Path, BlobId>, ghost done: set<Path>,
        ghost named: set<(Path, BlobId)>)
      returns (res: Result<Option<Settled>, SyncError>, ghost ids2: map<Path, BlobId>)
      requires op.path in w.local.entries || op.path in base.entries
      requires op == ClassifyAt(w.local.entries, base.entries, op.path)
      requires op.path in managed && op.PullLocal? ==> op.path in done
      requires op.Conflicting? ==> op.path !in done
      requires Applying(State(), w, managed, ctx, base, ids, done)
      requires Sourced(local.Value(), named, store.written) && NamedBy(base) <= named
      modifies local`entries, local`resolutions, disk, sealer, store, store.inner
      ensures Evolves(old(store.Objects()), store.Objects())
      ensures OnlyBlobs(old(store.written), store.written)
      ensures old(store.schedule) == [] ==> store.schedule == [] && ManifestCount(store.Objects()) == ManifestCount(old(store.Objects()))
      ensures res.Ok? ==> Sourced(local.Value(), named, store.written)
      ensures res.Ok? ==> if op.path in managed && op.Conflicting? then res.value.Some? && Ends(op, res.value.value) else res.value.None?
      ensures res.Ok? && res.value != Some(Halted) ==> Applying(State(), w, managed, ctx, base, ids2, done + {op.path})
      ensures res == Ok(Some(Halted)) ==> Applying(State(), w, managed, ctx, base, ids2, done)
      ensures old(store.schedule) == [] ==> (res.Ok? <==> GoesOn(old(store.Objects()), op, old(disk.files), old(sealer.tape)))
      ensures old(store.schedule) == [] && res.Ok? ==>
        Took(old(store.Objects()), old(sealer.tape), store.Objects(), sealer.tape, op)
    {
      hide Applying, Sourced, With, Classify, ApplyPath, Evolves, Goes, Took;
      ids2 := ids;
      StillThere(store.Objects());
      NothingTaken(store.Objects(), sealer.tape, op);
      PulledEntry(op.path, Lookup(w.local.entries, op.path), Lookup(base.entries, op.path));
      if op.path !in managed {
        IdleApplies(State(), w, managed, ctx, base, ids, done, op.path);
        return Ok(None), ids2;
      }
      if op.PullDeletion? {
        ghost var s := State();
        RemoveFile(op.path, op.remote);
        PullApplies(s, w, managed, ctx, base, ids, done, op.path, State());
        WithEntries(s, op.path, Removed(At(s, op.path), op.remote));
        assert (op.path, op.remote.blobId) in NamedBy(base);
        SourcedUpdate(s.local, named, store.written, op.path, op.remote, local.Value());
        return Ok(None), ids2;
      }
      if op.Conflicting? {
        var how;
        how, ids2 := ApplyConflict(op, w, base, ids, done, named);
        if how.Err? { return Err(how.error), ids2; }
        return Ok(Some(how.value)), ids2;
      }
      if op.PullLocal? {
        // Already handled.
        assert done + {op.path} == done;
      } else {
        IdleApplies(State(), w, managed, ctx, base, ids, done, op.path);
      }
      return Ok(None), ids2;
    }

    lemma NothingTaken(objects: Objects, tape: seq<BlobId>, op: DiffOp)
      ensures op.path !in managed || !op.Conflicting? ==> Took(objects, tape, objects, tape, op)
      ensures op.path !in managed || !op.Conflicting? ==> forall files :: GoesOn(objects, op, files, tape)
    {
      QuietlyStarts(objects, tape);
      hide Quietly;
    }

    method ApplyConflict(op: DiffOp, ghost w: Replica, ghost base: Manifest, ghost ids: map<Path, BlobId>, ghost done: set<Path>,
        ghost named: set<(Path, BlobId)>)
      returns (res: Result<Settled, SyncError>, ghost ids2: map<Path, BlobId>)
      requires op.path in w.local.entries && op.path in base.entries && op.Conflicting?
      requires op == ClassifyAt(w.local.entries, base.entries, op.path)
      requires op.local == w.local.entries[op.path] && op.remote == base.entries[op.path]
      requires op.path in managed && op.path !in done
      requires Applying(State(), w, managed, ctx, base, ids, done)
      requires Sourced(local.Value(), named, store.written) && NamedBy(base) <= named
      modifies local`entries, local`resolutions, disk, sealer, store, store.inner
      ensures Evolves(old(store.Objects()), store.Objects())
      ensures OnlyBlobs(old(store.written), store.written)
      ensures old(store.schedule) == [] ==> store.schedule == [] && ManifestCount(store.Objects()) == ManifestCount(old(store.Objects()))
      ensures res.Ok? ==> Sourced(local.Value(), named, store.written)
      ensures res.Ok? ==> Ends(op, res.value)
      ensures res.Ok? && !res.value.Halted? ==> Applying(State(), w, managed, ctx, base, ids2, done + {op.path})
      ensures res == Ok(Halted) ==> Applying(State(), w, managed, ctx, base, ids2, done)
      ensures old(store.schedule) == [] ==> (res.Ok? <==> Goes(old(store.Objects()), op, old(disk.files), old(sealer.tape)))
      ensures old(store.schedule) == [] && res.Ok? ==>
        Took(old(store.Objects()), old(sealer.tape), store.Objects(), sealer.tape, op)
    {
      hide Sourced, With, Classify, ApplyPath, Evolves, Resolve, Backed, Goes, Took;
      ids2 := ids;
      ghost var p, s := op.path, State();
      assert At(s, p) == At(w, p) && s.local.version == w.local.version;
      hide Applying, At;
      var how, id := SettleConflict(op.path, op.local, op.remote);
      if how.Err? { return Err(how.error), ids2; }
      if how.value.Halted? {
        SourcedGrows(s.local, named, old(store.written), named, store.written);
        return Ok(Halted), ids2;
      }
      ids2 := ids[p := id];
      ConflictApplies(s, w, managed, ctx, base, ids, done, p, id, State());
      SettledSource(s, w, op, id, named, old(store.written), store.written, State());
      return Ok(how.value), ids2;
    }

    lemma SettledSource(s: Replica, w: Replica, op: DiffOp, id: BlobId, named: set<(Path, BlobId)>, before: seq<Written>,
        after: seq<Written>, s2: Replica)
      requires op.Conflicting? && op.path in managed
      requires Sourced(s.local, named, before) && before <= after
      requires At(s, op.path).entry == Some(op.local)
      requires (op.path, op.remote.blobId) in named
      requires ApplyPath(ctx, managed[op.path], op, s.local.version, At(s, op.path), id).Applied?
      requires s2 == With(s, op.path, ApplyPath(ctx, managed[op.path], op, s.local.version, At(s, op.path), id).state)
      requires Ends(op, Resealed) ==> op.path in s2.local.entries && Backed(after, op.path, s2.local.entries[op.path])
      ensures Sourced(s2.local, named, after)
    {
      var p := op.path;
      var state := ApplyPath(ctx, managed[p], op, s.local.version, At(s, p), id).state;
      WithEntries(s, p, state);
      SourcedGrows(s.local, named, before, named, after);
      var resolution := Resolve(Conflict(op.path, op.local, op.remote), managed[p], ctx.resolver).value;
      var e := state.entry.value;
      assert e.blobId == op.remote.blobId || SameBlob(e, op.local) || EndOf(resolution, op.remote) == Resealed;
      hide ApplyPath, With, Resolve;
      if SameBlob(e, op.local) { assert Backed(after, p, op.local) ==> Backed(after, p, e); }
      SourcedUpdate(s.local, named, after, p, e, s2.local);
    }

    static predicate SameBlob(a: Entry, b: Entry) {
      a.blobId == b.blobId && a.aadVersion == b.aadVersion && a.contentHash == b.contentHash
    }

    static function PathSet(ops: seq<DiffOp>): set<Path> {
      set op | op in ops :: op.path
    }

    /** The pulls, and the first `k` operations. */
    function DoneAt(ops: seq<DiffOp>, k: nat): set<Path>
      requires k <= |ops|
    {
      (set p | p in Of(Pulls, ops)) + PathSet(ops[..k])
    }

    /** The report of the first `k` operations. */
    function ReportAt(ops: seq<DiffOp>, k: nat): Report
      requires k <= |ops|
    {
      Report(Of(Taken, ops[..k]), Of(Pushed, ops[..k]), Of(Conflicts, ops[..k]), false)
    }

    /**
     Where an abort leaves things: at the first conflict whose resolver stops the sync, with every pull
     and everything before that conflict done and reported.
     */
    ghost predicate StoppedAt(ops: seq<DiffOp>, k: nat, done: set<Path>, report: Report) {
      && k < |ops| && Stops(ops[k]) && (forall j | 0 <= j < k :: !Stops(ops[j]))
      && done == DoneAt(ops, k)
      && report == Report(Of(Pulls, ops) + Of(Taken, ops[..k]), [], Of(Conflicts, ops[..k]), true)
    }

    predicate Stops(op: DiffOp) {
      op.Conflicting? && op.path in managed && Ends(op, Halted)
    }

    /**
     Deletions and conflicts, in the order of the diff, until a resolver aborts. `upto` operations
     were completed.
     */
    method ApplyRest(ops: seq<DiffOp>, ghost w: Replica, ghost base: Manifest, ghost named: set<(Path, BlobId)>)
      returns (res: Result<Report, SyncError>, ghost ids: map<Path, BlobId>, ghost done: set<Path>, ghost upto: nat)
      requires IsDiff(ops, w.local.entries, base.entries)
      requires Applying(State(), w, managed, ctx, base, map[], set p | p in Of(Pulls, ops))
      requires Sourced(local.Value(), named, store.written) && NamedBy(base) <= named
      modifies local`entries, local`resolutions, disk, sealer, store, store.inner
      ensures Evolves(old(store.Objects()), store.Objects())
      ensures OnlyBlobs(old(store.written), store.written)
      ensures old(store.schedule) == [] ==> store.schedule == [] && ManifestCount(store.Objects()) == ManifestCount(old(store.Objects()))
      ensures res.Ok? ==> Sourced(local.Value(), named, store.written)
      ensures res.Ok? ==> upto <= |ops| && done == DoneAt(ops, upto)
      ensures res.Ok? ==> Applying(State(), w, managed, ctx, base, ids, done)
      ensures res.Ok? ==> res.value == ReportAt(ops, upto).(aborted := upto < |ops|)
      ensures res.Ok? && upto < |ops| ==> Stops(ops[upto])
      ensures res.Ok? ==> forall j | 0 <= j < upto :: !Stops(ops[j])
      ensures old(store.schedule) == [] && NewIds(old(sealer.tape), base) && AllAgree(w, managed) ==>
        (res.Ok? <==> RestGoes(ops, old(store.Objects()), |old(sealer.tape)|))
    {
      hide Applying, Sourced, Evolves, Ends, OnlyBlobs, IsDiff, ReportAt, DoneAt, Stops, AllAgree, NewIds, Passed, GoesOn, Took, RestGoes;
      ids, upto := map[], 0;
      NothingPassed(ops, store.Objects(), sealer.tape);
      ghost var quiet := old(store.schedule) == [] && NewIds(old(sealer.tape), base) && AllAgree(w, managed);
      var report := Report([], [], [], false);
      NothingDone(ops);
      done := DoneAt(ops, 0);
      StillThere(store.Objects());
      NothingPut(store.written);
      for k := 0 to |ops|
        invariant upto == k && done == DoneAt(ops, k)
        invariant Applying(State(), w, managed, ctx, base, ids, done)
        invariant Sourced(local.Value(), named, store.written)
        invariant Evolves(old(store.Objects()), store.Objects())
        invariant OnlyBlobs(old(store.written), store.written)
        invariant old(store.schedule) == [] ==> store.schedule == [] && ManifestCount(store.Objects()) == ManifestCount(old(store.Objects()))
        invariant report == ReportAt(ops, k) && !report.aborted
        invariant forall j | 0 <= j < k :: !Stops(ops[j])
        invariant quiet ==> store.schedule == [] && Passed(ops, k, old(store.Objects()), old(sealer.tape), store.Objects(), sealer.tape)
      {
        ghost var objects, written, tape := store.Objects(), store.written, sealer.tape;
        if quiet { PassesOrEnds(ops, k, State(), w, base, ids, old(store.Objects()), old(sealer.tape), objects, tape); }
        var next;
        next, ids := ApplyNext(ops, k, report, w, base, ids, named);
        if quiet && next.Ok? && !next.value.aborted {
          OneMorePassed(ops, k, old(store.Objects()), old(sealer.tape), objects, tape, store.Objects(), sealer.tape);
        }
        EvolvesTransitive(old(store.Objects()), objects, store.Objects());
        PutsFollow(old(store.written), written, store.written);
        if next.Err? { return Err(next.error), ids, done, upto; }
        report := next.value;
        if report.aborted { return Ok(report), ids, done, upto; }
        upto := k + 1;
        done := DoneAt(ops, upto);
      }
      if quiet { AllPassed(ops, old(store.Objects()), old(sealer.tape), store.Objects(), sealer.tape); }
      return Ok(report), ids, done, upto;
    }

    /** How many of the first `k` operations seal. */
    function SealCount(ops: seq<DiffOp>, k: nat): nat
      requires k <= |ops|
    {
      if k == 0 then 0 else SealCount(ops, k - 1) + if Seals(ops[k - 1]) then 1 else 0
    }

    /** The operation is no conflict, or one that is answered and finds the content it reads. */
    predicate Passes(objects: Objects, op: DiffOp) {
      op.Conflicting? ==> Answered(op) && Available(objects, op)
    }

    /** The first `k` operations pass without a stop, with ids for all they seal; then nothing is left, or a resolver stops. */
    ghost predicate GoesTo(ops: seq<DiffOp>, k: nat, objects: Objects, n: nat) {
      && k <= |ops|
      && (forall j | 0 <= j < k :: Passes(objects, ops[j]) && !Stops(ops[j]))
      && SealCount(ops, k) <= n
      && (k == |ops| || Stops(ops[k]))
    }

    /** Exactly when deletions and conflicts go through, with `n` ids at hand. */
    ghost predicate RestGoes(ops: seq<DiffOp>, objects: Objects, n: nat) {
      exists k: nat :: GoesTo(ops, k, objects, n)
    }

    /** From `first` and `tape` the first `k` operations have passed. */
    ghost predicate Passed(ops: seq<DiffOp>, k: nat, first: Objects, tape: seq<BlobId>, objects: Objects, left: seq<BlobId>) {
      && k <= |ops|
      && Quietly(first, tape, objects, left)
      && SealCount(ops, k) + |left| == |tape|
      && forall j | 0 <= j < k :: Passes(first, ops[j]) && !Stops(ops[j])
    }

    lemma NothingPassed(ops: seq<DiffOp>, objects: Objects, tape: seq<BlobId>)
      ensures Passed(ops, 0, objects, tape, objects, tape)
    {
      QuietlyStarts(objects, tape);
    }

    lemma AllPassed(ops: seq<DiffOp>, first: Objects, tape: seq<BlobId>, objects: Objects, left: seq<BlobId>)
      requires Passed(ops, |ops|, first, tape, objects, left)
      ensures RestGoes(ops, first, |tape|)
    {
      hide Passes, Stops, Quietly, Seals;
      assert GoesTo(ops, |ops|, first, |tape|);
    }

    lemma OneMorePassed(ops: seq<DiffOp>, k: nat, first: Objects, tape: seq<BlobId>, objects: Objects, left: seq<BlobId>,
        objects2: Objects, left2: seq<BlobId>)
      requires Passed(ops, k, first, tape, objects, left) && k < |ops|
      requires Passes(first, ops[k]) && !Stops(ops[k]) && Took(objects, left, objects2, left2, ops[k])
      ensures Passed(ops, k + 1, first, tape, objects2, left2)
    {
      QuietlyGoesOn(first, tape, objects, left, objects2, left2);
      hide Passes, Stops, Quietly, Seals;
    }

    lemma {:induction false} SealCountRises(ops: seq<DiffOp>, j: nat, k: nat)
      requires j <= k <= |ops|
      ensures SealCount(ops, j) <= SealCount(ops, k)
    {
      if j < k { SealCountRises(ops, j, k - 1); }
    }

    lemma StopsOrNot(objects: Objects, op: DiffOp)
      ensures Stops(op) ==> Passes(objects, op) && !Seals(op)
      ensures Seals(op) ==> op.Conflicting?
    {
      hide FetchBlob;
    }

    /** An operation that finds no content, no answer or no id ends it. */
    lemma NoWay(ops: seq<DiffOp>, k: nat, first: Objects, n: nat)
      requires k < |ops| && (forall j | 0 <= j < k :: !Stops(ops[j]))
      requires !Passes(first, ops[k]) || (Seals(ops[k]) && SealCount(ops, k) >= n)
      ensures !RestGoes(ops, first, n)
    {
      hide Passes, Stops, Seals;
      if m: nat :| GoesTo(ops, m, first, n) {
        if m <= k {
          assert m == k;
          StopsOrNot(first, ops[k]);
          assert false;
        } else {
          SealCountRises(ops, k + 1, m);
        }
      }
    }

    /** What becomes of the next operation, told from the store and the ids there were at first. */
    lemma PassesOrEnds(ops: seq<DiffOp>, k: nat, s: Replica, w: Replica, base: Manifest, ids: map<Path, BlobId>,
        first: Objects, tape: seq<BlobId>, objects: Objects, left: seq<BlobId>)
      requires IsDiff(ops, w.local.entries, base.entries) && k < |ops|
      requires Applying(s, w, managed, ctx, base, ids, DoneAt(ops, k)) && AllAgree(w, managed) && NewIds(tape, base)
      requires Passed(ops, k, first, tape, objects, left)
      ensures if !GoesOn(objects, ops[k], s.disk, left) then !RestGoes(ops, first, |tape|)
        else if Stops(ops[k]) then RestGoes(ops, first, |tape|)
        else Passes(first, ops[k])
    {
      var op := ops[k];
      NextOp(ops, k, s, w, base, ids);
      StopsOrNot(first, op);
      if op.Conflicting? { BlobsStay(first, tape, objects, left, base, op.path, op.remote); }
      hide Applying, AllAgree, NewIds, Quietly, IsDiff, Answered, Seals, Stops, Reads, FetchBlob, DoneAt;
      assert GoesOn(objects, op, s.disk, left) <==> Passes(first, op) && (Seals(op) ==> left != []);
      if !GoesOn(objects, op, s.disk, left) {
        NoWay(ops, k, first, |tape|);
      } else if Stops(op) {
        assert GoesTo(ops, k, first, |tape|);
      }
    }

    /** A conflict is over the remote's entry, and what it seals is a file that is there. */
    lemma NextOp(ops: seq<DiffOp>, k: nat, s: Replica, w: Replica, base: Manifest, ids: map<Path, BlobId>)
      requires IsDiff(ops, w.local.entries, base.entries) && k < |ops|
      requires Applying(s, w, managed, ctx, base, ids, DoneAt(ops, k)) && AllAgree(w, managed)
      ensures ops[k].Conflicting? ==> Lookup(base.entries, ops[k].path) == Some(ops[k].remote)
      ensures Seals(ops[k]) ==> ops[k].path in s.disk
    {
      var op := ops[k];
      Untouched(ops, w.local.entries, base.entries, k);
      PulledEntry(op.path, Lookup(w.local.entries, op.path), Lookup(base.entries, op.path));
      hide Classify, IsDiff, DoneAt, LatestChoice, PathAfter, OutcomeAt;
      if Seals(op) {
        assert At(s, op.path) == At(w, op.path);
        assert Agrees(Lookup(w.local.entries, op.path), Lookup(w.disk, op.path));
        SealsLive(op);
      }
    }

    lemma SealsLive(op: DiffOp)
      ensures Seals(op) ==> !op.local.deleted
    {}

    /** One turn of the loop. */
    method ApplyNext(ops: seq<DiffOp>, k: nat, report: Report, ghost w: Replica, ghost base: Manifest, ghost ids: map<Path, BlobId>,
        ghost named: set<(Path, BlobId)>)
      returns (res: Result<Report, SyncError>, ghost ids2: map<Path, BlobId>)
      requires IsDiff(ops, w.local.entries, base.entries) && k < |ops|
      requires report == ReportAt(ops, k)
      requires Applying(State(), w, managed, ctx, base, ids, DoneAt(ops, k))
      requires Sourced(local.Value(), named, store.written) && NamedBy(base) <= named
      modifies local`entries, local`resolutions, disk, sealer, store, store.inner
      ensures Evolves(old(store.Objects()), store.Objects())
      ensures OnlyBlobs(old(store.written), store.written)
      ensures old(store.schedule) == [] ==> store.schedule == [] && ManifestCount(store.Objects()) == ManifestCount(old(store.Objects()))
      ensures res.Ok? ==> Sourced(local.Value(), named, store.written)
      ensures res.Ok? ==> Applying(State(), w, managed, ctx, base, ids2, DoneAt(ops, if res.value.aborted then k else k + 1))
      ensures res.Ok? && !res.value.aborted ==> res.value == ReportAt(ops, k + 1)
      ensures res.Ok? && res.value.aborted ==> res.value == report.(aborted := true)
      ensures res.Ok? ==> (res.value.aborted <==> Stops(ops[k]))
      ensures old(store.schedule) == [] ==> (res.Ok? <==> GoesOn(old(store.Objects()), ops[k], old(disk.files), old(sealer.tape)))
      ensures old(store.schedule) == [] && res.Ok? ==>
        Took(old(store.Objects()), old(sealer.tape), store.Objects(), sealer.tape, ops[k])
    {
      hide Applying, Sourced, Classify, Evolves, Ends, OnlyBlobs, IsDiff, ReportAt, DoneAt, Noted, GoesOn, Took;
      var op := ops[k];
      Untouched(ops, w.local.entries, base.entries, k);
      var how;
      how, ids2 := ApplyOne(op, w, base, ids, DoneAt(ops, k), named);
      if how.Err? { return Err(how.error), ids2; }
      if how.value == Some(Halted) { return Ok(report.(aborted := true)), ids2; }
      NotedLists(ops, k, how.value);
      return Ok(Noted(report, op, how.value)), ids2;
    }

    lemma NothingDone(ops: seq<DiffOp>)
      ensures DoneAt(ops, 0) == set p | p in Of(Pulls, ops)
      ensures ReportAt(ops, 0) == Report([], [], [], false)
    {}

    /** What the report says of a settled conflict. */
    static function Noted(report: Report, op: DiffOp, how: Option<Settled>): Report {
      if how.None? then report
      else report.(
        pulled := report.pulled + if how.value.TookRemote? then [op.path] else [],
        pushed := report.pushed + if how.value.TookRemote? then [] else [op.path],
        conflictsResolved := report.conflictsResolved + [op.path])
    }

    lemma NotedLists(ops: seq<DiffOp>, k: nat, how: Option<Settled>)
      requires k < |ops| && how != Some(Halted)
      requires if ops[k].path in managed && ops[k].Conflicting? then how.Some? && Ends(ops[k], how.value) else how.None?
      ensures Noted(ReportAt(ops, k), ops[k], how) == ReportAt(ops, k + 1)
      ensures DoneAt(ops, k + 1) == DoneAt(ops, k) + {ops[k].path}
      ensures !ReportAt(ops, k + 1).aborted && !Stops(ops[k])
    {
      hide Of, Resolve;
      OfNext(Taken, ops, k);
      OfNext(Pushed, ops, k);
      OfNext(Conflicts, ops, k);
      assert ops[..k + 1] == ops[..k] + [ops[k]];
    }

    /** What the k-th operation meets. */
    lemma Untouched(ops: seq<DiffOp>, l: map<Path, Entry>, r: map<Path, Entry>, k: nat)
      requires IsDiff(ops, l, r) && k < |ops|
      ensures ops[k].path in l || ops[k].path in r
      ensures ops[k] == ClassifyAt(l, r, ops[k].path)
      ensures ops[k].path in managed && ops[k].PullLocal? ==> ops[k].path in DoneAt(ops, k)
      ensures ops[k].Conflicting? ==> ops[k].path !in DoneAt(ops, k)
    {
      hide Classify, Ends, Of;
      OfContains(Pulls, ops, ops[k].path);
      assert ops[k].path !in PathSet(ops[..k]);
    }

    lemma NothingPut(written: seq<Written>)
      ensures OnlyBlobs(written, written)
    {}

    lemma PutsFollow(a: seq<Written>, b: seq<Written>, c: seq<Written>)
      requires OnlyBlobs(a, b) && OnlyBlobs(b, c)
      ensures OnlyBlobs(a, c)
    {
      forall i | |a| <= i < |c| ensures c[i].key != ManifestKey {
        if i < |b| { assert c[i] == b[i]; }
      }
    }

    /** Exactly when the first diff can be applied, with `n` ids at hand. */
    ghost predicate ApplyGoes(ops: seq<DiffOp>, objects: Objects, n: nat) {
      PullsGo(objects, ops) && RestGoes(ops, objects, n)
    }

    /** The same, whatever else was uploaded under new ids before. */
    lemma GoesAsBefore(ops: seq<DiffOp>, l: map<Path, Entry>, base: Manifest, n: nat,
        before: Objects, tape: seq<BlobId>, after: Objects, left: seq<BlobId>)
      requires IsDiff(ops, l, base.entries) && NewIds(tape, base) && Quietly(before, tape, after, left)
      ensures ApplyGoes(ops, after, n) <==> ApplyGoes(ops, before, n)
    {
      forall op | op in ops ensures Available(after, op) <==> Available(before, op) {
        var i :| 0 <= i < |ops| && ops[i] == op;
        ReadFromBase(ops, l, base.entries, i);
        if op.PullLocal? || op.Conflicting? { BlobsStay(before, tape, after, left, base, op.path, op.remote); }
        hide FetchBlob;
      }
      hide Available, Answered, Stops, IsDiff, NewIds, Quietly;
      forall k: nat ensures GoesTo(ops, k, after, n) <==> GoesTo(ops, k, before, n) {}
    }

    lemma ReadFromBase(ops: seq<DiffOp>, l: map<Path, Entry>, r: map<Path, Entry>, i: nat)
      requires IsDiff(ops, l, r) && i < |ops|
      ensures ops[i].PullLocal? || ops[i].Conflicting? ==> Lookup(r, ops[i].path) == Some(ops[i].remote)
    {
      Untouched(ops, l, r, i);
      PulledEntry(ops[i].path, Lookup(l, ops[i].path), Lookup(r, ops[i].path));
      hide Classify, DoneAt;
    }

    /** The first diff, applied. */
    method Apply(base: Manifest, ghost named: set<(Path, BlobId)>)
      returns (res: Result<Report, SyncError>, ghost ops: seq<DiffOp>, ghost ids: map<Path, BlobId>, ghost done: set<Path>)
      requires Sourced(local.Value(), named, store.written) && NamedBy(base) <= named
      modifies local`entries, local`resolutions, disk, sealer, store, store.inner
      ensures Evolves(old(store.Objects()), store.Objects())
      ensures OnlyBlobs(old(store.written), store.written)
      ensures old(store.schedule) == [] ==> store.schedule == [] && ManifestCount(store.Objects()) == ManifestCount(old(store.Objects()))
      ensures res.Ok? ==> Sourced(local.Value(), named, store.written)
      ensures IsDiff(ops, old(local.entries), base.entries) && InPathOrder(ops)
      ensures res.Ok? ==> Applying(State(), old(State()), managed, ctx, base, ids, done)
      ensures res.Ok? && res.value.aborted ==> exists k: nat :: StoppedAt(ops, k, done, res.value.(pushed := []))
      ensures res.Ok? && !res.value.aborted ==>
        State() == ApplyAll(old(State()), managed, ctx, base, ids) && Completes(old(State()), managed, ctx, base, ids)
      ensures res.Ok? && !res.value.aborted ==>
        res.value == Report(Of(Pulls, ops) + Of(Taken, ops), Of(Pushed, ops), Of(Conflicts, ops), false)
      ensures old(store.schedule) == [] && NewIds(old(sealer.tape), base) && AllAgree(old(State()), managed) ==>
        (res.Ok? <==> ApplyGoes(ops, old(store.Objects()), |old(sealer.tape)|))
    {
      hide DoneAt, PathSet, IsDiff, AllAgree, NewIds, RestGoes, PullsGo, AllOpen, IsFetched, AsServed, Applying, Sourced, Evolves, Ends, OnlyBlobs, ApplyAll, Completes, InPathOrder, Of, Stops;
      ids, done := map[], {};
      ghost var w := State();
      var todo := Diff(local.entries, base.entries);
      ops := todo;
      NothingPut(store.written);
      var fetched := FetchPulls(todo);
      if fetched.Err? { return Err(fetched.error), ops, ids, done; }
      ghost var objects := store.Objects();
      if old(store.schedule) == [] { OpenedPulls(objects, ops, fetched.value); }
      var pulled := ApplyPulls(fetched.value, ops, base, named);
      if pulled.Err? { return Err(pulled.error), ops, ids, done; }
      var rest;
      ghost var upto;
      rest, ids, done, upto := ApplyRest(todo, w, base, named);
      EvolvesTransitive(old(store.Objects()), objects, store.Objects());
      if rest.Err? { return Err(rest.error), ops, ids, done; }
      if !rest.value.aborted {
        assert ops[..upto] == ops;
        WholeDiffDone(State(), w, base, ids, ops, done);
      }
      var report := rest.value.(pulled := pulled.value + rest.value.pulled);
      if report.aborted { assert StoppedAt(ops, upto, done, report.(pushed := [])); }
      return Ok(report), ops, ids, done;
    }

    lemma WholeDiffDone(s: Replica, w: Replica, base: Manifest, ids: map<Path, BlobId>, ops: seq<DiffOp>, done: set<Path>)
      requires IsDiff(ops, w.local.entries, base.entries) && done == DoneAt(ops, |ops|)
      requires Applying(s, w, managed, ctx, base, ids, done)
      ensures s == ApplyAll(w, managed, ctx, base, ids) && Completes(w, managed, ctx, base, ids)
    {
      hide Applying, ApplyAll, Completes, IsDiff, Of;
      assert ops[..|ops|] == ops;
      EveryPathDone(ops, w.local.entries, base.entries, done);
      AppliedAll(s, w, managed, ctx, base, ids, done);
    }

    lemma EveryPathDone(ops: seq<DiffOp>, l: map<Path, Entry>, r: map<Path, Entry>, done: set<Path>)
      requires IsDiff(ops, l, r) && PathSet(ops) <= done
      ensures forall p | p in l || p in r :: p in done
    {
      forall p | p in l || p in r ensures p in done {
        var i :| 0 <= i < |ops| && ops[i].path == p;
        assert ops[i] in ops && ops[i].path in PathSet(ops);
      }
    }

    // ---- a retry --------------------------------------------------------------------------------------

    /** Some managed path's content in `base` cannot be read in this stretch. */
    ghost predicate ContentMissing(from: Objects, to: Objects, base: Manifest) {
      exists p | p in managed && p in base.entries :: Unreadable(from, to, p, base.entries[p])
    }

    lemma MissingWithin(a: Objects, from: Objects, to: Objects, z: Objects, base: Manifest)
      requires ContentMissing(from, to, base) && Evolves(a, from) && Evolves(to, z)
      ensures ContentMissing(a, z, base)
    {
      hide Evolves, Unreadable;
      var p :| p in managed && p in base.entries && Unreadable(from, to, p, base.entries[p]);
      UnreadableWithin(a, from, to, z, p, base.entries[p]);
    }

    /** Diffs again and takes over what is newer; everything else keeps the local version. */
    method Retry(base: Manifest, ghost named: set<(Path, BlobId)>) returns (res: Result<(), SyncError>)
      requires Sourced(local.Value(), named, store.written) && NamedBy(base) <= named
      modifies local`entries, disk`files, store`schedule, store.inner
      ensures Evolves(old(store.Objects()), store.Objects())
      ensures old(store.schedule) == [] ==> store.schedule == [] && ManifestCount(store.Objects()) == ManifestCount(old(store.Objects()))
      ensures res.Ok? ==> State() == RetryAll(old(State()), managed, ctx.now, base)
      ensures res.Ok? ==> Sourced(local.Value(), named, store.written)
      ensures res.Err? ==> ContentMissing(old(store.Objects()), store.Objects(), base)
    {
      hide Retrying, Sourced, Evolves, RetryAll, With, Classify, At, ContentMissing;
      ghost var w := State();
      var ops := Diff(local.entries, base.entries);
      ghost var done: set<Path> := {};
      RetryingStarts(w, managed, ctx.now, base);
      StillThere(store.Objects());
      for k := 0 to |ops|
        invariant done == PathSet(ops[..k])
        invariant Retrying(State(), w, managed, ctx.now, base, done)
        invariant Sourced(local.Value(), named, store.written)
        invariant Evolves(old(store.Objects()), store.Objects())
        invariant old(store.schedule) == [] ==> store.schedule == [] && ManifestCount(store.Objects()) == ManifestCount(old(store.Objects()))
      {
        var op := ops[k];
        assert op.path !in done;
        ghost var objects := store.Objects();
        var one := RetryOne(op, w, base, done, named);
        EvolvesTransitive(old(store.Objects()), objects, store.Objects());
        if one.Err? {
          StillThere(store.Objects());
          MissingWithin(old(store.Objects()), objects, store.Objects(), store.Objects(), base);
          return Err(one.error);
        }
        assert PathSet(ops[..k + 1]) == PathSet(ops[..k]) + {op.path} by { assert ops[..k + 1] == ops[..k] + [op]; }
        done := done + {op.path};
      }
      assert ops[..|ops|] == ops;
      EveryPathDone(ops, w.local.entries, base.entries, done);
      RetriedAll(State(), w, managed, ctx.now, base, done);
      return Ok(());
    }

    method RetryOne(op: DiffOp, ghost w: Replica, ghost base: Manifest, ghost done: set<Path>, ghost named: set<(Path, BlobId)>)
      returns (res: Result<(), SyncError>)
      requires op.path in w.local.entries || op.path in base.entries
      requires op == ClassifyAt(w.local.entries, base.entries, op.path) && op.path !in done
      requires Retrying(State(), w, managed, ctx.now, base, done)
      requires Sourced(local.Value(), named, store.written) && NamedBy(base) <= named
      modifies local`entries, disk`files, store`schedule, store.inner
      ensures Evolves(old(store.Objects()), store.Objects())
      ensures old(store.schedule) == [] ==> store.schedule == [] && ManifestCount(store.Objects()) == ManifestCount(old(store.Objects()))
      ensures res.Ok? ==> Retrying(State(), w, managed, ctx.now, base, done + {op.path})
      ensures res.Ok? ==> Sourced(local.Value(), named, store.written)
      ensures res.Err? ==> ContentMissing(old(store.Objects()), store.Objects(), base)
    {
      hide Retrying, Sourced, Evolves, With, Classify, Unreadable;
      StillThere(store.Objects());
      ghost var s := State();
      PulledEntry(op.path, Lookup(w.local.entries, op.path), Lookup(base.entries, op.path));
      if op.path in managed && (op.PullLocal? || op.PullDeletion?) {
        if op.PullLocal? {
          res := TakeRemote(op.path, op.remote);
          if res.Err? { return; }
        } else {
          RemoveFile(op.path, op.remote);
        }
        PullRetried(s, w, managed, ctx.now, base, done, op.path, State());
        WithEntries(s, op.path, RetryPath(op, At(s, op.path), ctx.now));
        assert (op.path, op.remote.blobId) in NamedBy(base);
        SourcedUpdate(s.local, named, store.written, op.path, op.remote, local.Value());
      } else {
        IdleRetried(s, w, managed, ctx.now, base, done, op.path);
      }
      return Ok(());
    }

    // ---- the manifest -----------------------------------------------------------------------------------

    /** `listed` is the content of the store when the listing was taken. */
    method FetchRemoteManifest(seen: u64, anchored: bool)
      returns (r: Result<(Manifest, Option<Etag>, bool), SyncError>, ghost listed: Objects)
      modifies store`schedule, store.inner
      ensures Evolves(old(store.Objects()), listed) && Evolves(listed, store.Objects())
      ensures r == FetchManifest(store.Objects(), ListedEtag(listed), anchored, seen, ctx.now)
      ensures old(store.schedule) == [] ==> store.schedule == [] && store.Objects() == listed == old(store.Objects())
    {
      var etag := store.List(ManifestKey);
      listed := store.Objects();
      var got := store.Get(ManifestKey);
      if got.Err? { return Ok((EMPTY_MANIFEST, None, false)), listed; }
      return OpenFetched(got.value, etag, anchored, seen, ctx.now), listed;
    }

    /** Merges, numbers, seals and puts the outgoing manifest under the guard of this attempt. */
    method PushManifest(base: Manifest, etag: Option<Etag>) returns (r: Result<Etag, StorageError>, ghost before: Objects)
      modifies local`version, store, store.inner
      ensures Evolves(old(store.Objects()), before)
      ensures old(store.schedule) == [] ==> store.schedule == [] && before == old(store.Objects())
      ensures r.Ok? <==> GuardHolds(before, ManifestKey, PutGuard(etag))
      ensures var (after, out) := Final(old(State()), managed, base);
        var sealed := ManifestObject(out, ctx.now, sealedLen(out));
        if r.Ok? then
          && State() == after
          && store.Objects() == AfterPut(before, ManifestKey, sealed)
          && store.written == old(store.written) + [Written(ManifestKey, sealed, PutGuard(etag))]
        else
          r.error == PreconditionFailed && State() == old(State()) && store.Objects() == before && store.written == old(store.written)
    {
      hide OutgoingEntries, OutgoingRecords;
      var outgoing := new LocalManifest(local.Value());
      outgoing.MergeUnmanagedEntries(base, managed);
      outgoing.version := SaturatingInc(Max(local.version, base.version));
      var m := outgoing.Value();
      r, before := store.Put(ManifestKey, ManifestObject(m, ctx.now, sealedLen(m)), if etag.Some? then etag else Some(Absent));
      if r.Ok? { local.version := m.version; }
    }

    // ---- the whole sync ---------------------------------------------------------------------------------

    /** Everything a scan leaves in the manifest is either old or uploaded. */
    lemma UploadedSource(w: Replica, ids: map<Path, BlobId>, staged: seq<PendingPush>, m: Manifest, written: seq<Written>)
      requires m == ScanAll(w, managed, ctx.device, ids).local
      requires forall p :: p in Staged(w, managed) <==> p in PathsOf(staged)
      requires forall s | s in staged :: Backed(written, s.path, s.entry) && Lookup(m.entries, s.path) == Some(s.entry)
      ensures Sourced(m, NamedBy(w.local), written)
    {
      hide ScanAll, Backed;
      ScannedBlobs(w, ids);
      forall p | p in m.entries && p in Staged(w, managed) ensures Backed(written, p, m.entries[p]) {
        var i :| 0 <= i < |staged| && PathsOf(staged)[i] == p;
        assert staged[i] in staged;
      }
    }

    lemma ScanKeepsHead(w: Replica, ids: map<Path, BlobId>)
      ensures SameHead(ScanAll(w, managed, ctx.device, ids).local, w.local)
    {}

    /** Scans and uploads what is new. */
    method Stage() returns (res: Result<seq<Path>, SyncError>, ghost ids: map<Path, BlobId>)
      requires Valid()
      modifies local, sealer, store, store.inner
      ensures Evolves(old(store.Objects()), store.Objects())
      ensures OnlyBlobs(old(store.written), store.written)
      ensures old(store.schedule) == [] ==> store.schedule == [] && ManifestCount(store.Objects()) == ManifestCount(old(store.Objects()))
      ensures res.Ok? ==> State() == ScanAll(old(State()), managed, ctx.device, ids)
      ensures res.Ok? ==> SameHead(local.Value(), old(local.Value()))
      ensures res.Ok? ==> forall p :: p in Staged(old(State()), managed) <==> p in res.value
      ensures res.Ok? ==> Sourced(local.Value(), NamedBy(old(local.Value())), store.written)
      ensures res.Ok? <==> |Staged(old(State()), managed)| <= |old(sealer.tape)|
      ensures res.Ok? ==> |sealer.tape| == |old(sealer.tape)| - |Staged(old(State()), managed)|
      ensures res.Ok? && old(store.schedule) == [] ==>
        Quietly(old(store.Objects()), old(sealer.tape), store.Objects(), sealer.tape)
    {
      hide ScanAll, Sourced, Backed, StagedWell, Staged, Drawn, Beside;
      StillThere(store.Objects());
      NothingPut(store.written);
      var staged;
      staged, ids := ScanLocal();
      if staged.Err? { return Err(staged.error), ids; }
      ScanKeepsHead(old(State()), ids);
      DrawnWithin(old(sealer.tape), sealer.tape, |Staged(old(State()), managed)|);
      var pushed := Upload(staged.value, IdsOf(old(sealer.tape)));
      UploadedSource(old(State()), ids, staged.value, local.Value(), store.written);
      return Ok(pushed), ids;
    }

    /** Scans, uploads and fetches. */
    method StageAndFetch(anchored: bool)
      returns (res: Result<(Manifest, Option<Etag>), SyncError>, ghost a: Attempt, staged: seq<Path>)
      requires Valid()
      modifies local, sealer, store, store.inner
      ensures Evolves(old(store.Objects()), a.listed) && Evolves(a.listed, a.read) && a.read == store.Objects()
      ensures OnlyBlobs(old(store.written), store.written)
      ensures old(store.schedule) == [] ==> store.schedule == [] && ManifestCount(store.Objects()) == ManifestCount(a.listed)
      ensures res.Ok? ==>
        AcceptFetched(FetchManifest(a.read, ListedEtag(a.listed), anchored, old(local.version), ctx.now), false, anchored) == res
      ensures res.Ok? ==> State() == ScanAll(old(State()), managed, ctx.device, a.ids)
      ensures res.Ok? ==> a.staged == staged && forall p :: p in Staged(old(State()), managed) <==> p in staged
      ensures res.Ok? ==> Sourced(local.Value(), NamedBy(old(local.Value())) + NamedBy(res.value.0), store.written)
      ensures Undisturbed(Accepts(old(store.Objects()), anchored, old(local.version)), old(store.schedule), old(sealer.tape)) ==>
        && (res.Ok? <==> Reached(old(State()), Accepts(old(store.Objects()), anchored, old(local.version)), |old(sealer.tape)|))
        && (res.Ok? ==>
             && res == Accepts(old(store.Objects()), anchored, old(local.version))
             && Quietly(old(store.Objects()), old(sealer.tape), store.Objects(), sealer.tape)
             && |sealer.tape| == |old(sealer.tape)| - |Staged(old(State()), managed)|)
    {
      hide ScanAll, Sourced, Evolves, OnlyBlobs, FetchManifest, AcceptFetched, NamedBy, Staged, ManifestCount, Quietly, NewIds;
      ghost var w, first, named, tape := State(), store.Objects(), NamedBy(local.Value()), sealer.tape;
      a := Attempt(map[], [], [], map[], {}, first, first);
      StillThere(first);
      var scan;
      ghost var ids;
      scan, ids := Stage();
      a := a.(read := store.Objects(), ids := ids);
      staged := if scan.Ok? then scan.value else [];
      if scan.Err? { StillThere(a.read); return Err(scan.error), a, staged; }
      if old(store.schedule) == [] { ManifestStays(first, tape, store.Objects(), sealer.tape); }
      ghost var objects := store.Objects();
      var fetched;
      ghost var listed;
      fetched, listed := FetchRemoteManifest(local.version, anchored);
      EvolvesTransitive(first, objects, listed);
      a := a.(staged := staged, listed := listed, read := store.Objects());
      res := AcceptFetched(fetched, false, anchored);
      if res.Ok? {
        assert named <= named + NamedBy(res.value.0);
        SourcedGrows(local.Value(), named, store.written, named + NamedBy(res.value.0), store.written);
      }
    }

    /** The part of a sync before the first put. */
    method FirstAttempt(anchored: bool)
      returns (res: Result<(Report, Manifest, Option<Etag>), SyncError>, ghost a: Attempt)
      requires Valid()
      modifies local, disk, sealer, store, store.inner
      ensures Evolves(old(store.Objects()), a.listed) && Evolves(a.listed, a.read) && Evolves(a.read, store.Objects())
      ensures OnlyBlobs(old(store.written), store.written)
      ensures old(store.schedule) == [] ==> store.schedule == [] && ManifestCount(store.Objects()) == ManifestCount(a.listed)
      ensures res.Ok? ==>
        AcceptFetched(FetchManifest(a.read, ListedEtag(a.listed), anchored, old(local.version), ctx.now), false, anchored)
          == Ok((res.value.1, res.value.2))
      ensures res.Ok? ==> Sourced(local.Value(), NamedBy(old(local.Value())) + NamedBy(res.value.1), store.written)
      ensures res.Ok? ==> Begun(old(State()), a, res.value.0, res.value.1)
      ensures Undisturbed(Accepts(old(store.Objects()), anchored, old(local.version)), old(store.schedule), old(sealer.tape)) ==>
        WellTried(old(State()), old(store.Objects()), Accepts(old(store.Objects()), anchored, old(local.version)), |old(sealer.tape)|, a, res.Ok?)
    {
      hide AllAgree, NewIds, Quietly, ApplyGoes, Accepts, ScanAll, Sourced, Evolves, Applying, ApplyAll, Completes, IsDiff, InPathOrder,
        Of, Ends, OnlyBlobs, FetchManifest, StoppedAt, AcceptFetched, NamedBy, Staged, Merge, Bump, ManifestCount;
      ghost var w, first, named, tape := State(), store.Objects(), NamedBy(local.Value()), sealer.tape;
      ghost var accepted := Accepts(first, anchored, local.version);
      ghost var quiet := Undisturbed(accepted, store.schedule, tape);
      var fetched, staged;
      fetched, a, staged := StageAndFetch(anchored);
      StillThere(a.read);
      if fetched.Err? { return Err(fetched.error), a; }
      var base := fetched.value.0;
      ScanAllAgrees(w, managed, ctx.device, a.ids);
      if quiet { FewerAreNew(first, tape, a.read, sealer.tape, base); }
      ghost var scanned, written, left := State(), store.written, sealer.tape;
      assert NamedBy(base) <= named + NamedBy(base);
      var applied;
      ghost var ops, reseals, done;
      applied, ops, reseals, done := Apply(base, named + NamedBy(base));
      PutsFollow(old(store.written), written, store.written);
      a := a.(ops := ops, reseals := reseals, done := done);
      if quiet { GoesAsBefore(ops, scanned.local.entries, base, |left|, first, tape, a.read, left); }
      if applied.Err? { return Err(applied.error), a; }
      var report := applied.value.(pushed := staged);
      if !applied.value.aborted {
        report := report.(pushed := staged + applied.value.pushed);
        ghost var m := local.Value();
        local.clock := Merge(Bump(local.clock, ctx.device), base.clock);
        local.deviceId := ctx.device;
        SourcedSame(m, local.Value(), named + NamedBy(base), store.written);
      }
      return Ok((report, base, fetched.value.1)), a;
    }

    /** Other clients are idle, and no id on the tape is named by the manifest that is accepted. */
    ghost predicate Undisturbed(accepted: Result<(Manifest, Option<Etag>), SyncError>, schedule: seq<seq<ForeignPut>>, tape: seq<BlobId>) {
      schedule == [] && (accepted.Ok? ==> NewIds(tape, accepted.value.0))
    }

    /** The attempt went through exactly when it could, and over the diff of what was scanned and fetched. */
    ghost predicate WellTried(w: Replica, objects: Objects, accepted: Result<(Manifest, Option<Etag>), SyncError>, n: nat, a: Attempt, ok: bool) {
      && (ok <==> AttemptGoes(w, objects, accepted, n, a))
      && (Reached(w, accepted, n) ==> Diffed(w, accepted.value.0, a))
    }

    /** What is made of the manifest in the store. */
    function Accepts(objects: Objects, anchored: bool, seen: u64): Result<(Manifest, Option<Etag>), SyncError> {
      AcceptFetched(FetchManifest(objects, ListedEtag(objects), anchored, seen, ctx.now), false, anchored)
    }

    /** With `n` ids at hand the scan goes through, and so does the fetch. */
    predicate Reached(w: Replica, accepted: Result<(Manifest, Option<Etag>), SyncError>, n: nat) {
      |Staged(w, managed)| <= n && accepted.Ok?
    }

    /** The operations are the diff of what was scanned and what was fetched. */
    ghost predicate Diffed(w: Replica, base: Manifest, a: Attempt) {
      IsDiff(a.ops, ScanAll(w, managed, ctx.device, a.ids).local.entries, base.entries) && InPathOrder(a.ops)
    }

    /**
     Exactly when the first attempt goes through without other clients: there is an id for every file to
     seal, the manifest is accepted, every pull finds its content, and so does every conflict up to the first
     whose resolver stops, each of them answered and with an id if it seals.
     */
    ghost predicate AttemptGoes(w: Replica, objects: Objects, accepted: Result<(Manifest, Option<Etag>), SyncError>, n: nat, a: Attempt) {
      Reached(w, accepted, n) && ApplyGoes(a.ops, objects, n - |Staged(w, managed)|)
    }

    lemma FewerAreNew(before: Objects, tape: seq<BlobId>, after: Objects, left: seq<BlobId>, base: Manifest)
      requires Quietly(before, tape, after, left) && NewIds(tape, base)
      ensures NewIds(left, base)
    {
      NewIdsStay(tape, left, base);
    }

    lemma SourcedSame(m: Manifest, m2: Manifest, named: set<(Path, BlobId)>, written: seq<Written>)
      requires Sourced(m, named, written) && m2.entries == m.entries
      ensures Sourced(m2, named, written)
    {}

    /** Where the first attempt leaves the device, and what its report says. */
    ghost predicate Begun(w: Replica, a: Attempt, report: Report, base: Manifest)
      reads local, disk
    {
      var scanned := ScanAll(w, managed, ctx.device, a.ids);
      && (forall p :: p in Staged(w, managed) <==> p in a.staged)
      && IsDiff(a.ops, scanned.local.entries, base.entries) && InPathOrder(a.ops)
      && if report.aborted then
           && report.pushed == a.staged
           && Applying(State(), scanned, managed, ctx, base, a.reseals, a.done)
           && exists k: nat :: StoppedAt(a.ops, k, a.done, report.(pushed := []))
         else
           && report == Report(Of(Pulls, a.ops) + Of(Taken, a.ops), a.staged + Of(Pushed, a.ops), Of(Conflicts, a.ops), false)
           && Completes(scanned, managed, ctx, base, a.reseals)
           && State() == Prepared(w, managed, ctx, base, a.ids, a.reseals)
    }

    /**
     A completed sync is the specified one over the manifests it fetched; its one manifest put is its
     last put, and replaced exactly the last manifest fetched; every blob the pushed manifest names
     was named by a manifest it came from or was put, sealed for that path, before it.
     */
    ghost predicate Completed(w: Replica, wrote: seq<Written>, run: Run, report: Report)
      reads local, disk, store, store.inner
    {
      && run.bases != []
      && |run.bases| == run.refused + 1
      && Prefaced(w, run.first, run.bases[0], report)
      && (State(), run.pushed) == SyncOver(w, managed, ctx, run.bases, run.first.ids, run.first.reseals)
      && Replaces(run.before, run.bases[|run.bases| - 1])
      && var sealed := ManifestObject(run.pushed, ctx.now, sealedLen(run.pushed));
      && store.Objects() == AfterPut(run.before, ManifestKey, sealed)
      && store.written != []
      && OnlyBlobs(wrote, store.written[..|store.written| - 1])
      && Put(store.written[..|store.written| - 1], store.written, run.pushed)
      && Sourced(run.pushed, NamedBy(w.local) + NamedByAll(run.bases), store.written)
    }

    /** The part of `Begun` that does not look at the state. */
    ghost predicate Prefaced(w: Replica, a: Attempt, base: Manifest, report: Report) {
      var scanned := ScanAll(w, managed, ctx.device, a.ids);
      && (forall p :: p in Staged(w, managed) <==> p in a.staged)
      && IsDiff(a.ops, scanned.local.entries, base.entries) && InPathOrder(a.ops)
      && report == Report(Of(Pulls, a.ops) + Of(Taken, a.ops), a.staged + Of(Pushed, a.ops), Of(Conflicts, a.ops), false)
      && Completes(scanned, managed, ctx, base, a.reseals)
    }

    lemma BegunApart(w: Replica, a: Attempt, report: Report, base: Manifest)
      requires Begun(w, a, report, base) && !report.aborted
      ensures Prefaced(w, a, base, report)
      ensures State() == Prepared(w, managed, ctx, base, a.ids, a.reseals)
    {}

    lemma NextBase(bases: seq<Manifest>, base: Manifest, w: Replica)
      requires bases != []
      ensures Rebased(w, managed, ctx.now, (bases + [base])[1..]) == RetryAll(Rebased(w, managed, ctx.now, bases[1..]), managed, ctx.now, base)
      ensures NamedByAll(bases + [base]) == NamedByAll(bases) + NamedBy(base)
    {
      hide RetryAll, NamedBy;
      assert (bases + [base])[1..] == bases[1..] + [base];
      assert (bases[1..] + [base])[..|bases| - 1] == bases[1..];
      assert (bases + [base])[..|bases|] == bases;
    }

    /** Every manifest fetched has at least this version. */
    static ghost predicate NoneOlder(bases: seq<Manifest>, seen: u64) {
      forall i | 0 <= i < |bases| :: seen <= bases[i].version
    }

    static lemma NextNotOlder(bases: seq<Manifest>, base: Manifest, seen: u64)
      requires NoneOlder(bases, seen) && seen <= base.version
      ensures NoneOlder(bases + [base], seen)
    {}

    lemma FirstBase(base: Manifest, w: Replica)
      ensures Rebased(w, managed, ctx.now, [base][1..]) == w
      ensures NamedByAll([base]) == NamedBy(base)
    {
      assert [base][1..] == [] && [base][..0] == [];
    }

    /** What a retry lists and reads in this stretch is not accepted, or names content that cannot be read. */
    ghost predicate RetryFails(from: Objects, to: Objects, anchored: bool, seen: u64) {
      exists listed, read :: Between(from, listed, read, to) && RetryFailsAt(listed, read, to, anchored, seen)
    }

    ghost predicate RetryFailsAt(listed: Objects, read: Objects, to: Objects, anchored: bool, seen: u64) {
      var accepted := AcceptFetched(FetchManifest(read, ListedEtag(listed), anchored, seen, ctx.now), true, anchored);
      accepted.Err? || ContentMissing(read, to, accepted.value.0)
    }

    lemma FetchFails(from: Objects, listed: Objects, read: Objects, to: Objects, anchored: bool, seen: u64)
      requires Between(from, listed, read, to) && RetryFailsAt(listed, read, to, anchored, seen)
      ensures RetryFails(from, to, anchored, seen)
    {
      hide Between, RetryFailsAt;
    }

    lemma RetryFailsWithin(a: Objects, from: Objects, to: Objects, anchored: bool, seen: u64)
      requires RetryFails(from, to, anchored, seen) && Evolves(a, from)
      ensures RetryFails(a, to, anchored, seen)
    {
      hide Evolves, RetryFailsAt;
      var listed, read :| Between(from, listed, read, to) && RetryFailsAt(listed, read, to, anchored, seen);
      EvolvesTransitive(a, from, listed);
      FetchFails(a, listed, read, to, anchored, seen);
    }

    /** A later attempt fetches again and takes over what is newer. */
    method Rebase(seen: u64, anchored: bool, ghost named: set<(Path, BlobId)>)
      returns (res: Result<(Manifest, Option<Etag>), SyncError>, ghost listed: Objects, ghost read: Objects)
      requires Sourced(local.Value(), named, store.written)
      requires !anchored ==> seen == 0
      modifies local`entries, disk`files, store`schedule, store.inner
      ensures res.Ok? ==> seen <= res.value.0.version
      ensures Evolves(old(store.Objects()), store.Objects())
      ensures res.Err? ==> RetryFails(old(store.Objects()), store.Objects(), anchored, seen)
      ensures ManifestCount(old(store.Objects())) <= ManifestCount(listed) <= ManifestCount(store.Objects())
      ensures res.Ok? ==> Pinned(listed, read, store.Objects(), anchored, seen, ctx.now, res.value.0, res.value.1)
      ensures res.Ok? ==> State() == RetryAll(old(State()), managed, ctx.now, res.value.0)
      ensures res.Ok? ==> Sourced(local.Value(), named + NamedBy(res.value.0), store.written)
    {
      hide Sourced, Evolves, FetchManifest, AcceptFetched, NamedBy, RetryAll, Pinned, ManifestCount, ContentMissing;
      ghost var start := store.Objects();
      var fetched;
      fetched, listed := FetchRemoteManifest(seen, anchored);
      read := store.Objects();
      CountsRise(start, listed);
      CountsRise(listed, read);
      EvolvesTransitive(start, listed, read);
      StillThere(read);
      var accepted := AcceptFetched(fetched, true, anchored);
      if accepted.Err? { FetchFails(start, listed, read, read, anchored, seen); return Err(accepted.error), listed, read; }
      var base := accepted.value.0;
      SourcedGrows(local.Value(), named, store.written, named + NamedBy(base), store.written);
      var retried := Retry(base, named + NamedBy(base));
      CountsRise(read, store.Objects());
      EvolvesTransitive(start, read, store.Objects());
      if retried.Err? { FetchFails(start, listed, read, store.Objects(), anchored, seen); return Err(retried.error), listed, read; }
      AcceptedIsPinned(listed, read, store.Objects(), anchored, seen, ctx.now, true);
      AcceptedIsNotRolledBack(read, ListedEtag(listed), anchored, seen, ctx.now, true);
      return Ok(accepted.value), listed, read;
    }

    /** One more put, and it is of this manifest. */
    ghost predicate Put(before: seq<Written>, after: seq<Written>, m: Manifest) {
      && |after| == |before| + 1
      && before == after[..|before|]
      && after[|before|].key == ManifestKey
      && after[|before|].data == ManifestObject(m, ctx.now, sealedLen(m))
    }

    /** The put of one attempt. */
    method TryPush(base: Manifest, etag: Option<Etag>, seen: u64, anchored: bool, ghost listed: Objects, ghost read: Objects,
        ghost named: set<(Path, BlobId)>)
      returns (ok: bool, ghost before: Objects, ghost pushed: Manifest)
      requires Pinned(listed, read, store.Objects(), anchored, seen, ctx.now, base, etag)
      requires Sourced(local.Value(), named, store.written) && NamedBy(base) <= named
      modifies local`version, store, store.inner
      ensures ManifestCount(old(store.Objects())) <= ManifestCount(store.Objects())
      ensures !ok ==> Evolves(old(store.Objects()), store.Objects())
      ensures ok ==> (State(), pushed) == Final(old(State()), managed, base)
      ensures ok ==> Replaces(before, base)
      ensures ok ==> store.Objects() == AfterPut(before, ManifestKey, ManifestObject(pushed, ctx.now, sealedLen(pushed)))
      ensures ok ==> Put(old(store.written), store.written, pushed)
      ensures ok ==> Sourced(pushed, named, store.written)
      ensures !ok ==> State() == old(State()) && store.written == old(store.written)
      ensures !ok ==> ManifestCount(listed) < ManifestCount(store.Objects())
      ensures old(store.schedule) == [] && ManifestCount(listed) == ManifestCount(old(store.Objects())) ==> ok
    {
      hide Sourced, Evolves, Pinned, GuardHolds, PutGuard, ManifestCount, AfterPut, NamedBy, Outgoing, Replaces;
      ghost var start, m, written := store.Objects(), local.Value(), store.written;
      var put;
      put, before := PushManifest(base, etag);
      ok := put.Ok?;
      pushed := Outgoing(m, base, managed.Keys);
      PinnedStays(listed, read, start, anchored, seen, ctx.now, base, etag, before);
      CountsRise(start, before);
      if ok {
        GuardPinsTheManifest(listed, read, before, anchored, seen, ctx.now, base, etag);
        OutgoingSourced(m, base, managed.Keys, named, written);
        SourcedGrows(pushed, named, written, named, store.written);
        PutEvolves(before, ManifestKey, ManifestObject(pushed, ctx.now, sealedLen(pushed)));
        CountsRise(before, store.Objects());
      } else {
        RefusalMeansAPush(listed, read, before, anchored, seen, ctx.now, base, etag);
      }
    }

    /** The compare-and-swap loop: at most three attempts, the later ones over a manifest fetched anew. */
    method PushLoop(base0: Manifest, etag0: Option<Etag>, seen: u64, anchored: bool, ghost listed0: Objects, ghost read0: Objects,
        ghost named0: set<(Path, BlobId)>)
      returns (ok: Result<(), SyncError>, ghost bases: seq<Manifest>, ghost refused: nat, ghost before: Objects, ghost pushed: Manifest)
      requires Pinned(listed0, read0, store.Objects(), anchored, seen, ctx.now, base0, etag0)
      requires Sourced(local.Value(), named0 + NamedBy(base0), store.written)
      requires seen <= base0.version && (!anchored ==> seen == 0)
      modifies local`entries, local`version, disk`files, store, store.inner
      ensures bases != [] && bases[0] == base0
      ensures NoneOlder(bases, seen)
      ensures ok.Ok? ==> |bases| == refused + 1
      ensures ok.Ok? ==> (State(), pushed) == Final(Rebased(old(State()), managed, ctx.now, bases[1..]), managed, bases[|bases| - 1])
      ensures ok.Ok? ==> Replaces(before, bases[|bases| - 1])
      ensures ok.Ok? ==> store.Objects() == AfterPut(before, ManifestKey, ManifestObject(pushed, ctx.now, sealedLen(pushed)))
      ensures ok.Ok? ==> Put(old(store.written), store.written, pushed)
      ensures ok.Ok? ==> Sourced(pushed, named0 + NamedByAll(bases), store.written)
      ensures ok.Err? ==> store.written == old(store.written)
      ensures refused <= MAX_CAS_RETRIES
      ensures ManifestCount(listed0) + refused <= ManifestCount(store.Objects())
      ensures refused == MAX_CAS_RETRIES ==> ok == Err(Storage(PreconditionFailed))
      ensures ok.Err? ==> refused == MAX_CAS_RETRIES || (refused > 0 && RetryFails(old(store.Objects()), store.Objects(), anchored, seen))
      ensures old(store.schedule) == [] && ManifestCount(listed0) == ManifestCount(old(store.Objects())) ==> refused == 0 && ok.Ok?
    {
      hide Sourced, Evolves, NamedBy, Rebased, RetryAll, Final, Pinned, ManifestCount, AfterPut, NamedByAll, Replaces, Put, RetryFails,
        ListedEtag, SaturatingInc, NoneOlder;
      ghost var start, wrote, objects := State(), store.written, store.Objects();
      ghost var listed, read, named := listed0, read0, named0 + NamedBy(base0);
      var base, etag := base0, etag0;
      bases, refused, before, pushed := [base], 0, objects, base;
      PinnedCounts(listed0, read0, objects, anchored, seen, ctx.now, base, etag);
      FirstBase(base, start);
      NextNotOlder([], base, seen);
      assert [] + [base] == [base];
      StillThere(objects);
      var attempt := 0;
      while attempt < MAX_CAS_RETRIES
        invariant 0 <= attempt < MAX_CAS_RETRIES && refused == attempt
        invariant |bases| == (if attempt == 0 then 1 else attempt)
        invariant bases[0] == base0 && bases[|bases| - 1] == base
        invariant NoneOlder(bases, seen)
        invariant State() == Rebased(start, managed, ctx.now, bases[1..])
        invariant named == named0 + NamedByAll(bases) && NamedBy(base) <= named
        invariant Sourced(local.Value(), named, store.written)
        invariant store.written == wrote
        invariant Evolves(objects, store.Objects())
        invariant attempt == 0 ==> Pinned(listed, read, store.Objects(), anchored, seen, ctx.now, base, etag) && listed == listed0
        invariant ManifestCount(listed0) + attempt <= ManifestCount(store.Objects())
        invariant attempt == 0 ==> store.schedule == old(store.schedule) && store.Objects() == objects
        invariant old(store.schedule) == [] && ManifestCount(listed0) == ManifestCount(objects) ==> attempt == 0
        decreases MAX_CAS_RETRIES - attempt
      {
        if attempt > 0 {
          var again;
          ghost var sofar := store.Objects();
          again, listed, read := Rebase(seen, anchored, named);
          EvolvesTransitive(objects, sofar, store.Objects());
          if again.Err? { RetryFailsWithin(objects, sofar, store.Objects(), anchored, seen); return Err(again.error), bases, refused, before, pushed; }
          base, etag := again.value.0, again.value.1;
          NextBase(bases, base, start);
          NextNotOlder(bases, base, seen);
          bases := bases + [base];
          named := named + NamedBy(base);
          assert named == named0 + NamedByAll(bases);
        }
        var put;
        ghost var now := store.Objects();
        put, before, pushed := TryPush(base, etag, seen, anchored, listed, read, named);
        if !put { EvolvesTransitive(objects, now, store.Objects()); }
        if put { return Ok(()), bases, refused, before, pushed; }
        refused := attempt + 1;
        if attempt + 1 == MAX_CAS_RETRIES { return Err(Storage(PreconditionFailed)), bases, refused, before, pushed; }
        attempt := attempt + 1;
      }
      assert false;
    }

    lemma PinnedCounts(listed: Objects, read: Objects, objects: Objects, anchored: bool, seen: u64, now: nat,
        base: Manifest, etag: Option<Etag>)
      requires Pinned(listed, read, objects, anchored, seen, now, base, etag)
      ensures ManifestCount(listed) <= ManifestCount(objects)
    {
      CountsRise(listed, read);
      CountsRise(read, objects);
    }

    /** The cache says that there was a manifest once. */
    static predicate Anchored(m: Manifest) {
      m.version > 0 || m.entries != map[]
    }

    /** A full sync. */
    method Sync() returns (res: Result<Report, SyncError>, ghost run: Run)
      requires Valid()
      modifies local, disk, sealer, store, store.inner
      ensures res.Ok? && !res.value.aborted ==> Completed(old(State()), old(store.written), run, res.value)
      ensures res.Ok? && res.value.aborted ==> run.bases != [] && Begun(old(State()), run.first, res.value, run.bases[0])
      ensures res.Err? || res.value.aborted ==> OnlyBlobs(old(store.written), store.written)
      // No manifest older than the cached one is ever merged or replaced.
      ensures NoneOlder(run.bases, old(local.version))
      // Without other clients the sync succeeds exactly when its first attempt can.
      ensures var accepted := Accepts(old(store.Objects()), Anchored(old(local.Value())), old(local.version));
        Undisturbed(accepted, old(store.schedule), old(sealer.tape)) ==>
          WellTried(old(State()), old(store.Objects()), accepted, |old(sealer.tape)|, run.first, res.Ok?)
      // With other clients a put that is refused is tried again, up to three times; else it is the fetching that fails.
      ensures res.Err? && run.refused > 0 ==>
        run.refused == 3
        || RetryFails(run.first.read, store.Objects(), Anchored(old(local.Value())), old(local.version))
      // Every refused put is another client's push, and without other clients none is refused.
      ensures run.refused <= 3
      ensures ManifestCount(old(store.Objects())) + run.refused <= ManifestCount(store.Objects())
      ensures run.refused == 3 ==> res == Err(Storage(PreconditionFailed))
      ensures old(store.schedule) == [] ==> run.refused == 0
    {
      hide ScanAll, Sourced, Evolves, OnlyBlobs, FetchManifest, AcceptFetched, NamedBy, Begun, Prefaced, Prepared, Rebased, RetryAll,
        Final, Pinned, ManifestCount, AfterPut, NamedByAll, Replaces, NewIds, WellTried, Accepts, RetryFails;
      ghost var start, objects := State(), store.Objects();
      var anchored := Anchored(local.Value());
      var seen := local.version;
      var first;
      ghost var a;
      first, a := FirstAttempt(anchored);
      run := Run(a, [], 0, objects, EMPTY_MANIFEST);
      CountsRise(objects, a.listed);
      CountsRise(a.listed, a.read);
      CountsRise(a.read, store.Objects());
      if first.Err? { return Err(first.error), run; }
      var (report, base, etag) := first.value;
      run := run.(bases := [base]);
      AcceptedIsNotRolledBack(a.read, ListedEtag(a.listed), anchored, seen, ctx.now, false);
      if report.aborted { return Ok(report), run; }
      BegunApart(start, a, report, base);
      AcceptedIsPinned(a.listed, a.read, store.Objects(), anchored, seen, ctx.now, false);
      ghost var wrote, prepared := store.written, store.Objects();
      var ok;
      ghost var bases, refused, before, pushed;
      ok, bases, refused, before, pushed := PushLoop(base, etag, seen, anchored, a.listed, a.read, NamedBy(start.local));
      run := Run(a, bases, refused, before, pushed);
      if ok.Err? {
        if refused < MAX_CAS_RETRIES { RetryFailsWithin(a.read, prepared, store.Objects(), anchored, seen); }
        return Err(ok.error), run;
      }
      assert store.written[..|store.written| - 1] == wrote;
      return Ok(report), run;
    }

    // ---- what the report says -----------------------------------------------------------------------

    /** The operation of a concerned path is in the list of its kind. */
    lemma ListedIff(kind: Kind, ops: seq<DiffOp>, l: map<Path, Entry>, r: map<Path, Entry>, p: Path)
      requires IsDiff(ops, l, r)
      ensures p in Of(kind, ops) <==> (p in l || p in r) && Lists(kind, ClassifyAt(l, r, p))
    {
      hide Lists, Classify;
      OfContains(kind, ops, p);
    }

    /** How a conflict ended is seen from the entry it left. */
    lemma EndSeen(births: map<BlobId, Birth>, op: DiffOp, version: u64, s: PathState, id: BlobId)
      requires op.Conflicting? && op.path in managed && Get(Merge(op.local.clock, op.remote.clock), ctx.device) < U64_MAX
      requires Known(births, op.path, op.local) && Known(births, op.path, op.remote)
      requires Classify(op.path, Some(op.local), Some(op.remote)) == op && id != op.remote.blobId
      requires ApplyPath(ctx, managed[op.path], op, version, s, id).Applied?
      ensures var e := ApplyPath(ctx, managed[op.path], op, version, s, id).state.entry;
        && (Ends(op, TookRemote) <==> e == Some(op.remote) && !op.remote.deleted)
        && (Ends(op, Deleted) || Ends(op, Resealed) <==> e != Some(op.remote))
    {
      MergeThenBumpDominates(op.local.clock, op.remote.clock, ctx.device);
      StrictPartialOrder(op.remote.clock, op.remote.clock, op.remote.clock);
      if op.local.blobId == op.remote.blobId { BlobIdentity(births, op.path, op.path, op.local, op.remote); }
      hide Merge, Bump, HappensBefore, LatestChoice;
    }

    /**
     The lists of a completed sync's report, told from the entries before and after: pulled are the paths that
     ended with the remote's live entry and did not have it, resolved are those on which neither side was the
     later, and pushed those sealed by the scan and those whose conflict ended with something new.
     */
    lemma ReportIsTrue(births: map<BlobId, Birth>, w: Replica, a: Attempt, base: Manifest, report: Report, p: Path)
      requires Prefaced(w, a, base, report) && p in managed
      requires var scanned := ScanAll(w, managed, ctx.device, a.ids);
        && KnownOption(births, p, Lookup(scanned.local.entries, p)) && KnownOption(births, p, Lookup(base.entries, p))
        && Roomy(scanned, base, ctx.device, p)
        && (p in base.entries ==> IdFor(a.reseals, p) != base.entries[p].blobId)
      ensures var scanned := ScanAll(w, managed, ctx.device, a.ids);
        var before, r := Lookup(scanned.local.entries, p), Lookup(base.entries, p);
        var after := PathAfter(scanned, managed, ctx, base, a.reseals, p).entry;
        && (p in report.pulled <==> r.Some? && !r.value.deleted && before != r && after == r)
        && (p in report.conflictsResolved <==> Contested(before, r))
        && (p in report.pushed <==> p in Staged(w, managed) || (Contested(before, r) && after != r))
    {
      var scanned := ScanAll(w, managed, ctx.device, a.ids);
      var l, r := scanned.local.entries, base.entries;
      ListedIff(Pulls, a.ops, l, r, p);
      ListedIff(Taken, a.ops, l, r, p);
      ListedIff(Pushed, a.ops, l, r, p);
      ListedIff(Conflicts, a.ops, l, r, p);
      hide ScanAll, Staged, IsDiff, Of, Completes, InPathOrder, Known, Ends, HappensBefore, Merge;
      if p in l || p in r { PathReported(births, scanned, base, a.reseals, p); }
    }

    /** Both sides have the path, and neither is the other or the later one. */
    static predicate Contested(l: Option<Entry>, r: Option<Entry>) {
      && l.Some? && r.Some? && l != r
      && !HappensBefore(l.value.clock, r.value.clock) && !HappensBefore(r.value.clock, l.value.clock)
    }

    lemma PathReported(births: map<BlobId, Birth>, w: Replica, base: Manifest, ids: map<Path, BlobId>, p: Path)
      requires Concerns(w, managed, base, p) && Completes(w, managed, ctx, base, ids)
      requires KnownOption(births, p, Lookup(w.local.entries, p)) && KnownOption(births, p, Lookup(base.entries, p))
      requires Roomy(w, base, ctx.device, p) && (p in base.entries ==> IdFor(ids, p) != base.entries[p].blobId)
      ensures var before, r, after := Lookup(w.local.entries, p), Lookup(base.entries, p), PathAfter(w, managed, ctx, base, ids, p).entry;
        var op := ClassifyAt(w.local.entries, base.entries, p);
        && (Lists(Pulls, op) || Lists(Taken, op) <==> r.Some? && !r.value.deleted && before != r && after == r)
        && (Lists(Conflicts, op) <==> Contested(before, r))
        && (Lists(Pushed, op) <==> Contested(before, r) && after != r)
    {
      var before, r := Lookup(w.local.entries, p), Lookup(base.entries, p);
      var op := ClassifyAt(w.local.entries, base.entries, p);
      assert OutcomeAt(w, managed, ctx, base, ids, p).Applied?;
      PulledEntry(p, before, r);
      ClassifyExactly(p, before, r);
      hide Completes, Known, Ends, HappensBefore, Resolve, ApplyResolution, Classify;
      if op.Conflicting? { EndSeen(births, op, w.local.version, At(w, p), IdFor(ids, p)); }
    }

    // ---- what a caller gets -------------------------------------------------------------------------

    /** After a completed sync disk and manifest agree, and the push is monotone over what it replaced. */
    lemma CompletedIsSound(births: map<BlobId, Birth>, w: Replica, wrote: seq<Written>, run: Run, report: Report)
      requires Completed(w, wrote, run, report)
      requires Pedigreed(births, ScanAll(w, managed, ctx.device, run.first.ids).local.entries)
      requires Pedigreed(births, Prepared(w, managed, ctx, run.bases[0], run.first.ids, run.first.reseals).local.entries)
      requires forall i | 0 <= i < |run.bases| :: Pedigreed(births, run.bases[i].entries)
      ensures AllAgree(State(), managed)
      ensures Replaces(run.before, run.bases[|run.bases| - 1]) && MonotonePush(run.bases[|run.bases| - 1], run.pushed)
    {
      hide Pedigreed, Prepared, SyncOver, MonotonePush, AllAgree, Completes, Replaces, Sourced, OnlyBlobs, Put, AfterPut;
      SyncOverIsSound(births, w, managed, ctx, run.bases, run.first.ids, run.first.reseals);
    }

    /** So they do after an aborted one. */
    lemma AbortedStillAgrees(births: map<BlobId, Birth>, w: Replica, a: Attempt, report: Report, base: Manifest)
      requires Begun(w, a, report, base) && report.aborted
      requires Pedigreed(births, ScanAll(w, managed, ctx.device, a.ids).local.entries) && Pedigreed(births, base.entries)
      ensures AllAgree(State(), managed)
    {
      hide Pedigreed, Applying, AllAgree, IsDiff, InPathOrder, StoppedAt, ScanAll;
      ScanAllAgrees(w, managed, ctx.device, a.ids);
      PartWayAgrees(births, State(), ScanAll(w, managed, ctx.device, a.ids), managed, ctx, base, a.reseals, a.done);
    }
  }
}
