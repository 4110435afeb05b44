/** How far a running sync has come: which paths are in the state the whole sync gives them. */
module Progress {
  import opened Prelude
  import opened Manifests
  import opened Conflicts
  import opened Diffs
  import opened Sealing
  import opened Stores
  import opened Paths
  import opened Replicas
  import opened SyncModel

  predicate SameHead(a: Manifest, b: Manifest) {
    a.version == b.version && a.clock == b.clock && a.deviceId == b.deviceId
  }

  // ---- the first attempt ------------------------------------------------------------------------

  /** From `w`, the paths in `done` have been applied and the others not touched. */
  ghost predicate Applying(s: Replica, w: Replica, managed: Managed, ctx: Context, base: Manifest, ids: map<Path, BlobId>,
      done: set<Path>)
  {
    && SameHead(s.local, w.local)
    && (forall p :: (At(s, p) == if p in done then PathAfter(w, managed, ctx, base, ids, p) else At(w, p)))
    && (forall p | p in done && Concerns(w, managed, base, p) :: OutcomeAt(w, managed, ctx, base, ids, p).Applied?)
  }

  lemma ApplyingStarts(w: Replica, managed: Managed, ctx: Context, base: Manifest, ids: map<Path, BlobId>)
    ensures Applying(w, w, managed, ctx, base, ids, {})
  {}

  /** A pull does not depend on what the path held before, so it may also be repeated. */
  lemma PullApplies(s: Replica, w: Replica, managed: Managed, ctx: Context, base: Manifest, ids: map<Path, BlobId>,
      done: set<Path>, p: Path, s2: Replica)
    requires Applying(s, w, managed, ctx, base, ids, done)
    requires Concerns(w, managed, base, p)
    requires IsPull(ClassifyAt(w.local.entries, base.entries, p))
    requires s2 == With(s, p, RetryPath(ClassifyAt(w.local.entries, base.entries, p), At(s, p), ctx.now))
    ensures Applying(s2, w, managed, ctx, base, ids, done + {p})
  {
    var op := ClassifyAt(w.local.entries, base.entries, p);
    hide Classify, Resolve, ApplyResolution;
    assert OutcomeAt(w, managed, ctx, base, ids, p) == Applied(RetryPath(op, At(w, p), ctx.now));
    assert RetryPath(op, At(s, p), ctx.now) == RetryPath(op, At(w, p), ctx.now);
    hide OutcomeAt, At, With, RetryPath;
    forall q ensures (At(s2, q) == if q in done + {p} then PathAfter(w, managed, ctx, base, ids, q) else At(w, q)) {
      WithAt(s, p, RetryPath(op, At(s, p), ctx.now), q);
    }
    WithAt(s, p, RetryPath(op, At(s, p), ctx.now), p);
  }

  lemma IdElsewhere(w: Replica, managed: Managed, ctx: Context, base: Manifest, ids: map<Path, BlobId>, p: Path, id: BlobId, q: Path)
    requires q != p
    ensures PathAfter(w, managed, ctx, base, ids[p := id], q) == PathAfter(w, managed, ctx, base, ids, q)
    ensures Concerns(w, managed, base, q) ==>
      OutcomeAt(w, managed, ctx, base, ids[p := id], q) == OutcomeAt(w, managed, ctx, base, ids, q)
  {}

  /** A conflict on a path not reached before. */
  lemma ConflictApplies(s: Replica, w: Replica, managed: Managed, ctx: Context, base: Manifest, ids: map<Path, BlobId>,
      done: set<Path>, p: Path, id: BlobId, s2: Replica)
    requires Applying(s, w, managed, ctx, base, ids, done)
    requires Concerns(w, managed, base, p) && p !in done
    requires OutcomeAt(w, managed, ctx, base, ids[p := id], p).Applied?
    requires s2 == With(s, p, OutcomeAt(w, managed, ctx, base, ids[p := id], p).state)
    ensures Applying(s2, w, managed, ctx, base, ids[p := id], done + {p})
  {
    var state := OutcomeAt(w, managed, ctx, base, ids[p := id], p).state;
    assert PathAfter(w, managed, ctx, base, ids[p := id], p) == state;
    hide OutcomeAt, At, With, PathAfter;
    forall q
      ensures (At(s2, q) == if q in done + {p} then PathAfter(w, managed, ctx, base, ids[p := id], q) else At(w, q))
      ensures q in done + {p} && Concerns(w, managed, base, q) ==> OutcomeAt(w, managed, ctx, base, ids[p := id], q).Applied?
    {
      WithAt(s, p, state, q);
      if q != p { IdElsewhere(w, managed, ctx, base, ids, p, id, q); }
    }
    WithAt(s, p, state, p);
  }

  /** One more path, with the id it was given beforehand. */
  lemma PathApplies(s: Replica, w: Replica, managed: Managed, ctx: Context, base: Manifest, ids: map<Path, BlobId>,
      done: set<Path>, p: Path, s2: Replica)
    requires Applying(s, w, managed, ctx, base, ids, done)
    requires Concerns(w, managed, base, p)
    requires OutcomeAt(w, managed, ctx, base, ids, p).Applied?
    requires s2 == With(s, p, OutcomeAt(w, managed, ctx, base, ids, p).state)
    ensures Applying(s2, w, managed, ctx, base, ids, done + {p})
  {
    var state := OutcomeAt(w, managed, ctx, base, ids, p).state;
    assert PathAfter(w, managed, ctx, base, ids, p) == state;
    hide OutcomeAt, At, With, PathAfter;
    forall q ensures (At(s2, q) == if q in done + {p} then PathAfter(w, managed, ctx, base, ids, q) else At(w, q)) {
      WithAt(s, p, state, q);
    }
    WithAt(s, p, state, p);
  }

  /** A path with nothing to do. */
  lemma IdleApplies(s: Replica, w: Replica, managed: Managed, ctx: Context, base: Manifest, ids: map<Path, BlobId>,
      done: set<Path>, p: Path)
    requires Applying(s, w, managed, ctx, base, ids, done)
    requires Concerns(w, managed, base, p) ==>
      var op := ClassifyAt(w.local.entries, base.entries, p); op.InSync? || IsPush(op)
    ensures Applying(s, w, managed, ctx, base, ids, done + {p})
  {
    hide Classify;
    var after := PathAfter(w, managed, ctx, base, ids, p);
    assert after == At(w, p);
    assert Concerns(w, managed, base, p) ==> OutcomeAt(w, managed, ctx, base, ids, p).Applied?;
    hide OutcomeAt, At, PathAfter;
  }

  /** When no path is left the replica is the one the specification gives. */
  lemma AppliedAll(s: Replica, w: Replica, managed: Managed, ctx: Context, base: Manifest, ids: map<Path, BlobId>, done: set<Path>)
    requires Applying(s, w, managed, ctx, base, ids, done)
    requires forall p | p in w.local.entries || p in base.entries :: p in done
    ensures s == ApplyAll(w, managed, ctx, base, ids)
    ensures Completes(w, managed, ctx, base, ids)
  {
    hide OutcomeAt, At;
    forall p ensures At(s, p) == At(ApplyAll(w, managed, ctx, base, ids), p) {
      ApplyAllAt(w, managed, ctx, base, ids, p);
    }
    SamePathsSameReplica(s, ApplyAll(w, managed, ctx, base, ids));
  }

  /** Wherever a sync stops, disk and manifest agree. */
  lemma PartWayAgrees(births: map<BlobId, Birth>, s: Replica, w: Replica, managed: Managed, ctx: Context, base: Manifest,
      ids: map<Path, BlobId>, done: set<Path>)
    requires Applying(s, w, managed, ctx, base, ids, done)
    requires Pedigreed(births, w.local.entries) && Pedigreed(births, base.entries)
    requires AllAgree(w, managed)
    ensures AllAgree(s, managed)
  {
    hide Agrees, Pedigreed;
    forall p | p in managed ensures Agrees(At(s, p).entry, At(s, p).file) {
      AppliedPathAgrees(births, w, managed, ctx, base, ids, p);
    }
  }

  lemma AppliedPathAgrees(births: map<BlobId, Birth>, w: Replica, managed: Managed, ctx: Context, base: Manifest,
      ids: map<Path, BlobId>, p: Path)
    requires p in managed
    requires Pedigreed(births, w.local.entries) && Pedigreed(births, base.entries)
    requires AllAgree(w, managed)
    ensures Agrees(PathAfter(w, managed, ctx, base, ids, p).entry, PathAfter(w, managed, ctx, base, ids, p).file)
  {
    PedigreedAt(births, w.local.entries, p);
    PedigreedAt(births, base.entries, p);
    hide Known, Agrees, ApplyPath, Classify;
    var s, r := At(w, p), Lookup(base.entries, p);
    if Concerns(w, managed, base, p) {
      ClassifyPath(p, s.entry, r);
      ApplyKeepsAgreement(births, ctx, managed[p], ClassifyAt(w.local.entries, base.entries, p), w.local.version, s, r, IdFor(ids, p));
    }
  }

  // ---- a retry --------------------------------------------------------------------------------------

  ghost predicate Retrying(s: Replica, w: Replica, managed: Managed, now: nat, base: Manifest, done: set<Path>) {
    && SameHead(s.local, w.local)
    && (forall p :: (At(s, p) == if p in done then PathRetried(w, managed, now, base, p) else At(w, p)))
  }

  lemma RetryingStarts(w: Replica, managed: Managed, now: nat, base: Manifest)
    ensures Retrying(w, w, managed, now, base, {})
  {}

  lemma PullRetried(s: Replica, w: Replica, managed: Managed, now: nat, base: Manifest, done: set<Path>, p: Path, s2: Replica)
    requires Retrying(s, w, managed, now, base, done)
    requires Concerns(w, managed, base, p) && p !in done
    requires s2 == With(s, p, RetryPath(ClassifyAt(w.local.entries, base.entries, p), At(s, p), now))
    ensures Retrying(s2, w, managed, now, base, done + {p})
  {
    var op := ClassifyAt(w.local.entries, base.entries, p);
    assert PathRetried(w, managed, now, base, p) == RetryPath(op, At(w, p), now);
    hide At, With, RetryPath, Classify, PathRetried;
    forall q ensures (At(s2, q) == if q in done + {p} then PathRetried(w, managed, now, base, q) else At(w, q)) {
      WithAt(s, p, RetryPath(op, At(s, p), now), q);
    }
    WithAt(s, p, RetryPath(op, At(s, p), now), p);
  }

  lemma IdleRetried(s: Replica, w: Replica, managed: Managed, now: nat, base: Manifest, done: set<Path>, p: Path)
    requires Retrying(s, w, managed, now, base, done)
    requires Concerns(w, managed, base, p) ==> !IsPull(ClassifyAt(w.local.entries, base.entries, p))
    ensures Retrying(s, w, managed, now, base, done + {p})
  {
    hide Classify;
    assert PathRetried(w, managed, now, base, p) == At(w, p);
    hide At, PathRetried;
  }

  lemma RetriedAll(s: Replica, w: Replica, managed: Managed, now: nat, base: Manifest, done: set<Path>)
    requires Retrying(s, w, managed, now, base, done)
    requires forall p | p in w.local.entries || p in base.entries :: p in done
    ensures s == RetryAll(w, managed, now, base)
  {
    hide At, RetryAll;
    forall p ensures At(s, p) == At(RetryAll(w, managed, now, base), p) {
      RetryAllAt(w, managed, now, base, p);
    }
    RetryAllHead(w, managed, now, base);
    SamePathsSameReplica(s, RetryAll(w, managed, now, base));
  }

  lemma RetryAllHead(w: Replica, managed: Managed, now: nat, base: Manifest)
    ensures SameHead(RetryAll(w, managed, now, base).local, w.local)
  {}

  // ---- where the blobs of the entries come from -----------------------------------------------------

  /** This client put both blobs of the entry, sealed for this path. */
  ghost predicate Backed(written: seq<Written>, p: Path, e: Entry) {
    var header := SealHeader(e.blobId, p, e.aadVersion);
    && Written(HeaderKey(e.blobId), HeaderObject(header), None) in written
    && Written(BodyKey(e.blobId), BodyObject(Body(header, e.contentHash.preimage)), None) in written
  }

  function NamedBy(m: Manifest): set<(Path, BlobId)> {
    set p | p in m.entries :: (p, m.entries[p].blobId)
  }

  ghost predicate Sourced(m: Manifest, named: set<(Path, BlobId)>, written: seq<Written>) {
    forall p | p in m.entries :: (p, m.entries[p].blobId) in named || Backed(written, p, m.entries[p])
  }

  lemma SourcedGrows(m: Manifest, named: set<(Path, BlobId)>, written: seq<Written>, n2: set<(Path, BlobId)>, w2: seq<Written>)
    requires Sourced(m, named, written) && named <= n2
    requires forall x | x in written :: x in w2
    ensures Sourced(m, n2, w2)
  {}

  lemma SourcedUpdate(m: Manifest, named: set<(Path, BlobId)>, written: seq<Written>, p: Path, e: Entry, m2: Manifest)
    requires Sourced(m, named, written)
    requires (p, e.blobId) in named || Backed(written, p, e)
    requires m2.entries == m.entries[p := e]
    ensures Sourced(m2, named, written)
  {}

  /** Merging unmanaged paths adds only blobs the fetched manifest names. */
  lemma OutgoingSourced(local: Manifest, base: Manifest, managed: set<Path>, named: set<(Path, BlobId)>, written: seq<Written>)
    requires Sourced(local, named, written) && NamedBy(base) <= named
    ensures Sourced(Outgoing(local, base, managed), named, written)
  {
    var out := Outgoing(local, base, managed);
    hide Outgoing, Backed;
    forall p | p in out.entries ensures (p, out.entries[p].blobId) in named || Backed(written, p, out.entries[p]) {
      OutgoingAt(local, base, managed, p);
      OutgoingComesFrom(local.entries, base.entries, managed, p);
      if p in base.entries { assert (p, base.entries[p].blobId) in NamedBy(base); }
    }
  }

  lemma OutgoingComesFrom(l: map<Path, Entry>, r: map<Path, Entry>, managed: set<Path>, p: Path)
    ensures OutgoingEntry(l, r, managed, p) == Lookup(l, p) || OutgoingEntry(l, r, managed, p) == Lookup(r, p)
  {}

  // ---- reads amid the puts of others ----------------------------------------------------------------------

  /** The header is read, then the body. */
  function ReadInTurn(one: Objects, two: Objects, id: BlobId): Result<(Object, Object), SyncError> {
    if HeaderKey(id) in one && BodyKey(id) in two then Ok((one[HeaderKey(id)].data, two[BodyKey(id)].data)) else Err(Storage(NotFound))
  }

  /** At two instants in this stretch the entry's blobs are not both there, or do not open as its content. */
  ghost predicate Unreadable(from: Objects, to: Objects, p: Path, e: Entry) {
    exists one, two :: Between(from, one, two, to) && Unopened(one, two, p, e)
  }

  predicate Unopened(one: Objects, two: Objects, p: Path, e: Entry) {
    var blobs := ReadInTurn(one, two, e.blobId);
    blobs.Err? || OpenPair(blobs.value.0, blobs.value.1, p, e).Err?
  }

  ghost predicate Between(from: Objects, one: Objects, two: Objects, to: Objects) {
    Evolves(from, one) && Evolves(one, two) && Evolves(two, to)
  }

  lemma UnreadableWithin(a: Objects, from: Objects, to: Objects, z: Objects, p: Path, e: Entry)
    requires Unreadable(from, to, p, e) && Evolves(a, from) && Evolves(to, z)
    ensures Unreadable(a, z, p, e)
  {
    hide Evolves, Unopened;
    var one, two :| Between(from, one, two, to) && Unopened(one, two, p, e);
    EvolvesTransitive(a, from, one);
    EvolvesTransitive(two, to, z);
    assert Between(a, one, two, z);
  }

  /** On a store that others leave alone this is that the entry cannot be fetched. */
  lemma UnreadableAlone(objects: Objects, p: Path, e: Entry)
    ensures Unreadable(objects, objects, p, e) <==> FetchBlob(objects, p, e).Err?
  {
    hide OpenPair;
    forall one, two | Between(objects, one, two, objects) ensures one == objects && two == objects {
      Sandwiched(objects, one, two);
    }
    assert Between(objects, objects, objects, objects);
    assert FetchBlob(objects, p, e).Err? <==> Unopened(objects, objects, p, e);
    hide Between, Unopened, FetchBlob;
  }

  lemma Sandwiched(a: Objects, b: Objects, c: Objects)
    requires Evolves(a, b) && Evolves(b, c) && Evolves(c, a)
    ensures b == a && c == a
  {
    forall k | k in a ensures k in b && k in c && b[k] == a[k] && c[k] == a[k] {
      assert Succeeds(a[k], b[k]) && Succeeds(b[k], c[k]) && Succeeds(c[k], a[k]);
    }
    forall k | k in b || k in c ensures k in a {}
    assert a.Keys == b.Keys == c.Keys;
  }

  // ---- what a sync without other clients leaves of a store ------------------------------------------------

  /** Beside the blobs of these ids nothing has changed. */
  ghost predicate Beside(before: Objects, after: Objects, ids: set<BlobId>) {
    forall k: Key | k.ManifestKey? || k.id !in ids :: Lookup(after, k) == Lookup(before, k)
  }

  lemma BesideNothing(objects: Objects, ids: set<BlobId>)
    ensures Beside(objects, objects, ids)
  {}

  lemma BesideOneMore(before: Objects, objects: Objects, ids: set<BlobId>, id: BlobId, after: Objects)
    requires Beside(before, objects, ids) && Beside(objects, after, {id}) && id in ids
    ensures Beside(before, after, ids)
  {
    forall k: Key | k.ManifestKey? || k.id !in ids ensures Lookup(after, k) == Lookup(before, k) {
      assert Lookup(objects, k) == Lookup(before, k);
    }
  }

  function IdsOf(tape: seq<BlobId>): set<BlobId> {
    set id | id in tape
  }

  /** Some ids were drawn from the tape, and no other blobs were put. */
  ghost predicate Quietly(before: Objects, tape: seq<BlobId>, after: Objects, left: seq<BlobId>) {
    && |left| <= |tape| && tape[|tape| - |left|..] == left
    && Beside(before, after, IdsOf(tape))
  }

  lemma QuietlyStarts(objects: Objects, tape: seq<BlobId>)
    ensures Quietly(objects, tape, objects, tape)
  {}

  lemma OneDrawn(before: Objects, tape: seq<BlobId>, after: Objects, id: BlobId, left: seq<BlobId>)
    requires tape == [id] + left && Beside(before, after, {id})
    ensures Quietly(before, tape, after, left)
  {
    assert id in IdsOf(tape);
    assert tape[1..] == left;
  }

  lemma QuietlyGoesOn(a: Objects, t: seq<BlobId>, b: Objects, u: seq<BlobId>, c: Objects, v: seq<BlobId>)
    requires Quietly(a, t, b, u) && Quietly(b, u, c, v)
    ensures Quietly(a, t, c, v)
  {
    assert t[|t| - |v|..] == u[|u| - |v|..];
    assert IdsOf(u) <= IdsOf(t);
    forall k: Key | k.ManifestKey? || k.id !in IdsOf(t) ensures Lookup(c, k) == Lookup(a, k) {
      assert Lookup(b, k) == Lookup(a, k);
    }
  }

  /** No id on the tape is named by the manifest. */
  ghost predicate NewIds(tape: seq<BlobId>, base: Manifest) {
    forall p | p in base.entries :: base.entries[p].blobId !in tape
  }

  lemma NewIdsStay(tape: seq<BlobId>, left: seq<BlobId>, base: Manifest)
    requires NewIds(tape, base) && |left| <= |tape| && tape[|tape| - |left|..] == left
    ensures NewIds(left, base)
  {}

  /** Then what the manifest names is served as before. */
  lemma BlobsStay(before: Objects, tape: seq<BlobId>, after: Objects, left: seq<BlobId>, base: Manifest, p: Path, e: Entry)
    requires Quietly(before, tape, after, left) && NewIds(tape, base) && Lookup(base.entries, p) == Some(e)
    ensures FetchBlob(after, p, e) == FetchBlob(before, p, e)
  {
    assert e.blobId !in IdsOf(tape);
    assert Lookup(after, HeaderKey(e.blobId)) == Lookup(before, HeaderKey(e.blobId));
    assert Lookup(after, BodyKey(e.blobId)) == Lookup(before, BodyKey(e.blobId));
    hide OpenPair;
  }

  lemma ManifestStays(before: Objects, tape: seq<BlobId>, after: Objects, left: seq<BlobId>)
    requires Quietly(before, tape, after, left)
    ensures ListedEtag(after) == ListedEtag(before)
    ensures forall etag, anchored, seen, now ::
      FetchManifest(after, etag, anchored, seen, now) == FetchManifest(before, etag, anchored, seen, now)
  {
    assert Lookup(after, ManifestKey) == Lookup(before, ManifestKey);
    hide OpenFetched;
  }

  // ---- what was put -----------------------------------------------------------------------------------

  /** `after` continues `before`, and the continuation puts no manifest. */
  ghost predicate OnlyBlobs(before: seq<Written>, after: seq<Written>) {
    && before <= after
    && forall i | |before| <= i < |after| :: after[i].key != ManifestKey
  }

  function ManifestCount(objects: Objects): nat {
    if ManifestKey in objects then objects[ManifestKey].version else 0
  }

  /**
   The etag was listed before the bytes were read. If it still holds when the manifest is put, the
   manifest replaced is the one that was fetched.
   */
  ghost predicate Replaces(before: Objects, base: Manifest) {
    if ManifestKey in before
    then before[ManifestKey].data.ManifestObject? && before[ManifestKey].data.manifest == base
    else base == EMPTY_MANIFEST
  }

  /** The attempt listed, then read, and made of it `base` and the guard `etag`; it is `objects` now. */
  ghost predicate Pinned(listed: Objects, read: Objects, objects: Objects, anchored: bool, seen: u64, now: nat,
      base: Manifest, etag: Option<Etag>)
  {
    && Evolves(listed, read) && Evolves(read, objects)
    && var fetched := FetchManifest(read, ListedEtag(listed), anchored, seen, now);
       fetched.Ok? && fetched.value.0 == base && fetched.value.1 == etag
  }

  lemma AcceptedIsPinned(listed: Objects, read: Objects, objects: Objects, anchored: bool, seen: u64, now: nat, retry: bool)
    requires Evolves(listed, read) && Evolves(read, objects)
    requires AcceptFetched(FetchManifest(read, ListedEtag(listed), anchored, seen, now), retry, anchored).Ok?
    ensures var accepted := AcceptFetched(FetchManifest(read, ListedEtag(listed), anchored, seen, now), retry, anchored).value;
      Pinned(listed, read, objects, anchored, seen, now, accepted.0, accepted.1)
  {
    hide Evolves;
  }

  lemma PinnedStays(listed: Objects, read: Objects, objects: Objects, anchored: bool, seen: u64, now: nat,
      base: Manifest, etag: Option<Etag>, later: Objects)
    requires Pinned(listed, read, objects, anchored, seen, now, base, etag) && Evolves(objects, later)
    ensures Pinned(listed, read, later, anchored, seen, now, base, etag)
  {
    EvolvesTransitive(read, objects, later);
  }

  lemma GuardPinsTheManifest(listed: Objects, read: Objects, before: Objects, anchored: bool, seen: u64, now: nat,
      base: Manifest, etag: Option<Etag>)
    requires Pinned(listed, read, before, anchored, seen, now, base, etag)
    requires GuardHolds(before, ManifestKey, PutGuard(etag))
    ensures Replaces(before, base)
  {}

  /** If it does not hold, somebody else has pushed since the listing. */
  lemma RefusalMeansAPush(listed: Objects, read: Objects, before: Objects, anchored: bool, seen: u64, now: nat,
      base: Manifest, etag: Option<Etag>)
    requires Pinned(listed, read, before, anchored, seen, now, base, etag)
    requires !GuardHolds(before, ManifestKey, PutGuard(etag))
    ensures ManifestCount(listed) < ManifestCount(before)
  {
    EvolvesTransitive(listed, read, before);
  }

  /**
   The refusal of a manifest the listing does not show: on a store that only serves manifests there
   it fires exactly when the first push falls between the listing and the read.
   */
  lemma NoEtagRefusalIff(listed: Objects, read: Objects, anchored: bool, seen: u64, now: nat)
    requires Evolves(listed, read) && ManifestKey in read && read[ManifestKey].data.ManifestObject?
    requires read[ManifestKey].data.len <= MAX_MANIFEST_OBJECT_BYTES
    ensures FetchManifest(read, ListedEtag(listed), anchored, seen, now) == Err(Refused(ListingHasNoEtag))
      <==> ManifestKey !in listed
  {}

  lemma CountsRise(a: Objects, b: Objects)
    requires Evolves(a, b)
    ensures ManifestCount(a) <= ManifestCount(b)
  {
    if ManifestKey in a { assert Succeeds(a[ManifestKey], b[ManifestKey]); }
  }

  function NamedByAll(bases: seq<Manifest>): set<(Path, BlobId)> {
    if bases == [] then {} else NamedByAll(bases[..|bases| - 1]) + NamedBy(bases[|bases| - 1])
  }
}
