/** The object store: what an atomic `RemoteStore` holds and how each operation changes it. */
module Stores {
  import opened Prelude
  import opened Manifests
  import opened Sealing

  datatype Key = ManifestKey | HeaderKey(id: BlobId) | BodyKey(id: BlobId)

  datatype Object =
    | ManifestObject(manifest: Manifest, sealedAt: nat, len: nat)
    | HeaderObject(header: Header)
    | BodyObject(body: Body)
    | Foreign

  /** An object with the counter its etag spells out. */
  datatype Versioned<V> = Versioned(version: nat, data: V)

  /** An expected etag: the empty string ("must be absent") or a counter. */
  datatype Etag = Absent | Counter(n: nat)

  type Counted<K, V> = map<K, Versioned<V>>

  type Objects = Counted<Key, Object>

  predicate GuardHolds<K, V>(objects: Counted<K, V>, k: K, want: Option<Etag>) {
    want.Some? ==>
      if k in objects then want.value == Counter(objects[k].version) else want.value == Absent
  }

  function NextVersion<K, V>(objects: Counted<K, V>, k: K): nat {
    if k in objects then objects[k].version + 1 else 1
  }

  function AfterPut<K, V>(objects: Counted<K, V>, k: K, data: V): Counted<K, V> {
    objects[k := Versioned(NextVersion(objects, k), data)]
  }

  /**
   Everything other clients can do to a store they only put to: objects stay, counters never go
   down, and a counter names one value.
   */
  ghost predicate Evolves(before: Objects, after: Objects) {
    && Numbered(before, after)
    && forall k | k in before :: k in after && Succeeds(before[k], after[k])
  }

  predicate Succeeds(a: Versioned<Object>, b: Versioned<Object>) {
    a.version <= b.version && (a.version == b.version ==> a == b)
  }

  /** Counters start at one. */
  ghost predicate Numbered(before: Objects, after: Objects) {
    forall k | k in after && k !in before :: after[k].version >= 1
  }

  lemma EvolvesTransitive(a: Objects, b: Objects, c: Objects)
    requires Evolves(a, b) && Evolves(b, c)
    ensures Evolves(a, c)
  {
    forall k | k in a ensures k in c && Succeeds(a[k], c[k]) {
      assert k in b;
    }
    forall k | k in c && k !in a ensures c[k].version >= 1 {
      if k in b { assert Succeeds(b[k], c[k]); }
    }
  }

  lemma PutEvolves(objects: Objects, k: Key, data: Object)
    ensures Evolves(objects, AfterPut(objects, k, data))
  {}

  // ---- what the engine makes of an answer ---------------------------------------------------

  const MAX_CAS_RETRIES := 3

  /** The etag a listing shows for the manifest. */
  function ListedEtag(objects: Objects): Option<Etag> {
    if ManifestKey in objects then Some(Counter(objects[ManifestKey].version)) else None
  }

  /** The guard of the manifest put: the listed etag, or "must be absent". */
  function PutGuard(etag: Option<Etag>): Option<Etag> {
    if etag.Some? then etag else Some(Absent)
  }

  /** `fetch_remote_manifest`, given the etag its listing showed and the store at the read. */
  function FetchManifest(objects: Objects, etag: Option<Etag>, anchored: bool, seenVersion: u64, now: nat)
    : Result<(Manifest, Option<Etag>, bool), SyncError>
  {
    if ManifestKey !in objects then Ok((EMPTY_MANIFEST, None, false))
    else OpenFetched(objects[ManifestKey].data, etag, anchored, seenVersion, now)
  }

  function OpenFetched(data: Object, etag: Option<Etag>, anchored: bool, seenVersion: u64, now: nat)
    : Result<(Manifest, Option<Etag>, bool), SyncError>
  {
    match data
    case ManifestObject(m, sealedAt, len) =>
      if len > MAX_MANIFEST_OBJECT_BYTES then Err(Refused(ObjectTooLarge))
      else if etag.None? then Err(Refused(ListingHasNoEtag))
      else if Freshness(sealedAt, anchored, now).Some? then Err(Refused(Freshness(sealedAt, anchored, now).value))
      else if m.version < seenVersion then Err(Refused(Rollback))
      else Ok((m, etag, true))
    case _ => if etag.None? then Err(Refused(ListingHasNoEtag)) else Err(Refused(NotAFrame))
  }

  /** The engine's check on a missing manifest, on the first attempt and on a retry. */
  function AcceptFetched(fetched: Result<(Manifest, Option<Etag>, bool), SyncError>, retry: bool, anchored: bool)
    : Result<(Manifest, Option<Etag>), SyncError>
  {
    match fetched
    case Err(e) => Err(e)
    case Ok((m, etag, present)) =>
      if !present && retry then Err(Refused(Vanished))
      else if !present && anchored then Err(Refused(StoreForgotHistory))
      else Ok((m, etag))
  }

  /** What a manifest object must be to be read at all: a frame within the cap, listed, and sealed within the time windows. */
  predicate Readable(data: Object, etag: Option<Etag>, anchored: bool, now: nat) {
    && data.ManifestObject? && data.len <= 64 * 1024 * 1024
    && etag.Some?
    && Freshness(data.sealedAt, anchored, now).None?
  }

  /**
   A fetch is accepted exactly when it brings a readable manifest that is not older than the last one
   seen, or there is none and neither an attempt before nor the device's cache says there was. What is
   accepted is what was read. The three refusals that speak of the store's past fire exactly then.
   */
  lemma AcceptedIff(objects: Objects, etag: Option<Etag>, anchored: bool, seen: u64, now: nat, retry: bool)
    ensures var fetched := FetchManifest(objects, etag, anchored, seen, now);
      var accepted := AcceptFetched(fetched, retry, anchored);
      if ManifestKey !in objects then
        && (accepted == Err(Refused(Vanished)) <==> retry)
        && (accepted == Err(Refused(StoreForgotHistory)) <==> anchored && !retry)
        && (accepted == Ok((EMPTY_MANIFEST, None)) <==> !anchored && !retry)
      else
        var data := objects[ManifestKey].data;
        && (accepted == Err(Refused(Rollback)) <==> Readable(data, etag, anchored, now) && data.manifest.version < seen)
        && (accepted.Ok? <==> Readable(data, etag, anchored, now) && seen <= data.manifest.version)
        && (accepted.Ok? ==> accepted.value == (data.manifest, etag))
  {}

  /** No accepted manifest is older than the last one seen: not even the empty one of a store that has none. */
  lemma AcceptedIsNotRolledBack(objects: Objects, etag: Option<Etag>, anchored: bool, seen: u64, now: nat, retry: bool)
    requires !anchored ==> seen == 0
    requires AcceptFetched(FetchManifest(objects, etag, anchored, seen, now), retry, anchored).Ok?
    ensures seen <= AcceptFetched(FetchManifest(objects, etag, anchored, seen, now), retry, anchored).value.0.version
  {}

  /** Opening the two objects an entry names, each of which the store may have replaced. */
  function OpenPair(header: Object, body: Object, p: Path, e: Entry): Result<Bytes, SyncError> {
    match (header, body)
    case (HeaderObject(h), BodyObject(b)) => AuthenticateAndOpen(h, b, p, e)
    case _ => Err(Refused(BlobIdMismatch))
  }

  function FetchBlob(objects: Objects, p: Path, e: Entry): Result<Bytes, SyncError> {
    if HeaderKey(e.blobId) !in objects || BodyKey(e.blobId) !in objects then Err(Storage(NotFound))
    else OpenPair(objects[HeaderKey(e.blobId)].data, objects[BodyKey(e.blobId)].data, p, e)
  }

  /** The in-memory store: a locked map whose methods are atomic. */
  class MemoryStore<K(==), V> {
    var objects: Counted<K, V>

    constructor ()
      ensures objects == map[]
    {
      objects := map[];
    }

    /** The etag a listing shows for a name. */
    method List(k: K) returns (etag: Option<Etag>)
      ensures etag == if k in objects then Some(Counter(objects[k].version)) else None
    {
      etag := if k in objects then Some(Counter(objects[k].version)) else None;
    }

    method Get(k: K) returns (r: Result<V, StorageError>)
      ensures r == if k in objects then Ok(objects[k].data) else Err(NotFound)
    {
      r := if k in objects then Ok(objects[k].data) else Err(NotFound);
    }

    method Put(k: K, data: V, ifMatch: Option<Etag>) returns (r: Result<Etag, StorageError>)
      modifies this
      ensures r.Ok? <==> GuardHolds(old(objects), k, ifMatch)
      ensures r.Ok? ==> objects == AfterPut(old(objects), k, data) && r.value == Counter(objects[k].version)
      ensures r.Err? ==> r.error == PreconditionFailed && objects == old(objects)
    {
      if ifMatch.Some? {
        if k in objects {
          if ifMatch.value != Counter(objects[k].version) { return Err(PreconditionFailed); }
        } else if ifMatch.value != Absent {
          return Err(PreconditionFailed);
        }
      }
      var next := if k in objects then objects[k].version + 1 else 1;
      objects := objects[k := Versioned(next, data)];
      r := Ok(Counter(next));
    }

    method Delete(k: K) returns (r: Result<(), StorageError>)
      modifies this
      ensures r == if k in old(objects) then Ok(()) else Err(NotFound)
      ensures objects == old(objects) - {k}
    {
      r := if k in objects then Ok(()) else Err(NotFound);
      objects := objects - {k};
    }
  }

  /** A put this client made and the store accepted. */
  datatype Written = Written(key: Key, data: Object, ifMatch: Option<Etag>)

  /** A put some other client makes. */
  datatype ForeignPut = ForeignPut(key: Key, data: Object, ifMatch: Option<Etag>)

  /**
   The store as one sync sees it: before every operation other clients make any number of puts.
   The schedule is arbitrary, so what is proved about a sync holds under every interleaving.
   */
  class SharedStore {
    const inner: MemoryStore<Key, Object>
    var schedule: seq<seq<ForeignPut>>
    ghost var written: seq<Written>

    constructor (inner: MemoryStore<Key, Object>, schedule: seq<seq<ForeignPut>>)
      ensures this.inner == inner && this.schedule == schedule && written == []
    {
      this.inner := inner;
      this.schedule := schedule;
      this.written := [];
    }

    function Objects(): Objects
      reads this, inner
    {
      inner.objects
    }

    /** Other clients have their turn. */
    method Interfere()
      modifies this`schedule, inner
      ensures Evolves(old(Objects()), Objects())
      ensures old(schedule) == [] ==> schedule == [] && Objects() == old(Objects())
    {
      if schedule != [] {
        var turn := schedule[0];
        schedule := schedule[1..];
        for i := 0 to |turn|
          invariant Evolves(old(Objects()), Objects())
        {
          ghost var before := Objects();
          var r := inner.Put(turn[i].key, turn[i].data, turn[i].ifMatch);
          if r.Ok? { PutEvolves(before, turn[i].key, turn[i].data); }
          EvolvesTransitive(old(Objects()), before, Objects());
        }
      }
    }

    method List(k: Key) returns (etag: Option<Etag>)
      modifies this`schedule, inner
      ensures Evolves(old(Objects()), Objects())
      ensures etag == if k in Objects() then Some(Counter(Objects()[k].version)) else None
      ensures old(schedule) == [] ==> schedule == [] && Objects() == old(Objects())
    {
      Interfere();
      etag := inner.List(k);
    }

    method Get(k: Key) returns (r: Result<Object, StorageError>)
      modifies this`schedule, inner
      ensures Evolves(old(Objects()), Objects())
      ensures r == if k in Objects() then Ok(Objects()[k].data) else Err(NotFound)
      ensures old(schedule) == [] ==> schedule == [] && Objects() == old(Objects())
    {
      Interfere();
      r := inner.Get(k);
    }

    /** `before` is the content of the store at the instant of the put. */
    method Put(k: Key, data: Object, ifMatch: Option<Etag>)
      returns (r: Result<Etag, StorageError>, ghost before: Objects)
      modifies this, inner
      ensures Evolves(old(Objects()), before)
      ensures r.Ok? <==> GuardHolds(before, k, ifMatch)
      ensures r.Ok? ==> Objects() == AfterPut(before, k, data)
      ensures r.Err? ==> r.error == PreconditionFailed && Objects() == before
      ensures written == old(written) + if r.Ok? then [Written(k, data, ifMatch)] else []
      ensures old(schedule) == [] ==> schedule == [] && before == old(Objects())
    {
      Interfere();
      before := Objects();
      r := inner.Put(k, data, ifMatch);
      if r.Ok? { written := written + [Written(k, data, ifMatch)]; }
    }
  }
}
