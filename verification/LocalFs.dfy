/**
 The store on a local directory: an object's version lives in a sidecar file beside it. Under the
 lock, and without a crash in the middle of a put, it is the atomic store.
 */
module LocalFs {
  import opened Prelude
  import opened Manifests
  import opened Stores
  import opened StoreNames
  import Utf8

  const MAX_LOCAL_OBJECT_BYTES := 512 * 1024 * 1024

  /** The counter a sidecar holds: `unwrap_or(0)` is left to the caller. */
  function CounterOf(bytes: Bytes): Option<u64> {
    match Utf8.Decode(bytes)
    case None => None
    case Some(text) => ParseU64(Trim(text))
  }

  function SidecarBytes(v: nat): Bytes {
    Utf8.Encode(Decimal(v))
  }

  lemma SidecarRoundTrips(v: u64)
    ensures CounterOf(SidecarBytes(v)) == Some(v)
    ensures Utf8.Decode(SidecarBytes(v)) == Some(Decimal(v)) && Trim(Decimal(v)) == Decimal(v)
  {
    Utf8.DecodeInvertsEncode(Decimal(v));
    ParseDecimal(v);
  }

  type Files = map<string, Bytes>

  ghost predicate WellSidecar(bytes: Bytes) {
    CounterOf(bytes).Some? && CounterOf(bytes).value >= 1 && bytes == SidecarBytes(CounterOf(bytes).value)
  }

  ghost predicate KeptAt(files: Files, n: string) {
    && (n in files ==> ObjectName(n) || Skipped(n))
    && (ObjectName(n) ==> (n in files <==> VerPath(n) in files) && (n in files ==> WellSidecar(files[VerPath(n)])))
  }

  /** Object and sidecar exist together, the sidecar is a counter, and there is nothing else but skipped files. */
  ghost predicate WellKept(files: Files) {
    forall n :: KeptAt(files, n)
  }

  ghost function Contents(files: Files): Counted<string, Bytes>
    requires WellKept(files)
  {
    assert forall n | n in files && ObjectName(n) :: KeptAt(files, n);
    map n | n in files && ObjectName(n) :: Versioned(CounterOf(files[VerPath(n)]).value, files[n])
  }

  /** The text of an expected etag, against what the atomic store holds. */
  predicate TextGuard(contents: Counted<string, Bytes>, name: string, want: Option<string>) {
    want.Some? ==> want.value == if name in contents then Decimal(contents[name].version) else ""
  }

  lemma TextGuardIsGuard(contents: Counted<string, Bytes>, name: string, want: Option<Etag>)
    ensures TextGuard(contents, name, if want.Some? then Some(EtagText(want.value)) else None) <==> GuardHolds(contents, name, want)
  {
    if want.Some? {
      EtagTextIsInjective(want.value, if name in contents then Counter(contents[name].version) else Absent);
    }
  }

  lemma SidecarIsApart(name: string)
    requires ObjectName(name)
    ensures Skipped(VerPath(name)) && !ObjectName(VerPath(name))
  {
    VerPathAppends(name);
    SidecarsAreSkipped(name);
  }

  /** Objects and sidecars never share a file. */
  lemma NamesApart(name: string)
    requires ObjectName(name)
    ensures forall n | ObjectName(n) :: n != VerPath(name) && VerPath(n) != name && (VerPath(n) == VerPath(name) <==> n == name)
  {
    hide ObjectName, VerPath;
    forall n | ObjectName(n) ensures n != VerPath(name) && VerPath(n) != name && (VerPath(n) == VerPath(name) <==> n == name) {
      TwoNamesApart(name, n);
    }
  }

  lemma TwoNamesApart(name: string, n: string)
    requires ObjectName(name) && ObjectName(n)
    ensures n != VerPath(name) && VerPath(n) != name && (VerPath(n) == VerPath(name) <==> n == name)
  {
    hide ObjectName, VerPath, Skipped;
    SidecarIsApart(name);
    SidecarIsApart(n);
    VerPathAppends(name);
    VerPathAppends(n);
    SameSuffix(n, name, ".version");
  }

  lemma ContentsAt(files: Files, n: string)
    requires WellKept(files)
    ensures KeptAt(files, n)
    ensures Lookup(Contents(files), n) == if n in files && ObjectName(n)
      then Some(Versioned(CounterOf(files[VerPath(n)]).value, files[n])) else None
  {
    assert KeptAt(files, n);
  }

  lemma WrittenWell(v: u64)
    requires v >= 1
    ensures WellSidecar(SidecarBytes(v))
  {
    SidecarRoundTrips(v);
  }

  lemma PutKeepsFile(files: Files, name: string, data: Bytes, v: u64, after: Files, n: string)
    requires KeptAt(files, n) && ObjectName(name) && v >= 1
    requires after == files[name := data][VerPath(name) := SidecarBytes(v)]
    ensures KeptAt(after, n)
    ensures ObjectName(n) && n != name ==> (n in after <==> n in files) && (n in files ==> after[n] == files[n])
    ensures ObjectName(n) && n != name && n in files ==> VerPath(n) in after && after[VerPath(n)] == files[VerPath(n)]
  {
    hide CounterOf, SidecarBytes, Skipped, ObjectName, VerPath, WellSidecar;
    WrittenWell(v);
    SidecarIsApart(name);
    if ObjectName(n) { TwoNamesApart(name, n); }
  }

  /** A put's two writes keep everything in order, and are one put of the atomic store. */
  lemma PutKeeps(files: Files, name: string, data: Bytes, v: u64, after: Files)
    requires WellKept(files) && ObjectName(name) && v >= 1
    requires after == files[name := data][VerPath(name) := SidecarBytes(v)]
    ensures WellKept(after)
    ensures Contents(after) == Contents(files)[name := Versioned(v, data)]
  {
    hide SidecarBytes, ObjectName, VerPath, Contents, KeptAt;
    forall n ensures KeptAt(after, n) {
      assert KeptAt(files, n);
      PutKeepsFile(files, name, data, v, after, n);
    }
    SidecarIsApart(name);
    SidecarRoundTrips(v);
    hide WellKept, CounterOf;
    forall n ensures Lookup(Contents(after), n) == Lookup(Contents(files)[name := Versioned(v, data)], n) {
      ContentsAt(files, n);
      ContentsAt(after, n);
      PutKeepsFile(files, name, data, v, after, n);
    }
    SameLookups(Contents(after), Contents(files)[name := Versioned(v, data)]);
  }

  lemma DeleteKeepsFile(files: Files, name: string, after: Files, n: string)
    requires KeptAt(files, n) && ObjectName(name)
    requires after == files - {VerPath(name), name}
    ensures KeptAt(after, n)
    ensures ObjectName(n) && n != name ==> (n in after <==> n in files) && (n in files ==> after[n] == files[n])
    ensures ObjectName(n) && n != name && n in files ==> VerPath(n) in after && after[VerPath(n)] == files[VerPath(n)]
  {
    hide CounterOf, SidecarBytes, Skipped, ObjectName, VerPath, WellSidecar;
    if ObjectName(n) { TwoNamesApart(name, n); }
  }

  lemma DeleteKeeps(files: Files, name: string, after: Files)
    requires WellKept(files) && ObjectName(name)
    requires after == files - {VerPath(name), name}
    ensures WellKept(after)
    ensures Contents(after) == Contents(files) - {name}
  {
    hide CounterOf, SidecarBytes, ObjectName, VerPath, Contents, KeptAt;
    forall n ensures KeptAt(after, n) {
      assert KeptAt(files, n);
      DeleteKeepsFile(files, name, after, n);
    }
    assert WellKept(after);
    forall n ensures Lookup(Contents(after), n) == Lookup(Contents(files) - {name}, n) {
      ContentsAt(files, n);
      ContentsAt(after, n);
      DeleteKeepsFile(files, name, after, n);
    }
    SameLookups(Contents(after), Contents(files) - {name});
  }

  /** What the atomic store's put would do, on text etags. */
  ghost predicate PutsLike(before: Files, after: Files, name: string, data: Bytes, ifMatch: Option<string>, r: Result<string, StorageError>)
    requires WellKept(before)
  {
    if TextGuard(Contents(before), name, ifMatch) then
      && r.Ok?
      && (RoomToCount(Contents(before), name) ==>
           && WellKept(after)
           && Contents(after) == AfterPut(Contents(before), name, data)
           && r.value == Decimal(Contents(after)[name].version))
    else
      r == Err(PreconditionFailed) && after == before
  }

  predicate RoomToCount(contents: Counted<string, Bytes>, name: string) {
    name in contents ==> contents[name].version < U64_MAX
  }

  /** What bumping the counter in the file at `path` does. */
  ghost predicate Bumped(before: Files, after: Files, path: string, r: Result<string, StorageError>) {
    && (path !in before ==> r == Ok(Decimal(1)) && after == before[path := SidecarBytes(1)])
    && (path in before && WellSidecar(before[path]) ==>
         && r.Ok?
         && var v := CounterOf(before[path]).value;
            v < U64_MAX ==> r == Ok(Decimal(v + 1)) && after == before[path := SidecarBytes(v + 1)])
  }

  lemma PutDone(before: Files, after: Files, name: string, data: Bytes, ifMatch: Option<string>, r: Result<string, StorageError>)
    requires WellKept(before) && ObjectName(name)
    requires TextGuard(Contents(before), name, ifMatch)
    requires Bumped(before[name := data], after, VerPath(name), r)
    ensures PutsLike(before, after, name, data, ifMatch, r)
  {
    NamesApart(name);
    Stored(before, name);
    var mid := before[name := data];
    var v := if name in before then CounterOf(before[VerPath(name)]).value else 0;
    assert VerPath(name) in mid <==> VerPath(name) in before;
    assert v > 0 ==> mid[VerPath(name)] == before[VerPath(name)];
    hide CounterOf, SidecarBytes, Decimal, ObjectName, VerPath, WellKept, Contents;
    if v < U64_MAX { PutKeeps(before, name, data, v + 1, mid[VerPath(name) := SidecarBytes(v + 1)]); }
  }

  lemma ObjectNamesArePaths(name: string)
    ensures ObjectName(name) ==> SafeName(name) && Canon(name) == name
  {
    if ObjectName(name) { CanonOfCanonical(name); }
  }

  lemma Stored(files: Files, name: string)
    requires WellKept(files) && ObjectName(name)
    ensures name in Contents(files) <==> name in files
    ensures name in files <==> VerPath(name) in files
    ensures name in files ==> WellSidecar(files[VerPath(name)])
    ensures name in files ==> Contents(files)[name].version == CounterOf(files[VerPath(name)]).value
  {
    ContentsAt(files, name);
    hide ObjectName, VerPath, Contents, CounterOf, SidecarBytes, WellKept;
  }

  /** The etag text a listing shows for a name. */
  ghost function Shown(files: Files, n: string): Option<string>
    requires WellKept(files)
  {
    if n in Contents(files) then Some(Decimal(Contents(files)[n].version)) else None
  }

  lemma OnlyFilesShown(files: Files)
    requires WellKept(files)
    ensures forall n | n !in files :: Shown(files, n) == None
  {}

  lemma ShownAt(files: Files, n: string)
    requires WellKept(files) && n in files
    ensures ObjectName(n) <==> !Skipped(n)
    ensures n in Contents(files) <==> ObjectName(n)
    ensures n in Contents(files) ==> Shown(files, n) == Some(Decimal(Contents(files)[n].version))
  {
    ContentsAt(files, n);
  }

  // ---- directories ------------------------------------------------------------------------------

  /** A file can be read or written at the path: it is no directory, and nothing above it is a file. */
  predicate Free(files: Files, dirs: set<string>, path: string) {
    path !in dirs && forall d | d in Above(path) :: d !in files
  }

  /** Files lie in directories, and a directory is no file. */
  predicate Grounded(files: Files, dirs: set<string>) {
    files.Keys !! dirs && forall f | f in files :: Above(f) <= dirs
  }

  /** Object and sidecar of the name have their places in the tree. */
  predicate Placeable(files: Files, dirs: set<string>, name: string) {
    Free(files, dirs, name) && Free(files, dirs, VerPath(name))
  }

  lemma WriteKeepsGround(files: Files, dirs: set<string>, path: string, data: Bytes)
    requires Grounded(files, dirs) && Free(files, dirs, path)
    ensures Grounded(files[path := data], dirs + Above(path))
  {
    assert path !in Above(path);
  }

  /** Where there is an object there is its place. */
  lemma StoredIsPlaceable(files: Files, dirs: set<string>, name: string)
    requires Grounded(files, dirs) && WellKept(files) && ObjectName(name) && name in files
    ensures Placeable(files, dirs, name)
  {
    Stored(files, name);
    hide ObjectName, VerPath, WellKept, Above;
  }

  /** Object and sidecar lie in one directory, and the one is not a directory above the other. */
  lemma SameDirectoryAsSidecar(name: string)
    ensures Above(VerPath(name)) == Above(name)
    ensures name !in Above(name) && VerPath(name) !in Above(name)
  {
    VerPathAppends(name);
    hide VerPath;
    var suffix, path := ".version", name + ".version";
    assert forall i | 0 <= i < |suffix| :: suffix[i] != '/';
    AboveAppended(name, suffix);
  }

  lemma AboveAppended(name: string, suffix: string)
    requires forall i | 0 <= i < |suffix| :: suffix[i] != '/'
    ensures Above(name + suffix) == Above(name)
  {
    var path := name + suffix;
    assert forall i | |name| <= i < |path| :: path[i] == suffix[i - |name|];
    forall i | 0 <= i < |path| && path[i] == '/' ensures path[..i] in Above(name) {
      assert path[..i] == name[..i];
    }
    forall i | 0 <= i < |name| && name[i] == '/' ensures name[..i] in Above(path) {
      assert path[i] == '/' && path[..i] == name[..i];
    }
  }

  // ---- the engine's store -------------------------------------------------------------------------

  /** A store in which only the engine has put: its objects, their sidecars, and the lock at the root. */
  ghost predicate EngineOnly(files: Files, dirs: set<string>) {
    && dirs <= {"blobs"}
    && forall f | f in files :: EngineFile(f)
  }

  ghost predicate EngineFile(f: string) {
    f == ".cas.lock" || exists k: EngineName :: IsFileOf(f, k)
  }

  predicate IsFileOf(f: string, k: EngineName) {
    (k.Manifest? || |k.digest| == 32) && (f == NameOf(k) || f == VerPath(NameOf(k)))
  }

  lemma AboveOfEngineName(k: EngineName)
    requires k.Manifest? || |k.digest| == 32
    ensures Above(NameOf(k)) <= {"blobs"} && NameOf(k) != "blobs"
  {
    match k {
      case Manifest =>
        assert NameOf(k) == "manifest.json";
        assert NameOf(k)[0] == 'm';
      case _ =>
        NoSlashInHex(k.digest);
        var file := FileOf(k);
        hide Hex;
        assert NameOf(k) == InDirectory("blobs", file);
        AboveInDirectory("blobs", file);
        assert |NameOf(k)| > 5;
    }
  }

  lemma AboveInDirectory(dir: string, file: string)
    requires forall i | 0 <= i < |dir| :: dir[i] != '/'
    requires forall i | 0 <= i < |file| :: file[i] != '/'
    ensures Above(InDirectory(dir, file)) == {dir}
  {
    var path := InDirectory(dir, file);
    assert forall i | 0 <= i < |dir| :: path[i] == dir[i];
    assert forall i | |dir| < i < |path| :: path[i] == file[i - |dir| - 1];
    assert path[..|dir|] == dir;
    assert forall i | 0 <= i < |path| && path[i] == '/' :: i == |dir|;
    assert path[|dir|] == '/' && path[..|dir|] == dir;
  }

  /** On such a store every key of the engine has its place, whatever was put before. */
  lemma EngineNamesArePlaceable(files: Files, dirs: set<string>, k: EngineName)
    requires EngineOnly(files, dirs) && (k.Manifest? || |k.digest| == 32)
    ensures Placeable(files, dirs, NameOf(k))
  {
    var name := NameOf(k);
    AboveOfEngineName(k);
    SameDirectoryAsSidecar(name);
    VerPathAppends(name);
    assert |VerPath(name)| >= 8;
    assert |"blobs"| == 5;
    if "blobs" in files { BlobsIsNoFile(); }
    hide NameOf, VerPath, Above, EngineFile;
  }

  /** A put under a key of the engine leaves such a store (what a put may add is in its contract). */
  lemma EngineStoreStays(files: Files, dirs: set<string>, k: EngineName, after: Files, dirsAfter: set<string>)
    requires EngineOnly(files, dirs) && (k.Manifest? || |k.digest| == 32)
    requires after.Keys <= files.Keys + {Canon(NameOf(k)), VerPath(Canon(NameOf(k)))}
    requires dirsAfter <= dirs + Above(Canon(NameOf(k)))
    ensures EngineOnly(after, dirsAfter)
  {
    AboveOfEngineName(k);
    EngineNamesAreObjectNames(k);
    ObjectNamesArePaths(NameOf(k));
    hide NameOf, VerPath, Above, Canon, ObjectName;
    forall f | f in after ensures EngineFile(f) {
      if f !in files { assert IsFileOf(f, k); }
    }
  }

  lemma BlobsIsNoFile()
    ensures !EngineFile("blobs")
  {
    forall k: EngineName | k.Manifest? || |k.digest| == 32 ensures NameOf(k) != "blobs" && |VerPath(NameOf(k))| >= 8 {
      AboveOfEngineName(k);
      VerPathAppends(NameOf(k));
    }
    assert "blobs"[0] != ".cas.lock"[0];
  }

  class LocalFs {
    /** Every file below the root, by its path, and every directory. */
    var files: Files
    var dirs: set<string>

    constructor ()
      ensures WellKept(files) && Contents(files) == map[] && Grounded(files, dirs) && dirs == {}
    {
      files := map[];
      dirs := {};
    }

    /** Reads a file: an error if a directory is there or a file is in the way. */
    method Find(path: string) returns (r: Result<Option<Bytes>, StorageError>)
      ensures path in files ==> r == Ok(Some(files[path]))
      ensures path !in files ==> r == if Free(files, dirs, path) then Ok(None) else Err(Backend)
    {
      if path in files { return Ok(Some(files[path])); }
      if !Free(files, dirs, path) { return Err(Backend); }
      return Ok(None);
    }

    /** Creates the directories above the path and replaces the file, or fails. */
    method Write(path: string, data: Bytes) returns (r: Result<(), StorageError>)
      modifies this
      ensures r == if old(Free(files, dirs, path)) then Ok(()) else Err(Backend)
      ensures files == if r.Ok? then old(files)[path := data] else old(files)
      ensures dirs == if r.Ok? then old(dirs) + Above(path) else old(dirs)
      ensures old(Grounded(files, dirs)) ==> Grounded(files, dirs)
    {
      if !Free(files, dirs, path) { return Err(Backend); }
      if Grounded(files, dirs) { WriteKeepsGround(files, dirs, path, data); }
      files := files[path := data];
      dirs := dirs + Above(path);
      return Ok(());
    }

    method ReadEtag(name: string) returns (r: Result<Option<string>, StorageError>)
      ensures !SafeName(name) ==> r == Err(Backend)
      ensures WellKept(files) && ObjectName(name) && Free(files, dirs, VerPath(name)) ==>
        r == Ok(if name in Contents(files) then Some(Decimal(Contents(files)[name].version)) else None)
    {
      if !SafeName(name) { return Err(Backend); }
      ObjectNamesArePaths(name);
      if WellKept(files) && ObjectName(name) { Stored(files, name); }
      hide VerPath, ObjectName, Contents, WellKept, SidecarBytes, Canon;
      var found := Find(VerPath(Canon(name)));
      if found.Err? { return Err(found.error); }
      if found.value.None? { return Ok(None); }
      var text := Utf8.Decode(found.value.value);
      ghost var v := CounterOf(found.value.value);
      if v.Some? { SidecarRoundTrips(v.value); }
      if text.None? { return Err(Backend); }
      return Ok(Some(Trim(text.value)));
    }

    method BumpEtag(name: string) returns (r: Result<string, StorageError>)
      requires SafeName(name)
      modifies this
      ensures old(Free(files, dirs, VerPath(Canon(name)))) ==> Bumped(old(files), files, VerPath(Canon(name)), r)
      ensures files.Keys <= old(files.Keys) + {VerPath(Canon(name))} && dirs <= old(dirs) + Above(VerPath(Canon(name)))
      ensures old(Grounded(files, dirs)) ==> Grounded(files, dirs)
    {
      hide Canon, VerPath, Grounded;
      var path := VerPath(Canon(name));
      var found := Find(path);
      if found.Err? { return Err(found.error); }
      var current: u64 := 0;
      if found.value.Some? {
        var text := Utf8.Decode(found.value.value);
        ghost var v := CounterOf(found.value.value);
        if v.Some? { SidecarRoundTrips(v.value); }
        if text.None? { return Err(Backend); }
        var parsed := ParseU64(Trim(text.value));
        current := if parsed.Some? then parsed.value else 0;
      }
      var next: u64 := if current == U64_MAX then 0 else current + 1;
      var written := Write(path, SidecarBytes(next));
      if written.Err? { return Err(written.error); }
      return Ok(Decimal(next));
    }

    /** On the names of objects that have a place, a put does and answers what the atomic store's put does. */
    method Put(name: string, data: Bytes, ifMatch: Option<string>) returns (r: Result<string, StorageError>)
      modifies this
      ensures !SafeName(name) ==> r == Err(Backend) && files == old(files)
      ensures old(WellKept(files) && Placeable(files, dirs, name)) && ObjectName(name) ==>
        PutsLike(old(files), files, name, data, ifMatch, r)
      ensures files.Keys <= old(files.Keys) + {Canon(name), VerPath(Canon(name))} && dirs <= old(dirs) + Above(Canon(name))
      ensures old(Grounded(files, dirs)) ==> Grounded(files, dirs)
    {
      hide ObjectName, VerPath, SafeName, Contents, WellSidecar, CounterOf, SidecarBytes, Decimal, Canon, Above, WellKept, Grounded;
      ghost var before := files;
      ObjectNamesArePaths(name);
      if ifMatch.Some? {
        var have := ReadEtag(name);
        if have.Err? { return Err(have.error); }
        if WellKept(before) && ObjectName(name) { Stored(before, name); }
        if have.value.Some? {
          if have.value.value != ifMatch.value { return Err(PreconditionFailed); }
        } else if ifMatch.value != "" || Canon(name) in files || Canon(name) in dirs {
          return Err(PreconditionFailed);
        }
      }
      if !SafeName(name) { return Err(Backend); }
      var written := Write(Canon(name), data);
      if written.Err? { return Err(written.error); }
      SameDirectoryAsSidecar(name);
      SameDirectoryAsSidecar(Canon(name));
      r := BumpEtag(name);
      if WellKept(before) && ObjectName(name) && old(Placeable(files, dirs, name)) { PutDone(before, files, name, data, ifMatch, r); }
    }

    /** Removes sidecar and object; a later put counts from one again. */
    method Delete(name: string) returns (r: Result<(), StorageError>)
      modifies this`files
      ensures !SafeName(name) ==> r == Err(Backend) && files == old(files)
      ensures old(WellKept(files) && Placeable(files, dirs, name)) && ObjectName(name) ==>
        && WellKept(files)
        && Contents(files) == old(Contents(files)) - {name}
        && r == if name in old(Contents(files)) then Ok(()) else Err(NotFound)
      ensures old(Grounded(files, dirs)) ==> Grounded(files, dirs)
    {
      hide VerPath, SafeName, CounterOf, SidecarBytes, Canon, Above;
      ghost var before := files;
      ObjectNamesArePaths(name);
      if !SafeName(name) { return Err(Backend); }
      files := files - {VerPath(Canon(name))};
      if Canon(name) in files {
        r := Ok(());
      } else {
        r := if Free(files, dirs, Canon(name)) then Err(NotFound) else Err(Backend);
      }
      files := files - {Canon(name)};
      if WellKept(before) && ObjectName(name) {
        assert files == before - {VerPath(name), name};
        DeleteKeeps(before, name, files);
        NamesApart(name);
      }
    }

    /** The names and etags a listing of the whole store shows. */
    method List() returns (r: Result<map<string, string>, StorageError>)
      ensures WellKept(files) && Grounded(files, dirs) ==> r.Ok? && forall n :: Lookup(r.value, n) == Shown(files, n)
    {
      hide ObjectName, VerPath, SafeName, Contents, WellSidecar, CounterOf, SidecarBytes, Decimal, Skipped, WellKept, Grounded, Free, Canon;
      var out: map<string, string> := map[];
      var todo := files.Keys;
      if WellKept(files) { OnlyFilesShown(files); }
      while todo != {}
        invariant todo <= files.Keys
        invariant WellKept(files) && Grounded(files, dirs) ==> forall n :: (Lookup(out, n) == if n in todo then None else Shown(files, n))
      {
        var name :| name in todo;
        if WellKept(files) {
          ShownAt(files, name);
          if Grounded(files, dirs) && ObjectName(name) { StoredIsPlaceable(files, dirs, name); }
        }
        ObjectNamesArePaths(name);
        if !Skipped(name) {
          var etag := ReadEtag(name);
          if etag.Err? { return Err(etag.error); }
          out := out[name := if etag.value.Some? then etag.value.value else "0"];
        }
        todo := todo - {name};
      }
      return Ok(out);
    }

    method Get(name: string) returns (r: Result<Bytes, StorageError>)
      ensures !SafeName(name) ==> r == Err(Backend)
      ensures WellKept(files) && ObjectName(name) && Placeable(files, dirs, name) ==>
        r == if name !in Contents(files) then Err(NotFound)
             else if |Contents(files)[name].data| > 512 * 1024 * 1024 then Err(Backend)
             else Ok(Contents(files)[name].data)
    {
      if !SafeName(name) { return Err(Backend); }
      ObjectNamesArePaths(name);
      var found := Find(Canon(name));
      if found.Err? { return Err(found.error); }
      if found.value.None? { return Err(NotFound); }
      if |found.value.value| > MAX_LOCAL_OBJECT_BYTES { return Err(Backend); }
      return Ok(found.value.value);
    }
  }
}
