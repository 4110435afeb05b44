/** Causal classification of every path two manifests know (crate cs-sync, diff). */
module Diffs {
  import opened Prelude
  import opened Clocks
  import opened Manifests
  import Names

  datatype DiffOp =
    | PullLocal(path: Path, remote: Entry)
    | PushRemote(path: Path, local: Entry)
    | InSync(path: Path)
    | Conflicting(path: Path, local: Entry, remote: Entry)
    | PullDeletion(path: Path, remote: Entry)
    | PushDeletion(path: Path, local: Entry)

  function Pull(p: Path, r: Entry): DiffOp {
    if r.deleted then PullDeletion(p, r) else PullLocal(p, r)
  }

  function Push(p: Path, l: Entry): DiffOp {
    if l.deleted then PushDeletion(p, l) else PushRemote(p, l)
  }

  /** The operation for a path known to at least one side. */
  function Classify(p: Path, local: Option<Entry>, remote: Option<Entry>): DiffOp
    requires local.Some? || remote.Some?
  {
    match (local, remote)
    case (None, Some(r)) => Pull(p, r)
    case (Some(l), None) => PushRemote(p, l)
    case (Some(l), Some(r)) =>
      if l == r then InSync(p)
      else if HappensBefore(l.clock, r.clock) then Pull(p, r)
      else if HappensBefore(r.clock, l.clock) then Push(p, l)
      else Conflicting(p, l, r)
  }

  function ClassifyAt(local: map<Path, Entry>, remote: map<Path, Entry>, p: Path): DiffOp
    requires p in local || p in remote
  {
    Classify(p, Lookup(local, p), Lookup(remote, p))
  }

  /** `ops` classifies every path either side knows, each once, in the order of the path names. */
  ghost predicate IsDiff(ops: seq<DiffOp>, local: map<Path, Entry>, remote: map<Path, Entry>) {
    && (forall i | 0 <= i < |ops| :: (ops[i].path in local || ops[i].path in remote)
         && ops[i] == ClassifyAt(local, remote, ops[i].path))
    && (forall p | p in local || p in remote :: exists i | 0 <= i < |ops| :: ops[i].path == p)
    && (forall i, j | 0 <= i < j < |ops| :: ops[i].path != ops[j].path)
  }

  ghost predicate InPathOrder(ops: seq<DiffOp>) {
    forall i, j | 0 <= i < j < |ops| :: Names.Leq(ops[i].path, ops[j].path)
  }

  method Diff(local: map<Path, Entry>, remote: map<Path, Entry>) returns (out: seq<DiffOp>)
    ensures IsDiff(out, local, remote)
    ensures InPathOrder(out)
  {
    hide Classify, Names.Sorted, Names.Ordered, Names.Distinct, IsDiff, InPathOrder;
    var paths := Names.Sorted(local.Keys + remote.Keys);
    Names.SortedIsOrdered(local.Keys + remote.Keys);
    PathsAreKnown(paths, local, remote);
    out := [];
    for k := 0 to |paths|
      invariant |out| == k
      invariant forall i | 0 <= i < k :: out[i] == ClassifyAt(local, remote, paths[i])
    {
      var op := DiffPath(paths[k], Lookup(local, paths[k]), Lookup(remote, paths[k]));
      out := out + [op];
    }
    DiffOfPaths(paths, out, local, remote);
  }

  lemma PathsAreKnown(paths: seq<Path>, local: map<Path, Entry>, remote: map<Path, Entry>)
    requires forall p :: p in paths <==> p in local.Keys + remote.Keys
    ensures forall i | 0 <= i < |paths| :: paths[i] in local || paths[i] in remote
  {
    assert forall i | 0 <= i < |paths| :: paths[i] in paths;
  }

  lemma DiffOfPaths(paths: seq<Path>, out: seq<DiffOp>, local: map<Path, Entry>, remote: map<Path, Entry>)
    requires |out| == |paths|
    requires forall p :: p in paths <==> p in local.Keys + remote.Keys
    requires Names.Distinct(paths)
    requires Names.Ordered(paths)
    requires forall i | 0 <= i < |paths| :: paths[i] in local || paths[i] in remote
    requires forall i | 0 <= i < |paths| :: out[i] == ClassifyAt(local, remote, paths[i])
    ensures IsDiff(out, local, remote) && InPathOrder(out)
  {
    assert forall i | 0 <= i < |out| :: out[i].path == paths[i];
    forall p | p in local || p in remote ensures exists i | 0 <= i < |out| :: out[i].path == p {
      assert p in paths;
      var i :| 0 <= i < |paths| && paths[i] == p;
      assert out[i].path == p;
    }
  }

  /** The body of the loop: one path, with the comparisons in the order the source makes them. */
  method DiffPath(p: Path, local: Option<Entry>, remote: Option<Entry>) returns (op: DiffOp)
    requires local.Some? || remote.Some?
    ensures op == Classify(p, local, remote)
  {
    match (local, remote) {
      case (None, Some(r)) =>
        if r.deleted { op := PullDeletion(p, r); } else { op := PullLocal(p, r); }
      case (Some(l), None) =>
        op := PushRemote(p, l);
      case (Some(l), Some(r)) =>
        if l == r {
          op := InSync(p);
        } else if HappensBefore(l.clock, r.clock) {
          if r.deleted { op := PullDeletion(p, r); } else { op := PullLocal(p, r); }
        } else if HappensBefore(r.clock, l.clock) {
          if l.deleted { op := PushDeletion(p, l); } else { op := PushRemote(p, l); }
        } else {
          op := Conflicting(p, l, r);
        }
    }
  }

  predicate IsPull(op: DiffOp) { op.PullLocal? || op.PullDeletion? }

  predicate IsPush(op: DiffOp) { op.PushRemote? || op.PushDeletion? }

  /** Each operation in causal terms; a conflict is concurrent clocks, or one clock on two different entries. */
  lemma ClassifyExactly(p: Path, l: Option<Entry>, r: Option<Entry>)
    requires l.Some? || r.Some?
    ensures IsPull(Classify(p, l, r)) <==> r.Some? && (l.Some? ==> HappensBefore(l.value.clock, r.value.clock))
    ensures IsPush(Classify(p, l, r)) <==> l.Some? && (r.Some? ==> HappensBefore(r.value.clock, l.value.clock))
    ensures Classify(p, l, r).PullDeletion? ==> r.value.deleted
    ensures Classify(p, l, r).PullLocal? ==> !r.value.deleted
    ensures Classify(p, l, r).PushDeletion? <==> l.Some? && r.Some? && l.value.deleted && HappensBefore(r.value.clock, l.value.clock)
    ensures Classify(p, l, r).InSync? <==> l == r
    ensures Classify(p, l, r).Conflicting? <==>
      l.Some? && r.Some? && l != r && (Concurrent(l.value.clock, r.value.clock) || Same(l.value.clock, r.value.clock))
  {
    if l.Some? && r.Some? {
      HappensBeforeIsStrictLeq(l.value.clock, r.value.clock);
      HappensBeforeIsStrictLeq(r.value.clock, l.value.clock);
    }
  }

  /** What one side pulls the other pushes, and a conflict or an agreement is one on both sides. */
  lemma ClassifyMirrors(p: Path, l: Option<Entry>, r: Option<Entry>)
    requires l.Some? || r.Some?
    ensures IsPull(Classify(p, l, r)) <==> IsPush(Classify(p, r, l))
    ensures Classify(p, l, r).InSync? <==> Classify(p, r, l).InSync?
    ensures Classify(p, l, r).Conflicting? <==> Classify(p, r, l).Conflicting?
  {
    if l.Some? && r.Some? {
      StrictPartialOrder(l.value.clock, r.value.clock, l.value.clock);
    }
  }
}
