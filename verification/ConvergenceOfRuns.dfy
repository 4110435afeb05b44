/** Convergence from any state the protocol can reach, however contended its past. */
module ConvergenceOfRuns {
  import opened Prelude
  import opened Clocks
  import opened Manifests
  import opened Paths
  import opened Replicas
  import opened Protocol
  import opened ProtocolInvariant
  import opened ProtocolSteps
  import opened ProtocolTheorems
  import opened Convergence
  import opened QuietSyncs
  import opened QuietSteps
  import Names
  import SyncModel
  import Diffs

  /** The devices as they are between syncs: their cached manifests and their disks. */
  function NodesOf(w: World, names: seq<DeviceId>): seq<Node>
    requires forall i | 0 <= i < |names| :: names[i] in w.devices
  {
    seq(|names|, i requires 0 <= i < |names| =>
      Node(ReplicaOf(w.devices[names[i]], w.devices[names[i]].cache), w.devices[names[i]].managed))
  }

  /** Every version of a path, in a cache or in the store, has a pedigree. */
  lemma ReachedStatesHavePedigrees(run: seq<World>, i: nat, names: seq<DeviceId>, p: Path)
    requires IsRun(run) && i < |run|
    requires forall j | 0 <= j < |names| :: names[j] in run[i].devices
    ensures AllKnownAt(run[i].births, NodesOf(run[i], names), StoreOf(run[i]), p)
  {
    var w := run[i];
    RunInvariant(run, i);
    assert StoreInv(w);
    hide Inv, Known, DeviceInv, StoreInv, IsRun;
    forall j | 0 <= j < |names| ensures KnownOption(w.births, p, EntryOf(NodesOf(w, names)[j], p)) {
      CacheOf(w, names[j]);
    }
    if w.history != [] { PushHolds(w, |w.history| - 1); }
  }

  // ---- syncs in turn, as runs --------------------------------------------------------------------

  /** The run is continued by the steps of one undisturbed sync of the device, which ends after a push. */
  ghost predicate SyncsNext(run: seq<World>, d: DeviceId, longer: seq<World>) {
    && OneSync(run, d, longer)
    && AtRest(Last(run), d) && AtRest(Last(longer), d)
    && |Last(longer).history| > |Last(run).history|
  }

  /** The devices sync in turn, each continuing the run of the one before. */
  ghost predicate RoundOfRuns(runs: seq<seq<World>>, names: seq<DeviceId>) {
    && |runs| == |names| + 1
    && forall k | 0 <= k < |names| :: SyncsNext(runs[k], names[k], runs[k + 1])
  }

  ghost predicate Present(w: World, names: seq<DeviceId>) {
    forall j | 0 <= j < |names| :: names[j] in w.devices
  }

  function PlanOf(run: seq<World>, i: Input): Plan
    requires run != []
  {
    Plan(Last(run), i.ctx, i.ids, i.reseals)
  }

  /** Wherever the sync of the next device is ready, the run can be continued by it. */
  lemma NextSyncRuns(run: seq<World>, i: Input) returns (longer: seq<World>)
    requires IsRun(run) && run != [] && QuietSyncs.Ready(PlanOf(run, i))
    ensures SyncsNext(run, i.ctx.device, longer) && Finished(PlanOf(run, i), Last(longer), 0)
  {
    longer := QuietSyncRuns(PlanOf(run, i), run);
    hide QuietSyncs.Ready, EndOf, IsRun, OneSync, Calm;
    ReadyDevice(PlanOf(run, i));
  }

  /** The sync has done what the specification says for these inputs, and drew what it needed. */
  ghost predicate SpecifiedBy(run: seq<World>, d: DeviceId, i: Input, longer: seq<World>) {
    && run != [] && longer != [] && i.ctx.device == d
    && AllDone(PlanOf(run, i))
    && exists len :: Finished(PlanOf(run, i), Last(longer), len)
  }

  lemma NextSyncIsSpecified(run: seq<World>, d: DeviceId, longer: seq<World>) returns (i: Input)
    requires IsRun(run) && SyncsNext(run, d, longer)
    ensures SpecifiedBy(run, d, i, longer) && IsRun(longer)
  {
    var q, len := UndisturbedSyncIsSpecified(run, d, longer);
    i := Input(q.ctx, q.ids, q.reseals);
    assert PlanOf(run, i) == q;
    OneSyncIsRun(run, d, longer);
    hide IsRun, OneSync, Finished, AllDone;
  }

  lemma OneSyncIsRun(run: seq<World>, d: DeviceId, longer: seq<World>)
    requires IsRun(run) && OneSync(run, d, longer)
    ensures IsRun(longer)
  {
    hide Step;
    forall i | 0 <= i < |longer| - 1 ensures SomeStep(longer[i], longer[i + 1]) {
      if i < |run| - 1 {
        assert SomeStep(run[i], run[i + 1]);
      } else {
        assert SyncStep(longer[i + 1 - 1], d, longer[i + 1]);
      }
    }
  }

  ghost predicate Inputs(runs: seq<seq<World>>, names: seq<DeviceId>, inputs: seq<Input>, k: nat)
    requires k <= |inputs| && k <= |names| < |runs|
  {
    && runs[k] != [] && IsRun(runs[k])
    && forall j | 0 <= j < k :: IsRun(runs[j]) && SpecifiedBy(runs[j], names[j], inputs[j], runs[j + 1])
  }

  lemma {:induction false} RoundInputs(runs: seq<seq<World>>, names: seq<DeviceId>, k: nat) returns (inputs: seq<Input>)
    requires RoundOfRuns(runs, names) && k <= |names| && runs[0] != [] && IsRun(runs[0])
    ensures |inputs| == k && Inputs(runs, names, inputs, k)
  {
    hide IsRun, SyncsNext, SpecifiedBy;
    inputs := [];
    if k > 0 {
      var front := RoundInputs(runs, names, k - 1);
      assert SyncsNext(runs[k - 1], names[k - 1], runs[k - 1 + 1]);
      var last := NextSyncIsSpecified(runs[k - 1], names[k - 1], runs[k]);
      inputs := front + [last];
      SpecifiedNotEmpty(runs[k - 1], names[k - 1], last, runs[k]);
      forall j | 0 <= j < k ensures IsRun(runs[j]) && SpecifiedBy(runs[j], names[j], inputs[j], runs[j + 1]) {
        if j < k - 1 { assert inputs[j] == front[j]; }
      }
    }
  }

  lemma SpecifiedNotEmpty(run: seq<World>, d: DeviceId, i: Input, longer: seq<World>)
    requires SpecifiedBy(run, d, i, longer)
    ensures run != [] && longer != []
  {}

  lemma SyncIsSyncNode(run: seq<World>, names: seq<DeviceId>, k: nat, i: Input, longer: seq<World>)
    requires k < |names| && Names.Distinct(names) && run != [] && Present(Last(run), names)
    requires SpecifiedBy(run, names[k], i, longer)
    ensures longer != [] && Present(Last(longer), names)
    ensures var (n, m) := SyncNode(NodesOf(Last(run), names)[k], StoreOf(Last(run)), i);
      NodesOf(Last(longer), names) == NodesOf(Last(run), names)[k := n] && StoreOf(Last(longer)) == m
  {
    hide SyncModel.SyncOver, IsRun, Names.Distinct, AllDone;
    var q := PlanOf(run, i);
    var w, w' := Last(run), Last(longer);
    assert names[k] in w.devices;
    var len :| Finished(q, w', len);
    FinishedDevices(q, w', names, k, len);
    var (after, out) := EndOf(q);
    hide Finished, EndOf;
    var (n, m) := SyncNode(NodesOf(w, names)[k], StoreOf(w), i);
    assert n.replica == after && m == out;
    forall j | 0 <= j < |names| ensures NodesOf(w', names)[j] == NodesOf(w, names)[k := n][j] {
      assert names[j] in w.devices;
    }
    assert NodesOf(w', names) == NodesOf(w, names)[k := n];
  }

  /** Who has changed after an undisturbed sync. */
  lemma FinishedDevices(q: Plan, w: World, names: seq<DeviceId>, k: nat, len: nat)
    requires k < |names| && Names.Distinct(names) && Present(q.start, names) && q.ctx.device == names[k]
    requires Finished(q, w, len)
    ensures Present(w, names)
    ensures forall j | 0 <= j < |names| && j != k :: names[j] in w.devices && names[j] in q.start.devices && w.devices[names[j]] == q.start.devices[names[j]]
    ensures names[k] in w.devices && w.devices[names[k]]
      == DeviceOf(q).(cache := EndOf(q).0.local, disk := EndOf(q).0.disk, sidecars := EndOf(q).0.sidecars)
    ensures StoreOf(w) == EndOf(q).1
  {
    hide EndOf;
    forall j | 0 <= j < |names| ensures names[j] in w.devices {
      assert names[j] in q.start.devices;
    }
  }

  /** A round of undisturbed syncs is the round of the specification. */
  lemma {:induction false} RoundIsRound(runs: seq<seq<World>>, names: seq<DeviceId>, inputs: seq<Input>, k: nat)
    requires |inputs| == |names| == |runs| - 1 && k <= |names| && Names.Distinct(names) && Inputs(runs, names, inputs, |names|)
    requires runs[0] != [] && Present(Last(runs[0]), names)
    ensures runs[k] != [] && Present(Last(runs[k]), names)
    ensures (NodesOf(Last(runs[k]), names), StoreOf(Last(runs[k])))
      == Round(NodesOf(Last(runs[0]), names), StoreOf(Last(runs[0])), inputs, k)
  {
    hide SpecifiedBy, SyncNode, Names.Distinct, Present, IsRun;
    if k > 0 {
      RoundIsRound(runs, names, inputs, k - 1);
      assert SpecifiedBy(runs[k - 1], names[k - 1], inputs[k - 1], runs[k - 1 + 1]);
      SyncIsSyncNode(runs[k - 1], names, k - 1, inputs[k - 1], runs[k]);
    }
  }

  // ---- what the steps guarantee of a sync -------------------------------------------------------------

  lemma KnownIsBorn(births: map<BlobId, Birth>, nodes: seq<Node>, store: Manifest, p: Path, id: BlobId)
    requires AllKnownAt(births, nodes, store, p) && id !in births
    ensures Unused(id, nodes, store, p)
  {
    hide ProperBirth;
    forall i | 0 <= i < |nodes| ensures EntryOf(nodes[i], p).Some? ==> EntryOf(nodes[i], p).value.blobId != id {
      assert KnownOption(births, p, EntryOf(nodes[i], p));
    }
  }

  lemma DrawnAreNew(run: seq<World>, names: seq<DeviceId>, k: nat, i: Input, p: Path)
    requires run != [] && Present(Last(run), names) && k < |names| && i.ctx.device == names[k]
    requires AllDone(PlanOf(run, i)) && AllKnownAt(Last(run).births, NodesOf(Last(run), names), StoreOf(Last(run)), p)
    requires p in NodesOf(Last(run), names)[k].managed
    ensures DrawsAreNew(NodesOf(Last(run), names), StoreOf(Last(run)), NodesOf(Last(run), names)[k], i, p)
  {
    hide SyncModel.Completes, AllKnownAt, Unused, RoomToBump, Diffs.Classify, UsesFreshId, ScanAll;
    var q, nodes, store := PlanOf(run, i), NodesOf(Last(run), names), StoreOf(Last(run));
    var n := nodes[k];
    assert n.replica == Before(q) && n.managed == DeviceOf(q).managed && Convergence.Scanned(n, i) == QuietSyncs.Scanned(q);
    if NeedsSeal(EntryOf(n, p), FileOf(n, p)) {
      assert p in Staged(Before(q), DeviceOf(q).managed);
      KnownIsBorn(Last(run).births, nodes, store, p, i.ids[p]);
    }
    if Resealed(n, store, i, p) {
      assert p in AllPaths(q) && Concerned(q, p);
      assert PathDrew(q, p);
      KnownIsBorn(Last(run).births, nodes, store, p, IdFor(i.reseals, p));
    }
  }

  lemma SyncRunsThrough(run: seq<World>, names: seq<DeviceId>, k: nat, i: Input, p: Path)
    requires IsRun(run) && run != [] && Present(Last(run), names) && k < |names| && i.ctx.device == names[k]
    requires AllDone(PlanOf(run, i))
    requires p in NodesOf(Last(run), names)[k].managed
    ensures RunsThrough(NodesOf(Last(run), names), NodesOf(Last(run), names)[k], StoreOf(Last(run)), i, p)
  {
    ReachedStatesHavePedigrees(run, |run| - 1, names, p);
    DrawnAreNew(run, names, k, i, p);
    hide DrawsAreNew, SyncModel.Completes, AllKnownAt, Diffs.Classify, UsesFreshId, ScanAll, IsRun;
    var q, n := PlanOf(run, i), NodesOf(Last(run), names)[k];
    assert n.replica == Before(q) && n.managed == DeviceOf(q).managed && Convergence.Scanned(n, i) == QuietSyncs.Scanned(q);
    if p in AllPaths(q) {
      assert Concerned(q, p);
      assert PathDrew(q, p);
    }
  }

  /** Every sync of the round runs through, whatever its steps were: nothing is left to assume. */
  lemma RoundRunsThroughBySteps(runs: seq<seq<World>>, names: seq<DeviceId>, inputs: seq<Input>, p: Path)
    requires |inputs| == |names| == |runs| - 1 && Names.Distinct(names) && Inputs(runs, names, inputs, |names|)
    requires runs[0] != [] && Present(Last(runs[0]), names)
    requires forall j | 0 <= j < |names| :: p in NodesOf(Last(runs[0]), names)[j].managed
    ensures RoundRunsThrough(NodesOf(Last(runs[0]), names), StoreOf(Last(runs[0])), inputs, p)
  {
    hide Round, RunsThrough, IsRun, Names.Distinct, Finished, AllDone;
    var nodes, store := NodesOf(Last(runs[0]), names), StoreOf(Last(runs[0]));
    forall k | 0 <= k < |names| ensures RunsThroughAt(nodes, store, inputs, p, k) {
      RoundIsRound(runs, names, inputs, k);
      assert SpecifiedBy(runs[k], names[k], inputs[k], runs[k + 1]);
      assert NodesOf(Last(runs[k]), names)[k] == nodes[k];
      SyncRunsThrough(runs[k], names, k, inputs[k], p);
    }
  }

  // ---- convergence ------------------------------------------------------------------------------------

  /**
   From any reachable state, however contended its past, continuing its run: devices that all manage a
   path sync in turn, each undisturbed and to a push, by whatever steps; then once more. They all hold the
   store's entry for the path, and the same content.
   */
  lemma ReachedStatesConverge(one: seq<seq<World>>, two: seq<seq<World>>, names: seq<DeviceId>, p: Path, j: nat, k: nat)
    requires Names.Distinct(names) && j < |names| && k < |names|
    requires RoundOfRuns(one, names) && RoundOfRuns(two, names) && two[0] == one[|names|]
    requires one[0] != [] && IsRun(one[0]) && Present(Last(one[0]), names)
    requires forall j | 0 <= j < |names| :: p in NodesOf(Last(one[0]), names)[j].managed
    ensures two[|names|] != [] && IsRun(two[|names|]) && Present(Last(two[|names|]), names)
    ensures names[j] in Last(two[|names|]).devices && names[k] in Last(two[|names|]).devices
    ensures var w := Last(two[|names|]);
      && Lookup(w.devices[names[j]].cache.entries, p) == Lookup(w.devices[names[k]].cache.entries, p) == Lookup(StoreOf(w).entries, p)
      && ContentAt(w, names[j], p) == ContentAt(w, names[k], p)
  {
    hide IsRun, AllKnownAt, RoundRunsThrough, Round, SyncsNext, Names.Distinct, SpecifiedBy;
    var w := Last(one[0]);
    var first := RoundInputs(one, names, |names|);
    RoundIsRound(one, names, first, |names|);
    RoundRunsThroughBySteps(one, names, first, p);
    var second := RoundInputs(two, names, |names|);
    RoundIsRound(two, names, second, |names|);
    ReachedStatesHavePedigrees(one[0], |one[0]| - 1, names, p);
    TwoRoundsConverge(w.births, NodesOf(w, names), StoreOf(w), first, second, p, j, k);
  }

  function ContentAt(w: World, d: DeviceId, p: Path): Option<Bytes>
    requires d in w.devices
  {
    if p in w.devices[d].disk then Some(w.devices[d].disk[p].bytes) else None
  }
}
