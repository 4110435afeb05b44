/** Devices that sync one after another without contention: convergence, and the idle sync. */
module Convergence {
  import opened Prelude
  import opened Clocks
  import opened Manifests
  import opened Conflicts
  import opened Diffs
  import opened Paths
  import opened Replicas
  import opened Sealing
  import opened SyncModel

  datatype Node = Node(replica: Replica, managed: Managed)

  /** What one sync is given besides the device's state: any resolver, any clock, the ids it draws. */
  datatype Input = Input(ctx: Context, ids: map<Path, BlobId>, reseals: map<Path, BlobId>)

  function SyncNode(n: Node, store: Manifest, i: Input): (Node, Manifest) {
    var (after, out) := SyncOver(n.replica, n.managed, i.ctx, [store], i.ids, i.reseals);
    (n.(replica := after), out)
  }

  /** The devices and the store after the first `k` devices have synced, one after another. */
  function Round(nodes: seq<Node>, store: Manifest, inputs: seq<Input>, k: nat): (seq<Node>, Manifest)
    requires k <= |nodes| == |inputs|
    ensures |Round(nodes, store, inputs, k).0| == |nodes|
    ensures forall i | k <= i < |nodes| :: Round(nodes, store, inputs, k).0[i] == nodes[i]
  {
    if k == 0 then (nodes, store) else
      var (before, m) := Round(nodes, store, inputs, k - 1);
      var (n, m') := SyncNode(before[k - 1], m, inputs[k - 1]);
      (before[k - 1 := n], m')
  }

  function EntryOf(n: Node, p: Path): Option<Entry> {
    Lookup(n.replica.local.entries, p)
  }

  function FileOf(n: Node, p: Path): Option<File> {
    Lookup(n.replica.disk, p)
  }

  function ContentOf(n: Node, p: Path): Option<Bytes> {
    if FileOf(n, p).Some? then Some(FileOf(n, p).value.bytes) else None
  }

  // ---- what a sync needs ----------------------------------------------------------------------

  /** No device and not the store has an entry for the path with this blob. */
  predicate Unused(id: BlobId, nodes: seq<Node>, store: Manifest, p: Path) {
    && (forall i | 0 <= i < |nodes| :: EntryOf(nodes[i], p).Some? ==> EntryOf(nodes[i], p).value.blobId != id)
    && (p in store.entries ==> store.entries[p].blobId != id)
  }

  function Scanned(n: Node, i: Input): Replica {
    ScanAll(n.replica, n.managed, i.ctx.device, i.ids)
  }

  /** The path is sealed again after the scan, because its conflict is won by the local version. */
  predicate Resealed(n: Node, store: Manifest, i: Input, p: Path) {
    && p in n.managed
    && var w := Scanned(n, i);
    && (p in w.local.entries || p in store.entries)
    && UsesFreshId(i.ctx, n.managed[p], ClassifyAt(w.local.entries, store.entries, p))
  }

  /** The ids drawn for the path are new. */
  predicate DrawsAreNew(nodes: seq<Node>, store: Manifest, n: Node, i: Input, p: Path) {
    var sealed := NeedsSeal(EntryOf(n, p), FileOf(n, p));
    && (sealed ==> Unused(IdFor(i.ids, p), nodes, store, p))
    && (Resealed(n, store, i, p) ==> Unused(IdFor(i.reseals, p), nodes, store, p))
    && (sealed && Resealed(n, store, i, p) ==> IdFor(i.ids, p) != IdFor(i.reseals, p))
  }

  /** A sync that runs to its end: no resolver aborts or fails, and no counter of the device is saturated. */
  ghost predicate RunsThrough(nodes: seq<Node>, n: Node, store: Manifest, i: Input, p: Path) {
    && p in n.managed
    && DrawsAreNew(nodes, store, n, i, p)
    && Completes(Scanned(n, i), n.managed, i.ctx, store, i.reseals)
    && Roomy(Scanned(n, i), store, i.ctx.device, p)
    && (EntryOf(n, p).Some? ==> Get(EntryOf(n, p).value.clock, i.ctx.device) < U64_MAX)
  }

  ghost predicate RunsThroughAt(nodes: seq<Node>, store: Manifest, inputs: seq<Input>, p: Path, k: nat)
    requires k < |nodes| == |inputs|
  {
    var (before, m) := Round(nodes, store, inputs, k);
    RunsThrough(before, before[k], m, inputs[k], p)
  }

  ghost predicate RoundRunsThrough(nodes: seq<Node>, store: Manifest, inputs: seq<Input>, p: Path)
    requires |nodes| == |inputs|
  {
    forall k | 0 <= k < |nodes| :: RunsThroughAt(nodes, store, inputs, p, k)
  }

  // ---- pedigrees along a round ---------------------------------------------------------------

  /** Every version of the path, on a device or in the store, has a pedigree. */
  ghost predicate AllKnownAt(births: map<BlobId, Birth>, nodes: seq<Node>, store: Manifest, p: Path) {
    && (forall i | 0 <= i < |nodes| :: KnownOption(births, p, EntryOf(nodes[i], p)))
    && KnownOption(births, p, Lookup(store.entries, p))
  }

  lemma BirthOfUnused(births: map<BlobId, Birth>, id: BlobId, b: Birth, nodes: seq<Node>, store: Manifest, p: Path)
    requires AllKnownAt(births, nodes, store, p) && Unused(id, nodes, store, p)
    ensures AllKnownAt(births[id := b], nodes, store, p)
  {
    hide ProperBirth;
    forall i | 0 <= i < |nodes| ensures KnownOption(births[id := b], p, EntryOf(nodes[i], p)) {
      assert KnownOption(births, p, EntryOf(nodes[i], p));
    }
  }

  lemma BirthOfOther(births: map<BlobId, Birth>, id: BlobId, b: Birth, p: Path, e: Entry)
    requires Known(births, p, e) && e.blobId != id
    ensures Known(births[id := b], p, e)
  {}

  /** The scan's own blob joins the pedigrees. */
  lemma ScanGrows(births: map<BlobId, Birth>, nodes: seq<Node>, n: Node, store: Manifest, i: Input, p: Path)
    returns (more: map<BlobId, Birth>)
    requires AllKnownAt(births, nodes, store, p) && n in nodes && RunsThrough(nodes, n, store, i, p)
    ensures AllKnownAt(more, nodes, store, p)
    ensures KnownOption(more, p, Lookup(Scanned(n, i).local.entries, p))
  {
    more := births;
    var prev, file, id := EntryOf(n, p), FileOf(n, p), IdFor(i.ids, p);
    ScanAllAt(n.replica, n.managed, i.ctx.device, i.ids, p);
    var scanned := ScanPath(prev, file, n.replica.local.clock, i.ctx.device, id);
    assert Lookup(Scanned(n, i).local.entries, p) == scanned;
    hide ScanAll, Completes, Known, Unused, AllKnownAt, ScanPath, ProperBirth;
    if NeedsSeal(prev, file) {
      more := births[id := Birth(p, file.value.bytes, scanned.value)];
      BirthOfUnused(births, id, Birth(p, file.value.bytes, scanned.value), nodes, store, p);
      FreshScanIsKnown(births, p, prev, file.value, n.replica.local.clock, i.ctx.device, id);
    }
    NodeIsKnown(more, nodes, n, store, p);
    ScanIsKnown(more, p, prev, file, n.replica.local.clock, i.ctx.device, id);
  }

  lemma NodeIsKnown(births: map<BlobId, Birth>, nodes: seq<Node>, n: Node, store: Manifest, p: Path)
    requires AllKnownAt(births, nodes, store, p) && n in nodes
    ensures KnownOption(births, p, EntryOf(n, p)) && KnownOption(births, p, Lookup(store.entries, p))
  {}

  lemma FreshScanIsKnown(births: map<BlobId, Birth>, p: Path, prev: Option<Entry>, f: File, aggregate: Clock, device: DeviceId,
      id: BlobId)
    requires NeedsSeal(prev, Some(f))
    ensures var e := ScanPath(prev, Some(f), aggregate, device, id);
      e.Some? && e.value.blobId == id && Known(births[id := Birth(p, f.bytes, e.value)], p, e.value)
  {}

  /** Everything the sync seals for the path has its pedigree, given new ids. */
  lemma SealsGrow(births: map<BlobId, Birth>, nodes: seq<Node>, n: Node, store: Manifest, i: Input, p: Path)
    returns (more: map<BlobId, Birth>)
    requires AllKnownAt(births, nodes, store, p) && n in nodes && RunsThrough(nodes, n, store, i, p)
    ensures AllKnownAt(more, nodes, store, p)
    ensures SealsKnown(more, n.replica, n.managed, i.ctx, store, i.ids, i.reseals, p)
  {
    more := ScanGrows(births, nodes, n, store, i, p);
    var w, id := Scanned(n, i), IdFor(i.reseals, p);
    var s, r := At(w, p), Lookup(store.entries, p);
    NodeIsKnown(more, nodes, n, store, p);
    if Resealed(n, store, i, p) {
      var op := ClassifyAt(w.local.entries, store.entries, p);
      ClassifyPath(p, s.entry, r);
      var e := OutcomeAt(w, n.managed, i.ctx, store, i.reseals, p).state.entry.value;
      ScannedBlobIsNot(n, i, nodes, store, p, id);
      ResealIsKnown(more, i.ctx, n.managed[p], op, w.local.version, s, id);
      var b := Birth(p, s.file.value.bytes, e);
      hide ScanAll, Known, Unused, AllKnownAt, ApplyPath, Classify, UsesFreshId;
      BirthOfUnused(more, id, b, nodes, store, p);
      if s.entry.Some? { BirthOfOther(more, id, b, p, s.entry.value); }
      more := more[id := b];
      NodeIsKnown(more, nodes, n, store, p);
    } else if Concerns(w, n.managed, store, p) {
      hide ScanAll, Known, Unused, AllKnownAt;
      ClassifyPath(p, s.entry, r);
      ApplyIsKnown(more, i.ctx, n.managed[p], ClassifyAt(w.local.entries, store.entries, p), w.local.version, s, r, id);
    }
  }

  lemma ScannedBlobIsNot(n: Node, i: Input, nodes: seq<Node>, store: Manifest, p: Path, id: BlobId)
    requires n in nodes && p in n.managed && Unused(id, nodes, store, p)
    requires NeedsSeal(EntryOf(n, p), FileOf(n, p)) ==> id != IdFor(i.ids, p)
    ensures p in Scanned(n, i).local.entries ==> Scanned(n, i).local.entries[p].blobId != id
  {
    ScanAllAt(n.replica, n.managed, i.ctx.device, i.ids, p);
    var k :| 0 <= k < |nodes| && nodes[k] == n;
    assert EntryOf(nodes[k], p) == EntryOf(n, p);
  }

  lemma ResealIsKnown(births: map<BlobId, Birth>, ctx: Context, policy: Policy, op: DiffOp, version: u64, s: PathState, id: BlobId)
    requires UsesFreshId(ctx, policy, op) && ApplyPath(ctx, policy, op, version, s, id).Applied?
    ensures var e := ApplyPath(ctx, policy, op, version, s, id).state.entry;
      s.file.Some? && e.Some? && Known(births[id := Birth(op.path, s.file.value.bytes, e.value)], op.path, e.value)
  {}

  // ---- the first round ------------------------------------------------------------------------

  /** A device that has synced the path: its disk agrees and the store has its entry or a later one. */
  predicate Settled(n: Node, store: Manifest, p: Path) {
    Agrees(EntryOf(n, p), FileOf(n, p)) && Advances(Lookup(store.entries, p), EntryOf(n, p))
  }

  lemma OneMoreSettled(before: seq<Node>, m: Manifest, n: Node, after: seq<Node>, m': Manifest, p: Path, k: nat)
    requires k < |before| && after == before[k := n]
    requires forall i | 0 <= i < k :: Settled(before[i], m, p)
    requires Agrees(EntryOf(n, p), FileOf(n, p)) && EntryOf(n, p) == Lookup(m'.entries, p)
    requires Advances(Lookup(m'.entries, p), Lookup(m.entries, p))
    ensures forall i | 0 <= i < k + 1 :: Settled(after[i], m', p)
  {
    hide Agrees, Advances;
    AdvancesReflexive(Lookup(m'.entries, p));
    forall j | 0 <= j < k + 1 ensures Settled(after[j], m', p) {
      if j < k {
        AdvancesTransitive(EntryOf(before[j], p), Lookup(m.entries, p), Lookup(m'.entries, p));
      }
    }
  }

  /** After its sync every device agrees with its disk and the store has its version or a later one. */
  lemma {:induction false} FirstRound(births: map<BlobId, Birth>, nodes: seq<Node>, store: Manifest, inputs: seq<Input>,
      p: Path, k: nat) returns (more: map<BlobId, Birth>)
    requires k <= |nodes| == |inputs|
    requires AllKnownAt(births, nodes, store, p)
    requires RoundRunsThrough(nodes, store, inputs, p)
    ensures var (after, m) := Round(nodes, store, inputs, k);
      && AllKnownAt(more, after, m, p)
      && forall i | 0 <= i < k :: Settled(after[i], m, p) && after[i].managed == nodes[i].managed
  {
    hide SyncNode, RunsThrough, Settled, AllKnownAt;
    more := births;
    if k > 0 {
      more := FirstRound(births, nodes, store, inputs, p, k - 1);
      assert RunsThroughAt(nodes, store, inputs, p, k - 1);
      var (before, m) := Round(nodes, store, inputs, k - 1);
      var (n, m') := SyncNode(before[k - 1], m, inputs[k - 1]);
      more := SoundSync(more, before, k - 1, m, inputs[k - 1], p);
      OneMoreSettled(before, m, n, before[k - 1 := n], m', p, k - 1);
    }
  }

  lemma AdvancesReflexive(e: Option<Entry>)
    ensures Advances(e, e)
  {}

  lemma SoundSync(births: map<BlobId, Birth>, nodes: seq<Node>, k: nat, store: Manifest, i: Input, p: Path)
    returns (more: map<BlobId, Birth>)
    requires k < |nodes| && AllKnownAt(births, nodes, store, p) && RunsThrough(nodes, nodes[k], store, i, p)
    ensures var (n', store') := SyncNode(nodes[k], store, i);
      && AllKnownAt(more, nodes[k := n'], store', p)
      && n'.managed == nodes[k].managed
      && Agrees(EntryOf(n', p), FileOf(n', p))
      && EntryOf(n', p) == Lookup(store'.entries, p)
      && Advances(Lookup(store'.entries, p), Lookup(store.entries, p))
  {
    var n := nodes[k];
    more := SealsGrow(births, nodes, n, store, i, p);
    var (n', store') := SyncNode(n, store, i);
    QuietSyncAdvances(more, n.replica, n.managed, i.ctx, store, i.ids, i.reseals, p);
    FinishedAt(n.replica, n.managed, i.ctx, store, i.ids, i.reseals, p);
    KnownAfter(more, nodes, k, store, n', store', p);
  }

  lemma KnownAfter(births: map<BlobId, Birth>, nodes: seq<Node>, k: nat, store: Manifest, n: Node, store': Manifest, p: Path)
    requires k < |nodes| && AllKnownAt(births, nodes, store, p)
    requires KnownOption(births, p, EntryOf(n, p)) && EntryOf(n, p) == Lookup(store'.entries, p)
    ensures AllKnownAt(births, nodes[k := n], store', p)
  {
    hide Known;
    var after := nodes[k := n];
    forall j | 0 <= j < |after| ensures KnownOption(births, p, EntryOf(after[j], p)) {
      if j != k { assert KnownOption(births, p, EntryOf(nodes[j], p)); }
    }
  }

  lemma SettledSync(n: Node, store: Manifest, i: Input, p: Path)
    requires p in n.managed && Settled(n, store, p)
    ensures var (n', store') := SyncNode(n, store, i);
      && n'.managed == n.managed
      && EntryOf(n', p) == Lookup(store.entries, p) == Lookup(store'.entries, p)
      && Agrees(EntryOf(n', p), FileOf(n', p))
  {
    QuietSyncCatchesUp(n.replica, n.managed, i.ctx, store, i.ids, i.reseals, p);
  }

  /** The device holds exactly this entry, and its disk agrees. */
  predicate HoldsEntry(n: Node, p: Path, e: Option<Entry>) {
    EntryOf(n, p) == e && Agrees(e, FileOf(n, p))
  }

  lemma {:induction false} SecondRound(nodes: seq<Node>, store: Manifest, inputs: seq<Input>, p: Path, k: nat)
    requires k <= |nodes| == |inputs|
    requires forall i | 0 <= i < |nodes| :: p in nodes[i].managed && Settled(nodes[i], store, p)
    ensures var (after, m) := Round(nodes, store, inputs, k);
      && Lookup(m.entries, p) == Lookup(store.entries, p)
      && forall i | 0 <= i < k :: HoldsEntry(after[i], p, Lookup(store.entries, p))
  {
    hide SyncNode, HoldsEntry, Settled;
    if k > 0 {
      SecondRound(nodes, store, inputs, p, k - 1);
      var (before, m) := Round(nodes, store, inputs, k - 1);
      assert Settled(nodes[k - 1], store, p);
      SettledFollows(nodes[k - 1], store, m, p);
      SettledSync(before[k - 1], m, inputs[k - 1], p);
      HeldAfter(SyncNode(before[k - 1], m, inputs[k - 1]).0, p, Lookup(store.entries, p));
    }
  }

  lemma SettledFollows(n: Node, store: Manifest, m: Manifest, p: Path)
    requires Settled(n, store, p) && Lookup(m.entries, p) == Lookup(store.entries, p)
    ensures Settled(n, m, p)
  {}

  lemma HeldAfter(n: Node, p: Path, e: Option<Entry>)
    requires EntryOf(n, p) == e && Agrees(EntryOf(n, p), FileOf(n, p))
    ensures HoldsEntry(n, p, e)
  {}

  lemma AgreementFixesContent(m: Node, n: Node, p: Path)
    requires EntryOf(m, p) == EntryOf(n, p)
    requires Agrees(EntryOf(m, p), FileOf(m, p)) && Agrees(EntryOf(n, p), FileOf(n, p))
    ensures ContentOf(m, p) == ContentOf(n, p)
  {}

  /**
   Convergence. Any number of devices that all manage a path sync one after another, whatever their
   caches, disks, policies and resolvers, each sync running to its end; after a second round without
   edits all of them hold the identical entry for the path, it is the store's, and their disks hold
   the same content or all hold no file.
   */
  lemma TwoRoundsConverge(births: map<BlobId, Birth>, nodes: seq<Node>, store: Manifest, first: seq<Input>, second: seq<Input>,
      p: Path, i: nat, j: nat)
    requires |nodes| == |first| == |second| && i < |nodes| && j < |nodes|
    requires AllKnownAt(births, nodes, store, p)
    requires RoundRunsThrough(nodes, store, first, p)
    ensures var (between, m) := Round(nodes, store, first, |nodes|);
      var (after, m') := Round(between, m, second, |nodes|);
      && EntryOf(after[i], p) == EntryOf(after[j], p) == Lookup(m'.entries, p)
      && ContentOf(after[i], p) == ContentOf(after[j], p)
      && Agrees(EntryOf(after[i], p), FileOf(after[i], p))
  {
    var more := FirstRound(births, nodes, store, first, p, |nodes|);
    var (between, m) := Round(nodes, store, first, |nodes|);
    forall k | 0 <= k < |nodes| ensures p in between[k].managed {
      assert RunsThroughAt(nodes, store, first, p, k);
      assert Round(nodes, store, first, k).0[k] == nodes[k];
    }
    SecondRound(between, m, second, p, |nodes|);
    var (after, m') := Round(between, m, second, |nodes|);
    AgreementFixesContent(after[i], after[j], p);
  }

  // ---- the idle sync -------------------------------------------------------------------------

  lemma MergeUnmanagedTwice(l: Option<Entry>, r: Option<Entry>)
    ensures MergeUnmanaged(l, MergeUnmanaged(l, r)) == MergeUnmanaged(l, r)
  {}

  /** A manifest pushed from a local one is pushed again unchanged from the same local one. */
  lemma OutgoingTwice(local: Manifest, again: Manifest, base: Manifest, managed: set<Path>)
    requires again.entries == local.entries && again.resolutions == local.resolutions
    ensures Outgoing(again, Outgoing(local, base, managed), managed).entries == Outgoing(local, base, managed).entries
    ensures Outgoing(again, Outgoing(local, base, managed), managed).resolutions == Outgoing(local, base, managed).resolutions
  {
    var out := Outgoing(local, base, managed);
    var twice := Outgoing(again, out, managed);
    forall p ensures Lookup(twice.entries, p) == Lookup(out.entries, p) && Lookup(twice.resolutions, p) == Lookup(out.resolutions, p) {
      OutgoingAt(local, base, managed, p);
      OutgoingAt(again, out, managed, p);
      MergeUnmanagedTwice(Lookup(local.entries, p), Lookup(base.entries, p));
    }
    SameLookups(twice.entries, out.entries);
    SameLookups(twice.resolutions, out.resolutions);
  }

  /** After a push every managed path the first diff looks at is in sync. */
  lemma InSyncAfterPush(local: Manifest, base: Manifest, managed: Managed, p: Path)
    requires p in managed && (p in local.entries || p in Outgoing(local, base, managed.Keys).entries)
    ensures p in local.entries
    ensures ClassifyAt(local.entries, Outgoing(local, base, managed.Keys).entries, p).InSync?
  {
    OutgoingAt(local, base, managed.Keys, p);
  }

  /**
   The idle sync. Whatever a completed sync went through, if nobody else pushes and nothing is
   edited, the next sync stages nothing, finds every managed path in sync, changes neither entries,
   records nor disk, and pushes the same entries and records under the next version.
   */
  lemma SecondSyncIsIdle(w: Replica, managed: Managed, base: Manifest, i: Input)
    requires var after := Final(w, managed, base).0; AllAgree(after, managed)
    ensures var (after, out) := Final(w, managed, base);
      var (again, out') := SyncOver(after, managed, i.ctx, [out], i.ids, i.reseals);
      && Staged(after, managed) == {}
      && (forall p | Concerns(after, managed, out, p) :: ClassifyAt(after.local.entries, out.entries, p).InSync?)
      && again.disk == after.disk && again.sidecars == after.sidecars
      && again.local.entries == after.local.entries && again.local.resolutions == after.local.resolutions
      && out'.entries == out.entries && out'.resolutions == out.resolutions
      && out'.version == SaturatingInc(out.version)
  {
    var (after, out) := Final(w, managed, base);
    var scanned := ScanAll(after, managed, i.ctx.device, i.ids);
    ScanAllAgrees(after, managed, i.ctx.device, i.ids);
    assert scanned == after;
    hide ScanAll, Staged, AllAgree;
    forall p | Concerns(after, managed, out, p) ensures ClassifyAt(after.local.entries, out.entries, p).InSync? {
      InSyncAfterPush(w.local, base, managed, p);
    }
    var applied := ApplyAll(after, managed, i.ctx, out, i.reseals);
    forall p ensures At(applied, p) == At(after, p) {
      ApplyAllAt(after, managed, i.ctx, out, i.reseals, p);
    }
    SamePathsSameReplica(applied, after);
    hide ApplyAll;
    assert [out][1..] == [];
    var prepared := Prepared(after, managed, i.ctx, out, i.ids, i.reseals);
    OutgoingTwice(w.local, prepared.local, base, managed.Keys);
  }
}
