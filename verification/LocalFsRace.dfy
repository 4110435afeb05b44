/**
 One object of a local store under any number of clients: writers hold the lock and write the
 object before its sidecar, readers list and read without it, and any client may crash.
 */
module LocalFsRace {
  import opened Prelude
  import opened Stores

  type Client = nat

  /** A conditional put under way: what the caller had listed and read, and what it wants to write. */
  datatype Intent = Intent(guard: Option<Etag>, seen: Option<Bytes>, data: Bytes)

  datatype Phase =
    | Idle
    | Found
    | Listed(etag: Option<Etag>)
    | Fetched(etag: Option<Etag>, bytes: Option<Bytes>)
    | Locked(intent: Intent)
    | Checked(intent: Intent)
    | HalfDone(intent: Intent)

  datatype World = World(
    content: Option<Bytes>,
    sidecar: Option<nat>,
    lock: Option<Client>,
    clients: map<Client, Phase>)

  datatype Action =
    | FindEntry
    | ReadSidecar
    | ReadObject
    | Lock(data: Bytes)
    | LockUnconditionally(data: Bytes)
    | Check
    | WriteObject
    | WriteSidecar
    | Crash

  function PhaseOf(w: World, c: Client): Phase {
    if c in w.clients then w.clients[c] else Idle
  }

  function SetPhase(w: World, c: Client, phase: Phase): World {
    w.(clients := w.clients[c := phase])
  }

  /** The check under the lock, as `put` makes it. */
  predicate GuardPasses(content: Option<Bytes>, sidecar: Option<nat>, guard: Option<Etag>) {
    guard.Some? ==>
      if sidecar.Some? then guard.value == Counter(sidecar.value) else guard.value == Absent && content.None?
  }

  function Unlocked(w: World, c: Client): World {
    w.(lock := if w.lock == Some(c) then None else w.lock)
  }

  predicate Step(w: World, c: Client, a: Action, w': World) {
    var phase := PhaseOf(w, c);
    match a
    case FindEntry =>
      && phase.Idle?
      && w' == SetPhase(w, c, if w.content.Some? then Found else Listed(None))
    case ReadSidecar =>
      && phase.Found?
      && w' == SetPhase(w, c, Listed(Some(Counter(if w.sidecar.Some? then w.sidecar.value else 0))))
    case ReadObject =>
      // A manifest without a listed etag is refused.
      && phase.Listed?
      && w' == SetPhase(w, c, if phase.etag.None? && w.content.Some? then Idle else Fetched(phase.etag, w.content))
    case Lock(data) =>
      && phase.Fetched? && w.lock.None?
      && w' == SetPhase(w, c, Locked(Intent(PutGuard(phase.etag), phase.bytes, data))).(lock := Some(c))
    case LockUnconditionally(data) =>
      && phase.Idle? && w.lock.None?
      && w' == SetPhase(w, c, Locked(Intent(None, None, data))).(lock := Some(c))
    case Check =>
      && phase.Locked?
      && w' == if GuardPasses(w.content, w.sidecar, phase.intent.guard)
               then SetPhase(w, c, Checked(phase.intent))
               else SetPhase(Unlocked(w, c), c, Idle)
    case WriteObject =>
      && phase.Checked?
      && w' == SetPhase(w, c, HalfDone(phase.intent)).(content := Some(phase.intent.data))
    case WriteSidecar =>
      && phase.HalfDone?
      && w' == SetPhase(Unlocked(w, c), c, Idle).(sidecar := Some(if w.sidecar.Some? then w.sidecar.value + 1 else 1))
    case Crash =>
      w' == SetPhase(Unlocked(w, c), c, Idle)
  }

  /** A crash between a put's two writes. */
  predicate TearsAPut(w: World, c: Client, a: Action) {
    a.Crash? && PhaseOf(w, c).HalfDone?
  }

  const EMPTY := World(None, None, None, map[])

  ghost predicate Untorn(w: World, w': World) {
    exists c, a :: Step(w, c, a, w') && !TearsAPut(w, c, a)
  }

  ghost predicate IsUntornRun(run: seq<World>) {
    && run != [] && run[0] == EMPTY
    && forall i | 0 <= i < |run| - 1 :: Untorn(run[i], run[i + 1])
  }

  ghost predicate IsRun(run: seq<World>) {
    && run != [] && run[0] == EMPTY
    && forall i | 0 <= i < |run| - 1 :: SomeStep(run[i], run[i + 1])
  }

  ghost predicate SomeStep(w: World, w': World) {
    exists c, a :: Step(w, c, a, w')
  }

  // ---- the invariant ------------------------------------------------------------------------------

  /** The n-th content of the object; before the first write there is none. */
  function Content(writes: seq<Bytes>, n: nat): Option<Bytes>
    requires n <= |writes|
  {
    if n == 0 then None else Some(writes[n - 1])
  }

  function Count(sidecar: Option<nat>): nat {
    if sidecar.Some? then sidecar.value else 0
  }

  predicate Half(w: World) {
    w.lock.Some? && PhaseOf(w, w.lock.value).HalfDone?
  }

  /** The object is the last write; the sidecar counts the writes, one behind inside a put. */
  ghost predicate FilesInv(w: World, writes: seq<Bytes>) {
    && w.content == Content(writes, |writes|)
    && Count(w.sidecar) + (if Half(w) then 1 else 0) == |writes|
    && (w.sidecar.Some? ==> w.sidecar.value > 0)
  }

  predicate InsideLock(phase: Phase) {
    phase.Locked? || phase.Checked? || phase.HalfDone?
  }

  /** What was read after a listing is not older than the listing. */
  ghost predicate NotOlder(etag: Etag, bytes: Option<Bytes>, writes: seq<Bytes>) {
    match etag
    case Absent => bytes.None?
    case Counter(k) => exists j | k <= j <= |writes| :: bytes == Content(writes, j)
  }

  ghost predicate IntentInv(intent: Intent, writes: seq<Bytes>) {
    intent.guard.Some? ==> NotOlder(intent.guard.value, intent.seen, writes)
  }

  ghost predicate ClientInv(w: World, writes: seq<Bytes>, c: Client) {
    var phase := PhaseOf(w, c);
    && (InsideLock(phase) <==> w.lock == Some(c))
    && match phase
       case Idle => true
       case Found => true
       case Listed(etag) => etag.Some? ==> etag.value.Counter? && etag.value.n <= |writes|
       case Fetched(etag, bytes) => NotOlder(PutGuard(etag).value, bytes, writes)
       case Locked(intent) => IntentInv(intent, writes)
       case Checked(intent) => IntentInv(intent, writes) && GuardPasses(w.content, w.sidecar, intent.guard)
       case HalfDone(intent) => true
  }

  ghost predicate Inv(w: World, writes: seq<Bytes>) {
    && FilesInv(w, writes)
    && forall c :: ClientInv(w, writes, c)
  }

  function WritesAfter(w: World, c: Client, a: Action, writes: seq<Bytes>): seq<Bytes> {
    if a.WriteObject? && PhaseOf(w, c).Checked? then writes + [PhaseOf(w, c).intent.data] else writes
  }

  lemma NotOlderGrows(etag: Etag, bytes: Option<Bytes>, writes: seq<Bytes>, more: seq<Bytes>)
    requires NotOlder(etag, bytes, writes)
    ensures NotOlder(etag, bytes, writes + more)
  {
    if etag.Counter? {
      var j :| etag.n <= j <= |writes| && bytes == Content(writes, j);
      assert bytes == Content(writes + more, j);
    }
  }

  lemma FilesStep(w: World, c: Client, a: Action, w': World, writes: seq<Bytes>)
    requires Inv(w, writes) && Step(w, c, a, w') && !TearsAPut(w, c, a)
    ensures FilesInv(w', WritesAfter(w, c, a, writes))
  {
    assert ClientInv(w, writes, c);
    if w.lock.Some? { assert ClientInv(w, writes, w.lock.value); }
  }

  /** The client that moves. */
  lemma MoverStep(w: World, c: Client, a: Action, w': World, writes: seq<Bytes>)
    requires Inv(w, writes) && Step(w, c, a, w') && !TearsAPut(w, c, a)
    ensures ClientInv(w', WritesAfter(w, c, a, writes), c)
  {
    assert ClientInv(w, writes, c);
    assert w.content == Content(writes, |writes|);
  }

  /** The others. */
  lemma BystanderStep(w: World, c: Client, a: Action, w': World, writes: seq<Bytes>, d: Client)
    requires Inv(w, writes) && Step(w, c, a, w') && !TearsAPut(w, c, a) && d != c
    ensures ClientInv(w', WritesAfter(w, c, a, writes), d)
  {
    assert ClientInv(w, writes, c) && ClientInv(w, writes, d);
    assert PhaseOf(w', d) == PhaseOf(w, d);
    var phase := PhaseOf(w, d);
    var more := WritesAfter(w, c, a, writes)[|writes|..];
    assert writes + more == WritesAfter(w, c, a, writes);
    hide NotOlder;
    match phase {
      case Fetched(etag, bytes) => NotOlderGrows(PutGuard(etag).value, bytes, writes, more);
      case Locked(intent) => if intent.guard.Some? { NotOlderGrows(intent.guard.value, intent.seen, writes, more); }
      case Checked(intent) => if intent.guard.Some? { NotOlderGrows(intent.guard.value, intent.seen, writes, more); }
      case _ =>
    }
  }

  lemma StepKeeps(w: World, c: Client, a: Action, w': World, writes: seq<Bytes>)
    requires Inv(w, writes) && Step(w, c, a, w') && !TearsAPut(w, c, a)
    ensures Inv(w', WritesAfter(w, c, a, writes))
  {
    FilesStep(w, c, a, w', writes);
    MoverStep(w, c, a, w', writes);
    forall d | d != c ensures ClientInv(w', WritesAfter(w, c, a, writes), d) {
      BystanderStep(w, c, a, w', writes, d);
    }
  }

  lemma {:induction false} RunInvariant(run: seq<World>, i: nat)
    requires IsUntornRun(run) && i < |run|
    ensures exists writes :: Inv(run[i], writes)
    decreases i
  {
    if i == 0 {
      assert Inv(run[0], []);
    } else {
      RunInvariant(run, i - 1);
      var writes :| Inv(run[i - 1], writes);
      assert Untorn(run[i - 1], run[i - 1 + 1]);
      var c, a :| Step(run[i - 1], c, a, run[i]) && !TearsAPut(run[i - 1], c, a);
      StepKeeps(run[i - 1], c, a, run[i], writes);
    }
  }

  // ---- what it gives --------------------------------------------------------------------------------

  /** A conditional put passed its check and is about to overwrite something its caller did not read. */
  predicate LosesAnUpdate(w: World, c: Client) {
    var phase := PhaseOf(w, c);
    phase.Checked? && phase.intent.guard.Some? && w.content != phase.intent.seen
  }

  /**
   Unlocked readers are safe. However lists, reads and puts interleave, a conditional put that
   succeeds overwrites exactly what its caller had read, as long as no put is torn.
   */
  lemma PutOverwritesWhatWasRead(run: seq<World>, i: nat, c: Client)
    requires IsUntornRun(run) && i < |run|
    ensures !LosesAnUpdate(run[i], c)
  {
    RunInvariant(run, i);
    var writes :| Inv(run[i], writes);
    assert ClientInv(run[i], writes, c);
  }

  /** At rest, object and sidecar exist together. */
  lemma FilesExistTogether(run: seq<World>, i: nat)
    requires IsUntornRun(run) && i < |run| && !Half(run[i])
    ensures run[i].content.Some? <==> run[i].sidecar.Some?
  {
    RunInvariant(run, i);
  }

  /** A conditional put can succeed with some etag exactly when there is not an object without sidecar. */
  lemma SomeGuardPassesIff(content: Option<Bytes>, sidecar: Option<nat>)
    ensures (exists etag :: GuardPasses(content, sidecar, Some(etag))) <==> !(content.Some? && sidecar.None?)
  {
    if sidecar.Some? {
      assert GuardPasses(content, sidecar, Some(Counter(sidecar.value)));
    } else if content.None? {
      assert GuardPasses(content, sidecar, Some(Absent));
    }
  }

  // ---- exactly when an update is lost -----------------------------------------------------------------

  /** What holds in every run, torn puts or not: the lock has one owner, and a check that passed stays passed. */
  predicate OwnsOrNot(w: World, c: Client) {
    var phase := PhaseOf(w, c);
    && (InsideLock(phase) <==> w.lock == Some(c))
    && (phase.Checked? ==> GuardPasses(w.content, w.sidecar, phase.intent.guard))
  }

  ghost predicate LockInv(w: World) {
    forall c :: OwnsOrNot(w, c)
  }

  lemma LockStep(w: World, c: Client, a: Action, w': World)
    requires LockInv(w) && Step(w, c, a, w')
    ensures LockInv(w')
  {
    assert OwnsOrNot(w, c);
    forall d ensures OwnsOrNot(w', d) { assert OwnsOrNot(w, d); }
  }

  lemma {:induction false} LockAlways(run: seq<World>, i: nat)
    requires IsRun(run) && i < |run|
    ensures LockInv(run[i])
    decreases i
  {
    if i > 0 {
      LockAlways(run, i - 1);
      var c, a := StepAt(run, i - 1);
      LockStep(run[i - 1], c, a, run[i]);
    }
  }

  lemma StepAt(run: seq<World>, i: nat) returns (c: Client, a: Action)
    requires IsRun(run) && i + 1 < |run|
    ensures Step(run[i], c, a, run[i + 1])
  {
    assert SomeStep(run[i], run[i + 1]);
    c, a :| Step(run[i], c, a, run[i + 1]);
  }

  // What a client in the middle of its put has behind it.

  /** The listing: no entry, or an entry with the counter of its sidecar. */
  predicate Lists(w: World, etag: Option<Etag>) {
    if etag.None? then w.content.None? else etag.value == Counter(Count(w.sidecar))
  }

  ghost predicate ListedSince(run: seq<World>, l: nat, i: nat, c: Client, etag: Option<Etag>) {
    && l < i < |run|
    && Lists(run[l], etag)
    && forall k | l < k <= i :: PhaseOf(run[k], c) == Listed(etag)
  }

  predicate Carries(phase: Phase, etag: Option<Etag>, bytes: Option<Bytes>) {
    || phase == Fetched(etag, bytes)
    || ((phase.Locked? || phase.Checked?) && phase.intent.guard == PutGuard(etag) && phase.intent.seen == bytes)
  }

  /** The client listed at `l` and read at `r`, and has carried both ever since. */
  ghost predicate ReadSince(run: seq<World>, l: nat, r: nat, i: nat, c: Client, etag: Option<Etag>, bytes: Option<Bytes>) {
    && r < i < |run|
    && ListedSince(run, l, r, c, etag)
    && Step(run[r], c, ReadObject, run[r + 1])
    && bytes == run[r].content && run[r + 1].content == bytes && (etag.None? ==> bytes.None?)
    && forall k | r < k <= i :: Carries(PhaseOf(run[k], c), etag, bytes)
  }

  lemma {:induction false} ListingOf(run: seq<World>, i: nat, c: Client) returns (l: nat)
    requires IsRun(run) && i < |run| && PhaseOf(run[i], c).Listed?
    ensures ListedSince(run, l, i, c, PhaseOf(run[i], c).etag)
    decreases i
  {
    var e, a := StepAt(run, i - 1);
    if PhaseOf(run[i - 1], c) == PhaseOf(run[i], c) {
      l := ListingOf(run, i - 1, c);
    } else {
      l := i - 1;
    }
  }

  lemma {:induction false} ReadingOf(run: seq<World>, i: nat, c: Client)
    returns (l: nat, r: nat, etag: Option<Etag>, bytes: Option<Bytes>)
    requires IsRun(run) && i < |run|
    requires var phase := PhaseOf(run[i], c);
      phase.Fetched? || ((phase.Locked? || phase.Checked?) && phase.intent.guard.Some?)
    ensures ReadSince(run, l, r, i, c, etag, bytes)
    decreases i
  {
    var e, a := StepAt(run, i - 1);
    if e == c && a.ReadObject? {
      r := i - 1;
      l := ListingOf(run, r, c);
      etag, bytes := PhaseOf(run[r], c).etag, run[r].content;
    } else {
      l, r, etag, bytes := ReadingOf(run, i - 1, c);
    }
  }

  // What happens to the files meanwhile.

  ghost predicate WritesAt(run: seq<World>, k: nat, e: Client)
    requires k + 1 < |run|
  {
    Step(run[k], e, WriteObject, run[k + 1])
  }

  ghost predicate CountsAt(run: seq<World>, k: nat)
    requires k + 1 < |run|
  {
    Counted(run[k], run[k + 1])
  }

  ghost predicate Counted(w: World, w': World) {
    exists e :: Counts(w, e, w')
  }

  predicate Counts(w: World, e: Client, w': World) {
    Step(w, e, WriteSidecar, w')
  }

  ghost predicate TearsAt(run: seq<World>, m: nat, e: Client)
    requires m + 1 < |run|
  {
    Step(run[m], e, Crash, run[m + 1]) && TearsAPut(run[m], e, Crash)
  }

  ghost predicate TornBefore(run: seq<World>, k: nat, i: nat, e: Client)
    requires i < |run|
  {
    exists m: nat :: k < m < i && TearsAt(run, m, e)
  }

  lemma FilesOnce(run: seq<World>, k: nat)
    requires IsRun(run) && k + 1 < |run|
    ensures Count(run[k].sidecar) <= Count(run[k + 1].sidecar)
    ensures run[k].sidecar.Some? ==> run[k + 1].sidecar.Some?
    ensures CountsAt(run, k) ==> run[k + 1].sidecar.Some? && Count(run[k].sidecar) < Count(run[k + 1].sidecar)
    ensures run[k].content != run[k + 1].content ==> exists e :: WritesAt(run, k, e)
  {
    var c, a := StepAt(run, k);
    if a.WriteObject? { assert WritesAt(run, k, c); }
  }

  lemma {:induction false} CountRises(run: seq<World>, l: nat, i: nat)
    requires IsRun(run) && l <= i < |run|
    ensures Count(run[l].sidecar) <= Count(run[i].sidecar)
    ensures run[l].sidecar.Some? ==> run[i].sidecar.Some?
    decreases i - l
  {
    if l < i {
      FilesOnce(run, l);
      CountRises(run, l + 1, i);
    }
  }

  /** Between the listing and a passed check no put has been completed. */
  lemma NothingCounted(run: seq<World>, l: nat, i: nat, etag: Option<Etag>)
    requires IsRun(run) && l <= i < |run| && Lists(run[l], etag) && GuardPasses(run[i].content, run[i].sidecar, PutGuard(etag))
    ensures forall k: nat | l <= k < i :: !CountsAt(run, k)
  {
    forall k: nat | l <= k < i ensures !CountsAt(run, k) {
      CountRises(run, l, k);
      FilesOnce(run, k);
      CountRises(run, k + 1, i);
    }
  }

  /** A put that is neither completed nor under way any more was torn. */
  lemma {:induction false} UnfinishedIsTorn(run: seq<World>, k: nat, i: nat, e: Client)
    requires IsRun(run) && k < i < |run| && PhaseOf(run[k], e).HalfDone? && !PhaseOf(run[i], e).HalfDone?
    requires forall m: nat | k <= m < i :: !CountsAt(run, m)
    ensures exists m: nat :: k <= m < i && TearsAt(run, m, e)
    decreases i - k
  {
    var c, a := StepAt(run, k);
    if PhaseOf(run[k + 1], e).HalfDone? {
      UnfinishedIsTorn(run, k + 1, i, e);
    } else {
      assert !CountsAt(run, k) && !Counts(run[k], c, run[k + 1]);
      assert TearsAt(run, k, e);
    }
  }

  ghost predicate NoWrite(run: seq<World>, a: nat, b: nat)
    requires b < |run|
  {
    forall k: nat, e | a <= k < b :: !WritesAt(run, k, e)
  }

  /** The content is the one before, or the one of the last write. */
  lemma {:induction false} LastWrite(run: seq<World>, a: nat, b: nat) returns (k: nat, e: Client)
    requires IsRun(run) && a <= b < |run|
    ensures NoWrite(run, a, b) ==> run[b].content == run[a].content
    ensures !NoWrite(run, a, b) ==> a <= k < b && WritesAt(run, k, e) && NoWrite(run, k + 1, b)
    ensures !NoWrite(run, a, b) ==> run[b].content == run[k + 1].content
    decreases b - a
  {
    k, e := 0, 0;
    hide Step, IsRun;
    if a < b {
      var last := b - 1;
      FilesOnce(run, last);
      if d :| WritesAt(run, last, d) {
        k, e := last, d;
      } else {
        k, e := LastWrite(run, a, last);
        assert NoWrite(run, a, b) <==> NoWrite(run, a, last);
      }
    }
  }

  /**
   The write that did the damage: after the caller's read, by another client that crashed before it
   had counted it, not followed by another write, and not of what the caller had read.
   */
  ghost predicate LostTo(run: seq<World>, r: nat, i: nat, c: Client, seen: Option<Bytes>, k: nat, e: Client)
    requires i < |run|
  {
    && r < k < i && e != c
    && WritesAt(run, k, e) && TornBefore(run, k, i, e) && NoWrite(run, k + 1, i)
    && run[k + 1].content != seen
  }

  lemma ContentChangesIff(run: seq<World>, r: nat, i: nat, c: Client, seen: Option<Bytes>)
    requires IsRun(run) && r < i < |run| && run[r + 1].content == seen
    requires forall k: nat, e | r < k < i && WritesAt(run, k, e) :: e != c && TornBefore(run, k, i, e)
    ensures run[i].content != seen <==> exists k: nat, e: Client :: LostTo(run, r, i, c, seen, k, e)
  {
    hide Step, IsRun, TornBefore, WritesAt;
    var k, e := LastWrite(run, r + 1, i);
    if !NoWrite(run, r + 1, i) && run[i].content != seen {
      assert LostTo(run, r, i, c, seen, k, e);
    }
    if k2: nat, e2: Client :| LostTo(run, r, i, c, seen, k2, e2) {
      assert !NoWrite(run, r + 1, i);
      if k2 < k { assert WritesAt(run, k, e); }
    }
  }

  lemma WriteIsHalf(run: seq<World>, k: nat, e: Client)
    requires k + 1 < |run| && WritesAt(run, k, e)
    ensures PhaseOf(run[k + 1], e).HalfDone?
  {}

  lemma WrittenSinceIsTorn(run: seq<World>, l: nat, r: nat, i: nat, c: Client, etag: Option<Etag>, bytes: Option<Bytes>,
      k: nat, e: Client)
    requires IsRun(run) && ReadSince(run, l, r, i, c, etag, bytes) && PhaseOf(run[i], c).Checked?
    requires forall m: nat | l <= m < i :: !CountsAt(run, m)
    requires r < k < i && WritesAt(run, k, e)
    ensures e != c && TornBefore(run, k, i, e)
  {
    hide IsRun, CountsAt, TearsAt, GuardPasses;
    WriteIsHalf(run, k, e);
    assert Carries(PhaseOf(run[k + 1], c), etag, bytes);
    LockAlways(run, i);
    assert OwnsOrNot(run[i], c) && OwnsOrNot(run[i], e);
    hide Step, WritesAt;
    if k + 1 < i { UnfinishedIsTorn(run, k + 1, i, e); }
  }

  /**
   Exactly when an update is lost, in any run, torn or not. A conditional put that passed its check has
   listed and then read, and no put was completed since the listing. It overwrites something its caller
   did not read if and only if, since that read, the last client to write the object crashed before
   counting its write, and wrote something else.
   */
  lemma LosesAnUpdateIff(run: seq<World>, i: nat, c: Client) returns (l: nat, r: nat)
    requires IsRun(run) && i < |run| && PhaseOf(run[i], c).Checked? && PhaseOf(run[i], c).intent.guard.Some?
    ensures exists etag :: ReadSince(run, l, r, i, c, etag, PhaseOf(run[i], c).intent.seen)
    ensures forall k: nat | l <= k < i :: !CountsAt(run, k)
    ensures LosesAnUpdate(run[i], c)
      <==> exists k: nat, e: Client :: LostTo(run, r, i, c, PhaseOf(run[i], c).intent.seen, k, e)
  {
    hide Step, IsRun, CountsAt, TornBefore, WritesAt, GuardPasses;
    var etag, bytes;
    l, r, etag, bytes := ReadingOf(run, i, c);
    assert Carries(PhaseOf(run[i], c), etag, bytes);
    LockAlways(run, i);
    assert OwnsOrNot(run[i], c);
    NothingCounted(run, l, i, etag);
    forall k: nat, e | r < k < i && WritesAt(run, k, e) ensures e != c && TornBefore(run, k, i, e) {
      WrittenSinceIsTorn(run, l, r, i, c, etag, bytes, k, e);
    }
    ContentChangesIff(run, r, i, c, bytes);
  }

  // ---- torn puts --------------------------------------------------------------------------------------

  /** An object without a sidecar, and no put past its check. */
  ghost predicate Wedged(w: World) {
    && w.content.Some? && w.sidecar.None?
    && forall c :: WaitsOutside(w, c)
  }

  predicate WaitsOutside(w: World, c: Client) {
    var phase := PhaseOf(w, c);
    !phase.Checked? && !phase.HalfDone? && (phase.Locked? ==> phase.intent.guard.Some?)
  }

  /** No conditional put ever repairs that: it takes an unconditional one. */
  lemma WedgedStays(w: World, c: Client, a: Action, w': World)
    requires Wedged(w) && Step(w, c, a, w') && !a.LockUnconditionally?
    ensures Wedged(w')
  {
    assert WaitsOutside(w, c);
    forall d ensures WaitsOutside(w', d) {
      assert WaitsOutside(w, d);
    }
  }

  ghost predicate Reachable(w: World) {
    exists run: seq<World> :: IsRun(run) && run[|run| - 1] == w
  }

  lemma StartsReachable()
    ensures Reachable(EMPTY)
  {
    assert IsRun([EMPTY]);
  }

  lemma Goes(w: World, c: Client, a: Action, w': World)
    requires Reachable(w) && Step(w, c, a, w')
    ensures Reachable(w')
  {
    var run: seq<World> :| IsRun(run) && run[|run| - 1] == w;
    var longer := run + [w'];
    assert SomeStep(w, w');
    hide Step, SomeStep;
    forall i | 0 <= i < |longer| - 1 ensures SomeStep(longer[i], longer[i + 1]) {
      if i < |run| - 1 { assert SomeStep(run[i], run[i + 1]); }
    }
    assert IsRun(longer);
  }

  /** A world in which clients 0 to 2 are in the given phases. */
  function Three(content: Option<Bytes>, sidecar: Option<nat>, lock: Option<Client>, p1: Phase, p2: Phase): World {
    World(content, sidecar, lock, map[0 := Idle, 1 := p1, 2 := p2])
  }

  lemma FirstPut(a: Bytes, torn: bool)
    ensures Reachable(World(Some(a), if torn then None else Some(1), None, map[0 := Idle]))
  {
    hide Reachable;
    var intent := Intent(Some(Absent), None, a);
    var w1 := World(None, None, None, map[0 := Listed(None)]);
    var w2 := World(None, None, None, map[0 := Fetched(None, None)]);
    var w3 := World(None, None, Some(0), map[0 := Locked(intent)]);
    var w4 := World(None, None, Some(0), map[0 := Checked(intent)]);
    var w5 := World(Some(a), None, Some(0), map[0 := HalfDone(intent)]);
    StartsReachable();
    Goes(EMPTY, 0, FindEntry, w1);
    Goes(w1, 0, ReadObject, w2);
    Goes(w2, 0, Lock(a), w3);
    Goes(w3, 0, Check, w4);
    Goes(w4, 0, WriteObject, w5);
    Goes(w5, 0, if torn then Crash else WriteSidecar, World(Some(a), if torn then None else Some(1), None, map[0 := Idle]));
  }

  /** Two clients list and read the same version. */
  lemma TwoReaders(a: Bytes)
    ensures Reachable(Three(Some(a), Some(1), None, Fetched(Some(Counter(1)), Some(a)), Fetched(Some(Counter(1)), Some(a))))
  {
    hide Reachable;
    var one, A, s := Some(Counter(1)), Some(a), Some(1);
    var got := Fetched(one, A);
    var w0 := World(A, s, None, map[0 := Idle]);
    var w1 := World(A, s, None, map[0 := Idle, 1 := Found]);
    var w2 := World(A, s, None, map[0 := Idle, 1 := Listed(one)]);
    var w3 := World(A, s, None, map[0 := Idle, 1 := got]);
    FirstPut(a, false);
    Goes(w0, 1, FindEntry, w1);
    Goes(w1, 1, ReadSidecar, w2);
    Goes(w2, 1, ReadObject, w3);
    Goes(w3, 2, FindEntry, Three(A, s, None, got, Found));
    Goes(Three(A, s, None, got, Found), 2, ReadSidecar, Three(A, s, None, got, Listed(one)));
    Goes(Three(A, s, None, got, Listed(one)), 2, ReadObject, Three(A, s, None, got, got));
  }

  /** A crash inside the very first put leaves the object wedged. */
  lemma CrashCanWedge(a: Bytes)
    ensures exists w: World :: Reachable(w) && Wedged(w)
  {
    FirstPut(a, true);
    assert Wedged(World(Some(a), None, None, map[0 := Idle]));
  }

  /** Then one of them tears its put. */
  lemma TornSecondPut(a: Bytes, b: Bytes)
    ensures Reachable(Three(Some(b), Some(1), None, Fetched(Some(Counter(1)), Some(a)), Idle))
  {
    hide Reachable;
    var one, A, s := Some(Counter(1)), Some(a), Some(1);
    var got, theirs := Fetched(one, A), Intent(one, A, b);
    TwoReaders(a);
    var w1 := Three(A, s, Some(2), got, Locked(theirs));
    var w2 := Three(A, s, Some(2), got, Checked(theirs));
    var w3 := Three(Some(b), s, Some(2), got, HalfDone(theirs));
    Goes(Three(A, s, None, got, got), 2, Lock(b), w1);
    Goes(w1, 2, Check, w2);
    Goes(w2, 2, WriteObject, w3);
    Goes(w3, 2, Crash, Three(Some(b), s, None, got, Idle));
  }

  /** A crash inside a later put can make a conditional put overwrite what its caller never read. */
  lemma CrashCanLoseAnUpdate(a: Bytes, b: Bytes)
    requires a != b
    ensures exists w: World, c: Client :: Reachable(w) && LosesAnUpdate(w, c)
  {
    hide Reachable;
    var one, s := Some(Counter(1)), Some(1);
    var mine := Intent(one, Some(a), a);
    TornSecondPut(a, b);
    var w1 := Three(Some(b), s, None, Fetched(one, Some(a)), Idle);
    var w2 := Three(Some(b), s, Some(1), Locked(mine), Idle);
    var w3 := Three(Some(b), s, Some(1), Checked(mine), Idle);
    Goes(w1, 1, Lock(a), w2);
    Goes(w2, 1, Check, w3);
    assert LosesAnUpdate(w3, 1);
  }
}
