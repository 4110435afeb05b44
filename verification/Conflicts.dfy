/** Deterministic winner selection between two versions of a path. */
module Conflicts {
  import opened Prelude
  import opened Clocks
  import opened Manifests
  import Names
  import Utf8

  const U128: int := 0x1_0000_0000_0000_0000_0000_0000_0000_0000

  datatype Ordering = Less | Equal | Greater

  function Reverse(o: Ordering): Ordering {
    match o case Less => Greater case Equal => Equal case Greater => Less
  }

  function CompareInt(a: int, b: int): Ordering {
    if a < b then Less else if b < a then Greater else Equal
  }

  // ---- the mass of a clock --------------------------------------------------------------

  /** The device name read as a number in base 131, before it is cut to 128 bits. */
  function Polynomial(bs: Bytes): nat {
    if bs == [] then 0 else Polynomial(bs[..|bs| - 1]) * 131 + bs[|bs| - 1]
  }

  function HashDevice(d: DeviceId): nat {
    Polynomial(Utf8.Encode(d)) % U128
  }

  lemma WrapStep(h: nat, b: nat)
    ensures ((h % U128) * 131 % U128 + b) % U128 == (h * 131 + b) % U128
  {
    var q, r := h / U128, h % U128;
    assert h * 131 == U128 * (q * 131) + r * 131;
    var q2, r2 := r * 131 / U128, r * 131 % U128;
    assert r * 131 == U128 * q2 + r2;
    assert h * 131 + b == U128 * (q * 131 + q2) + (r2 + b);
    ModShift(q * 131 + q2, r2 + b);
  }

  lemma ModShift(k: int, x: int)
    ensures (U128 * k + x) % U128 == x % U128
  {
    var q, r := x / U128, x % U128;
    assert U128 * k + x == U128 * (k + q) + r;
  }

  /** `hash_device`: every step wraps at 128 bits. */
  method ComputeHashDevice(d: DeviceId) returns (h: nat)
    ensures h == HashDevice(d)
  {
    var bs := Utf8.Encode(d);
    h := 0;
    for i := 0 to |bs|
      invariant h == Polynomial(bs[..i]) % U128
    {
      assert bs[..i + 1][..i] == bs[..i];
      WrapStep(Polynomial(bs[..i]), bs[i]);
      h := (h * 131 % U128 + bs[i]) % U128;
    }
    assert bs[..|bs|] == bs;
  }

  /** The weight of a clock without the cut to 128 bits. */
  function FullMass(c: Clock): nat
    decreases |c|
  {
    if c == map[] then 0 else
      var d := Names.Least(c.Keys);
      HashDevice(d) + c[d] + FullMass(c - {d})
  }

  function Mass(c: Clock): nat {
    FullMass(c) % U128
  }

  function CompareClocks(a: Clock, b: Clock): Ordering {
    if HappensBefore(a, b) then Less
    else if HappensBefore(b, a) then Greater
    else if a == b then Equal
    else CompareInt(Mass(a), Mass(b))
  }

  /** The fold over the clock's components: each addition wraps at 128 bits. */
  method ComputeMass(c: Clock) returns (m: nat)
    ensures m == Mass(c)
  {
    hide HashDevice, FullMass;
    FullMassOfNothing();
    var rest := c;
    ghost var done: nat := 0;
    m := 0;
    while rest != map[]
      invariant done + FullMass(rest) == FullMass(c)
      invariant m == done % U128
      decreases |rest|
    {
      var d := Names.Least(rest.Keys);
      var h := ComputeHashDevice(d);
      AddWraps(done, h + rest[d]);
      FullMassUnfold(rest);
      m := (m + (h + rest[d]) % U128) % U128;
      done := done + (h + rest[d]);
      rest := rest - {d};
    }
  }

  lemma FullMassOfNothing()
    ensures FullMass(map[]) == 0
  {}

  lemma FullMassUnfold(c: Clock)
    requires c != map[]
    ensures var d := Names.Least(c.Keys); FullMass(c) == HashDevice(d) + c[d] + FullMass(c - {d})
  {
    hide HashDevice;
  }

  lemma AddWraps(m: nat, x: nat)
    ensures (m % U128 + x % U128) % U128 == (m + x) % U128
  {
    var q, r := m / U128, m % U128;
    var q2, r2 := x / U128, x % U128;
    assert m + x == U128 * (q + q2) + (r + r2);
    ModShift(q + q2, r + r2);
  }

  /** The mass does not depend on the order in which components are added. */
  lemma {:induction false} MassWithout(c: Clock, d: DeviceId)
    requires d in c
    ensures FullMass(c) == HashDevice(d) + c[d] + FullMass(c - {d})
    decreases |c|
  {
    var least := Names.Least(c.Keys);
    if d != least {
      MassWithout(c - {least}, d);
      assert (c - {least}) - {d} == (c - {d}) - {least};
      MassWithout(c - {d}, least);
    }
  }

  lemma {:induction false} MassIsMonotone(a: Clock, b: Clock)
    requires NoZero(a) && Leq(a, b)
    ensures FullMass(a) <= FullMass(b)
    ensures FullMass(a) == FullMass(b) ==> forall d | d in b :: Get(a, d) == b[d]
    decreases |b|
  {
    if b == map[] {
      assert a == map[] by {
        forall d ensures d !in a { LeqAt(a, b, d); }
      }
    } else {
      var d := Names.Least(b.Keys);
      var a', b' := a - {d}, b - {d};
      forall x | x in a' ensures a'[x] <= Get(b', x) { LeqAt(a, b, x); }
      MassIsMonotone(a', b');
      if d in a {
        MassWithout(a, d);
      } else {
        assert a' == a;
      }
      LeqAt(a, b, d);
      if FullMass(a) == FullMass(b) {
        forall x | x in b ensures Get(a, x) == b[x] {
          if x != d { assert Get(a', x) == b'[x]; }
        }
      }
    }
  }

  lemma LaterIsHeavier(a: Clock, b: Clock)
    requires NoZero(a) && HappensBefore(a, b)
    ensures FullMass(a) < FullMass(b)
  {
    MassIsMonotone(a, b);
  }

  // ---- the order on clocks ---------------------------------------------------------------

  predicate Fits(c: Clock) {
    NoZero(c) && FullMass(c) < U128
  }

  lemma CompareReverses(a: Clock, b: Clock)
    ensures CompareClocks(b, a) == Reverse(CompareClocks(a, b))
    ensures HappensBefore(a, b) ==> CompareClocks(a, b) == Less
  {
    StrictPartialOrder(a, b, a);
  }

  lemma CompareByWeights(a: Clock, b: Clock, wa: int, wb: int)
    requires HappensBefore(a, b) ==> wa < wb
    requires HappensBefore(b, a) ==> wb < wa
    requires a == b ==> wa == wb
    requires !HappensBefore(a, b) && !HappensBefore(b, a) ==> wa == Mass(a) && wb == Mass(b)
    ensures CompareClocks(a, b) == CompareInt(wa, wb)
  {}

  lemma MassOfFitting(c: Clock)
    requires Fits(c)
    ensures Mass(c) == FullMass(c)
  {}

  /**
   On clocks that store no zero and whose mass fits 128 bits the comparison is the comparison of
   masses: a total preorder that extends happens-before.
   */
  lemma CompareIsMassOrder(a: Clock, b: Clock)
    requires Fits(a) && Fits(b)
    ensures CompareClocks(a, b) == CompareInt(FullMass(a), FullMass(b))
  {
    if HappensBefore(a, b) { LaterIsHeavier(a, b); }
    if HappensBefore(b, a) { LaterIsHeavier(b, a); }
    MassOfFitting(a);
    MassOfFitting(b);
    CompareByWeights(a, b, FullMass(a), FullMass(b));
  }

  lemma CarryFree(x: nat, y: nat)
    requires x < y
    ensures x % U128 < y % U128 <==> (y - x) % U128 != 0 && x % U128 + (y - x) % U128 < U128
  {
    var g := y - x;
    assert y == U128 * (x / U128 + g / U128) + (x % U128 + g % U128);
    ModShift(x / U128 + g / U128, x % U128 + g % U128);
  }

  /** If the one clock is causally earlier, adding its growth to the other does not carry out of 128 bits. */
  predicate NoCarry(a: Clock, b: Clock) {
    HappensBefore(a, b) ==>
      var growth := (FullMass(b) - FullMass(a)) % U128; growth != 0 && Mass(a) + growth < U128
  }

  /**
   On any two clocks that store no zero, the comparison is the comparison of the 128-bit masses
   exactly when no carry occurs between causally ordered ones.
   */
  lemma CompareAgreesWithMassIff(a: Clock, b: Clock)
    requires NoZero(a) && NoZero(b)
    ensures CompareClocks(a, b) == CompareInt(Mass(a), Mass(b)) <==> NoCarry(a, b) && NoCarry(b, a)
  {
    StrictPartialOrder(a, b, a);
    if HappensBefore(a, b) {
      LaterIsHeavier(a, b);
      CarryFree(FullMass(a), FullMass(b));
    } else if HappensBefore(b, a) {
      LaterIsHeavier(b, a);
      CarryFree(FullMass(b), FullMass(a));
    }
  }

  // ---- when it is an order -----------------------------------------------------------------

  predicate Ranks(a: Clock, b: Clock) {
    CompareClocks(a, b) != Greater
  }

  /** A clock concurrent with both of two causally ordered ones lies between their masses the wrong way round. */
  predicate Twisted(a: Clock, b: Clock, c: Clock) {
    HappensBefore(a, b) && Concurrent(a, c) && Concurrent(b, c) && Mass(b) <= Mass(c) <= Mass(a)
  }

  /** One causal pair and a clock concurrent with both: they form a cycle exactly when they are twisted. */
  lemma CycleIff(a: Clock, b: Clock, c: Clock)
    requires HappensBefore(a, b) && Concurrent(a, c) && Concurrent(b, c)
    ensures Ranks(b, c) && Ranks(c, a) <==> Mass(b) <= Mass(c) <= Mass(a)
    ensures CompareClocks(a, b) == Less
  {
    CompareConcurrent(b, c);
    CompareConcurrent(c, a);
  }

  lemma CompareConcurrent(a: Clock, b: Clock)
    requires Concurrent(a, b)
    ensures CompareClocks(a, b) == CompareInt(Mass(a), Mass(b))
  {
    HappensBeforeIsStrictLeq(a, b);
    HappensBeforeIsStrictLeq(b, a);
  }

  /** Two clocks that are not causally ordered, equal ones included, are compared by mass. */
  lemma CompareUnordered(a: Clock, b: Clock)
    requires !HappensBefore(a, b) && !HappensBefore(b, a)
    ensures CompareClocks(a, b) == CompareInt(Mass(a), Mass(b))
  {}

  /** Clocks that are not ordered causally are concurrent or the same, and the same clock has the same neighbours. */
  lemma UnorderedIsConcurrent(a: Clock, b: Clock, c: Clock)
    requires HappensBefore(a, b)
    requires !HappensBefore(a, c) && !HappensBefore(c, a) && !HappensBefore(b, c) && !HappensBefore(c, b)
    ensures Concurrent(a, c) && Concurrent(b, c)
  {
    HappensBeforeIsStrictLeq(a, c);
    HappensBeforeIsStrictLeq(c, a);
    HappensBeforeIsStrictLeq(b, c);
    HappensBeforeIsStrictLeq(c, b);
    StrictPartialOrder(c, a, b);
    StrictPartialOrder(a, b, c);
  }

  predicate TwistedSomehow(a: Clock, b: Clock, c: Clock) {
    Twisted(a, b, c) || Twisted(b, c, a) || Twisted(c, a, b)
  }

  /** Every way three clocks can go round: each at most the next, and one step strict. */
  lemma RoundTripIsTwisted(a: Clock, b: Clock, c: Clock)
    requires Ranks(a, b) && Ranks(b, c) && CompareClocks(c, a) == Less
    ensures TwistedSomehow(a, b, c)
  {
    CompareReverses(a, b);
    CompareReverses(b, c);
    CompareReverses(c, a);
    StrictPartialOrder(a, b, c);
    StrictPartialOrder(b, c, a);
    StrictPartialOrder(c, a, b);
    if HappensBefore(a, b) {
      UnorderedIsConcurrent(a, b, c);
      CycleIff(a, b, c);
    } else if HappensBefore(b, c) {
      UnorderedIsConcurrent(b, c, a);
      CycleIff(b, c, a);
    } else {
      CompareUnordered(a, b);
      CompareUnordered(b, c);
      if HappensBefore(c, a) {
        UnorderedIsConcurrent(c, a, b);
      } else {
        CompareUnordered(c, a);
      }
    }
  }

  /**
   Exactly when the comparison is the total order it is meant to be: on any set of clocks it is
   transitive if and only if no three of them are twisted.
   */
  lemma CompareIsTransitiveIff(clocks: set<Clock>)
    ensures (forall a, b, c | a in clocks && b in clocks && c in clocks && Ranks(a, b) && Ranks(b, c) :: Ranks(a, c))
      <==> (forall a, b, c | a in clocks && b in clocks && c in clocks :: !Twisted(a, b, c))
  {
    hide CompareClocks, Ranks, Twisted;
    if a, b, c :| a in clocks && b in clocks && c in clocks && Twisted(a, b, c) {
      TwistedIsACycle(a, b, c);
    }
    if a, b, c :| a in clocks && b in clocks && c in clocks && Ranks(a, b) && Ranks(b, c) && !Ranks(a, c) {
      GreaterIsLessReversed(a, c);
      RoundTripIsTwisted(a, b, c);
    }
  }

  lemma GreaterIsLessReversed(a: Clock, c: Clock)
    requires !Ranks(a, c)
    ensures CompareClocks(c, a) == Less
  {
    CompareReverses(a, c);
  }

  /** Three twisted clocks go round. */
  lemma TwistedIsACycle(a: Clock, b: Clock, c: Clock)
    requires Twisted(a, b, c)
    ensures CompareClocks(a, b) == Less && Ranks(b, c) && Ranks(c, a) && !Ranks(b, a)
  {
    CycleIff(a, b, c);
    CompareReverses(a, b);
  }

  /** Without a carry between causally ordered clocks none are twisted. */
  lemma NoCarryNoTwist(a: Clock, b: Clock, c: Clock)
    requires NoZero(a) && NoZero(b) && NoCarry(a, b)
    ensures !Twisted(a, b, c)
  {
    if HappensBefore(a, b) {
      LaterIsHeavier(a, b);
      CarryFree(FullMass(a), FullMass(b));
    }
  }

  /** So without a carry it is transitive, ties included. */
  lemma CompareIsTransitive(a: Clock, b: Clock, c: Clock)
    requires NoZero(a) && NoZero(b) && NoZero(c)
    requires NoCarry(a, b) && NoCarry(b, a) && NoCarry(b, c) && NoCarry(c, b) && NoCarry(a, c) && NoCarry(c, a)
    requires CompareClocks(a, b) != Greater && CompareClocks(b, c) != Greater
    ensures CompareClocks(a, c) != Greater
    ensures CompareClocks(a, c) == Equal ==> CompareClocks(a, b) == Equal && CompareClocks(b, c) == Equal
  {
    CompareAgreesWithMassIff(a, b);
    CompareAgreesWithMassIff(b, c);
    CompareAgreesWithMassIff(a, c);
    hide CompareClocks, NoCarry, Mass, NoZero;
  }

  /** Masses that fit 128 bits never carry. */
  lemma FittingNeverCarries(a: Clock, b: Clock)
    requires Fits(a) && Fits(b)
    ensures NoCarry(a, b)
  {
    if HappensBefore(a, b) {
      LaterIsHeavier(a, b);
      MassOfFitting(a);
    }
  }

  // ---- choosing a winner -------------------------------------------------------------------

  datatype Policy = LatestWins | Prompt | Manual

  datatype Choice = KeepLocal | KeepRemote | KeepBoth | Abort

  datatype Conflict = Conflict(path: Path, local: Entry, remote: Entry)

  /** The interactive hook: any answer, or an error. */
  type Resolver = Conflict -> Result<Choice, SyncError>

  datatype Resolution =
    | Resolved(chosen: Entry, superseded: seq<BlobId>, recordClock: Clock)
    | Aborted

  function LatestChoice(local: Entry, remote: Entry): Choice {
    match CompareClocks(local.clock, remote.clock)
    case Greater => KeepLocal
    case Less => KeepRemote
    case Equal =>
      if local.modified > remote.modified then KeepLocal
      else if local.modified < remote.modified then KeepRemote
      else if local.blobId >= remote.blobId then KeepLocal
      else KeepRemote
  }

  function Choose(c: Conflict, policy: Policy, resolver: Option<Resolver>): Result<Choice, SyncError> {
    match policy
    case LatestWins => Ok(LatestChoice(c.local, c.remote))
    case Prompt => (match resolver
      case None => Err(UnresolvedConflict)
      case Some(ask) => ask(c))
    case Manual => Ok(KeepBoth)
  }

  function Resolve(c: Conflict, policy: Policy, resolver: Option<Resolver>): Result<Resolution, SyncError> {
    match Choose(c, policy, resolver)
    case Err(e) => Err(e)
    case Ok(Abort) => Ok(Aborted)
    case Ok(KeepLocal) => Ok(Resolved(c.local, [c.remote.blobId], c.local.clock))
    case Ok(KeepRemote) => Ok(Resolved(c.remote, [c.local.blobId], c.remote.clock))
    case Ok(KeepBoth) => Ok(Resolved(c.local, [c.remote.blobId], Merge(c.local.clock, c.remote.clock)))
  }

  function MakeRecord(r: Resolution, version: u64): Option<ResolutionRecord> {
    match r
    case Resolved(chosen, superseded, clock) => Some(ResolutionRecord(version, chosen.blobId, superseded, clock))
    case Aborted => None
  }

  // ---- LatestWins as a join ------------------------------------------------------------------

  function Winner(a: Entry, b: Entry): Entry {
    if LatestChoice(a, b) == KeepLocal then a else b
  }

  /** Both devices pick the same blob whichever side they call local, and the causally later entry wins. */
  lemma WinnerIgnoresSides(a: Entry, b: Entry)
    ensures Winner(a, b).blobId == Winner(b, a).blobId
    ensures HappensBefore(a.clock, b.clock) ==> Winner(a, b) == b == Winner(b, a)
  {
    CompareReverses(a.clock, b.clock);
  }

  /** The three keys compared in turn: mass, modification time, blob id. */
  predicate KeyLeq(a: Entry, b: Entry) {
    FullMass(a.clock) < FullMass(b.clock)
    || (FullMass(a.clock) == FullMass(b.clock)
      && (a.modified < b.modified || (a.modified == b.modified && a.blobId <= b.blobId)))
  }

  function FoldWinner(q: seq<Entry>): Entry
    requires q != []
  {
    if |q| == 1 then q[0] else Winner(FoldWinner(q[..|q| - 1]), q[|q| - 1])
  }

  predicate AllFit(q: seq<Entry>) {
    forall e | e in q :: Fits(e.clock)
  }

  lemma {:induction false} FoldWinnerIsGreatest(q: seq<Entry>)
    requires q != [] && AllFit(q)
    ensures FoldWinner(q) in q
    ensures forall e | e in q :: KeyLeq(e, FoldWinner(q))
  {
    if |q| > 1 {
      var front, last := q[..|q| - 1], q[|q| - 1];
      FoldWinnerIsGreatest(front);
      var w := FoldWinner(front);
      assert w in q && last in q;
      CompareIsMassOrder(w.clock, last.clock);
      forall e | e in q ensures KeyLeq(e, FoldWinner(q)) {
        assert e in front || e == last;
      }
    }
  }

  /** The comparison orders the clocks of these entries. */
  ghost predicate NoneTwisted(q: seq<Entry>) {
    forall a, b, c | a in q && b in q && c in q :: !Twisted(a.clock, b.clock, c.clock)
  }

  lemma FittingNeverTwists(q: seq<Entry>)
    requires AllFit(q)
    ensures NoneTwisted(q)
  {
    hide Twisted, NoCarry, Fits;
    forall a, b, c | a in q && b in q && c in q ensures !Twisted(a.clock, b.clock, c.clock) {
      FittingNeverCarries(a.clock, b.clock);
      FittingHasNoZero(a.clock);
      FittingHasNoZero(b.clock);
      NoCarryNoTwist(a.clock, b.clock, c.clock);
    }
  }

  lemma FittingHasNoZero(c: Clock)
    requires Fits(c)
    ensures NoZero(c)
  {}

  /** The three keys as the source compares them: clock, modification time, blob id. */
  predicate Loses(a: Entry, b: Entry) {
    match CompareClocks(a.clock, b.clock)
    case Less => true
    case Greater => false
    case Equal => a.modified < b.modified || (a.modified == b.modified && a.blobId <= b.blobId)
  }

  lemma LosesIsTransitive(q: seq<Entry>, a: Entry, b: Entry, c: Entry)
    requires NoneTwisted(q) && a in q && b in q && c in q && Loses(a, b) && Loses(b, c)
    ensures Loses(a, c)
  {
    if Ranks(a.clock, b.clock) && Ranks(b.clock, c.clock) && CompareClocks(c.clock, a.clock) == Less {
      RoundTripIsTwisted(a.clock, b.clock, c.clock);
    }
    if Ranks(c.clock, a.clock) && Ranks(a.clock, b.clock) && CompareClocks(b.clock, c.clock) == Less {
      RoundTripIsTwisted(c.clock, a.clock, b.clock);
    }
    if Ranks(b.clock, c.clock) && Ranks(c.clock, a.clock) && CompareClocks(a.clock, b.clock) == Less {
      RoundTripIsTwisted(b.clock, c.clock, a.clock);
    }
    CompareReverses(a.clock, b.clock);
    CompareReverses(b.clock, c.clock);
    CompareReverses(a.clock, c.clock);
    hide CompareClocks, Twisted;
  }

  lemma WinnerIsNotBeaten(a: Entry, b: Entry)
    ensures Loses(a, Winner(a, b)) && Loses(b, Winner(a, b))
    ensures Winner(a, b) == a || Winner(a, b) == b
  {
    CompareReverses(a.clock, b.clock);
    CompareReverses(a.clock, a.clock);
    CompareReverses(b.clock, b.clock);
  }

  lemma {:induction false} FoldWinnerIsUnbeaten(q: seq<Entry>)
    requires q != [] && NoneTwisted(q)
    ensures FoldWinner(q) in q
    ensures forall e | e in q :: Loses(e, FoldWinner(q))
  {
    hide Loses, Twisted, Winner;
    if |q| == 1 {
      WinnerIsNotBeaten(q[0], q[0]);
    } else {
      var front, last := q[..|q| - 1], q[|q| - 1];
      FoldWinnerIsUnbeaten(front);
      var w := FoldWinner(front);
      assert w in q && last in q;
      WinnerIsNotBeaten(w, last);
      forall e | e in q ensures Loses(e, FoldWinner(q)) {
        if e in front { LosesIsTransitive(q, e, w, Winner(w, last)); }
      }
    }
  }

  lemma LosingBothWays(a: Entry, b: Entry)
    requires Loses(a, b) && Loses(b, a)
    ensures a.blobId == b.blobId
  {
    CompareReverses(a.clock, b.clock);
  }

  /**
   Resolving any collection of versions pairwise gives one winning blob, whatever the order and
   the repetitions in which the versions meet, as long as the comparison orders their clocks.
   */
  lemma FoldIgnoresOrder(p: seq<Entry>, q: seq<Entry>)
    requires p != [] && q != [] && NoneTwisted(p)
    requires forall e :: e in p <==> e in q
    ensures FoldWinner(p).blobId == FoldWinner(q).blobId
  {
    hide Loses, Twisted, FoldWinner;
    FoldWinnerIsUnbeaten(p);
    FoldWinnerIsUnbeaten(q);
    LosingBothWays(FoldWinner(p), FoldWinner(q));
  }

  /** In particular while masses fit 128 bits. */
  lemma FoldIgnoresOrderOfFitting(p: seq<Entry>, q: seq<Entry>)
    requires p != [] && q != [] && AllFit(p)
    requires forall e :: e in p <==> e in q
    ensures FoldWinner(p).blobId == FoldWinner(q).blobId
  {
    hide AllFit, NoneTwisted, FoldWinner;
    FittingNeverTwists(p);
    FoldIgnoresOrder(p, q);
  }

  /** Three versions with blobs of their own: the order in which they meet matters exactly when they go round. */
  lemma ThreeVersionsIff(a: Entry, b: Entry, c: Entry)
    requires a.blobId != b.blobId && b.blobId != c.blobId && c.blobId != a.blobId
    ensures FoldWinner([a, b, c]) == FoldWinner([b, c, a]) == FoldWinner([c, a, b])
      <==> !(Loses(a, b) && Loses(b, c) && Loses(c, a)) && !(Loses(b, a) && Loses(c, b) && Loses(a, c))
  {
    FoldOfThree(a, b, c);
    FoldOfThree(b, c, a);
    FoldOfThree(c, a, b);
    WinnerOfDistinct(a, b);
    WinnerOfDistinct(b, c);
    WinnerOfDistinct(c, a);
    WinnerOfDistinct(b, a);
    WinnerOfDistinct(c, b);
    WinnerOfDistinct(a, c);
    hide Loses, Winner, FoldWinner;
  }

  lemma FoldOfThree(a: Entry, b: Entry, c: Entry)
    ensures FoldWinner([a, b, c]) == Winner(Winner(a, b), c)
  {
    assert [a, b, c][..2] == [a, b] && [a, b][..1] == [a];
    assert FoldWinner([a]) == a;
    assert FoldWinner([a, b]) == Winner(a, b);
  }

  lemma WinnerOfDistinct(a: Entry, b: Entry)
    requires a.blobId != b.blobId
    ensures Winner(a, b) == if Loses(a, b) then b else a
    ensures Loses(b, a) <==> !Loses(a, b)
  {
    CompareReverses(a.clock, b.clock);
  }

  // ---- where the 128-bit mass overflows ---------------------------------------------------------

  function Solo(d: DeviceId): Clock {
    map[d := 1]
  }

  function Pair(d: DeviceId, e: DeviceId): Clock {
    map[d := 1, e := 1]
  }

  lemma SoloMass(d: DeviceId)
    ensures FullMass(Solo(d)) == HashDevice(d) + 1
  {
    MassWithout(Solo(d), d);
    assert Solo(d) - {d} == map[];
  }

  lemma PairMass(d: DeviceId, e: DeviceId)
    requires d != e
    ensures FullMass(Pair(d, e)) == HashDevice(d) + HashDevice(e) + 2
  {
    MassWithout(Pair(d, e), e);
    assert Pair(d, e) - {e} == Solo(d);
    SoloMass(d);
  }

  lemma SoloWrapped(d: DeviceId)
    requires HashDevice(d) + 1 < U128
    ensures Mass(Solo(d)) == HashDevice(d) + 1
  {
    SoloMass(d);
  }

  lemma PairWrapped(d: DeviceId, e: DeviceId)
    requires d != e && 0 <= HashDevice(d) + HashDevice(e) + 2 - U128 < U128
    ensures Mass(Pair(d, e)) == HashDevice(d) + HashDevice(e) + 2 - U128
  {
    PairMass(d, e);
    ModShift(1, HashDevice(d) + HashDevice(e) + 2 - U128);
  }

  lemma SoloBeforePair(x: DeviceId, y: DeviceId)
    requires x != y
    ensures HappensBefore(Solo(x), Pair(x, y))
  {
    assert y in Pair(x, y) && Get(Solo(x), y) < Pair(x, y)[y];
  }

  lemma SolosAreConcurrent(x: DeviceId, y: DeviceId, z: DeviceId)
    requires x != y && y != z && x != z
    ensures Concurrent(Solo(x), Solo(z)) && Concurrent(Pair(x, y), Solo(z)) && Concurrent(Solo(z), Solo(x))
  {
    assert x in Solo(x) && z in Solo(z) && x in Pair(x, y);
  }

  /**
   Any three devices whose names hash far enough apart give such a cycle: one pair by happens-before,
   the other two by the overflowing mass.
   */
  lemma OverflowMakesACycle(x: DeviceId, y: DeviceId, z: DeviceId)
    requires x != y && y != z && x != z
    requires HashDevice(x) + HashDevice(y) + 2 >= U128
    requires HashDevice(x) + HashDevice(y) + 2 - U128 < HashDevice(z) + 1 < HashDevice(x) + 1 < U128
    ensures CompareClocks(Solo(x), Pair(x, y)) == Less
    ensures CompareClocks(Pair(x, y), Solo(z)) == Less
    ensures CompareClocks(Solo(z), Solo(x)) == Less
  {
    SoloBeforePair(x, y);
    PairWrapped(x, y);
    SoloWrapped(z);
    SoloWrapped(x);
    SolosAreConcurrent(x, y, z);
    CycleIff(Solo(x), Pair(x, y), Solo(z));
    CompareConcurrent(Pair(x, y), Solo(z));
    CompareConcurrent(Solo(z), Solo(x));
  }

  predicate Ascii(s: string) {
    forall i | 0 <= i < |s| :: s[i] as int < 0x80
  }

  function AsciiBytes(s: string): Bytes
    requires Ascii(s)
  {
    seq(|s|, i requires 0 <= i < |s| => s[i] as int)
  }

  lemma {:induction false} AsciiEncodesToItself(s: string)
    requires Ascii(s)
    ensures Utf8.Encode(s) == AsciiBytes(s)
  {
    if s != [] {
      AsciiEncodesToItself(s[1..]);
      assert AsciiBytes(s) == [s[0] as int] + AsciiBytes(s[1..]);
    }
  }

  /** `n` is the number read after the first `k` letters of the name. */
  predicate ReadsAs(d: string, k: nat, n: nat) {
    k <= |d| && Ascii(d) && Polynomial(AsciiBytes(d)[..k]) == n
  }

  lemma OneMore(d: string, k: nat, n: nat)
    requires k < |d| && ReadsAs(d, k, n)
    ensures ReadsAs(d, k + 1, n * 131 + d[k] as int)
  {
    var bs := AsciiBytes(d);
    assert bs[..k + 1][..k] == bs[..k];
  }

  lemma FourMore(d: string, k: nat, n: nat, a: nat, b: nat, c: nat, e: nat)
    requires k + 4 <= |d| && ReadsAs(d, k, n)
    requires d[k] as int == a && d[k + 1] as int == b && d[k + 2] as int == c && d[k + 3] as int == e
    ensures ReadsAs(d, k + 4, (((n * 131 + a) * 131 + b) * 131 + c) * 131 + e)
  {
    OneMore(d, k, n);
    OneMore(d, k + 1, n * 131 + a);
    OneMore(d, k + 2, (n * 131 + a) * 131 + b);
    OneMore(d, k + 3, ((n * 131 + a) * 131 + b) * 131 + c);
  }

  lemma HashOfRead(d: string, n: nat)
    requires ReadsAs(d, |d|, n)
    ensures HashDevice(d) == n % U128
  {
    AsciiEncodesToItself(d);
    assert AsciiBytes(d)[..|d|] == AsciiBytes(d);
  }

  lemma HalfKitchenWorkstation(d: DeviceId)
    requires d == "kitchen-workstation"
    ensures ReadsAs(d, 8, 71375866035377157)
  {
    assert ReadsAs(d, 0, 0);
    FourMore(d, 0, 0, 107, 105, 116, 99);
    FourMore(d, 4, 242362937, 104, 101, 110, 45);
  }

  lemma HashKitchenWorkstation(d: DeviceId)
    requires d == "kitchen-workstation"
    ensures HashDevice(d) == 305385380798141740687268993606075712158
  {
    HalfKitchenWorkstation(d);
    FourMore(d, 8, 71375866035377157, 119, 111, 114, 107);
    FourMore(d, 12, 21020186908725156211147338, 115, 116, 97, 116);
    OneMore(d, 16, 6190443384024792714895550620894262);
    OneMore(d, 17, 810948083307247845651317131337148427);
    OneMore(d, 18, 106234198913249467780322544205166444048);
    HashOfRead(d, 13916680057635680279222253290876804170398);
  }

  lemma HalfAlicesMacbookPro(d: DeviceId)
    requires d == "alices-macbook-pro"
    ensures ReadsAs(d, 8, 64769977174903259)
  {
    assert ReadsAs(d, 0, 0);
    FourMore(d, 0, 0, 97, 108, 105, 99);
    FourMore(d, 4, 219932069, 101, 115, 45, 109);
  }

  lemma HashAlicesMacbookPro(d: DeviceId)
    requires d == "alices-macbook-pro"
    ensures HashDevice(d) == 96402145725207267918786341178207830354
  {
    HalfAlicesMacbookPro(d);
    FourMore(d, 8, 64769977174903259, 97, 99, 98, 111);
    FourMore(d, 12, 19074753161180813177919254, 111, 107, 45, 112);
    OneMore(d, 16, 5617513299062249747612979498759269);
    OneMore(d, 17, 735894242177154716937300314337464353);
    HashOfRead(d, 96402145725207267918786341178207830354);
  }

  lemma HalfOfficeWorkstation(d: DeviceId)
    requires d == "office-workstation"
    ensures ReadsAs(d, 8, 74008416426443074)
  {
    assert ReadsAs(d, 0, 0);
    FourMore(d, 0, 0, 111, 102, 102, 105);
    FourMore(d, 4, 251301990, 99, 101, 45, 119);
  }

  lemma HashOfficeWorkstation(d: DeviceId)
    requires d == "office-workstation"
    ensures HashDevice(d) == 110152426423862558503684488898806704186
  {
    HalfOfficeWorkstation(d);
    FourMore(d, 8, 74008416426443074, 111, 114, 107, 115);
    FourMore(d, 12, 21795472790922587855505741, 116, 97, 116, 105);
    OneMore(d, 16, 6418765015084351640562000402004935);
    OneMore(d, 17, 840858216976050064913622052662646596);
    HashOfRead(d, 110152426423862558503684488898806704186);
  }

  /**
   Three ordinary device names are enough: the comparison of clocks is not transitive, so it is
   not a total order once a mass overflows.
   */
  lemma CompareIsNotATotalOrder(x: DeviceId, y: DeviceId, z: DeviceId)
    requires x == "kitchen-workstation" && y == "alices-macbook-pro" && z == "office-workstation"
    ensures CompareClocks(Solo(x), Pair(x, y)) == Less
    ensures CompareClocks(Pair(x, y), Solo(z)) == Less
    ensures CompareClocks(Solo(z), Solo(x)) == Less
  {
    HashKitchenWorkstation(x);
    HashAlicesMacbookPro(y);
    HashOfficeWorkstation(z);
    assert x[0] != y[0] && y[0] != z[0] && x[0] != z[0];
    OverflowMakesACycle(x, y, z);
  }
}
