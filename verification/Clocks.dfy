/**
 Vector clocks: a counter per device, compared component by component. The functions below are
 the specification; the class in module VectorClocks changes its counter map in place, as the source does.
 */
module Clocks {
  import opened Prelude

  type DeviceId = string
  type Clock = map<DeviceId, u64>

  function Get(c: Clock, d: DeviceId): u64 {
    if d in c then c[d] else 0
  }

  /** Every component of `a` is at most the one of `b`; a missing component counts as zero. */
  predicate Leq(a: Clock, b: Clock) {
    forall d | d in a :: a[d] <= Get(b, d)
  }

  predicate Same(a: Clock, b: Clock) {
    Leq(a, b) && Leq(b, a)
  }

  predicate HappensBefore(a: Clock, b: Clock) {
    Leq(a, b) && exists d | d in b :: Get(a, d) < b[d]
  }

  predicate Concurrent(a: Clock, b: Clock) {
    !Leq(a, b) && !Leq(b, a)
  }

  predicate NoZero(c: Clock) {
    forall d | d in c :: c[d] != 0
  }

  function Bump(c: Clock, d: DeviceId): Clock {
    c[d := SaturatingInc(Get(c, d))]
  }

  function Merge(a: Clock, b: Clock): Clock {
    map d | d in a.Keys + b.Keys :: Max(Get(a, d), Get(b, d))
  }

  // ---- the order ------------------------------------------------------------------------

  lemma LeqAt(a: Clock, b: Clock, d: DeviceId)
    requires Leq(a, b)
    ensures Get(a, d) <= Get(b, d)
  {}

  lemma LeqTransitive(a: Clock, b: Clock, c: Clock)
    requires Leq(a, b) && Leq(b, c)
    ensures Leq(a, c)
  {
    forall d | d in a ensures a[d] <= Get(c, d) {
      LeqAt(b, c, d);
    }
  }

  /** `HappensBefore` is "at most, but not the same". */
  lemma HappensBeforeIsStrictLeq(a: Clock, b: Clock)
    ensures HappensBefore(a, b) <==> Leq(a, b) && !Leq(b, a)
  {
    if Leq(b, a) {
      assert forall d | d in b :: b[d] <= Get(a, d);
    } else {
      var d :| d in b && b[d] > Get(a, d);
    }
  }

  lemma StrictPartialOrder(a: Clock, b: Clock, c: Clock)
    ensures !HappensBefore(a, a)
    ensures HappensBefore(a, b) ==> !HappensBefore(b, a)
    ensures HappensBefore(a, b) && HappensBefore(b, c) ==> HappensBefore(a, c)
    ensures HappensBefore(a, b) && Leq(b, c) ==> HappensBefore(a, c)
    ensures Leq(a, b) && HappensBefore(b, c) ==> HappensBefore(a, c)
  {
    HappensBeforeIsStrictLeq(a, a);
    HappensBeforeIsStrictLeq(a, b);
    HappensBeforeIsStrictLeq(b, a);
    HappensBeforeIsStrictLeq(b, c);
    HappensBeforeIsStrictLeq(a, c);
    if Leq(a, b) && Leq(b, c) {
      LeqTransitive(a, b, c);
      if Leq(c, a) {
        LeqTransitive(b, c, a);
        LeqTransitive(c, a, b);
      }
    }
  }

  lemma SameIsEqual(a: Clock, b: Clock)
    requires NoZero(a) && NoZero(b) && Same(a, b)
    ensures a == b
  {
    forall d ensures d in a <==> d in b {
      LeqAt(a, b, d);
      LeqAt(b, a, d);
    }
  }

  /**
   Any two clocks stand in exactly one of four relations, and the map equality the source tests
   is the pointwise one as soon as neither clock stores a zero.
   */
  lemma ExactlyOneRelation(a: Clock, b: Clock)
    ensures (if HappensBefore(a, b) then 1 else 0) + (if HappensBefore(b, a) then 1 else 0)
          + (if Same(a, b) then 1 else 0) + (if Concurrent(a, b) then 1 else 0) == 1
    ensures NoZero(a) && NoZero(b) ==> (Same(a, b) <==> a == b)
    ensures a == b ==> Same(a, b)
  {
    HappensBeforeIsStrictLeq(a, b);
    HappensBeforeIsStrictLeq(b, a);
    if NoZero(a) && NoZero(b) && Same(a, b) { SameIsEqual(a, b); }
  }

  // ---- merge and bump --------------------------------------------------------------------

  lemma MergeIsLeastUpperBound(a: Clock, b: Clock, c: Clock)
    ensures Leq(a, Merge(a, b)) && Leq(b, Merge(a, b))
    ensures Leq(a, c) && Leq(b, c) ==> Leq(Merge(a, b), c)
  {
    forall d | d in a ensures a[d] <= Get(Merge(a, b), d) {}
  }

  lemma GetMerge(a: Clock, b: Clock, d: DeviceId)
    ensures Get(Merge(a, b), d) == Max(Get(a, d), Get(b, d))
  {}

  lemma GetBump(c: Clock, device: DeviceId, d: DeviceId)
    ensures Get(Bump(c, device), d) == if d == device then SaturatingInc(Get(c, d)) else Get(c, d)
  {}

  lemma MergeCommutes(a: Clock, b: Clock)
    ensures Merge(a, b) == Merge(b, a)
    ensures Merge(a, a) == a
  {
    assert Merge(a, b).Keys == Merge(b, a).Keys;
  }

  lemma MergeKeys(a: Clock, b: Clock)
    ensures Merge(a, b).Keys == a.Keys + b.Keys
  {}

  lemma SameKeysAndSame(a: Clock, b: Clock)
    requires a.Keys == b.Keys && Same(a, b)
    ensures a == b
  {
    forall d | d in a ensures a[d] == b[d] {}
  }

  lemma MergeBelow(a: Clock, b: Clock, c: Clock, n: Clock)
    requires Leq(a, n) && Leq(b, n) && Leq(c, n)
    ensures Leq(Merge(Merge(a, b), c), n) && Leq(Merge(a, Merge(b, c)), n)
  {
    MergeIsLeastUpperBound(a, b, n);
    MergeIsLeastUpperBound(Merge(a, b), c, n);
    MergeIsLeastUpperBound(b, c, n);
    MergeIsLeastUpperBound(a, Merge(b, c), n);
  }

  lemma MergeAbove(a: Clock, b: Clock, c: Clock)
    ensures Leq(a, Merge(Merge(a, b), c)) && Leq(b, Merge(Merge(a, b), c)) && Leq(c, Merge(Merge(a, b), c))
  {
    var ab := Merge(a, b);
    MergeIsLeastUpperBound(a, b, ab);
    MergeIsLeastUpperBound(ab, c, c);
    LeqTransitive(a, ab, Merge(ab, c));
    LeqTransitive(b, ab, Merge(ab, c));
  }

  lemma MergeAssociates(a: Clock, b: Clock, c: Clock)
    ensures Merge(Merge(a, b), c) == Merge(a, Merge(b, c))
  {
    var left, right := Merge(Merge(a, b), c), Merge(a, Merge(b, c));
    MergeKeys(Merge(a, b), c);
    MergeKeys(a, b);
    MergeKeys(a, Merge(b, c));
    MergeKeys(b, c);
    assert left.Keys == right.Keys;
    MergeAbove(a, b, c);
    MergeBelow(a, b, c, left);
    MergeAbove(b, c, a);
    MergeCommutes(Merge(b, c), a);
    MergeBelow(a, b, c, right);
    SameKeysAndSame(left, right);
  }

  /** A bump moves a clock strictly forward exactly when the counter is not saturated. */
  lemma BumpAdvances(c: Clock, d: DeviceId)
    ensures Leq(c, Bump(c, d))
    ensures HappensBefore(c, Bump(c, d)) <==> Get(c, d) < U64_MAX
  {
    if Get(c, d) < U64_MAX { assert d in Bump(c, d); }
  }

  /**
   What the engine relies on after a conflict: the merged and bumped clock is strictly later than
   both sides. With a saturated counter it still is when the two sides are concurrent, and
   otherwise it is not.
   */
  lemma MergeThenBumpDominates(a: Clock, b: Clock, d: DeviceId)
    ensures Leq(a, Bump(Merge(a, b), d)) && Leq(b, Bump(Merge(a, b), d))
    ensures HappensBefore(a, Bump(Merge(a, b), d)) && HappensBefore(b, Bump(Merge(a, b), d))
        <==> Get(Merge(a, b), d) < U64_MAX || Concurrent(a, b)
  {
    var m := Merge(a, b);
    var n := Bump(m, d);
    MergeIsLeastUpperBound(a, b, n);
    BumpAdvances(m, d);
    LeqTransitive(a, m, n);
    LeqTransitive(b, m, n);
    StrictPartialOrder(a, m, n);
    StrictPartialOrder(b, m, n);
    HappensBeforeIsStrictLeq(a, n);
    HappensBeforeIsStrictLeq(b, n);
    if Get(m, d) == U64_MAX {
      assert Leq(n, m);
      if Leq(a, b) {
        MergeIsLeastUpperBound(b, b, b);
        MergeIsLeastUpperBound(a, b, b);
        LeqTransitive(n, m, b);
      } else if Leq(b, a) {
        MergeIsLeastUpperBound(a, b, a);
        LeqTransitive(n, m, a);
      } else {
        if Leq(n, a) { LeqTransitive(b, n, a); }
        if Leq(n, b) { LeqTransitive(a, n, b); }
      }
    }
  }

  lemma NoZeroIsKept(a: Clock, b: Clock, d: DeviceId)
    requires NoZero(a) && NoZero(b)
    ensures NoZero(Merge(a, b)) && NoZero(Bump(a, d))
  {}
}

/** The clock as the source keeps it: a counter map updated through `&mut self`. */
module VectorClocks {
  import opened Prelude
  import opened Clocks

  class VectorClock {
    var counts: Clock

    constructor ()
      ensures counts == map[]
    {
      counts := map[];
    }

    /** Advances this device's counter and returns its new value. */
    method Bump(d: DeviceId) returns (v: u64)
      modifies this
      ensures counts == Clocks.Bump(old(counts), d)
      ensures v == Get(counts, d)
    {
      if d !in counts {
        counts := counts[d := 0];
      }
      counts := counts[d := SaturatingInc(counts[d])];
      v := counts[d];
    }

    /** Raises each component to the one of `other`. */
    method MergeWith(other: Clock)
      modifies this
      ensures counts == Merge(old(counts), other)
    {
      var todo := other.Keys;
      while todo != {}
        invariant todo <= other.Keys
        invariant counts.Keys == old(counts).Keys + (other.Keys - todo)
        invariant forall d | d in todo :: Get(counts, d) == Get(old(counts), d)
        invariant forall d | d in counts && d !in todo :: counts[d] == Max(Get(old(counts), d), Get(other, d))
      {
        var d :| d in todo;
        counts := counts[d := Max(Get(counts, d), other[d])];
        todo := todo - {d};
      }
    }

    method HappensBefore(other: Clock) returns (b: bool)
      ensures b == Clocks.HappensBefore(counts, other)
    {
      var keys := counts.Keys + other.Keys;
      var todo := keys;
      var strictlyLess := false;
      while todo != {}
        invariant todo <= keys
        invariant forall d | d in keys && d !in todo :: Get(counts, d) <= Get(other, d)
        invariant strictlyLess <==> exists d | d in keys && d !in todo :: Get(counts, d) < Get(other, d)
      {
        var d :| d in todo;
        if Get(counts, d) > Get(other, d) {
          return false;
        }
        if Get(counts, d) < Get(other, d) {
          strictlyLess := true;
        }
        todo := todo - {d};
      }
      assert strictlyLess <==> exists d | d in other :: Get(counts, d) < other[d] by {
        assert forall d | d in keys && Get(counts, d) < Get(other, d) :: d in other;
      }
      return strictlyLess;
    }
  }
}
