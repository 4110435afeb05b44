/** The order in which a `BTreeMap` or `BTreeSet` keyed by strings is walked. */
module Names {
  predicate Leq(a: string, b: string) {
    a == [] || (b != [] && (a[0] < b[0] || (a[0] == b[0] && Leq(a[1..], b[1..]))))
  }

  lemma {:induction false} LeqTotal(a: string, b: string)
    ensures Leq(a, b) || Leq(b, a)
    ensures Leq(a, b) && Leq(b, a) ==> a == b
  {
    if a != [] && b != [] && a[0] == b[0] {
      LeqTotal(a[1..], b[1..]);
      assert a == [a[0]] + a[1..] && b == [b[0]] + b[1..];
    }
  }

  lemma {:induction false} LeqTransitive(a: string, b: string, c: string)
    requires Leq(a, b) && Leq(b, c)
    ensures Leq(a, c)
  {
    if a != [] && a[0] == b[0] == c[0] {
      LeqTransitive(a[1..], b[1..], c[1..]);
    }
  }

  ghost predicate IsLeast(x: string, s: set<string>) {
    x in s && forall y | y in s :: Leq(x, y)
  }

  lemma {:induction false} LeastExists(s: set<string>)
    requires s != {}
    ensures exists x :: IsLeast(x, s)
    decreases |s|
  {
    var y :| y in s;
    LeqTotal(y, y);
    if s - {y} == {} {
      assert s == {y};
      assert IsLeast(y, s);
    } else {
      LeastExists(s - {y});
      var x :| IsLeast(x, s - {y});
      LeqTotal(x, y);
      if Leq(x, y) {
        assert IsLeast(x, s);
      } else {
        forall z | z in s ensures Leq(y, z) {
          if z != y { LeqTransitive(y, x, z); }
        }
        assert IsLeast(y, s);
      }
    }
  }

  function Least(s: set<string>): (x: string)
    requires s != {}
    ensures x in s
  {
    LeastExists(s);
    assert forall x, y | x in s && y in s && Leq(x, y) && Leq(y, x) :: x == y by {
      forall x, y | x in s && y in s && Leq(x, y) && Leq(y, x) ensures x == y { LeqTotal(x, y); }
    }
    var x :| x in s && forall y | y in s :: Leq(x, y);
    x
  }

  predicate Distinct<T(==)>(q: seq<T>) {
    forall i, j | 0 <= i < j < |q| :: q[i] != q[j]
  }

  /** The strings of `s` in walking order. */
  function Sorted(s: set<string>): (q: seq<string>)
    ensures forall x :: x in q <==> x in s
    ensures Distinct(q)
    decreases |s|
  {
    if s == {} then [] else
      var x := Least(s);
      [x] + Sorted(s - {x})
  }

  predicate Ordered(q: seq<string>) {
    forall i, j | 0 <= i < j < |q| :: Leq(q[i], q[j])
  }

  lemma {:induction false} SortedIsOrdered(s: set<string>)
    ensures Ordered(Sorted(s))
    decreases |s|
  {
    if s != {} {
      var x := Least(s);
      var rest := Sorted(s - {x});
      SortedIsOrdered(s - {x});
      forall j | 0 <= j < |rest| ensures Leq(x, rest[j]) {
        assert rest[j] in rest;
      }
    }
  }
}
