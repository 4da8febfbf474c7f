/** Python's ordering of strings (code point by code point, a proper prefix
    first) and `sorted(set(xs))` built on it: the option lists of both
    dashboards. */
module StringOrder {

  /** `a < b` for two Python strings. */
  predicate Precedes(a: string, b: string)
    decreases |a|
  {
    b != [] && (a == [] || a[0] < b[0] || (a[0] == b[0] && Precedes(a[1..], b[1..])))
  }

  lemma {:induction false} PrecedesIrreflexive(a: string)
    ensures !Precedes(a, a)
    decreases |a|
  {
    if a != [] {
      PrecedesIrreflexive(a[1..]);
    }
  }

  lemma {:induction false} PrecedesTransitive(a: string, b: string, c: string)
    requires Precedes(a, b) && Precedes(b, c)
    ensures Precedes(a, c)
    decreases |a|
  {
    if a != [] && a[0] == b[0] && b[0] == c[0] {
      PrecedesTransitive(a[1..], b[1..], c[1..]);
    }
  }

  /** Two different strings are ordered one way or the other. */
  lemma {:induction false} PrecedesTotal(a: string, b: string)
    requires a != b
    ensures Precedes(a, b) || Precedes(b, a)
    decreases |a|
  {
    if a != [] && b != [] && a[0] == b[0] {
      assert a == [a[0]] + a[1..] && b == [b[0]] + b[1..];
      PrecedesTotal(a[1..], b[1..]);
    }
  }

  lemma PrecedesAsymmetric(a: string, b: string)
    requires Precedes(a, b)
    ensures !Precedes(b, a)
  {
    if Precedes(b, a) {
      PrecedesTransitive(a, b, a);
      PrecedesIrreflexive(a);
    }
  }

  /** Strictly increasing, hence also free of duplicates. */
  predicate Ascending(r: seq<string>)
  {
    forall i, j :: 0 <= i < j < |r| ==> Precedes(r[i], r[j])
  }

  /** `x` put in its place in an ascending list, unless it is already there. */
  function Insert(x: string, r: seq<string>): (res: seq<string>)
    requires Ascending(r)
    ensures Ascending(res)
    ensures forall y :: y in res <==> y in r || y == x
    decreases |r|
  {
    if r == [] then [x]
    else if x == r[0] then r
    else if Precedes(x, r[0]) then
      assert forall j :: 0 < j < |r| ==> Precedes(x, r[j]) by {
        forall j | 0 < j < |r| ensures Precedes(x, r[j]) {
          PrecedesTransitive(x, r[0], r[j]);
        }
      }
      [x] + r
    else
      PrecedesTotal(x, r[0]);
      var rest := Insert(x, r[1..]);
      assert forall y :: y in r[1..] ==> Precedes(r[0], y) by {
        forall y | y in r[1..] ensures Precedes(r[0], y) {
          var j :| 0 <= j < |r[1..]| && r[1..][j] == y;
          assert r[j + 1] == y;
        }
      }
      assert forall y :: y in r <==> y == r[0] || y in r[1..] by {
        assert r == [r[0]] + r[1..];
      }
      assert forall j :: 0 <= j < |rest| ==> rest[j] in rest;
      [r[0]] + rest
  }

  /** `sorted(set(xs))`: the distinct values of `xs` in ascending order. */
  function SortedSet(xs: seq<string>): (r: seq<string>)
    ensures Ascending(r)
    ensures forall y :: y in r <==> y in xs
  {
    if xs == [] then []
    else
      var init := xs[..|xs| - 1];
      assert forall y :: y in xs <==> y in init || y == xs[|xs| - 1] by {
        assert xs == init + [xs[|xs| - 1]];
      }
      Insert(xs[|xs| - 1], SortedSet(init))
  }

  /** An ascending list holds each value once. */
  lemma AscendingIsDistinct(r: seq<string>, i: nat, j: nat)
    requires Ascending(r) && i < j < |r|
    ensures r[i] != r[j]
  {
    PrecedesIrreflexive(r[i]);
  }

  /** The sorted list of a set is determined by the set alone: two lists of
      values with the same members give the same option list. */
  lemma {:induction false} SortedSetUnique(r1: seq<string>, r2: seq<string>)
    requires Ascending(r1) && Ascending(r2)
    requires forall y :: y in r1 <==> y in r2
    ensures r1 == r2
    decreases |r1|
  {
    assert r1 != [] <==> r2 != [] by {
      if r1 != [] { assert r1[0] in r1; }
      if r2 != [] { assert r2[0] in r2; }
    }
    if r1 != [] {
      assert r1[0] == r2[0] by {
        if r1[0] != r2[0] {
          FirstIsLeast(r2, r1[0]);
          FirstIsLeast(r1, r2[0]);
          PrecedesAsymmetric(r1[0], r2[0]);
        }
      }
      forall y ensures y in r1[1..] <==> y in r2[1..] {
        RestMembers(r1, y);
        RestMembers(r2, y);
      }
      SortedSetUnique(r1[1..], r2[1..]);
      assert r1 == [r1[0]] + r1[1..] && r2 == [r2[0]] + r2[1..];
    }
  }

  lemma FirstIsLeast(r: seq<string>, y: string)
    requires Ascending(r) && y in r && y != r[0]
    ensures Precedes(r[0], y)
  {
  }

  lemma RestMembers(r: seq<string>, y: string)
    requires Ascending(r) && r != []
    ensures y in r[1..] <==> y in r && y != r[0]
  {
    assert r == [r[0]] + r[1..];
    if y in r[1..] {
      var j :| 0 <= j < |r[1..]| && r[1..][j] == y;
      AscendingIsDistinct(r, 0, j + 1);
    }
  }
}
