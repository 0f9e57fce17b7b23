/** `intersect(a, b)`: the allow-list filter of both scripts. Two nested loops
    push `a[i]` once for every `b[j]` equal to it, so the result follows the
    order of the FIRST argument and repeats each `a[i]` as often as it occurs in
    the second. Neither input needs to be sorted. */
module Intersect {

  /** `x` repeated once per element of `b` equal to it, as the inner loop pushes. */
  function Matches<T(==)>(x: T, b: seq<T>): (r: seq<T>)
    ensures |r| == multiset(b)[x]
    ensures forall k :: 0 <= k < |r| ==> r[k] == x
  {
    if b == [] then []
    else
      assert b == b[..|b| - 1] + [b[|b| - 1]];
      Matches(x, b[..|b| - 1]) + (if b[|b| - 1] == x then [x] else [])
  }

  /** What the two loops build: for each `a[i]` in turn, its matches in `b`. */
  function Intersection<T(==)>(a: seq<T>, b: seq<T>): seq<T>
  {
    if a == [] then [] else Intersection(a[..|a| - 1], b) + Matches(a[|a| - 1], b)
  }

  method Intersect<T(==)>(a: seq<T>, b: seq<T>) returns (intersection: seq<T>)
    ensures intersection == Intersection(a, b)
  {
    intersection := [];
    for i := 0 to |a|
      invariant intersection == Intersection(a[..i], b)
    {
      for j := 0 to |b|
        invariant intersection == Intersection(a[..i], b) + Matches(a[i], b[..j])
      {
        MatchesStep(a[i], b, j);
        if a[i] == b[j] {
          intersection := intersection + [a[i]];
        }
      }
      assert b[..|b|] == b;
      IntersectionStep(a, b, i);
    }
    assert a[..|a|] == a;
  }

  lemma MatchesStep<T>(x: T, b: seq<T>, j: nat)
    requires j < |b|
    ensures Matches(x, b[..j + 1]) == Matches(x, b[..j]) + (if b[j] == x then [x] else [])
  {
    assert b[..j + 1][..j] == b[..j];
  }

  lemma IntersectionStep<T>(a: seq<T>, b: seq<T>, i: nat)
    requires i < |a|
    ensures Intersection(a[..i + 1], b) == Intersection(a[..i], b) + Matches(a[i], b)
  {
    assert a[..i + 1][..i] == a[..i];
  }

  /** Every element of the result occurs in both inputs, and every element
      common to both occurs in the result. */
  lemma {:induction false} IntersectionMembers<T>(a: seq<T>, b: seq<T>, x: T)
    ensures x in Intersection(a, b) <==> x in a && x in b
  {
    if a != [] {
      var a' := a[..|a| - 1];
      var y := a[|a| - 1];
      IntersectionMembers(a', b, x);
      assert a == a' + [y];
      var m := Matches(y, b);
      assert x in m <==> x == y && x in b by {
        if x in m {
          var k :| 0 <= k < |m| && m[k] == x;
        }
        if x == y && x in b {
          assert multiset(b)[x] > 0;
          assert m[0] == x;
        }
      }
    }
  }

  /** Multiplicity: `x` occurs (occurrences in `a`) times (occurrences in `b`)
      times in the result. */
  lemma {:induction false} IntersectionCount<T>(a: seq<T>, b: seq<T>, x: T)
    ensures multiset(Intersection(a, b))[x] == multiset(a)[x] * multiset(b)[x]
  {
    if a != [] {
      var a' := a[..|a| - 1];
      var y := a[|a| - 1];
      IntersectionCount(a', b, x);
      MatchesMultiset(y, b, x);
      CountStep(a, b, x);
      var ca, cb := multiset(a')[x], multiset(b)[x];
      if x == y {
        MulSucc(ca, cb);
      }
    }
  }

  /** One step of the outer loop, counted for one value. */
  lemma CountStep<T>(a: seq<T>, b: seq<T>, x: T)
    requires a != []
    ensures multiset(a)[x]
            == multiset(a[..|a| - 1])[x] + (if a[|a| - 1] == x then 1 else 0)
    ensures multiset(Intersection(a, b))[x]
            == multiset(Intersection(a[..|a| - 1], b))[x] + multiset(Matches(a[|a| - 1], b))[x]
  {
    assert a == a[..|a| - 1] + [a[|a| - 1]];
  }

  lemma MulSucc(c: nat, d: nat)
    ensures (c + 1) * d == c * d + d
  {
  }

  lemma {:induction false} MatchesMultiset<T>(y: T, b: seq<T>, x: T)
    ensures multiset(Matches(y, b))[x] == if x == y then multiset(b)[y] else 0
  {
    if b != [] {
      MatchesMultiset(y, b[..|b| - 1], x);
      assert b == b[..|b| - 1] + [b[|b| - 1]];
    }
  }

  /** The elements of `a` that occur in `b`, in the order of `a`. */
  function KeepIn<T(==)>(a: seq<T>, b: seq<T>): seq<T>
  {
    if a == [] then [] else KeepIn(a[..|a| - 1], b) + (if a[|a| - 1] in b then [a[|a| - 1]] else [])
  }

  predicate NoDuplicates<T(==)>(b: seq<T>)
  {
    forall i, j :: 0 <= i < j < |b| ==> b[i] != b[j]
  }

  lemma {:induction false} MatchesSingle<T>(x: T, b: seq<T>)
    requires NoDuplicates(b)
    ensures Matches(x, b) == if x in b then [x] else []
  {
    if b != [] {
      var b' := b[..|b| - 1];
      assert b == b' + [b[|b| - 1]];
      MatchesSingle(x, b');
      forall k | 0 <= k < |b'|
        ensures b'[k] != b[|b| - 1]
      {
        assert b'[k] == b[k];
      }
    }
  }

  /** Order: against a list without duplicates, the result is the first list
      filtered to the common elements, in the first list's order. */
  lemma {:induction false} IntersectionFollowsFirst<T>(a: seq<T>, b: seq<T>)
    requires NoDuplicates(b)
    ensures Intersection(a, b) == KeepIn(a, b)
  {
    if a != [] {
      IntersectionFollowsFirst(a[..|a| - 1], b);
      MatchesSingle(a[|a| - 1], b);
    }
  }

  /** `intersect(['12', '2', 'hi'], ['2', '3', 'boo'])` is `['2']`: the one
      common element, for any elements that are pairwise different like these. */
  lemma IntersectionExample<T>(p: T, q: T, r: T, s: T, t: T)
    requires p != q && p != s && p != t && r != q && r != s && r != t
    requires q != s && q != t
    ensures Intersection([p, q, r], [q, s, t]) == [q]
  {
    var b := [q, s, t];
    assert [p, q, r][..2] == [p, q];
    assert [p, q][..1] == [p];
    assert [p][..0] == [];
    assert b[..2] == [q, s];
    assert [q, s][..1] == [q];
    assert [q][..0] == [];
    assert Matches(p, [q]) == [];
    assert Matches(p, b) == [];
    assert Matches(q, [q]) == [q];
    assert Matches(q, b) == [q];
    assert Matches(r, [q]) == [];
    assert Matches(r, b) == [];
    assert Intersection([p], b) == [];
    assert Intersection([p, q], b) == [q];
  }

  /** The configured list decides the order, not the server's list. */
  lemma IntersectionOrderExample<T>(x: T, y: T)
    requires x != y
    ensures Intersection([y, x], [x, y]) == [y, x]
  {
    var b := [x, y];
    assert [y, x][..1] == [y];
    assert [y][..0] == [];
    assert b[..1] == [x];
    assert [x][..0] == [];
    assert Matches(y, [x]) == [];
    assert Matches(y, b) == [y];
    assert Matches(x, [x]) == [x];
    assert Matches(x, b) == [x];
    assert Intersection([y], b) == [y];
  }
}
