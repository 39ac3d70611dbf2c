// Stable sorting, as the standard library's sort_by_key and SQL's ORDER BY give it.

module Sorting {
  ghost predicate TotalPreorder<T(!new)>(le: (T, T) -> bool) {
    && (forall x, y :: le(x, y) || le(y, x))
    && (forall x, y, z :: le(x, y) && le(y, z) ==> le(x, z))
  }

  ghost predicate Sorted<T>(xs: seq<T>, le: (T, T) -> bool) {
    forall i, j :: 0 <= i < j < |xs| ==> le(xs[i], xs[j])
  }

  // Places x after every element that is not above it.
  function Insert<T>(xs: seq<T>, x: T, le: (T, T) -> bool): seq<T> {
    if xs == [] || le(xs[|xs| - 1], x) then xs + [x]
    else Insert(xs[..|xs| - 1], x, le) + [xs[|xs| - 1]]
  }

  function SortBy<T>(xs: seq<T>, le: (T, T) -> bool): seq<T> {
    if xs == [] then [] else Insert(SortBy(xs[..|xs| - 1], le), xs[|xs| - 1], le)
  }

  lemma {:induction false} InsertPermutes<T>(xs: seq<T>, x: T, le: (T, T) -> bool)
    ensures multiset(Insert(xs, x, le)) == multiset(xs) + multiset{x}
    ensures |Insert(xs, x, le)| == |xs| + 1
  {
    if xs != [] && !le(xs[|xs| - 1], x) {
      InsertPermutes(xs[..|xs| - 1], x, le);
      assert xs == xs[..|xs| - 1] + [xs[|xs| - 1]];
    }
  }

  lemma {:induction false} InsertSorted<T(!new)>(xs: seq<T>, x: T, le: (T, T) -> bool)
    requires TotalPreorder(le) && Sorted(xs, le)
    ensures Sorted(Insert(xs, x, le), le)
  {
    if xs == [] || le(xs[|xs| - 1], x) {
      forall i | 0 <= i < |xs| ensures le(xs[i], x) {
        assert i == |xs| - 1 || le(xs[i], xs[|xs| - 1]);
      }
    } else {
      var last := xs[|xs| - 1];
      var rest := Insert(xs[..|xs| - 1], x, le);
      InsertSorted(xs[..|xs| - 1], x, le);
      InsertPermutes(xs[..|xs| - 1], x, le);
      forall i | 0 <= i < |rest| ensures le(rest[i], last) {
        assert rest[i] in multiset(rest);
        assert rest[i] == x || rest[i] in xs[..|xs| - 1];
      }
    }
  }

  // The result is a sorted permutation.
  lemma {:induction false} SortBySorts<T(!new)>(xs: seq<T>, le: (T, T) -> bool)
    requires TotalPreorder(le)
    ensures Sorted(SortBy(xs, le), le)
    ensures multiset(SortBy(xs, le)) == multiset(xs)
    ensures |SortBy(xs, le)| == |xs|
  {
    if xs != [] {
      SortBySorts(xs[..|xs| - 1], le);
      InsertSorted(SortBy(xs[..|xs| - 1], le), xs[|xs| - 1], le);
      InsertPermutes(SortBy(xs[..|xs| - 1], le), xs[|xs| - 1], le);
      assert xs == xs[..|xs| - 1] + [xs[|xs| - 1]];
    }
  }

  // A sequence of one element more, sorted by inserting that element.
  method Sort<T>(xs: seq<T>, le: (T, T) -> bool) returns (sorted: seq<T>)
    ensures sorted == SortBy(xs, le)
  {
    sorted := [];
    for i := 0 to |xs|
      invariant sorted == SortBy(xs[..i], le)
    {
      assert xs[..i + 1][..i] == xs[..i];
      sorted := Insert(sorted, xs[i], le);
    }
    assert xs[..|xs|] == xs;
  }

  lemma HasMember<T>(xs: seq<T>)
    ensures xs == [] || exists x :: x in xs
  {
    assert xs == [] || xs[0] in xs;
  }

  // Where the order is strict, sorting a set of values leaves no choice.
  lemma {:induction false} StrictlySortedUnique<T(!new)>(xs: seq<T>, ys: seq<T>, lt: (T, T) -> bool)
    requires forall x :: !lt(x, x)
    requires forall x, y, z :: lt(x, y) && lt(y, z) ==> lt(x, z)
    requires Sorted(xs, lt) && Sorted(ys, lt)
    requires forall x :: x in xs <==> x in ys
    ensures xs == ys
  {
    if xs == [] || ys == [] {
      HasMember(xs);
      HasMember(ys);
    } else {
      var x0, y0 := xs[0], ys[0];
      assert x0 in ys && y0 in xs;
      assert y0 == x0 || lt(y0, x0);
      assert x0 == y0 || lt(x0, y0);
      forall x ensures x in xs[1..] <==> x in ys[1..] {
        if x in xs[1..] {
          var k :| 0 <= k < |xs[1..]| && xs[1..][k] == x;
          assert xs[k + 1] == x && lt(xs[0], x);
          assert x in ys;
        }
        if x in ys[1..] {
          var k :| 0 <= k < |ys[1..]| && ys[1..][k] == x;
          assert ys[k + 1] == x && lt(ys[0], x);
          assert x in xs;
        }
      }
      StrictlySortedUnique(xs[1..], ys[1..], lt);
    }
  }
}
