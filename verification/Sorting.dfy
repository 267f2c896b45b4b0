/** A stable sort, standing for the library's. `le(a, b)` says that a may come before b. */
module Sorting {

  ghost predicate TotalPreorder<T(!new)>(le: (T, T) -> bool) {
    && (forall a, b :: le(a, b) || le(b, a))
    && (forall a, b, c :: le(a, b) && le(b, c) ==> le(a, c))
  }

  ghost predicate SortedBy<T>(le: (T, T) -> bool, xs: seq<T>) {
    forall i, j :: 0 <= i < j < |xs| ==> le(xs[i], xs[j])
  }

  function Insert<T>(le: (T, T) -> bool, x: T, xs: seq<T>): (s: seq<T>)
    ensures multiset(s) == multiset([x]) + multiset(xs)
  {
    if xs == [] then [x]
    else if le(x, xs[0]) then [x] + xs
    else
      assert xs == [xs[0]] + xs[1..];
      [xs[0]] + Insert(le, x, xs[1..])
  }

  function Sort<T>(le: (T, T) -> bool, xs: seq<T>): (s: seq<T>)
    ensures multiset(s) == multiset(xs)
  {
    if xs == [] then []
    else
      assert xs == [xs[0]] + xs[1..];
      Insert(le, xs[0], Sort(le, xs[1..]))
  }

  lemma SameElements<T>(a: seq<T>, b: seq<T>)
    requires multiset(a) == multiset(b)
    ensures forall x :: x in a <==> x in b
    ensures |a| == |b|
  {
    forall x ensures x in a <==> x in b {
      assert x in multiset(a) <==> x in multiset(b);
    }
    assert |multiset(a)| == |multiset(b)|;
  }

  lemma SortedCons<T>(le: (T, T) -> bool, x: T, xs: seq<T>)
    requires SortedBy(le, xs) && forall y :: y in xs ==> le(x, y)
    ensures SortedBy(le, [x] + xs)
  {
  }

  lemma {:induction false} InsertSorted<T(!new)>(le: (T, T) -> bool, x: T, xs: seq<T>)
    requires TotalPreorder(le) && SortedBy(le, xs)
    ensures SortedBy(le, Insert(le, x, xs))
  {
    if xs != [] {
      if le(x, xs[0]) {
        forall y | y in xs ensures le(x, y) {
          var i :| 0 <= i < |xs| && xs[i] == y;
          assert i == 0 || le(xs[0], xs[i]);
        }
        SortedCons(le, x, xs);
      } else {
        InsertSorted(le, x, xs[1..]);
        var rest := Insert(le, x, xs[1..]);
        assert xs == [xs[0]] + xs[1..];
        SameElements(rest, [x] + xs[1..]);
        forall y | y in rest ensures le(xs[0], y) {
          if y != x {
            var i :| 0 <= i < |xs[1..]| && xs[1..][i] == y;
            assert xs[i + 1] == y;
          }
        }
        SortedCons(le, xs[0], rest);
      }
    }
  }

  /** The sort orders its input, whatever total preorder it is given. */
  lemma {:induction false} SortSorts<T(!new)>(le: (T, T) -> bool, xs: seq<T>)
    requires TotalPreorder(le)
    ensures SortedBy(le, Sort(le, xs))
  {
    if xs != [] {
      SortSorts(le, xs[1..]);
      InsertSorted(le, xs[0], Sort(le, xs[1..]));
    }
  }
}
