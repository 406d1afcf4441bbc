/** The stable sort behind `Array.prototype.sort((a, b) => key(a) - key(b))`. */
module Sorting {

  ghost predicate SortedBy<T>(xs: seq<T>, key: T -> int) {
    forall i, j :: 0 <= i < j < |xs| ==> key(xs[i]) <= key(xs[j])
  }

  /** Inserts `x` behind every element whose key does not exceed its own. */
  function Insert<T>(xs: seq<T>, x: T, key: T -> int): (r: seq<T>)
    ensures multiset(r) == multiset(xs) + multiset{x}
    ensures |r| == |xs| + 1
  {
    if xs == [] || key(xs[|xs| - 1]) <= key(x) then xs + [x]
    else
      assert xs == xs[..|xs| - 1] + [xs[|xs| - 1]];
      Insert(xs[..|xs| - 1], x, key) + [xs[|xs| - 1]]
  }

  lemma {:induction false} InsertSorted<T>(xs: seq<T>, x: T, key: T -> int)
    requires SortedBy(xs, key)
    ensures SortedBy(Insert(xs, x, key), key)
    ensures forall y :: y in Insert(xs, x, key) <==> y in xs || y == x
  {
    if xs == [] || key(xs[|xs| - 1]) <= key(x) {
    } else {
      var last := xs[|xs| - 1];
      assert xs == xs[..|xs| - 1] + [last];
      InsertSorted(xs[..|xs| - 1], x, key);
      var front := Insert(xs[..|xs| - 1], x, key);
      forall i | 0 <= i < |front|
        ensures key(front[i]) <= key(last)
      {
        if front[i] != x {
          var shorter := xs[..|xs| - 1];
          assert front[i] in multiset(front);
          assert front[i] in multiset(shorter);
          assert front[i] in shorter;
          var k :| 0 <= k < |shorter| && shorter[k] == front[i];
          assert key(xs[k]) <= key(last);
        }
      }
    }
  }

  function Sort<T>(xs: seq<T>, key: T -> int): (r: seq<T>)
    ensures multiset(r) == multiset(xs)
    ensures |r| == |xs|
  {
    if xs == [] then []
    else
      assert xs == xs[..|xs| - 1] + [xs[|xs| - 1]];
      Insert(Sort(xs[..|xs| - 1], key), xs[|xs| - 1], key)
  }

  lemma {:induction false} SortSorted<T>(xs: seq<T>, key: T -> int)
    ensures SortedBy(Sort(xs, key), key)
    ensures forall y :: y in Sort(xs, key) <==> y in xs
  {
    if xs != [] {
      var last := xs[|xs| - 1];
      assert xs == xs[..|xs| - 1] + [last];
      SortSorted(xs[..|xs| - 1], key);
      InsertSorted(Sort(xs[..|xs| - 1], key), last, key);
    }
  }

  lemma FrontSorted<T>(xs: seq<T>, key: T -> int)
    requires SortedBy(xs, key) && xs != []
    ensures SortedBy(xs[..|xs| - 1], key) && Insert(xs[..|xs| - 1], xs[|xs| - 1], key) == xs
  {}

  /** Sorting what is already sorted changes nothing, so a second in-place sort is harmless. */
  lemma {:induction false} SortOfSorted<T>(xs: seq<T>, key: T -> int)
    requires SortedBy(xs, key)
    ensures Sort(xs, key) == xs
  {
    if xs != [] {
      var front, last := xs[..|xs| - 1], xs[|xs| - 1];
      FrontSorted(xs, key);
      SortOfSorted(front, key);
      assert Insert(front, last, key) == xs;
    }
  }
}
