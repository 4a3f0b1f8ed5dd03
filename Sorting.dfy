/**
  `Array.prototype.sort` with a comparator, as a stable insertion sort: `le(a, b)` says that the
  comparator lets `a` stay before `b` (it returns a number that is not positive).
 */
module Sorting {

  /** Any two elements can be ordered one way or the other. */
  ghost predicate Total<T(!new)>(le: (T, T) -> bool) {
    forall a, b :: le(a, b) || le(b, a)
  }

  predicate Sorted<T>(xs: seq<T>, le: (T, T) -> bool) {
    forall i :: 0 < i < |xs| ==> le(xs[i - 1], xs[i])
  }

  /** Inserts `x` before the first element it may precede: after every element it must follow. */
  function Insert<T>(x: T, ys: seq<T>, le: (T, T) -> bool): (r: seq<T>)
    ensures |r| == |ys| + 1
    ensures multiset(r) == multiset(ys) + multiset{x}
    decreases |ys|
  {
    if |ys| == 0 || le(x, ys[0]) then [x] + ys
    else
      assert ys == [ys[0]] + ys[1..];
      [ys[0]] + Insert(x, ys[1..], le)
  }

  /** The sorted copy that `sort` leaves: elements the comparator cannot separate keep their order. */
  function Sort<T>(xs: seq<T>, le: (T, T) -> bool): (r: seq<T>)
    ensures |r| == |xs|
    decreases |xs|
  {
    if |xs| == 0 then [] else Insert(xs[0], Sort(xs[1..], le), le)
  }

  /** Sorting only reorders: the result holds the same elements, as often. */
  lemma {:induction false} SortPermutes<T>(xs: seq<T>, le: (T, T) -> bool)
    ensures multiset(Sort(xs, le)) == multiset(xs)
    decreases |xs|
  {
    if |xs| > 0 {
      SortPermutes(xs[1..], le);
      assert xs == [xs[0]] + xs[1..];
    }
  }

  /** Inserting into a sorted sequence keeps it sorted; its first element is `x` or the old first element. */
  lemma {:induction false} InsertSorted<T(!new)>(x: T, ys: seq<T>, le: (T, T) -> bool)
    requires Total(le) && Sorted(ys, le)
    ensures Sorted(Insert(x, ys, le), le)
    ensures Insert(x, ys, le)[0] == x || (|ys| > 0 && Insert(x, ys, le)[0] == ys[0])
    decreases |ys|
  {
    if |ys| > 0 && !le(x, ys[0]) {
      var tail := ys[1..];
      assert Sorted(tail, le) by {
        forall i | 0 < i < |tail| ensures le(tail[i - 1], tail[i]) {
          assert tail[i - 1] == ys[i] && tail[i] == ys[i + 1];
        }
      }
      InsertSorted(x, tail, le);
      var r := Insert(x, ys, le);
      assert le(ys[0], x);
      forall i | 0 < i < |r| ensures le(r[i - 1], r[i]) {
        if i > 1 {
          assert r[i - 1] == Insert(x, tail, le)[i - 2] && r[i] == Insert(x, tail, le)[i - 1];
        }
      }
    }
  }

  /** With a comparator that orders any two elements, the result is sorted. */
  lemma {:induction false} SortSorted<T(!new)>(xs: seq<T>, le: (T, T) -> bool)
    requires Total(le)
    ensures Sorted(Sort(xs, le), le)
    decreases |xs|
  {
    if |xs| > 0 {
      SortSorted(xs[1..], le);
      InsertSorted(xs[0], Sort(xs[1..], le), le);
    }
  }

  /** With a transitive comparator, a sorted sequence is ordered between any two positions. */
  lemma {:induction false} SortedPairs<T>(xs: seq<T>, le: (T, T) -> bool, i: nat, j: nat)
    requires Sorted(xs, le) && i < j < |xs|
    requires forall a, b, c :: le(a, b) && le(b, c) ==> le(a, c)
    ensures le(xs[i], xs[j])
    decreases j - i
  {
    if j > i + 1 {
      SortedPairs(xs, le, i, j - 1);
    }
  }
}
