/**
 * Sorting rows by an integer time key, as `DataFrame.sort("time")` does. The model
 * sorts by insertion and keeps rows with equal keys in their original order. polars
 * does not promise that order, so where time stamps repeat, the row order of the
 * validated and merged frames (and the funding curve built from them) is one of the
 * orders polars may produce.
 */
module Sorting {

  /** Keys never decrease along the sequence. */
  ghost predicate SortedBy<T>(xs: seq<T>, key: T -> int) {
    forall i, j :: 0 <= i < j < |xs| ==> key(xs[i]) <= key(xs[j])
  }

  /** The same check, written as `Series.is_sorted()` runs it: neighbour by neighbour. */
  predicate IsSortedBy<T>(xs: seq<T>, key: T -> int)
    ensures IsSortedBy(xs, key) <==> SortedBy(xs, key)
  {
    if |xs| <= 1 then true
    else
      var ok := key(xs[0]) <= key(xs[1]) && IsSortedBy(xs[1..], key);
      assert ok ==> SortedBy(xs, key) by {
        if ok {
          forall i, j | 0 <= i < j < |xs| ensures key(xs[i]) <= key(xs[j]) {
            if i > 0 {
              assert xs[i] == xs[1..][i - 1] && xs[j] == xs[1..][j - 1];
            } else if j > 1 {
              assert xs[j] == xs[1..][j - 1] && xs[1] == xs[1..][0];
            }
          }
        }
      }
      assert SortedBy(xs, key) ==> ok by {
        if SortedBy(xs, key) {
          assert SortedBy(xs[1..], key) by {
            forall i, j | 0 <= i < j < |xs[1..]| ensures key(xs[1..][i]) <= key(xs[1..][j]) {
              assert xs[1..][i] == xs[i + 1] && xs[1..][j] == xs[j + 1];
            }
          }
        }
      }
      ok
  }

  /** Dropping the first element keeps a sorted sequence sorted. */
  lemma SortedTail<T>(xs: seq<T>, key: T -> int)
    requires |xs| > 0 && SortedBy(xs, key)
    ensures SortedBy(xs[1..], key)
  {
    forall i, j | 0 <= i < j < |xs[1..]| ensures key(xs[1..][i]) <= key(xs[1..][j]) {
      assert xs[1..][i] == xs[i + 1] && xs[1..][j] == xs[j + 1];
    }
  }

  /** Places x in front of the first element with a key not smaller than its own. */
  function Insert<T>(x: T, xs: seq<T>, key: T -> int): (r: seq<T>)
    requires SortedBy(xs, key)
    ensures SortedBy(r, key)
    ensures multiset(r) == multiset(xs) + multiset{x}
    ensures |r| == |xs| + 1
    ensures |xs| > 0 ==> forall j :: 0 <= j < |r| ==> key(x) <= key(r[j]) || key(xs[0]) <= key(r[j])
  {
    if |xs| == 0 then [x]
    else if key(x) <= key(xs[0]) then [x] + xs
    else
      var rest := xs[1..];
      assert xs == [xs[0]] + rest;
      SortedTail(xs, key);
      var tail := Insert(x, rest, key);
      assert |rest| > 0 ==> key(xs[0]) <= key(rest[0]);
      [xs[0]] + tail
  }

  /** Insertion sort by key. */
  function SortBy<T>(xs: seq<T>, key: T -> int): (r: seq<T>)
    ensures SortedBy(r, key)
    ensures multiset(r) == multiset(xs)
    ensures |r| == |xs|
  {
    if |xs| == 0 then []
    else
      assert xs == [xs[0]] + xs[1..];
      Insert(xs[0], SortBy(xs[1..], key), key)
  }

  /** Sorting a sequence that is already in key order changes nothing. */
  lemma {:induction false} SortBySortedIsIdentity<T>(xs: seq<T>, key: T -> int)
    requires SortedBy(xs, key)
    ensures SortBy(xs, key) == xs
  {
    if |xs| > 0 {
      var rest := xs[1..];
      SortedTail(xs, key);
      SortBySortedIsIdentity(rest, key);
      if |rest| > 0 {
        assert key(xs[0]) <= key(rest[0]);
      }
      assert xs == [xs[0]] + rest;
    }
  }
}
