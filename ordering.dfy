/**
 * Sorting by an integer key, as the document store does for `.sort(field, 1)` and
 * `.sort(field, -1)`. The store promises the order of the key and nothing about
 * ties, so the contracts state only "ordered by the key" and "same elements".
 */
module Ordering {

  /** `s` is ordered by `key`, smallest first. */
  predicate SortedBy<T>(s: seq<T>, key: T -> int)
  {
    forall i, j :: 0 <= i < j < |s| ==> key(s[i]) <= key(s[j])
  }

  /** No element of `s` has a key below `low`. */
  predicate AtLeast<T>(s: seq<T>, low: int, key: T -> int)
  {
    forall k :: 0 <= k < |s| ==> low <= key(s[k])
  }

  /** An element no larger than everything after it can head an ordered sequence. */
  lemma ConsSorted<T>(y: T, s: seq<T>, key: T -> int)
    requires SortedBy(s, key) && AtLeast(s, key(y), key)
    ensures SortedBy([y] + s, key)
  {
    forall i, j | 0 <= i < j < |[y] + s| ensures key(([y] + s)[i]) <= key(([y] + s)[j]) {
      if i > 0 {
        assert ([y] + s)[i] == s[i - 1];
      }
      assert ([y] + s)[j] == s[j - 1];
    }
  }

  /** A lower bound on keys carries over to any rearrangement of the same elements. */
  lemma AtLeastByMultiset<T>(r: seq<T>, s: seq<T>, low: int, key: T -> int)
    requires multiset(r) == multiset(s) && AtLeast(s, low, key)
    ensures AtLeast(r, low, key)
  {
    forall k | 0 <= k < |r| ensures low <= key(r[k]) {
      assert r[k] in multiset(s);
    }
  }

  /** Puts `x` into an ordered sequence, after every element with a key not above its own. */
  function InsertBy<T>(x: T, s: seq<T>, key: T -> int): (r: seq<T>)
    requires SortedBy(s, key)
    ensures SortedBy(r, key)
    ensures multiset(r) == multiset(s) + multiset{x}
  {
    if s == [] then [x]
    else if key(x) <= key(s[0]) then
      ConsSorted(x, s, key);
      [x] + s
    else
      var rest := InsertBy(x, s[1..], key);
      InsertBehindHead(x, s, rest, key);
      [s[0]] + rest
  }

  /** The step of `InsertBy` that keeps the head: it stays in front of the rest. */
  lemma InsertBehindHead<T>(x: T, s: seq<T>, rest: seq<T>, key: T -> int)
    requires SortedBy(s, key) && s != [] && key(s[0]) < key(x)
    requires SortedBy(rest, key) && multiset(rest) == multiset(s[1..]) + multiset{x}
    ensures SortedBy([s[0]] + rest, key)
    ensures multiset([s[0]] + rest) == multiset(s) + multiset{x}
  {
    assert s == [s[0]] + s[1..];
    assert AtLeast(s[1..] + [x], key(s[0]), key) by {
      forall k | 0 <= k < |s[1..] + [x]| ensures key(s[0]) <= key((s[1..] + [x])[k]) {
        if k < |s[1..]| {
          assert (s[1..] + [x])[k] == s[k + 1];
        }
      }
    }
    AtLeastByMultiset(rest, s[1..] + [x], key(s[0]), key);
    ConsSorted(s[0], rest, key);
  }

  /** Orders a sequence by `key`, keeping every element exactly as often as it occurs. */
  function SortBy<T>(s: seq<T>, key: T -> int): (r: seq<T>)
    ensures SortedBy(r, key)
    ensures multiset(r) == multiset(s)
  {
    if s == [] then []
    else
      assert s == [s[0]] + s[1..];
      InsertBy(s[0], SortBy(s[1..], key), key)
  }
}
