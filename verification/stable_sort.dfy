/** A stable ascending sort by an integer key, the behaviour lodash's
    `_.sortBy` and `_.orderBy` (ascending) share: elements with equal keys
    keep their input order. */
module StableSort {
  import opened Seqs

  /** Keys ascend along `s`. */
  predicate SortedBy<T>(s: seq<T>, key: T -> int) {
    forall i, j :: 0 <= i < j < |s| ==> key(s[i]) <= key(s[j])
  }

  /** Places `x` before the first element whose key is not smaller. */
  function Insert<T>(x: T, s: seq<T>, key: T -> int): (r: seq<T>)
    requires SortedBy(s, key)
    ensures SortedBy(r, key)
    ensures multiset(r) == multiset(s) + multiset{x}
    ensures |r| == |s| + 1
    ensures r[0] == x || (|s| > 0 && r[0] == s[0])
  {
    if |s| == 0 then [x]
    else if key(x) <= key(s[0]) then [x] + s
    else
      assert s == [s[0]] + s[1..];
      var tail := Insert(x, s[1..], key);
      assert key(s[0]) <= key(tail[0]);
      assert forall i :: 0 < i < |tail| ==> key(tail[0]) <= key(tail[i]);
      [s[0]] + tail
  }

  /** Insertion sort: the tail is sorted first, then the head is inserted. */
  function SortBy<T>(s: seq<T>, key: T -> int): (r: seq<T>)
    ensures SortedBy(r, key)
    ensures multiset(r) == multiset(s)
  {
    if |s| == 0 then []
    else
      assert s == [s[0]] + s[1..];
      Insert(s[0], SortBy(s[1..], key), key)
  }

  /** Inserting `x` puts it ahead of every element that `p` groups with it,
      for any `p` that only groups elements with equal keys. */
  lemma {:induction false} InsertKeepsTies<T>(x: T, s: seq<T>, key: T -> int, p: T -> bool)
    requires SortedBy(s, key)
    requires forall i :: 0 <= i < |s| && p(x) && p(s[i]) ==> key(s[i]) == key(x)
    ensures Filter(Insert(x, s, key), p) == (if p(x) then [x] else []) + Filter(s, p)
  {
    if |s| == 0 {
      FilterCons(x, [], p);
    } else if key(x) <= key(s[0]) {
      FilterCons(x, s, p);
    } else {
      InsertKeepsTies(x, s[1..], key, p);
      PastHead(x, s[0], s[1..], Insert(x, s[1..], key), p);
      assert s == [s[0]] + s[1..];
    }
  }

  /** The step of `InsertKeepsTies` where `x` goes past the head `h`: `h`
      does not share the key of `x`, so it stays in front. */
  lemma PastHead<T>(x: T, h: T, tail: seq<T>, inserted: seq<T>, p: T -> bool)
    requires Filter(inserted, p) == (if p(x) then [x] else []) + Filter(tail, p)
    requires p(x) ==> !p(h)
    ensures Filter([h] + inserted, p) == (if p(x) then [x] else []) + Filter([h] + tail, p)
  {
    FilterCons(h, inserted, p);
    FilterCons(h, tail, p);
  }

  /** Stability: among elements that `p` groups together (all of one key),
      the sorted output keeps the input order. */
  lemma {:induction false} SortByIsStable<T>(s: seq<T>, key: T -> int, p: T -> bool)
    requires forall i, j :: 0 <= i < |s| && 0 <= j < |s| && p(s[i]) && p(s[j]) ==> key(s[i]) == key(s[j])
    ensures Filter(SortBy(s, key), p) == Filter(s, p)
  {
    if |s| > 0 {
      SortByIsStable(s[1..], key, p);
      var t := SortBy(s[1..], key);
      forall i | 0 <= i < |t| && p(s[0]) && p(t[i])
        ensures key(t[i]) == key(s[0])
      {
        assert t[i] in multiset(s[1..]);
      }
      InsertKeepsTies(s[0], t, key, p);
    }
  }
}
