/** Order-keeping sequence operations: lodash's `_.filter` and `_.find`, and
    the removal of absent entries from a sequence. "Exactly these elements"
    is stated with multiset counts; "in this order" with concatenation. */
module Seqs {
  import opened Wrappers

  /** The elements of `s` that satisfy `p`, in their original order. */
  function Filter<T>(s: seq<T>, p: T -> bool): (r: seq<T>)
    ensures |r| <= |s|
    ensures forall i :: 0 <= i < |r| ==> p(r[i])
  {
    if |s| == 0 then [] else (if p(s[0]) then [s[0]] else []) + Filter(s[1..], p)
  }

  /** Filtering keeps every element that satisfies `p`, as often as it
      occurs, and nothing else. */
  lemma {:induction false} FilterCount<T>(s: seq<T>, p: T -> bool)
    ensures forall x :: multiset(Filter(s, p))[x] == if p(x) then multiset(s)[x] else 0
  {
    if |s| > 0 {
      FilterCount(s[1..], p);
      assert s == [s[0]] + s[1..];
      assert multiset(s) == multiset{s[0]} + multiset(s[1..]);
    }
  }

  /** Filtering a concatenation filters each part: kept elements keep their
      relative order. */
  lemma {:induction false} FilterConcat<T>(a: seq<T>, b: seq<T>, p: T -> bool)
    ensures Filter(a + b, p) == Filter(a, p) + Filter(b, p)
  {
    if |a| == 0 {
      assert a + b == b;
    } else {
      assert (a + b)[1..] == a[1..] + b;
      FilterConcat(a[1..], b, p);
    }
  }

  /** Filtering an element placed in front of `s`. */
  lemma FilterCons<T>(x: T, s: seq<T>, p: T -> bool)
    ensures Filter([x] + s, p) == (if p(x) then [x] else []) + Filter(s, p)
  {
  }

  /** Filtering twice is filtering once by the conjunction. */
  lemma {:induction false} FilterFilter<T>(s: seq<T>, p: T -> bool, q: T -> bool, pq: T -> bool)
    requires forall i :: 0 <= i < |s| ==> pq(s[i]) == (p(s[i]) && q(s[i]))
    ensures Filter(Filter(s, p), q) == Filter(s, pq)
  {
    if |s| > 0 {
      FilterFilter(s[1..], p, q, pq);
      if p(s[0]) {
        assert Filter(s, p) == [s[0]] + Filter(s[1..], p);
        FilterCons(s[0], Filter(s[1..], p), q);
      } else {
        assert Filter(s, p) == Filter(s[1..], p);
        assert Filter(s, pq) == Filter(s[1..], pq);
      }
    }
  }

  /** A filter keeps nothing when no element satisfies the predicate. */
  lemma {:induction false} FilterNone<T>(s: seq<T>, p: T -> bool)
    requires forall i :: 0 <= i < |s| ==> !p(s[i])
    ensures Filter(s, p) == []
  {
    if |s| > 0 {
      FilterNone(s[1..], p);
    }
  }

  /** Three filters whose predicates split every value exactly one way
      together hold every element of `s` once. */
  lemma FilterPartition3<T>(s: seq<T>, p: T -> bool, q: T -> bool, r: T -> bool)
    requires forall x :: (p(x) || q(x) || r(x)) && !(p(x) && q(x)) && !(p(x) && r(x)) && !(q(x) && r(x))
    ensures multiset(Filter(s, p)) + multiset(Filter(s, q)) + multiset(Filter(s, r)) == multiset(s)
  {
    var a, b, c := Filter(s, p), Filter(s, q), Filter(s, r);
    FilterCount(s, p);
    FilterCount(s, q);
    FilterCount(s, r);
    forall x
      ensures multiset(a)[x] + multiset(b)[x] + multiset(c)[x] == multiset(s)[x]
    {
    }
    SumOfCounts(a, b, c, s);
  }

  /** Multisets that agree on every count are equal. */
  lemma SumOfCounts<T>(a: seq<T>, b: seq<T>, c: seq<T>, s: seq<T>)
    requires forall x :: multiset(a)[x] + multiset(b)[x] + multiset(c)[x] == multiset(s)[x]
    ensures multiset(a) + multiset(b) + multiset(c) == multiset(s)
  {
  }

  /** The position of the first element of `s` that satisfies `p`. */
  function FindIndex<T>(s: seq<T>, p: T -> bool): (r: Option<nat>)
    ensures r.Some? ==> r.value < |s| && p(s[r.value])
    ensures r.Some? ==> forall j :: 0 <= j < r.value ==> !p(s[j])
    ensures r.None? <==> forall j :: 0 <= j < |s| ==> !p(s[j])
  {
    if |s| == 0 then None
    else if p(s[0]) then Some(0)
    else match FindIndex(s[1..], p)
      case None => None
      case Some(i) => Some(i + 1)
  }

  /** `i` is the first position of `s` whose element satisfies `p`. */
  predicate FirstMatch<T>(s: seq<T>, p: T -> bool, i: int) {
    0 <= i < |s| && p(s[i]) && forall j :: 0 <= j < i ==> !p(s[j])
  }

  /** The first element of `s` that satisfies `p`, or `None` when none does
      (lodash `_.find`). */
  function Find<T>(s: seq<T>, p: T -> bool): (r: Option<T>)
    ensures r.None? <==> forall j :: 0 <= j < |s| ==> !p(s[j])
    ensures forall i :: FirstMatch(s, p, i) ==> r == Some(s[i])
  {
    match FindIndex(s, p)
    case None => None
    case Some(k) =>
      assert forall i :: FirstMatch(s, p, i) ==> i == k;
      Some(s[k])
  }

  /** The values of the present entries of `s`, in order. */
  function Somes<T>(s: seq<Option<T>>): (r: seq<T>)
    ensures |r| <= |s|
  {
    if |s| == 0 then []
    else (match s[0] case Some(x) => [x] case None => []) + Somes(s[1..])
  }

  /** Each present value is kept as often as it occurs, and nothing else. */
  lemma {:induction false} SomesCount<T>(s: seq<Option<T>>)
    ensures forall x :: multiset(Somes(s))[x] == multiset(s)[Some(x)]
  {
    if |s| > 0 {
      SomesCount(s[1..]);
      assert s == [s[0]] + s[1..];
      assert multiset(s) == multiset{s[0]} + multiset(s[1..]);
    }
  }

  /** Every entry of `s`, as a present value. */
  function Lift<T>(s: seq<T>): (r: seq<Option<T>>)
    ensures |r| == |s|
    ensures forall i :: 0 <= i < |s| ==> r[i] == Some(s[i])
  {
    seq(|s|, i requires 0 <= i < |s| => Some(s[i]))
  }

  /** Dropping the absent entries of a lifted sequence gives it back. */
  lemma {:induction false} SomesLift<T>(s: seq<T>)
    ensures Somes(Lift(s)) == s
  {
    if |s| > 0 {
      assert Lift(s)[1..] == Lift(s[1..]);
      SomesLift(s[1..]);
    }
  }

  /** Dropping absent entries of a concatenation drops them from each part. */
  lemma {:induction false} SomesConcat<T>(a: seq<Option<T>>, b: seq<Option<T>>)
    ensures Somes(a + b) == Somes(a) + Somes(b)
  {
    if |a| == 0 {
      assert a + b == b;
    } else {
      assert (a + b)[1..] == a[1..] + b;
      SomesConcat(a[1..], b);
    }
  }
}
