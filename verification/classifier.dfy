/** Grouping of the active contracts into past-due, current and paid
    contracts, each group ordered by next due date, and the groups joined in
    that order (`groupAndFilterContracts`). */
module Classifier {
  import opened Wrappers
  import opened Seqs
  import opened StableSort
  import opened Records

  datatype Bucket = PastDue | Current | Paid

  /** The three group filters, each as the page writes it. */
  predicate IsPastDue(c: ContractAccountDetail) {
    c.currentBalance > 0
  }

  predicate IsCurrent(c: ContractAccountDetail) {
    c.totalAmountDue > 0 && c.currentBalance <= 0
  }

  predicate IsPaid(c: ContractAccountDetail) {
    c.totalAmountDue <= 0 && c.currentBalance <= 0
  }

  /** The priority rule: a positive current balance means past due; else a
      positive amount due means current; else paid. Each contract passes
      exactly the filter of its bucket. */
  function BucketOf(c: ContractAccountDetail): (b: Bucket)
    ensures b == PastDue <==> IsPastDue(c)
    ensures b == Current <==> IsCurrent(c)
    ensures b == Paid <==> IsPaid(c)
  {
    if c.currentBalance > 0 then PastDue
    else if c.totalAmountDue > 0 then Current
    else Paid
  }

  /** Position of a bucket in the output. */
  function Rank(b: Bucket): nat {
    match b
    case PastDue => 0
    case Current => 1
    case Paid => 2
  }

  /** The sort key: the time value of the next due date. How the date
      string (or its absence) becomes a time value is left to `toTime`. */
  function DueKey(toTime: Nullable<string> -> int): ContractAccountDetail -> int {
    (c: ContractAccountDetail) => toTime(c.nextPaymentDueDate)
  }

  /** Contracts of bucket `b` whose due date has time value `k`. */
  function Tie(b: Bucket, k: int, toTime: Nullable<string> -> int): ContractAccountDetail -> bool {
    (c: ContractAccountDetail) => BucketOf(c) == b && toTime(c.nextPaymentDueDate) == k
  }

  /** Every element of the sorted filter satisfies the filter. */
  lemma SortedSection(s: seq<ContractAccountDetail>, p: ContractAccountDetail -> bool, key: ContractAccountDetail -> int)
    ensures forall i :: 0 <= i < |SortBy(Filter(s, p), key)| ==> p(SortBy(Filter(s, p), key)[i])
  {
    var f := Filter(s, p);
    var t := SortBy(f, key);
    forall i | 0 <= i < |t|
      ensures p(t[i])
    {
      assert t[i] in multiset(f);
    }
  }

  /** Bucket order, then due-date order inside a bucket. */
  predicate InDisplayOrder(r: seq<ContractAccountDetail>, toTime: Nullable<string> -> int) {
    && (forall i, j :: 0 <= i < j < |r| ==> Rank(BucketOf(r[i])) <= Rank(BucketOf(r[j])))
    && (forall i, j :: 0 <= i < j < |r| && BucketOf(r[i]) == BucketOf(r[j]) ==>
          toTime(r[i].nextPaymentDueDate) <= toTime(r[j].nextPaymentDueDate))
  }

  /** Three sorted single-bucket sections, joined in bucket order, are in
      display order. */
  lemma SectionsInDisplayOrder(a: seq<ContractAccountDetail>, b: seq<ContractAccountDetail>,
                               c: seq<ContractAccountDetail>, toTime: Nullable<string> -> int)
    requires forall i :: 0 <= i < |a| ==> IsPastDue(a[i])
    requires forall i :: 0 <= i < |b| ==> IsCurrent(b[i])
    requires forall i :: 0 <= i < |c| ==> IsPaid(c[i])
    requires SortedBy(a, DueKey(toTime)) && SortedBy(b, DueKey(toTime)) && SortedBy(c, DueKey(toTime))
    ensures InDisplayOrder(a + b + c, toTime)
  {
  }

  /** The three group filters together hold every contract once. */
  lemma BucketsPartition(present: seq<ContractAccountDetail>)
    ensures multiset(Filter(present, IsPastDue)) + multiset(Filter(present, IsCurrent)) + multiset(Filter(present, IsPaid))
         == multiset(present)
  {
    forall c: ContractAccountDetail
      ensures (IsPastDue(c) || IsCurrent(c) || IsPaid(c)) && !(IsPastDue(c) && IsCurrent(c))
              && !(IsPastDue(c) && IsPaid(c)) && !(IsCurrent(c) && IsPaid(c))
    {
    }
    FilterPartition3(present, IsPastDue, IsCurrent, IsPaid);
  }

  /** The past-due, current and paid contracts among the present entries of
      `contracts`, each sorted ascending by due date, joined in that order. */
  function Ordered(contracts: seq<Option<ContractAccountDetail>>, toTime: Nullable<string> -> int): (r: seq<ContractAccountDetail>)
    ensures multiset(r) == multiset(Somes(contracts))
    ensures InDisplayOrder(r, toTime)
  {
    var present := Somes(contracts);
    var key := DueKey(toTime);
    var pastDue := SortBy(Filter(present, IsPastDue), key);
    var current := SortBy(Filter(present, IsCurrent), key);
    var paid := SortBy(Filter(present, IsPaid), key);
    BucketsPartition(present);
    SortedSection(present, IsPastDue, key);
    SortedSection(present, IsCurrent, key);
    SortedSection(present, IsPaid, key);
    SectionsInDisplayOrder(pastDue, current, paid, toTime);
    pastDue + current + paid
  }

  /** Every present contract is in the ordered list as often as it is
      among the inputs, and nothing else is. */
  lemma OrderedCount(contracts: seq<Option<ContractAccountDetail>>, toTime: Nullable<string> -> int)
    ensures forall c :: multiset(Ordered(contracts, toTime))[c] == multiset(contracts)[Some(c)]
  {
    SomesCount(contracts);
  }

  /** One sorted section holds, among the ties of bucket `b` and time `k`,
      all of them in input order if it is the section of `b`, and none
      otherwise. */
  lemma SectionTies(present: seq<ContractAccountDetail>, q: ContractAccountDetail -> bool, qb: Bucket,
                    toTime: Nullable<string> -> int, b: Bucket, k: int)
    requires forall c :: q(c) == (BucketOf(c) == qb)
    ensures Filter(SortBy(Filter(present, q), DueKey(toTime)), Tie(b, k, toTime))
         == if qb == b then Filter(present, Tie(b, k, toTime)) else []
  {
    var p := Tie(b, k, toTime);
    var f := Filter(present, q);
    SortByIsStable(f, DueKey(toTime), p);
    if qb == b {
      FilterFilter(present, q, p, p);
    } else {
      FilterNone(f, p);
    }
  }

  /** Stability of the whole ordering: contracts of one bucket with equal
      due-date time values keep their input order. */
  lemma OrderedIsStable(contracts: seq<Option<ContractAccountDetail>>, toTime: Nullable<string> -> int, b: Bucket, k: int)
    ensures Filter(Ordered(contracts, toTime), Tie(b, k, toTime)) == Filter(Somes(contracts), Tie(b, k, toTime))
  {
    var present := Somes(contracts);
    var key := DueKey(toTime);
    var p := Tie(b, k, toTime);
    var pastDue := SortBy(Filter(present, IsPastDue), key);
    var current := SortBy(Filter(present, IsCurrent), key);
    var paid := SortBy(Filter(present, IsPaid), key);
    assert Ordered(contracts, toTime) == pastDue + current + paid;
    SectionTies(present, IsPastDue, PastDue, toTime, b, k);
    SectionTies(present, IsCurrent, Current, toTime, b, k);
    SectionTies(present, IsPaid, Paid, toTime, b, k);
    JoinTies(pastDue, current, paid, p, b, Filter(present, p));
  }

  /** Three sections of which only the one of bucket `b` holds ties `t`
      hold `t` together. */
  lemma JoinTies(a1: seq<ContractAccountDetail>, a2: seq<ContractAccountDetail>, a3: seq<ContractAccountDetail>,
                 p: ContractAccountDetail -> bool, b: Bucket, t: seq<ContractAccountDetail>)
    requires Filter(a1, p) == if PastDue == b then t else []
    requires Filter(a2, p) == if Current == b then t else []
    requires Filter(a3, p) == if Paid == b then t else []
    ensures Filter(a1 + a2 + a3, p) == t
  {
    FilterConcat(a1 + a2, a3, p);
    FilterConcat(a1, a2, p);
    match b
    case PastDue => assert t + [] + [] == t;
    case Current => assert [] + t + [] == t;
    case Paid => assert [] + [] + t == t;
  }

  /** A sequence in display order holding one contract of each bucket. */
  lemma DisplayOrderOfThree(r: seq<ContractAccountDetail>, a1: ContractAccountDetail, a2: ContractAccountDetail,
                            a3: ContractAccountDetail, toTime: Nullable<string> -> int)
    requires IsPastDue(a1) && IsCurrent(a2) && IsPaid(a3)
    requires multiset(r) == multiset{a1, a2, a3}
    requires InDisplayOrder(r, toTime)
    ensures r == [a1, a2, a3]
  {
  }

  /** One past-due, one current and one paid contract come out in bucket
      order, whatever their due dates and input positions. */
  lemma OneOfEachBucket(a1: ContractAccountDetail, a2: ContractAccountDetail, a3: ContractAccountDetail,
                        input: seq<Option<ContractAccountDetail>>, toTime: Nullable<string> -> int)
    requires IsPastDue(a1) && IsCurrent(a2) && IsPaid(a3)
    requires multiset(Somes(input)) == multiset{a1, a2, a3}
    ensures Ordered(input, toTime) == [a1, a2, a3]
  {
    DisplayOrderOfThree(Ordered(input, toTime), a1, a2, a3, toTime);
  }
}
