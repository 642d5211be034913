/** Post-processing of the joined enrichment answers: splitting them by
    kind, and the all-or-nothing rule each kind's batch goes through. */
module Enrichment {
  import opened Wrappers
  import opened Seqs
  import opened Records
  import opened Accounts

  /** The upcoming-payment answers among `rs`, in order. */
  function Upcomings(rs: seq<JoinResponse>): (r: seq<ContactUpcoming>)
    ensures |r| <= |rs|
  {
    if |rs| == 0 then []
    else (match rs[0] case Upcoming(u) => [u] case _ => []) + Upcomings(rs[1..])
  }

  /** Every upcoming-payment answer is kept, as often as it occurs, and
      nothing else. */
  lemma {:induction false} UpcomingsCount(rs: seq<JoinResponse>)
    ensures forall u :: multiset(Upcomings(rs))[u] == multiset(rs)[Upcoming(u)]
  {
    if |rs| > 0 {
      UpcomingsCount(rs[1..]);
      assert rs == [rs[0]] + rs[1..];
      assert multiset(rs) == multiset{rs[0]} + multiset(rs[1..]);
    }
  }

  /** The payoff answers among `rs`, in order. */
  function Payoffs(rs: seq<JoinResponse>): (r: seq<Payoff>)
    ensures |r| <= |rs|
  {
    if |rs| == 0 then []
    else (match rs[0] case PayoffResult(p) => [p] case _ => []) + Payoffs(rs[1..])
  }

  /** Every payoff answer is kept, as often as it occurs, and nothing else. */
  lemma {:induction false} PayoffsCount(rs: seq<JoinResponse>)
    ensures forall p :: multiset(Payoffs(rs))[p] == multiset(rs)[PayoffResult(p)]
  {
    if |rs| > 0 {
      PayoffsCount(rs[1..]);
      assert rs == [rs[0]] + rs[1..];
      assert multiset(rs) == multiset{rs[0]} + multiset(rs[1..]);
    }
  }

  /** Splitting keeps relative order: the split of two joined answer lists
      is the split of the first followed by the split of the second. */
  lemma SplitConcat(a: seq<JoinResponse>, b: seq<JoinResponse>)
    ensures Upcomings(a + b) == Upcomings(a) + Upcomings(b)
    ensures Payoffs(a + b) == Payoffs(a) + Payoffs(b)
  {
    UpcomingsConcat(a, b);
    PayoffsConcat(a, b);
  }

  /** The upcoming-payment half of `SplitConcat`. */
  lemma {:induction false} UpcomingsConcat(a: seq<JoinResponse>, b: seq<JoinResponse>)
    ensures Upcomings(a + b) == Upcomings(a) + Upcomings(b)
  {
    if |a| == 0 {
      assert a + b == b;
    } else {
      var head := match a[0] case Upcoming(u) => [u] case _ => [];
      assert (a + b)[0] == a[0] && (a + b)[1..] == a[1..] + b;
      assert Upcomings(a + b) == head + Upcomings(a[1..] + b);
      UpcomingsConcat(a[1..], b);
    }
  }

  /** The payoff half of `SplitConcat`. */
  lemma {:induction false} PayoffsConcat(a: seq<JoinResponse>, b: seq<JoinResponse>)
    ensures Payoffs(a + b) == Payoffs(a) + Payoffs(b)
  {
    if |a| == 0 {
      assert a + b == b;
    } else {
      var head := match a[0] case PayoffResult(p) => [p] case _ => [];
      assert (a + b)[0] == a[0] && (a + b)[1..] == a[1..] + b;
      assert Payoffs(a + b) == head + Payoffs(a[1..] + b);
      PayoffsConcat(a[1..], b);
    }
  }

  /** Every answer lands in the group of its kind; unrecognised answers are
      dropped. */
  lemma SplitSingle(x: JoinResponse)
    ensures Upcomings([x]) == if x.Upcoming? then [x.upcoming] else []
    ensures Payoffs([x]) == if x.PayoffResult? then [x.payoff] else []
  {
  }

  /** `rs` is a joined answer to `reqs`: one answer per request, in request
      order, each of the request's kind. */
  predicate Answers(reqs: seq<Request>, rs: seq<JoinResponse>) {
    && |reqs| == |rs|
    && (forall i :: 0 <= i < |rs| ==> (reqs[i].FindUpcomingUpays? <==> rs[i].Upcoming?))
    && (forall i :: 0 <= i < |rs| ==> (reqs[i].CalculatePayoff? <==> rs[i].PayoffResult?))
  }

  /** An answer to the requests for `n` active accounts splits into `n`
      upcoming-payment answers and `n` payoff answers. */
  lemma {:induction false} AnsweredSplitSizes(active: seq<ContractAccountDetail>, rs: seq<JoinResponse>)
    requires Answers(Requests(active), rs)
    ensures |Upcomings(rs)| == |active|
    ensures |Payoffs(rs)| == |active|
  {
    if |active| > 0 {
      var reqs := Requests(active);
      assert reqs[2..] == Requests(active[1..]);
      assert Answers(reqs[2..], rs[2..]);
      AnsweredSplitSizes(active[1..], rs[2..]);
      assert rs == [rs[0]] + ([rs[1]] + rs[2..]);
      SplitConcat([rs[0]], [rs[1]] + rs[2..]);
      SplitConcat([rs[1]], rs[2..]);
      SplitSingle(rs[0]);
      SplitSingle(rs[1]);
      assert reqs[0].FindUpcomingUpays? && reqs[1].CalculatePayoff?;
    }
  }

  /** The scheduled-item field of each answer, in order. */
  function Carried(us: seq<ContactUpcoming>): (r: seq<Option<ScheduledItem>>)
    ensures |r| == |us|
    ensures forall i :: 0 <= i < |us| ==> r[i] == us[i].scheduledItem
  {
    seq(|us|, i requires 0 <= i < |us| => us[i].scheduledItem)
  }

  /** The scheduled items carried by the answers that have one, in order:
      each item as often as answers carry it, and nothing else. */
  function ScheduledItems(us: seq<ContactUpcoming>): (r: seq<ScheduledItem>)
    ensures |r| <= |us|
    ensures forall x :: multiset(r)[x] == multiset(Carried(us))[Some(x)]
  {
    SomesCount(Carried(us));
    Somes(Carried(us))
  }

  /** Collecting keeps answer order: the items of two joined answer lists
      are those of the first followed by those of the second. */
  lemma ScheduledItemsConcat(a: seq<ContactUpcoming>, b: seq<ContactUpcoming>)
    ensures ScheduledItems(a + b) == ScheduledItems(a) + ScheduledItems(b)
  {
    assert Carried(a + b) == Carried(a) + Carried(b);
    SomesConcat(Carried(a), Carried(b));
  }

  /** One answer contributes its item if it carries one, and nothing
      otherwise. */
  lemma ScheduledItemsSingle(u: ContactUpcoming)
    ensures ScheduledItems([u]) == if u.scheduledItem.Some? then [u.scheduledItem.value] else []
  {
    assert Carried([u]) == [u.scheduledItem];
    assert Carried([u])[1..] == [];
  }

  /** Some upcoming-payment answer is flagged as an error. */
  predicate UpaysFailed(us: seq<ContactUpcoming>) {
    exists i :: 0 <= i < |us| && us[i].error
  }

  /** Some payoff answer is flagged as an error. */
  predicate PayoffsFailed(ps: seq<Payoff>) {
    exists i :: 0 <= i < |ps| && ps[i].error
  }

  /** The upcoming-payment batch: one error anywhere discards the whole batch
      and raises the contract error with the technical-error message;
      otherwise every scheduled item is appended and nothing else changes. */
  function PostFindUpcomingUpays(h: Home, us: seq<ContactUpcoming>): (h': Home)
    ensures UpaysFailed(us) ==> h' == h.(contractError := true, errorMessage := Some(TechnicalError))
    ensures !UpaysFailed(us) ==> h' == h.(scheduledPayments := h.scheduledPayments + ScheduledItems(us))
  {
    match Find(us, (u: ContactUpcoming) => u.error)
    case Some(_) => h.(contractError := true, errorMessage := Some(TechnicalError))
    case None => h.(scheduledPayments := h.scheduledPayments + ScheduledItems(us))
  }

  /** The payoff batch: one error anywhere discards the whole batch and
      raises the payoff error; otherwise every payoff is appended and nothing
      else changes. */
  function PostCalculatePayoff(h: Home, ps: seq<Payoff>): (h': Home)
    ensures PayoffsFailed(ps) ==> h' == h.(payoffError := true)
    ensures !PayoffsFailed(ps) ==> h' == h.(payoffs := h.payoffs + ps)
  {
    match Find(ps, (p: Payoff) => p.error)
    case Some(_) => h.(payoffError := true)
    case None => h.(payoffs := h.payoffs + ps)
  }

  /** Both batches, each judged on its own: a failure of one kind neither
      discards the other kind nor touches the contract list. */
  function PostGetCalculatePayoffAndUPays(h: Home, rs: seq<JoinResponse>): (h': Home)
    ensures h'.scheduledPayments == if UpaysFailed(Upcomings(rs)) then h.scheduledPayments
                                    else h.scheduledPayments + ScheduledItems(Upcomings(rs))
    ensures h'.payoffs == if PayoffsFailed(Payoffs(rs)) then h.payoffs else h.payoffs + Payoffs(rs)
    ensures h'.contractError == (h.contractError || UpaysFailed(Upcomings(rs)))
    ensures h'.payoffError == (h.payoffError || PayoffsFailed(Payoffs(rs)))
    ensures h'.errorMessage == if UpaysFailed(Upcomings(rs)) then Some(TechnicalError) else h.errorMessage
    ensures h'.listLength == h.listLength
    ensures h'.contractAccountDetails == h.contractAccountDetails
    ensures h'.orderedContracts == h.orderedContracts
  {
    PostCalculatePayoff(PostFindUpcomingUpays(h, Upcomings(rs)), Payoffs(rs))
  }
}
