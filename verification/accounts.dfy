/** The active-account filter applied to the account lookup's answer, and
    the two enrichment requests built for every active account. */
module Accounts {
  import opened Wrappers
  import opened Seqs
  import opened Records

  /** The details whose status category code the account-info service calls
      active; the service itself is the parameter `isActive`. */
  function IsActiveDetail(isActive: string -> bool): ContractAccountDetail -> bool {
    (d: ContractAccountDetail) => isActive(d.statusCategoryCode)
  }

  /** The present, active details, in their original order. An absent list
      is treated as empty, as `_.filter` does. */
  function ActiveDetails(details: Option<seq<Option<ContractAccountDetail>>>, isActive: string -> bool)
    : (r: seq<ContractAccountDetail>)
    ensures details.None? ==> r == []
    ensures forall i :: 0 <= i < |r| ==> isActive(r[i].statusCategoryCode)
    ensures details.Some? ==>
      forall d :: multiset(r)[d] == (if isActive(d.statusCategoryCode) then multiset(details.value)[Some(d)] else 0)
  {
    match details
    case None => []
    case Some(ds) =>
      FilterCount(Somes(ds), IsActiveDetail(isActive));
      SomesCount(ds);
      Filter(Somes(ds), IsActiveDetail(isActive))
  }

  /** The filter keeps relative order: the active details of two lists
      joined are those of the first followed by those of the second. */
  lemma ActiveDetailsConcat(a: seq<Option<ContractAccountDetail>>, b: seq<Option<ContractAccountDetail>>,
                            isActive: string -> bool)
    ensures ActiveDetails(Some(a + b), isActive) == ActiveDetails(Some(a), isActive) + ActiveDetails(Some(b), isActive)
  {
    SomesConcat(a, b);
    FilterConcat(Somes(a), Somes(b), IsActiveDetail(isActive));
  }

  /** A single entry is kept exactly when it is present and active. */
  lemma ActiveDetailsSingle(e: Option<ContractAccountDetail>, isActive: string -> bool)
    ensures ActiveDetails(Some([e]), isActive)
         == if e.Some? && isActive(e.value.statusCategoryCode) then [e.value] else []
  {
  }

  /** For each account in order: an upcoming-payment request keyed by its
      account number, then a payoff request keyed by its FS account id,
      neither forcing a refresh. */
  function Requests(active: seq<ContractAccountDetail>): (r: seq<Request>)
    ensures |r| == 2 * |active|
    ensures forall i :: 0 <= i < |active| ==>
              r[2 * i] == FindUpcomingUpays(active[i].accountNumber, false) &&
              r[2 * i + 1] == CalculatePayoff(active[i].fSAccountId, false)
  {
    if |active| == 0 then []
    else
      var rest := Requests(active[1..]);
      var head := [FindUpcomingUpays(active[0].accountNumber, false), CalculatePayoff(active[0].fSAccountId, false)];
      RequestsStep(active, head, rest);
      head + rest
  }

  /** The index step of `Requests`: the pair for account `i` of the tail
      sits two places further on once the head's pair is in front. */
  lemma RequestsStep(active: seq<ContractAccountDetail>, head: seq<Request>, rest: seq<Request>)
    requires |active| > 0 && |head| == 2
    requires head[0] == FindUpcomingUpays(active[0].accountNumber, false)
    requires head[1] == CalculatePayoff(active[0].fSAccountId, false)
    requires |rest| == 2 * (|active| - 1)
    requires forall i :: 0 <= i < |active| - 1 ==>
               rest[2 * i] == FindUpcomingUpays(active[i + 1].accountNumber, false) &&
               rest[2 * i + 1] == CalculatePayoff(active[i + 1].fSAccountId, false)
    ensures forall i :: 0 <= i < |active| ==>
              (head + rest)[2 * i] == FindUpcomingUpays(active[i].accountNumber, false) &&
              (head + rest)[2 * i + 1] == CalculatePayoff(active[i].fSAccountId, false)
  {
    forall i | 0 < i < |active|
      ensures (head + rest)[2 * i] == FindUpcomingUpays(active[i].accountNumber, false)
      ensures (head + rest)[2 * i + 1] == CalculatePayoff(active[i].fSAccountId, false)
    {
      var j := i - 1;
      assert 2 * i == 2 * j + 2;
      assert (head + rest)[2 * i] == rest[2 * j];
      assert (head + rest)[2 * i + 1] == rest[2 * j + 1];
    }
  }
}
