/** The home page's stages over its state: the contact result, the account
    lookup's answer (active filter, request fan-out, grouping) and the joined
    enrichment answers. */
module HomePage {
  import opened Wrappers
  import opened Seqs
  import opened Records
  import opened ContactResolution
  import opened Accounts
  import opened Classifier
  import opened Enrichment
  import opened Lookups

  /** A failed contact resolution raises the contract error with the
      technical-error message; a successful one leaves the state to the
      account lookup. */
  function PostGetContractInfo(h: Home, info: ContactInfo): (h': Home)
    ensures info.error ==> h' == h.(contractError := true, errorMessage := Some(TechnicalError))
    ensures !info.error ==> h' == h
  {
    if info.error then h.(contractError := true, errorMessage := Some(TechnicalError)) else h
  }

  /** `groupAndFilterContracts`: the ordered contracts, their count, and the
      no-accounts message when there are none. */
  function GroupAndFilterContracts(h: Home, contracts: seq<Option<ContractAccountDetail>>,
                                   toTime: Nullable<string> -> int): (h': Home)
    ensures multiset(h'.orderedContracts) == multiset(Somes(contracts))
    ensures InDisplayOrder(h'.orderedContracts, toTime)
    ensures h'.listLength == |h'.orderedContracts| == |Somes(contracts)|
    ensures h'.errorMessage == if |Somes(contracts)| == 0 then Some(NoAccounts) else h.errorMessage
    ensures h'.contractError == h.contractError && h'.payoffError == h.payoffError
    ensures h'.contractAccountDetails == h.contractAccountDetails
    ensures h'.scheduledPayments == h.scheduledPayments && h'.payoffs == h.payoffs
  {
    var ordered := Ordered(contracts, toTime);
    assert |ordered| == |Somes(contracts)| by {
      assert |multiset(ordered)| == |multiset(Somes(contracts))|;
    }
    h.(orderedContracts := ordered,
       listLength := |ordered|,
       errorMessage := if |ordered| == 0 then Some(NoAccounts) else h.errorMessage)
  }

  /** The state after the account lookup's answer and the enrichment
      requests issued for it. */
  datatype AccountsStep = AccountsStep(home: Home, requests: seq<Request>)

  /** `postFindAccounts`: an error answer raises the contract error and
      issues nothing; otherwise the active details are stored, two requests
      per active account are issued, and the active details are grouped. */
  function PostFindAccounts(h: Home, response: ContactDetail, isActive: string -> bool,
                            toTime: Nullable<string> -> int): (r: AccountsStep)
    ensures response.error ==> r.requests == []
    ensures response.error ==> r.home == h.(contractError := true, errorMessage := Some(TechnicalError))
    ensures !response.error ==>
              var active := ActiveDetails(response.contractAccountDetails, isActive);
              && r.home.contractAccountDetails == active
              && r.requests == Requests(active)
              && multiset(r.home.orderedContracts) == multiset(active)
              && InDisplayOrder(r.home.orderedContracts, toTime)
              && r.home.listLength == |active|
              && (|active| == 0 ==> r.home.errorMessage == Some(NoAccounts))
              && (|active| > 0 ==> r.home.errorMessage == h.errorMessage)
              && r.home.contractError == h.contractError && r.home.payoffError == h.payoffError
              && r.home.scheduledPayments == h.scheduledPayments && r.home.payoffs == h.payoffs
  {
    if response.error then
      AccountsStep(h.(contractError := true, errorMessage := Some(TechnicalError)), [])
    else
      var active := ActiveDetails(response.contractAccountDetails, isActive);
      SomesLift(active);
      var stored := h.(listLength := 0, contractAccountDetails := active);
      AccountsStep(GroupAndFilterContracts(stored, Lift(active), toTime), Requests(active))
  }

  /** The join: with no requests the joined stream completes without a
      value and the answer handler never runs. When some enrichment call
      errors (`joined` is `None`), the joined stream errors, and with no error
      callback the handler never runs either: no flag is raised and nothing
      of either kind is stored. Otherwise the handler sees every answer in
      request order. */
  function Join(h: Home, requests: seq<Request>, joined: Option<seq<JoinResponse>>): (h': Home)
    ensures |requests| == 0 ==> h' == h
    ensures joined.None? ==> h' == h
    ensures |requests| > 0 && joined.Some? ==> h' == PostGetCalculatePayoffAndUPays(h, joined.value)
    ensures h'.orderedContracts == h.orderedContracts && h'.listLength == h.listLength
    ensures h'.contractAccountDetails == h.contractAccountDetails
  {
    match joined
    case None => h
    case Some(responses) => if |requests| == 0 then h else PostGetCalculatePayoffAndUPays(h, responses)
  }

  /** The outcome of one run: the page state and the contact cache. */
  datatype Run = Run(home: Home, cache: Option<Contact>)

  /** One run of the pipeline from the given state and cache. The remote
      answers are parameters: the contact lookup's, the account lookup's
      (`None` when its stream errors, which stops the run, as it has no error
      callback) and the joined enrichment answers. */
  function RunPipeline(h: Home, cache: Option<Contact>, remote: ContactLookup, accounts: Option<ContactDetail>,
                       isActive: string -> bool, toTime: Nullable<string> -> int,
                       joined: Option<seq<JoinResponse>>): (r: Run)
    ensures var resolved := GetContractInfo(cache, remote);
            r.cache == resolved.cache &&
            (resolved.info.error ==> r.home.contractError && r.home.errorMessage == Some(TechnicalError))
    ensures !GetContractInfo(cache, remote).info.error && accounts.None? ==> r.home == h
  {
    var resolved := GetContractInfo(cache, remote);
    var h1 := PostGetContractInfo(h, resolved.info);
    if resolved.info.error then Run(h1, resolved.cache)
    else match accounts
      case None => Run(h1, resolved.cache)
      case Some(answer) =>
        var step := PostFindAccounts(h1, answer, isActive, toTime);
        Run(Join(step.home, step.requests, joined), resolved.cache)
  }

  /** No active accounts: nothing is ordered, the count is 0, the
      no-accounts message is selected, no enrichment request is issued, and
      whatever the join would have said leaves the state as it was. */
  lemma NoActiveAccounts(h: Home, response: ContactDetail, isActive: string -> bool,
                         toTime: Nullable<string> -> int, joined: Option<seq<JoinResponse>>)
    requires !response.error
    requires ActiveDetails(response.contractAccountDetails, isActive) == []
    ensures var step := PostFindAccounts(h, response, isActive, toTime);
            && step.home.orderedContracts == []
            && step.home.listLength == 0
            && step.home.errorMessage == Some(NoAccounts)
            && step.requests == []
            && Join(step.home, step.requests, joined) == step.home
  {
  }

  /** After a clean upcoming-payment batch on an empty list, the lookup by
      account number finds the scheduled item of the first answer that
      carries one for that account. */
  lemma ScheduledPaymentAfterJoin(h: Home, responses: seq<JoinResponse>, accountNumber: string, i: int)
    requires h.scheduledPayments == []
    requires !UpaysFailed(Upcomings(responses))
    requires FirstItemAt(ScheduledItems(Upcomings(responses)), accountNumber, i)
    ensures GetScheduledPayment(PostGetCalculatePayoffAndUPays(h, responses).scheduledPayments, accountNumber)
         == Some(ScheduledItems(Upcomings(responses))[i])
  {
    assert PostGetCalculatePayoffAndUPays(h, responses).scheduledPayments == ScheduledItems(Upcomings(responses));
  }

  /** The order in which the join's answers and the grouping reach the state
      does not matter once there is an active account: the grouping writes
      only the ordered list, its length and (for an empty list) the message,
      and the join writes only the flags, the batches and (on a failed
      upcoming-payment batch) the message. */
  lemma GroupingCommutesWithJoin(h: Home, contracts: seq<Option<ContractAccountDetail>>,
                                 toTime: Nullable<string> -> int, responses: seq<JoinResponse>)
    requires |Somes(contracts)| > 0
    ensures PostGetCalculatePayoffAndUPays(GroupAndFilterContracts(h, contracts, toTime), responses)
         == GroupAndFilterContracts(PostGetCalculatePayoffAndUPays(h, responses), contracts, toTime)
  {
  }

  /** On a fresh page, a failed upcoming-payment batch leaves no scheduled
      payment and raises the contract error, while a clean payoff batch is
      still stored. */
  lemma FreshPageFailedUpays(responses: seq<JoinResponse>)
    requires UpaysFailed(Upcomings(responses)) && !PayoffsFailed(Payoffs(responses))
    ensures var h := PostGetCalculatePayoffAndUPays(InitialHome(), responses);
            && h.scheduledPayments == []
            && h.contractError && h.errorMessage == Some(TechnicalError)
            && !h.payoffError && h.payoffs == Payoffs(responses)
  {
  }
}
