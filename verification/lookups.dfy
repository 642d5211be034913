/** First-match lookups by key over the page's lists, and the two display
    predicates on a contract. */
module Lookups {
  import opened Wrappers
  import opened Seqs
  import opened Records
  import opened Classifier

  /** Position `i` holds the first detail with this account number. */
  predicate FirstDetailAt(details: seq<ContractAccountDetail>, accountNumber: string, i: int) {
    0 <= i < |details| && details[i].accountNumber == accountNumber &&
    forall j :: 0 <= j < i ==> details[j].accountNumber != accountNumber
  }

  /** Position `i` holds the first scheduled item with this account number. */
  predicate FirstItemAt(items: seq<ScheduledItem>, accountNumber: string, i: int) {
    0 <= i < |items| && items[i].accountNumber == accountNumber &&
    forall j :: 0 <= j < i ==> items[j].accountNumber != accountNumber
  }

  /** Position `i` holds the first payoff with this FS account id. */
  predicate FirstPayoffAt(payoffs: seq<Payoff>, fSAccountId: string, i: int) {
    0 <= i < |payoffs| && payoffs[i].fSAccountId == fSAccountId &&
    forall j :: 0 <= j < i ==> payoffs[j].fSAccountId != fSAccountId
  }

  /** The first contract detail with this account number. */
  function GetContractAccountDetails(details: seq<ContractAccountDetail>, accountNumber: string)
    : (r: Option<ContractAccountDetail>)
    ensures r.None? <==> forall j :: 0 <= j < |details| ==> details[j].accountNumber != accountNumber
    ensures forall i :: FirstDetailAt(details, accountNumber, i) ==> r == Some(details[i])
  {
    var p := (d: ContractAccountDetail) => d.accountNumber == accountNumber;
    assert forall i :: FirstDetailAt(details, accountNumber, i) ==> FirstMatch(details, p, i);
    Find(details, p)
  }

  /** The first scheduled payment for this account number. */
  function GetScheduledPayment(scheduledPayments: seq<ScheduledItem>, accountNumber: string)
    : (r: Option<ScheduledItem>)
    ensures r.None? <==> forall j :: 0 <= j < |scheduledPayments| ==> scheduledPayments[j].accountNumber != accountNumber
    ensures forall i :: FirstItemAt(scheduledPayments, accountNumber, i) ==> r == Some(scheduledPayments[i])
  {
    var p := (sp: ScheduledItem) => sp.accountNumber == accountNumber;
    assert forall i :: FirstItemAt(scheduledPayments, accountNumber, i) ==> FirstMatch(scheduledPayments, p, i);
    Find(scheduledPayments, p)
  }

  /** The first payoff for this FS account id. */
  function GetPayoff(payoffs: seq<Payoff>, fSAccountId: string): (r: Option<Payoff>)
    ensures r.None? <==> forall j :: 0 <= j < |payoffs| ==> payoffs[j].fSAccountId != fSAccountId
    ensures forall i :: FirstPayoffAt(payoffs, fSAccountId, i) ==> r == Some(payoffs[i])
  {
    var p := (po: Payoff) => po.fSAccountId == fSAccountId;
    assert forall i :: FirstPayoffAt(payoffs, fSAccountId, i) ==> FirstMatch(payoffs, p, i);
    Find(payoffs, p)
  }

  /** The due date is shown for a contract the account-info service does
      not call past due (`isPastDue`, a parameter here) and that has a due
      date (neither `null` nor `undefined`). */
  function ShowDueDate(contract: ContractAccountDetail, isPastDue: int -> bool): (r: bool)
    ensures r ==> contract.nextPaymentDueDate.IsDefined()
    ensures isPastDue(contract.currentBalance) ==> !r
    ensures !isPastDue(contract.currentBalance) && contract.nextPaymentDueDate.IsDefined() ==> r
  {
    !isPastDue(contract.currentBalance) && contract.nextPaymentDueDate != Null && contract.nextPaymentDueDate != Undefined
  }

  /** When the service's past-due test is "positive current balance", the
      due date is shown exactly for the contracts outside the past-due group
      that have a due date. */
  lemma ShowDueDateOutsidePastDue(contract: ContractAccountDetail, isPastDue: int -> bool)
    requires forall x :: isPastDue(x) == (x > 0)
    ensures ShowDueDate(contract, isPastDue) <==> BucketOf(contract) != PastDue && contract.nextPaymentDueDate.IsDefined()
  {
  }

  /** True for a given detail whose last-payment amount and date are both
      not `null`; `undefined` is not `null`, so it passes. Despite its name
      the result is true when a last payment is on record. */
  function HasNoLastpayment(contractDetail: Option<ContractAccountDetail>): (r: bool)
    ensures r <==> contractDetail.Some? && !contractDetail.value.lastPaymentAmount.Null?
                   && !contractDetail.value.lastPaymentDate.Null?
  {
    match contractDetail
    case None => false
    case Some(d) => d.lastPaymentAmount != Null && d.lastPaymentDate != Null
  }

  /** For an account number no detail carries, the lookup finds nothing and
      the last-payment test is false. */
  lemma NoLastpaymentForUnknownAccount(details: seq<ContractAccountDetail>, accountNumber: string)
    requires forall j :: 0 <= j < |details| ==> details[j].accountNumber != accountNumber
    ensures !HasNoLastpayment(GetContractAccountDetails(details, accountNumber))
  {
  }

  /** For the first detail with the account number, the last-payment test
      is that detail's: true exactly when neither field is `null`. */
  lemma LastpaymentOfFirstDetail(details: seq<ContractAccountDetail>, accountNumber: string, i: int)
    requires FirstDetailAt(details, accountNumber, i)
    ensures HasNoLastpayment(GetContractAccountDetails(details, accountNumber))
        <==> !details[i].lastPaymentAmount.Null? && !details[i].lastPaymentDate.Null?
  {
  }
}
