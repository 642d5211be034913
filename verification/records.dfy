/** The records the home page works with: the cached contact, the contract
    account details returned by the account lookup, and the two kinds of
    enrichment result (upcoming payments and payoffs). Amounts are whole
    cents; dates are the strings the services return. */
module Records {
  import opened Wrappers

  datatype FinancialProduct = FinancialProduct(accountNumber: string, vehicleImageData: string)

  /** The contact kept in the session store. */
  datatype Contact = Contact(
    eDBCustomerNumber: Nullable<int>,
    financialProducts: Nullable<seq<FinancialProduct>>,
    firstName: string)

  /** What contact resolution hands to the next stage. */
  datatype ContactInfo = ContactInfo(
    customerNumber: Nullable<int>,
    financialProducts: Nullable<seq<FinancialProduct>>,
    error: bool)

  datatype ContractAccountDetail = ContractAccountDetail(
    accountNumber: string,
    fSAccountId: string,
    currentBalance: int,
    totalAmountDue: int,
    nextPaymentDueDate: Nullable<string>,
    statusCategoryCode: string,
    lastPaymentAmount: Nullable<int>,
    lastPaymentDate: Nullable<string>)

  /** The account lookup's answer; its detail list may itself be absent. */
  datatype ContactDetail = ContactDetail(
    error: bool,
    contractAccountDetails: Option<seq<Option<ContractAccountDetail>>>)

  datatype ScheduledItem = ScheduledItem(accountNumber: string, dueDate: string, amount: int)

  /** The upcoming-payment lookup's answer for one account. */
  datatype ContactUpcoming = ContactUpcoming(error: bool, scheduledItem: Option<ScheduledItem>)

  datatype Payoff = Payoff(fSAccountId: string, amount: int, error: bool)

  /** One enrichment request, as issued for an active account. */
  datatype Request =
    | FindUpcomingUpays(accountNumber: string, refresh: bool)
    | CalculatePayoff(fSAccountId: string, refresh: bool)

  /** One joined enrichment answer, tagged by kind; `Unrecognised` is any
      answer of neither kind. */
  datatype JoinResponse =
    | Upcoming(upcoming: ContactUpcoming)
    | PayoffResult(payoff: Payoff)
    | Unrecognised

  /** The message keys the page selects; the text itself is looked up
      elsewhere. */
  datatype MessageKey = TechnicalError | NoAccounts

  /** The page state the pipeline writes. */
  datatype Home = Home(
    contractError: bool,
    payoffError: bool,
    listLength: int,
    errorMessage: Option<MessageKey>,
    contractAccountDetails: seq<ContractAccountDetail>,
    orderedContracts: seq<ContractAccountDetail>,
    scheduledPayments: seq<ScheduledItem>,
    payoffs: seq<Payoff>)

  /** The state before any stage has run. */
  function InitialHome(): Home {
    Home(false, false, -1, None, [], [], [], [])
  }
}
