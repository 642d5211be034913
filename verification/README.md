# Home page contract aggregation, modelled in Dafny

The home page of the customer portal collects a customer's active financing
contracts. It works in four steps:

1. It resolves the customer's contact (customer number and financial
   products). It uses the contact cached in the session store when that
   contact is complete. Otherwise it calls the remote contact lookup.
2. It takes the account lookup's contract details and keeps the active ones.
3. For every active account it requests an upcoming-payment lookup and a
   payoff calculation. It then processes the joined answers in two batches.
   Each batch is all-or-nothing: one answer flagged as an error discards
   the whole batch and raises a flag. If a call fails outright instead of
   answering, the join fails, and the answers are never processed.
4. It groups the active contracts into past-due, current and paid contracts.
   Each group is ordered by next due date, and the groups are joined in that
   order.

This project models those steps as pure functions over immutable records and
proves what they promise. The page's fields become a `Home` record that every
stage maps to a new `Home`. The cache becomes an explicit `Option<Contact>`.
The remote answers (contact lookup, account lookup, joined enrichment answers)
are inputs. The joined answers arrive in request order, as `forkJoin` delivers
them. The account-info service's `isActiveAccount` and `isPastDue` are
parameters. So is the conversion of a due-date string to a time value
(`toTime`), so no ordering of missing dates is asserted. Amounts are whole
cents.

Files, one module each:

- `wrappers.dfy` (`Wrappers`): `Option`, and `Nullable`. `Nullable` keeps
  `undefined` and `null` apart for the fields the page compares with `!== null`.
- `seqs.dfy` (`Seqs`): order-keeping filter, first-match find, dropping of
  absent entries.
- `stable_sort.dfy` (`StableSort`): stable insertion sort by an integer key.
- `records.dfy` (`Records`): the data records and the page state.
- `contact.dfy` (`ContactResolution`): the cache branch and the remote lookup's
  success and failure handlers.
- `accounts.dfy` (`Accounts`): the active filter and the request fan-out.
- `enrichment.dfy` (`Enrichment`): splitting the joined answers by kind and the
  two batch rules.
- `classifier.dfy` (`Classifier`): grouping and ordering.
- `lookups.dfy` (`Lookups`): lookups by key and the two display predicates.
- `home.dfy` (`HomePage`): the stages over the page state and a whole run.

Behaviour of the code worth noting:

- The cache is used when its customer number is truthy and its product list is
  present. A customer number of 0 sends the page to the remote lookup. An empty
  product list still counts as cached.
- A failed upcoming-payment batch sets the same `contractError` flag and
  technical-error message as a failed contact or account lookup. There is no
  separate flag for it. Only payoffs have their own flag, `payoffError`.
- Splitting the joined answers keeps request order. Answers of an unknown kind
  are dropped.
- An answer from the contact lookup that has no contact is still written to
  the cache. Reading its fields then throws, and the error path takes over:
  the failure result is handed on with the cache already overwritten.
- With no active accounts, the page still joins an empty request list. That
  join completes without a value, so the answer handler never runs (`Join`).
- lodash's `_.orderBy` is as stable as `_.sortBy`. So all three groups, not
  only the paid one, keep input order among equal due dates.

## Model

| member | source | states |
|---|---|---|
| ContactResolution.GetContractInfo | home.component.ts:78-112 | A usable cache is returned unchanged with no remote call. Otherwise the remote lookup runs. An answer with a contact caches it and hands it on without error. An answer without one overwrites the cache with nothing and yields the failure result. A failed call keeps the cache and yields the failure result. |
| ContactResolution.AfterGetContactByGcidSuccess | home.component.ts:97-105 | Without `refresh` the cache becomes the answer's contact, even a missing one; with `refresh` the cache is unchanged. With a contact, its customer number and products are handed on without error. Without one, no result is produced. |
| ContactResolution.AfterGetContactByGcidFailure | home.component.ts:107-112 | The result carries `error = true` and no customer number or products. |
| ContactResolution.CachedIgnoresRemote | home.component.ts:80-88 | With a usable cache the result is the same whatever the remote lookup would answer. |
| ContactResolution.SecondResolutionIsCached | home.component.ts:80-105 | After one successful lookup of a complete contact, the next resolution is served from the cache with the same result and no remote call. |
| HomePage.PostGetContractInfo | home.component.ts:118-131 | A contact error raises `contractError`, selects the technical-error message and changes nothing else. Otherwise the modelled state is unchanged; the display fields this branch writes are not modelled. |
| Accounts.ActiveDetails | home.component.ts:228-230 | Every result has an active status code. Each present detail with an active code is kept as often as it occurs in the list, and nothing else is. An absent list gives no details. |
| Accounts.ActiveDetailsConcat | home.component.ts:228-230 | Filtering two joined lists gives the first list's active details followed by the second's, so relative order is kept. |
| Accounts.ActiveDetailsSingle | home.component.ts:228-230 | A single entry is kept exactly when it is present and active. |
| Accounts.Requests | home.component.ts:236-240 | There are 2N requests for N accounts. For account i, position 2i is its upcoming-payment request by account number and position 2i+1 its payoff request by FS account id, neither refreshing. |
| HomePage.PostFindAccounts | home.component.ts:217-253 | An error answer raises `contractError` with the technical-error message and issues no request. Otherwise the active details are stored, the requests are those for the active details, and the ordered list is a permutation of them in display order. `listLength` equals their number, and the no-accounts message is selected exactly when there are none. Flags and batches are untouched. |
| Classifier.BucketOf | home.component.ts:258-266 | The priority rule (positive balance, else positive amount due, else paid) puts each contract in the group whose filter it passes, and that filter only. |
| Classifier.Ordered | home.component.ts:256-276 | The output is a permutation of the present inputs. Past-due contracts come before current ones, and current before paid. Inside a group, due dates ascend, with every due date taken as a comparable time value. |
| Classifier.OrderedCount | home.component.ts:256-276 | Each present contract appears in the output as often as among the inputs; absent entries and nothing else are dropped. |
| Classifier.OrderedIsStable | home.component.ts:267-275 | Contracts of one group with equal due-date values keep their input order. |
| Classifier.OneOfEachBucket | home.component.ts:258-276 | One past-due, one current and one paid contract come out in that order, whatever their due dates and input order. |
| HomePage.GroupAndFilterContracts | home.component.ts:256-283 | The ordered list is a permutation of the present contracts in display order. `listLength` is its length, the no-accounts message is selected exactly when it is empty, and nothing else changes. |
| Enrichment.UpcomingsCount | home.component.ts:287-290 | Each upcoming-payment answer among the joined answers is kept as often as it occurs, and no other answer is. |
| Enrichment.PayoffsCount | home.component.ts:291-293 | Each payoff answer among the joined answers is kept as often as it occurs, and no other answer is. |
| Enrichment.SplitConcat | home.component.ts:287-294 | Splitting two joined answer lists gives the first list's split followed by the second's, so each kind keeps its relative order. |
| Enrichment.SplitSingle | home.component.ts:287-294 | An answer goes to the group of its kind. An answer of neither kind is dropped. |
| Enrichment.AnsweredSplitSizes | home.component.ts:236-242 | Answers to the requests for N accounts, given in request order, split into N upcoming-payment answers and N payoff answers. |
| Enrichment.ScheduledItems | home.component.ts:313-317 | Each scheduled item is kept as often as answers carry it, and nothing else is. Answers without an item add nothing. |
| Enrichment.ScheduledItemsConcat | home.component.ts:313-317 | Collecting the items of two joined answer lists gives the first list's items followed by the second's, so answer order is kept. |
| Enrichment.ScheduledItemsSingle | home.component.ts:313-317 | One answer contributes its item when it carries one, and nothing otherwise. |
| Enrichment.PostFindUpcomingUpays | home.component.ts:300-321 | If any answer has `error`, `contractError` is raised, the technical-error message is selected and the scheduled payments are unchanged. Otherwise the scheduled items are appended in order and nothing else changes. |
| Enrichment.PostCalculatePayoff | home.component.ts:323-339 | If any payoff has `error`, `payoffError` is raised and the payoffs are unchanged. Otherwise every payoff is appended in order and nothing else changes. |
| Enrichment.PostGetCalculatePayoffAndUPays | home.component.ts:284-298 | Each batch is judged only on its own kind. An error flagged in one kind's answers neither discards the other kind's results nor changes the contract list or its length. |
| HomePage.Join | home.component.ts:242 | With no requests the state is unchanged. When an enrichment call errors, the state is also unchanged: no flag is raised and no result of either kind is stored. Otherwise the answers go through both batches exactly as `PostGetCalculatePayoffAndUPays` processes them. |
| HomePage.NoActiveAccounts | home.component.ts:226-242 | With no active accounts the ordered list is empty, `listLength` is 0, the no-accounts message is selected, no request is issued, and the join leaves the state as it was. |
| HomePage.ScheduledPaymentAfterJoin | home.component.ts:152-157 | After a clean batch on an empty list, the lookup by account number returns the first scheduled item for that account. |
| HomePage.GroupingCommutesWithJoin | home.component.ts:242-252 | With at least one active account, the final state is the same whether the join's answers are processed before or after the grouping. |
| HomePage.RunPipeline | home.component.ts:72-73 | The run leaves the cache as contact resolution left it. A failed resolution raises `contractError` with the technical-error message. After a successful resolution, an account lookup whose stream errors leaves the page state unchanged. |
| Lookups.GetContractAccountDetails | home.component.ts:145-150 | Nothing is found exactly when no detail has the account number. Otherwise the result is the detail at the first position that has it. |
| Lookups.GetScheduledPayment | home.component.ts:152-157 | Nothing is found exactly when no scheduled item has the account number. Otherwise the result is the item at the first position that has it. |
| Lookups.GetPayoff | home.component.ts:158-163 | Nothing is found exactly when no payoff has the FS account id. Otherwise the result is the payoff at the first position that has it. |
| Lookups.ShowDueDate | home.component.ts:165-167 | The due date is shown exactly for a contract that the service does not call past due and whose due date is neither `null` nor `undefined`. |
| Lookups.ShowDueDateOutsidePastDue | home.component.ts:165-167 | When the service's past-due test is "positive balance", the due date is shown exactly for contracts outside the past-due group that have a due date. |
| Lookups.HasNoLastpayment | home.component.ts:191-193 | True exactly when a detail is given and neither of its last-payment fields is `null`. An `undefined` field is not `null`, so it passes. |
| Lookups.NoLastpaymentForUnknownAccount | home.component.ts:191-193 | For an account number no detail carries, the lookup finds nothing and the last-payment test is false. |
| Lookups.LastpaymentOfFirstDetail | home.component.ts:191-193 | For the first detail with the account number, the last-payment test is true exactly when neither of that detail's fields is `null`. |
| HomePage.FreshPageFailedUpays | home.component.ts:57-61 | On a freshly constructed page, a failed upcoming-payment batch leaves no scheduled payment and raises the contract error with the technical-error message. A clean payoff batch is still stored and raises no payoff error. |
| StableSort.SortBy | home.component.ts:267-275 | The output is a permutation of the input with keys ascending. |
| StableSort.SortByIsStable | home.component.ts:273-275 | Among elements with one key, the sorted output keeps the input order. |

## Left out

- The Angular lifecycle, dependency injection, `ngOnInit` and the logger set-up (home.component.ts:36-76) are framework wiring. The constructor's initial values are `InitialHome`.
- The rxjs subscriptions and the concurrency of `forkJoin` are not modelled. The join is either an already completed answer list in request order, or `None` when some enrichment call's stream errors.
- The error outcome of a stream is modelled only as `None`, with no error value. The account lookup's subscription (home.component.ts:140-141) and the join's (home.component.ts:242) have no error callback. So an errored stream stops the run with no flag raised and no result stored, and `promiseFinished` is never called. `RunPipeline` and `Join` state this.
- Message text from `translateService` is not modelled: the model records only the chosen key (`TechnicalError`, `NoAccounts`). The text arrives asynchronously in the source; the model sets the key at once.
- `getAmountLabel` and `getAccountCategoryLabel` are not modelled: they are label lookups through translation and an external category mapping.
- Logging is not modelled: `logger.logcritical` and `logSiteActivityService.logUserActivity` are side-effect I/O.
- `handleFSTokenError` is external error reporting and is not modelled.
- Navigation and store dispatches (`navigateTo*`, `setContractDetails`, `setActiveContracts`) are not modelled. The only dispatch kept is the contact written to the cache.
- `enCodeImageUrl` is not modelled: it depends on an image-URL encoder and on environment configuration that are not part of this model.
- `promiseFinished` is not modelled: it only signals completion to the presentation layer.
- In the successful branch of `postGetContractInfo`, the product and account-number filtering of the filter service, the calls that store the customer number, and the account lookup itself are external. Their answer is an input to `PostFindAccounts`.
- The display fields `financialProducts`, `customerNumber` and `firstName`, which that branch writes (home.component.ts:134-138), are not part of `Home`. They feed only the presentation and the external calls above.
- The contact store's reducer is not part of this model. The cache is taken to hold exactly the contact last written, including a missing one.
- `dataIsCached` (home.component.ts:114-116) is never called and is not modelled.
- JavaScript `new Date(...)` parsing is not modelled. `toTime` is a parameter that gives every due date, missing or not, a comparable integer time value.
- Classifier.Ordered: "due dates ascend" holds only when every due date has a comparable time value. In the source a missing or unparsable date gives an Invalid Date. lodash compares an Invalid Date as equal to any other date, so the comparison is not transitive. The result then depends on the engine's sort: the current group `[A (2024-03-01), X (no date), B (2024-01-01)]` can stay in that order, with A before B.
- Amounts are integers. A `null` or `undefined` amount is not modelled; in JavaScript an `undefined` balance fails all three group filters.
- An `undefined` answer to the account lookup is not modelled. The source would fail reading its detail list.
- The upcoming-payment batch tests `error === true` and the payoff batch tests a truthy `error`. Both flags are booleans here, so the two tests agree.
- `payoffError` and the stored details start `undefined` in the source. The model starts them as `false` and empty, which behaves the same for every read the page makes.
- HomePage.RunPipeline: its contract states only the cache outcome and the contact-failure flags. The later stages' properties are stated on `PostFindAccounts`, `Join` and the enrichment functions.
