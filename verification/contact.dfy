/** Contact resolution: the cached contact is used when it already carries
    a customer number and a product list; otherwise the remote contact
    lookup runs, and its result is cached unless the caller asked for a
    refresh. */
module ContactResolution {
  import opened Wrappers
  import opened Records

  /** The remote lookup's outcome: an answer, whose `contact` field may be
      missing (`None`), or a failed call. */
  datatype ContactLookup = Answered(contact: Option<Contact>) | LookupFailed

  /** The cache after resolution, the result handed on, and whether the
      remote lookup was issued. */
  datatype Resolution = Resolution(cache: Option<Contact>, info: ContactInfo, remoteCalled: bool)

  /** JavaScript truthiness of a numeric field: defined, not null, not 0. */
  predicate NumberIsTruthy(n: Nullable<int>) {
    n.Present? && n.value != 0
  }

  /** The cache is usable: a contact is stored, its customer number is
      truthy and its product list is present (an empty list counts). */
  predicate IsCached(cache: Option<Contact>) {
    cache.Some? && NumberIsTruthy(cache.value.eDBCustomerNumber) && cache.value.financialProducts.Present?
  }

  /** The contact's customer number and product list, with no error. */
  function InfoOf(c: Contact): ContactInfo {
    ContactInfo(c.eDBCustomerNumber, c.financialProducts, false)
  }

  /** A successful lookup: the answer's contact is stored unless `refresh`,
      and its customer number and products are handed on. An answer without
      a contact is stored all the same (the store write comes first), and
      then reading its fields throws, so no result is produced (`None`). */
  function AfterGetContactByGcidSuccess(cache: Option<Contact>, contact: Option<Contact>, refresh: bool)
    : (r: (Option<Contact>, Option<ContactInfo>))
    ensures !refresh ==> r.0 == contact
    ensures refresh ==> r.0 == cache
    ensures r.1.None? <==> contact.None?
    ensures contact.Some? ==> r.1 == Some(ContactInfo(contact.value.eDBCustomerNumber, contact.value.financialProducts, false))
  {
    (if refresh then cache else contact,
     match contact case Some(c) => Some(InfoOf(c)) case None => None)
  }

  /** A failed lookup: a result carrying only the error flag. The error is
      also handed to the token error handler, which is not modelled. */
  function AfterGetContactByGcidFailure(): (info: ContactInfo)
    ensures info.error
    ensures info.customerNumber == Undefined && info.financialProducts == Undefined
  {
    ContactInfo(Undefined, Undefined, true)
  }

  /** `getContractInfo`: the cache branch, else the remote lookup with
      `refresh` false. A failed call, and an answer whose success handler
      throws for want of a contact, both end in the failure handler. */
  function GetContractInfo(cache: Option<Contact>, remote: ContactLookup): (r: Resolution)
    ensures IsCached(cache) ==> !r.remoteCalled && r.cache == cache && r.info == InfoOf(cache.value)
    ensures !IsCached(cache) ==> r.remoteCalled
    ensures !IsCached(cache) && remote.Answered? ==> r.cache == remote.contact
    ensures !IsCached(cache) && remote.Answered? && remote.contact.Some? ==> r.info == InfoOf(remote.contact.value)
    ensures !IsCached(cache) && remote.Answered? && remote.contact.None? ==> r.info.error
    ensures !IsCached(cache) && remote.LookupFailed? ==> r.cache == cache && r.info.error
  {
    if IsCached(cache) then
      Resolution(cache, InfoOf(cache.value), false)
    else match remote
      case Answered(contact) =>
        var (cache', info) := AfterGetContactByGcidSuccess(cache, contact, false);
        var info' := match info case Some(i) => i case None => AfterGetContactByGcidFailure();
        Resolution(cache', info', true)
      case LookupFailed =>
        Resolution(cache, AfterGetContactByGcidFailure(), true)
  }

  /** With a usable cache the remote outcome is irrelevant. */
  lemma CachedIgnoresRemote(cache: Option<Contact>, r1: ContactLookup, r2: ContactLookup)
    requires IsCached(cache)
    ensures GetContractInfo(cache, r1) == GetContractInfo(cache, r2)
  {
  }

  /** Write once: after a successful lookup of a contact that has a customer
      number and products, the next resolution is served from the cache with
      the same result and no remote call, whatever the remote would say. */
  lemma SecondResolutionIsCached(cache: Option<Contact>, contact: Contact, later: ContactLookup)
    requires !IsCached(cache)
    requires NumberIsTruthy(contact.eDBCustomerNumber) && contact.financialProducts.Present?
    ensures var first := GetContractInfo(cache, Answered(Some(contact)));
            var second := GetContractInfo(first.cache, later);
            !second.remoteCalled && second.cache == first.cache && second.info == first.info
  {
  }
}
