/** `TenantProvider`: reads the resolved tenant from the request items and caches it. */
module TenantContext {
  import opened Wrappers
  import opened Common
  import opened Http

  class TenantProvider {
    /** `_httpContextAccessor.HttpContext`, which is null outside a request. */
    const http: HttpContext?
    var cachedTenantId: Option<Guid>
    var cachedTenantName: Option<string>

    constructor (http: HttpContext?)
      ensures this.http == http && cachedTenantId == None && cachedTenantName == None
    {
      this.http := http;
      cachedTenantId := None;
      cachedTenantName := None;
    }

    /** The `Guid` stored under "TenantId", if the items hold one. */
    function ItemTenantId(): Option<Guid>
      reads this, http
    {
      if http != null && TenantIdKey in http.items && http.items[TenantIdKey].GuidItem?
      then Some(http.items[TenantIdKey].g) else None
    }

    /** The `string` stored under "TenantName", if the items hold one. */
    function ItemTenantName(): Option<string>
      reads this, http
    {
      if http != null && TenantNameKey in http.items && http.items[TenantNameKey].StringItem?
      then Some(http.items[TenantNameKey].s) else None
    }

    /** What reading `TenantId` in the current state yields: the cache first, then the items,
        otherwise the "no tenant context" exception. */
    function Current(): (r: Result<Guid, Error>)
      reads this, http
      ensures r.Failure? <==> cachedTenantId.None? && ItemTenantId().None?
      ensures r.Failure? ==> r.error == NoTenantContext
      ensures cachedTenantId.Some? ==> r == Success(cachedTenantId.value)
      ensures cachedTenantId.None? && ItemTenantId().Some? ==> r == Success(ItemTenantId().value)
    {
      if cachedTenantId.Some? then Success(cachedTenantId.value)
      else if ItemTenantId().Some? then Success(ItemTenantId().value)
      else Failure(NoTenantContext)
    }

    /** The `TenantId` getter. Once cached, the value is returned whatever the items now hold;
        otherwise a `Guid` item is returned and cached; otherwise it throws, never returning a
        default, and the cache stays empty. */
    method TenantId() returns (r: Result<Guid, Error>)
      modifies this`cachedTenantId
      ensures r == old(Current())
      ensures old(cachedTenantId).Some? ==> r == Success(old(cachedTenantId).value) && cachedTenantId == old(cachedTenantId)
      ensures old(cachedTenantId).None? && ItemTenantId().Some? ==>
                r == Success(ItemTenantId().value) && cachedTenantId == ItemTenantId()
      ensures old(cachedTenantId).None? && ItemTenantId().None? ==>
                r == Failure(NoTenantContext) && cachedTenantId == None
      ensures Current() == old(Current())
    {
      if cachedTenantId.Some? {
        return Success(cachedTenantId.value);
      }
      if http != null && TenantIdKey in http.items && http.items[TenantIdKey].GuidItem? {
        var tenantId := http.items[TenantIdKey].g;
        cachedTenantId := Some(tenantId);
        return Success(tenantId);
      }
      return Failure(NoTenantContext);
    }

    /** The `TenantName` getter: the cached name, else a string item (then cached), else null
        without throwing. A null answer is not cached, so a later read looks again. */
    method TenantName() returns (r: Option<string>)
      modifies this`cachedTenantName
      ensures old(cachedTenantName).Some? ==> r == old(cachedTenantName) && cachedTenantName == old(cachedTenantName)
      ensures old(cachedTenantName).None? ==> r == ItemTenantName() && cachedTenantName == r
    {
      if cachedTenantName.Some? {
        return cachedTenantName;
      }
      if http != null && TenantNameKey in http.items && http.items[TenantNameKey].StringItem? {
        var tenantName := http.items[TenantNameKey].s;
        cachedTenantName := Some(tenantName);
        return Some(tenantName);
      }
      return None;
    }

    /** The `HasTenant` getter: whether the items contain the key "TenantId", whatever the type
        of its value. It neither reads nor fills the cache. */
    method HasTenant() returns (b: bool)
      ensures b <==> http != null && TenantIdKey in http.items
    {
      b := http != null && TenantIdKey in http.items;
    }
  }

  /** `HasTenant` and a successful `TenantId` can disagree: an item of another type under
      "TenantId" makes `HasTenant` true while `TenantId` still throws. */
  lemma HasTenantDoesNotImplyTenantId(p: TenantProvider)
    requires p.http != null && p.cachedTenantId.None?
    requires TenantIdKey in p.http.items && p.http.items[TenantIdKey] == OtherItem
    ensures p.Current() == Failure(NoTenantContext)
  {
  }
}
