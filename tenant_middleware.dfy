/** `TenantMiddleware`: resolves the tenant of a request (header, then host subdomain, then the
    tenant whose subdomain is "default") and records it in the request items. */
module TenantResolution {
  import opened Wrappers
  import opened Common
  import opened Text
  import opened Http
  import opened DomainTenant

  /** A snapshot of the `Tenants` table as the middleware's queries see it. */
  type TenantStore = seq<TenantState>

  /** The `X-Tenant-Id` header: absent, present but not accepted by `Guid.TryParse` (this
      includes a header with no value), or present and parsed. */
  datatype TenantHeader = NoHeader | Malformed | WellFormed(id: Guid)

  const DefaultSubdomain := "default"

  // ---------------------------------------------------------------- ExtractSubdomain

  /** `ExtractSubdomain`: the first dot-separated label, exactly when the host has more than two
      labels ("example.com" has none, "www.example.com" gives "www"). */
  function ExtractSubdomain(host: string): (r: Option<string>)
    ensures r.Some? <==> Occurrences(host, '.') >= 2
    ensures r.Some? ==> '.' !in r.value && r.value + "." <= host
  {
    var parts := Split(host, '.');
    if |parts| > 2 then
      SplitFirst(host, '.');
      var i := IndexOf(host, '.');
      assert parts[0] + "." == host[..i + 1];
      Some(parts[0])
    else
      None
  }

  /** The label returned is the text before the first dot. */
  lemma ExtractSubdomainIsFirstLabel(host: string)
    requires ExtractSubdomain(host).Some?
    ensures '.' in host && ExtractSubdomain(host).value == host[..IndexOf(host, '.')]
  {
    SplitFirst(host, '.');
  }

  /** A host of two labels ("example.com") has no subdomain. */
  lemma ExtractSubdomainTwoLabels(domain: string, tld: string)
    requires '.' !in domain && '.' !in tld
    ensures ExtractSubdomain(domain + "." + tld) == None
  {
    assert multiset(domain + "." + tld) == multiset(domain) + multiset(".") + multiset(tld);
  }

  /** A host "label.rest" where rest has a dot yields the label. */
  lemma ExtractSubdomainLeadingLabel(first: string, rest: string)
    requires '.' !in first && '.' in rest
    ensures ExtractSubdomain(first + "." + rest) == Some(first)
  {
    var host := first + "." + rest;
    assert multiset(host) == multiset(first) + multiset(".") + multiset(rest);
    assert multiset(rest)['.'] >= 1;
    assert host[|first|] == '.' && host[..|first|] == first;
    ExtractSubdomainIsFirstLabel(host);
  }

  // ---------------------------------------------------------------- store queries

  predicate IsActiveTenant(store: TenantStore, id: Guid) {
    exists i :: 0 <= i < |store| && store[i].id == id && store[i].isActive
  }

  predicate ActiveWithSubdomain(t: TenantState, subdomain: string) {
    t.isActive && t.subdomain == Some(subdomain)
  }

  /** `Tenants.Where(t => t.Id == id && t.IsActive).AnyAsync()`. */
  predicate AnyActiveWithId(store: TenantStore, id: Guid)
    ensures AnyActiveWithId(store, id) <==> IsActiveTenant(store, id)
  {
    if store == [] then false
    else (store[0].id == id && store[0].isActive) || AnyActiveWithId(store[1..], id)
  }

  /** `ValidateTenantAsync`: the id itself when an active tenant has it, `Guid.Empty` otherwise. */
  function ValidateTenant(store: TenantStore, id: Guid): (r: Guid)
    ensures IsActiveTenant(store, id) ==> r == id
    ensures !IsActiveTenant(store, id) ==> r == EmptyGuid
  {
    if AnyActiveWithId(store, id) then id else EmptyGuid
  }

  /** `Tenants.Where(t => t.Subdomain == s && t.IsActive).Select(t => t.Id).FirstOrDefaultAsync()`:
      the id of the first active tenant with that subdomain, `Guid.Empty` when there is none. */
  function FirstActiveWithSubdomain(store: TenantStore, subdomain: string): (r: Guid)
    ensures (forall i :: 0 <= i < |store| ==> !ActiveWithSubdomain(store[i], subdomain)) ==> r == EmptyGuid
    ensures forall i :: (0 <= i < |store| && ActiveWithSubdomain(store[i], subdomain) &&
                         (forall j :: 0 <= j < i ==> !ActiveWithSubdomain(store[j], subdomain))) ==> r == store[i].id
    ensures r != EmptyGuid ==> exists i :: 0 <= i < |store| && store[i].id == r && ActiveWithSubdomain(store[i], subdomain)
  {
    if store == [] then EmptyGuid
    else if ActiveWithSubdomain(store[0], subdomain) then store[0].id
    else
      var r := FirstActiveWithSubdomain(store[1..], subdomain);
      assert forall i :: 1 <= i < |store| ==> store[i] == store[1..][i - 1];
      r
  }

  // ---------------------------------------------------------------- ResolveTenantAsync

  /** Method 2 of `ResolveTenantAsync`: the tenant named by the host's subdomain, or
      `Guid.Empty` when the host is empty, has no subdomain, or its subdomain is unknown. */
  function SubdomainTenant(store: TenantStore, host: string): (r: Guid)
    ensures ExtractSubdomain(host).None? ==> r == EmptyGuid
    ensures r != EmptyGuid ==> ExtractSubdomain(host).Some?
    ensures r != EmptyGuid ==>
              exists i :: 0 <= i < |store| && store[i].id == r && ActiveWithSubdomain(store[i], ExtractSubdomain(host).value)
  {
    if host == "" then EmptyGuid
    else
      var subdomain := ExtractSubdomain(host);
      if subdomain.None? || subdomain.value == "" then EmptyGuid
      else FirstActiveWithSubdomain(store, subdomain.value)
  }

  /** `ResolveTenantAsync`. A parsed header decides alone: no fall-through when its tenant is
      unknown or inactive. */
  function ResolveTenant(store: TenantStore, header: TenantHeader, host: string): (r: Guid)
    ensures header.WellFormed? ==> r == header.id || r == EmptyGuid
    ensures !header.WellFormed? ==>
      r == SubdomainTenant(store, host) || r == FirstActiveWithSubdomain(store, DefaultSubdomain)
  {
    match header
    case WellFormed(id) => ValidateTenant(store, id)
    case _ =>
      var bySubdomain := SubdomainTenant(store, host);
      if bySubdomain != EmptyGuid then bySubdomain
      else FirstActiveWithSubdomain(store, DefaultSubdomain)
  }

  /** A parsed header yields its tenant when that tenant is active and `Guid.Empty` otherwise,
      whatever the host and whatever the default tenant. */
  lemma ResolveByHeader(store: TenantStore, id: Guid, host: string)
    ensures IsActiveTenant(store, id) ==> ResolveTenant(store, WellFormed(id), host) == id
    ensures !IsActiveTenant(store, id) ==> ResolveTenant(store, WellFormed(id), host) == EmptyGuid
  {
  }

  /** A missing or unparsable header is the same as no header. */
  lemma ResolveIgnoresUnparsedHeader(store: TenantStore, header: TenantHeader, host: string)
    requires !header.WellFormed?
    ensures ResolveTenant(store, header, host) == ResolveTenant(store, NoHeader, host)
  {
  }

  /** Without a parsed header, an active tenant with the host's subdomain wins. */
  lemma ResolveBySubdomain(store: TenantStore, host: string, i: nat)
    requires host != "" && ExtractSubdomain(host).Some? && ExtractSubdomain(host).value != ""
    requires i < |store| && ActiveWithSubdomain(store[i], ExtractSubdomain(host).value) && store[i].id != EmptyGuid
    requires forall j :: 0 <= j < i ==> !ActiveWithSubdomain(store[j], ExtractSubdomain(host).value)
    ensures ResolveTenant(store, NoHeader, host) == store[i].id
  {
  }

  /** A host whose leftmost label is empty (".example.com") never reaches the subdomain lookup. */
  lemma EmptyLabelSkipsLookup(store: TenantStore, host: string)
    requires host != [] && host[0] == '.'
    ensures SubdomainTenant(store, host) == EmptyGuid
  {
    if ExtractSubdomain(host).Some? {
      ExtractSubdomainIsFirstLabel(host);
    }
  }

  /** With neither header nor subdomain match, the result is the active "default" tenant's id,
      or `Guid.Empty`. */
  lemma ResolveByDefault(store: TenantStore, header: TenantHeader, host: string)
    requires !header.WellFormed? && SubdomainTenant(store, host) == EmptyGuid
    ensures ResolveTenant(store, header, host) == FirstActiveWithSubdomain(store, DefaultSubdomain)
  {
  }

  /** Every result other than `Guid.Empty` is the id of an active tenant of the store. */
  lemma {:induction false} ResolvedTenantIsActive(store: TenantStore, header: TenantHeader, host: string)
    requires ResolveTenant(store, header, host) != EmptyGuid
    ensures IsActiveTenant(store, ResolveTenant(store, header, host))
  {
    var r := ResolveTenant(store, header, host);
    if !header.WellFormed? {
      if SubdomainTenant(store, host) != EmptyGuid {
        var sub := ExtractSubdomain(host).value;
        var i :| 0 <= i < |store| && store[i].id == r && ActiveWithSubdomain(store[i], sub);
      } else {
        var i :| 0 <= i < |store| && store[i].id == r && ActiveWithSubdomain(store[i], DefaultSubdomain);
      }
    }
  }

  /** The store of the end-to-end scenarios: tenant 1 ("one"), tenant 2 ("acme") and the
      "default" tenant 3, all active unless the default is switched off. */
  function ScenarioStore(defaultActive: bool): TenantStore {
    [TenantState(1, "One", Some("one"), None, None, DefaultSettings, 0, None, true),
     TenantState(2, "Acme", Some("acme"), None, None, DefaultSettings, 0, None, true),
     TenantState(3, "Default", Some("default"), None, None, DefaultSettings, 0, None, defaultActive)]
  }

  /** The header names tenant 1 while the host names "acme": the header wins. */
  lemma ScenarioHeaderBeatsSubdomain(domain: string)
    ensures ResolveTenant(ScenarioStore(true), WellFormed(1), "acme." + domain) == 1
  {
    assert ScenarioStore(true)[0].id == 1 && ScenarioStore(true)[0].isActive;
  }

  /** Without a header the host's subdomain decides ("acme.example.com" gives tenant 2). */
  lemma ScenarioSubdomain(domain: string)
    requires '.' in domain
    ensures ResolveTenant(ScenarioStore(true), NoHeader, "acme" + "." + domain) == 2
  {
    ExtractSubdomainLeadingLabel("acme", domain);
    var store := ScenarioStore(true);
    assert !ActiveWithSubdomain(store[0], "acme");
    ResolveBySubdomain(store, "acme" + "." + domain, 1);
  }

  /** A two-label host ("example.com") falls back to the "default" tenant. */
  lemma ScenarioDefault(domain: string, tld: string)
    requires '.' !in domain && '.' !in tld
    ensures ResolveTenant(ScenarioStore(true), NoHeader, domain + "." + tld) == 3
  {
    ExtractSubdomainTwoLabels(domain, tld);
    var store := ScenarioStore(true);
    assert !ActiveWithSubdomain(store[0], DefaultSubdomain) && !ActiveWithSubdomain(store[1], DefaultSubdomain);
    assert ActiveWithSubdomain(store[2], DefaultSubdomain);
  }

  /** An unknown subdomain ("zeta") and an inactive default tenant leave the request without a tenant. */
  lemma ScenarioNoTenant(domain: string)
    requires '.' in domain
    ensures ResolveTenant(ScenarioStore(false), NoHeader, "zeta" + "." + domain) == EmptyGuid
  {
    ExtractSubdomainLeadingLabel("zeta", domain);
    var store := ScenarioStore(false);
    assert forall i :: 0 <= i < |store| ==> !ActiveWithSubdomain(store[i], "zeta");
    assert forall i :: 0 <= i < |store| ==> !ActiveWithSubdomain(store[i], DefaultSubdomain);
  }

  // ---------------------------------------------------------------- InvokeAsync

  /** `Tenants.Where(t => t.Id == id).Select(t => new { t.Name, t.Subdomain }).FirstOrDefaultAsync()`. */
  function FindById(store: TenantStore, id: Guid): (r: Option<TenantState>)
    ensures r.Some? ==> r.value in store && r.value.id == id
    ensures r.None? ==> forall i :: 0 <= i < |store| ==> store[i].id != id
  {
    if store == [] then None
    else if store[0].id == id then Some(store[0])
    else FindById(store[1..], id)
  }

  /** With a single snapshot, the follow-up lookup always finds a resolved tenant. */
  lemma {:induction false} ResolvedTenantIsFound(store: TenantStore, header: TenantHeader, host: string)
    requires ResolveTenant(store, header, host) != EmptyGuid
    ensures FindById(store, ResolveTenant(store, header, host)).Some?
  {
    ResolvedTenantIsActive(store, header, host);
  }

  /** Where resolution can throw: in `ResolveTenantAsync`'s queries, or in the follow-up
      lookup of the tenant's name. */
  datatype Fault = NoFault | ResolveThrows | NameLookupThrows

  /** What the middleware leaves behind: its log entries and the call of the next delegate. */
  datatype MiddlewareEvent = NoTenantWarning(path: string) | ResolutionError(path: string) | NextInvoked

  /** The items after a successful follow-up lookup. */
  function WithTenantItems(items: map<string, ItemValue>, t: TenantState): map<string, ItemValue> {
    items[TenantNameKey := StringItem(t.name)]
         [TenantSubdomainKey := if t.subdomain.Some? then StringItem(t.subdomain.value) else NullItem]
  }

  class TenantMiddleware {
    var trace: seq<MiddlewareEvent>

    constructor ()
      ensures trace == []
    {
      trace := [];
    }

    /** `InvokeAsync`: "TenantId" is written only for a non-empty result, name and subdomain only
        when the follow-up lookup finds the tenant; an empty result logs a warning; a thrown
        exception is logged and swallowed; the next delegate runs exactly once, last. */
    method Invoke(context: HttpContext, store: TenantStore, header: TenantHeader, host: string, fault: Fault)
      modifies this, context
      ensures var tenantId := ResolveTenant(store, header, host);
        if fault == ResolveThrows then
          context.items == old(context.items) && trace == old(trace) + [ResolutionError(context.path), NextInvoked]
        else if tenantId == EmptyGuid then
          context.items == old(context.items) && trace == old(trace) + [NoTenantWarning(context.path), NextInvoked]
        else if fault == NameLookupThrows then
          context.items == old(context.items)[TenantIdKey := GuidItem(tenantId)] &&
          trace == old(trace) + [ResolutionError(context.path), NextInvoked]
        else
          var found := FindById(store, tenantId);
          context.items == (if found.Some? then WithTenantItems(old(context.items)[TenantIdKey := GuidItem(tenantId)], found.value)
                            else old(context.items)[TenantIdKey := GuidItem(tenantId)]) &&
          trace == old(trace) + [NextInvoked]
    {
      if fault == ResolveThrows {
        trace := trace + [ResolutionError(context.path)];
      } else {
        var tenantId := ResolveTenant(store, header, host);
        if tenantId != EmptyGuid {
          context.items := context.items[TenantIdKey := GuidItem(tenantId)];
          if fault == NameLookupThrows {
            trace := trace + [ResolutionError(context.path)];
          } else {
            var tenant := FindById(store, tenantId);
            if tenant.Some? {
              context.items := context.items[TenantNameKey := StringItem(tenant.value.name)];
              context.items := context.items[TenantSubdomainKey :=
                if tenant.value.subdomain.Some? then StringItem(tenant.value.subdomain.value) else NullItem];
            }
          }
        } else {
          trace := trace + [NoTenantWarning(context.path)];
        }
      }
      trace := trace + [NextInvoked];
    }
  }
}
