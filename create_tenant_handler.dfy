/** `CreateTenantCommandHandler`: creates a tenant after checking that its subdomain is free
    across all tenants. */
module TenantCommands {
  import opened Wrappers
  import opened Common
  import opened Text
  import opened DomainTenant
  import opened Rows
  import opened Persistence
  import opened TenantValidation

  predicate HasSubdomain(r: Row, subdomain: string) {
    r.TenantRow? && r.tenant.subdomain == Some(subdomain)
  }

  /** Some tenant, active or not, already uses the subdomain. */
  predicate SubdomainInUse(rows: seq<Row>, subdomain: string) {
    exists i :: 0 <= i < |rows| && HasSubdomain(rows[i], subdomain)
  }

  /** `Tenants.FirstOrDefaultAsync(t => t.Subdomain == subdomain)`. */
  function FindBySubdomain(rows: seq<Row>, subdomain: string): (r: Option<TenantState>)
    ensures r.Some? <==> SubdomainInUse(rows, subdomain)
    ensures r.Some? ==> TenantRow(r.value) in rows && r.value.subdomain == Some(subdomain)
  {
    if rows == [] then None
    else if HasSubdomain(rows[0], subdomain) then Some(rows[0].tenant)
    else
      var r := FindBySubdomain(rows[1..], subdomain);
      assert forall i :: 1 <= i < |rows| ==> rows[i] == rows[1..][i - 1];
      r
  }

  /** No two tenants share a non-empty subdomain. */
  predicate UniqueSubdomains(rows: seq<Row>) {
    forall i, j ::
      (0 <= i < |rows| && 0 <= j < |rows| && rows[i].TenantRow? && rows[j].TenantRow? &&
       rows[i].tenant.subdomain.Some? && rows[i].tenant.subdomain.value != "" &&
       rows[i].tenant.subdomain == rows[j].tenant.subdomain) ==> i == j
  }

  /** The tenant the handler builds: name and subdomain through the constructor, website,
      industry and settings from the request, active, not yet updated. */
  function NewTenantState(id: Guid, now: Time, request: CreateTenantCommand, settings: TenantSettings): (t: TenantState)
    ensures t.id == id && t.name == request.name && t.subdomain == request.subdomain
    ensures t.website == request.website && t.industry == request.industry && t.settings == settings
    ensures t.isActive && t.updatedAt == None && t.createdAt == now
  {
    TenantState(id, request.name, request.subdomain, request.website, request.industry, settings, now, None, true)
  }

  /** Adding a tenant whose subdomain passed the handler's check keeps subdomains unique. */
  lemma AddKeepsSubdomainsUnique(rows: seq<Row>, t: TenantState)
    requires UniqueSubdomains(rows)
    requires IsNullOrEmpty(t.subdomain) || !SubdomainInUse(rows, t.subdomain.value)
    ensures UniqueSubdomains(rows + [TenantRow(t)])
  {
    var after := rows + [TenantRow(t)];
    forall i, j | 0 <= i < |after| && 0 <= j < |after| && after[i].TenantRow? && after[j].TenantRow? &&
                  after[i].tenant.subdomain.Some? && after[i].tenant.subdomain.value != "" &&
                  after[i].tenant.subdomain == after[j].tenant.subdomain
      ensures i == j
    {
    }
  }

  /** Saving the new tenant alone, with nothing else tracked, appends exactly its row; no tenant
      context is needed, since tenants are not tenant-scoped. */
  lemma SaveNewTenant(rows: seq<Row>, t: TenantState, tenant: Result<Guid, Error>, now: Time)
    requires t.createdAt == now
    ensures SaveSpec([Entry(Added, TenantRow(t))], rows, tenant, now, false).result == Success(1)
    ensures SaveSpec([Entry(Added, TenantRow(t))], rows, tenant, now, false).rows == rows + [TenantRow(t)]
  {
    var entries := [Entry(Added, TenantRow(t))];
    assert !HasAddedScoped(entries);
    var stamped := StampAudit(StampTenant(entries, TenantOrEmpty(tenant)), now);
    assert stamped == entries;
    PersistAllAdded(rows, entries);
    assert RowsOf(entries) == [TenantRow(t)];
    AllAddedPending(entries);
  }

  class CreateTenantCommandHandler {
    const context: ApplicationDbContext

    constructor (context: ApplicationDbContext)
      ensures this.context == context
    {
      this.context := context;
    }

    /** `Handle`: a non-empty subdomain already in use throws and adds nothing; a null or empty
        one is not checked. Otherwise one tenant is built from the request (settings copied),
        added and saved once, and its id returned. */
    method Handle(request: CreateTenantCommand, ids: GuidSource, now: Time, saveFails: bool)
      returns (r: Result<Guid, Error>, ghost created: TenantState)
      requires ids.Valid()
      modifies context`tracker, context`rows, context.tenantProvider`cachedTenantId, ids
      ensures ids.Valid()
      ensures !IsNullOrEmpty(request.subdomain) && SubdomainInUse(old(context.rows), request.subdomain.value) ==>
                r == Failure(SubdomainTaken) && context.rows == old(context.rows) &&
                context.tracker == old(context.tracker)
      ensures (IsNullOrEmpty(request.subdomain) || !SubdomainInUse(old(context.rows), request.subdomain.value)) &&
              request.settings.None? ==>
                r == Failure(NullReference) && context.rows == old(context.rows) &&
                context.tracker == old(context.tracker)
      ensures (IsNullOrEmpty(request.subdomain) || !SubdomainInUse(old(context.rows), request.subdomain.value)) &&
              request.settings.Some? ==>
                && created == NewTenantState(created.id, now, request, request.settings.value)
                && created.id != EmptyGuid && created.id !in old(ids.issued)
                && var s := SaveSpec(old(context.tracker[..]) + [Entry(Added, TenantRow(created))], old(context.rows),
                                     old(context.tenantProvider.Current()), now, saveFails);
                   r == (if s.result.Success? then Success(created.id) else Failure(s.result.error)) &&
                   context.rows == s.rows && context.tracker[..] == s.entries
      ensures old(context.tracker[..]) == [] && r.Success? ==>
                context.rows == old(context.rows) + [TenantRow(created)] &&
                (UniqueSubdomains(old(context.rows)) ==> UniqueSubdomains(context.rows))
    {
      created := NewTenantState(EmptyGuid, now, request, DefaultSettings);
      if !IsNullOrEmpty(request.subdomain) {
        var existing := FindBySubdomain(context.rows, request.subdomain.value);
        if existing.Some? {
          return Failure(SubdomainTaken), created;
        }
      }
      if request.settings.None? {
        return Failure(NullReference), created;
      }
      r, created := CreateAndSave(request, request.settings.value, ids, now, saveFails);
    }

    /** The handler past its checks: builds the tenant, adds it and saves once. */
    method CreateAndSave(request: CreateTenantCommand, settings: TenantSettings, ids: GuidSource, now: Time, saveFails: bool)
      returns (r: Result<Guid, Error>, ghost created: TenantState)
      requires ids.Valid()
      requires IsNullOrEmpty(request.subdomain) || !SubdomainInUse(context.rows, request.subdomain.value)
      modifies context`tracker, context`rows, context.tenantProvider`cachedTenantId, ids
      ensures ids.Valid()
      ensures created == NewTenantState(created.id, now, request, settings)
      ensures created.id != EmptyGuid && created.id !in old(ids.issued)
      ensures var s := SaveSpec(old(context.tracker[..]) + [Entry(Added, TenantRow(created))], old(context.rows),
                                old(context.tenantProvider.Current()), now, saveFails);
                r == (if s.result.Success? then Success(created.id) else Failure(s.result.error)) &&
                context.rows == s.rows && context.tracker[..] == s.entries
      ensures old(context.tracker[..]) == [] && r.Success? ==>
                context.rows == old(context.rows) + [TenantRow(created)] &&
                (UniqueSubdomains(old(context.rows)) ==> UniqueSubdomains(context.rows))
    {
      ghost var rowsBefore := context.rows;
      ghost var trackedBefore := context.tracker[..];
      ghost var tenantBefore := context.tenantProvider.Current();
      var state := BuildTenant(request, settings, ids, now);
      created := state;
      assert rowsBefore == old(context.rows) && trackedBefore == old(context.tracker[..]);
      assert tenantBefore == old(context.tenantProvider.Current());
      context.Add(TenantRow(state));
      assert context.tenantProvider.Current() == tenantBefore;
      ghost var spec := SaveSpec(trackedBefore + [Entry(Added, TenantRow(created))], rowsBefore, tenantBefore, now, saveFails);
      var saved := context.SaveChanges(now, saveFails);
      assert saved == spec.result && context.rows == spec.rows && context.tracker[..] == spec.entries;
      if saved.Failure? {
        return Failure(saved.error), created;
      }
      r := Success(state.id);
      if trackedBefore == [] {
        SaveNewTenant(rowsBefore, created, tenantBefore, now);
        if UniqueSubdomains(rowsBefore) {
          AddKeepsSubdomainsUnique(rowsBefore, created);
        }
      }
    }

    /** `new Tenant(name, subdomain) { Website, Industry, Settings }`, the settings copied field
        by field from the request. */
    method BuildTenant(request: CreateTenantCommand, settings: TenantSettings, ids: GuidSource, now: Time)
      returns (state: TenantState)
      requires ids.Valid()
      modifies ids
      ensures ids.Valid() && ids.issued >= old(ids.issued)
      ensures state == NewTenantState(state.id, now, request, settings)
      ensures state.id != EmptyGuid && state.id !in old(ids.issued)
    {
      var id := ids.NewGuid();
      var tenant := new Tenant(id, now, request.name, request.subdomain);
      tenant.website, tenant.industry, tenant.settings := request.website, request.industry, settings;
      state := tenant.State();
    }
  }
}
