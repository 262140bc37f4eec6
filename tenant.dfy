/** The `Tenant` entity and its `TenantSettings` value. */
module DomainTenant {
  import opened Wrappers
  import opened Common

  /** `TenantSettings`; the JSON document of custom settings is kept as its text. */
  datatype TenantSettings = TenantSettings(
    timeZone: string, locale: string, currency: string,
    maxUsers: int, maxStorageBytes: int, maxApiCallsPerMonth: int,
    allowCustomFields: bool, allowWorkflows: bool, allowIntegrations: bool,
    customSettings: Option<string>)

  /** The settings a `new TenantSettings()` starts with. */
  const DefaultSettings := TenantSettings("UTC", "en-US", "USD", 10, 1024 * 1024 * 1024, 10000,
                                          true, false, false, None)

  /** A snapshot of a tenant's fields: what the change tracker and the database hold. */
  datatype TenantState = TenantState(
    id: Guid, name: string, subdomain: Option<string>, website: Option<string>,
    industry: Option<string>, settings: TenantSettings,
    createdAt: Time, updatedAt: Option<Time>, isActive: bool)

  class Tenant {
    const id: Guid
    var name: string
    var subdomain: Option<string>
    var website: Option<string>
    var industry: Option<string>
    var settings: TenantSettings
    const createdAt: Time           // init-only
    var updatedAt: Option<Time>
    var isActive: bool

    function State(): TenantState
      reads this
    {
      TenantState(id, name, subdomain, website, industry, settings, createdAt, updatedAt, isActive)
    }

    /** `new Tenant(name, subdomain)`: `id` is the fresh `Guid.NewGuid()` and `now` the
        `DateTime.UtcNow` read by the property initialisers; the subdomain defaults to `null`. */
    constructor (id: Guid, now: Time, name: string, subdomain: Option<string> := None)
      ensures State() == TenantState(id, name, subdomain, None, None, DefaultSettings, now, None, true)
    {
      this.id := id;
      this.name := name;
      this.subdomain := subdomain;
      website := None;
      industry := None;
      settings := DefaultSettings;
      createdAt := now;
      updatedAt := None;
      isActive := true;
    }

    /** `UpdateSettings`: replaces the settings and stamps `UpdatedAt`; nothing else changes. */
    method UpdateSettings(settings: TenantSettings, now: Time)
      modifies this`settings, this`updatedAt
      ensures State() == old(State()).(settings := settings, updatedAt := Some(now))
    {
      this.settings := settings;
      updatedAt := Some(now);
    }

    /** `Deactivate`: clears `IsActive` and stamps `UpdatedAt`; nothing else changes. */
    method Deactivate(now: Time)
      modifies this`isActive, this`updatedAt
      ensures State() == old(State()).(isActive := false, updatedAt := Some(now))
    {
      isActive := false;
      updatedAt := Some(now);
    }
  }

  /** `new Tenant(name)`: with the subdomain left out, the tenant has none. */
  method NewTenantWithoutSubdomain(id: Guid, now: Time, name: string) returns (t: Tenant)
    ensures t.State() == TenantState(id, name, None, None, None, DefaultSettings, now, None, true)
  {
    t := new Tenant(id, now, name);
  }

  /** Deactivating twice leaves the tenant as inactive as deactivating once: the second call
      changes only `UpdatedAt`. */
  method DeactivateTwice(t: Tenant, now1: Time, now2: Time)
    modifies t
    ensures !t.isActive
    ensures t.State() == old(t.State()).(isActive := false, updatedAt := Some(now2))
  {
    t.Deactivate(now1);
    t.Deactivate(now2);
  }
}
