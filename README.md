# FrontierCRM tenant isolation, in Dafny

FrontierCRM is a multi-tenant CRM written in C# on ASP.NET Core and EF Core. Each tenant's
users, roles and role assignments share one database, and the system keeps them apart with the
following pieces, which this project models:

- **Tenant resolution** (`TenantMiddleware`). It picks the tenant of each request, in this
  order: the `X-Tenant-Id` header, then the subdomain of the host, then the tenant whose
  subdomain is `default`. It writes the result into the request items.
- **The tenant context** (`TenantProvider`). It reads the resolved tenant back from the request
  items and caches it.
- **The persistence choke point** (`ApplicationDbContext`):
  - `SaveChangesAsync` stamps the current tenant and the audit times onto tracked entities;
  - a global query filter on every tenant-scoped table;
  - a coordinator that holds at most one database transaction.
- **The request pipeline's `PerformanceBehavior`**. It times each request and logs one entry
  about it.
- **The use cases that check tenancy by hand**:
  - creating a tenant, with a subdomain unique across all tenants;
  - creating a user, with an e-mail unique within the tenant and links only to roles of the
    tenant;
  - listing users, filtered by tenant, search term and activity, and paged.
- **The validators** of the two create commands.
- **The domain entities** `Entity`, `Tenant`, `User` and `Role`.

How the C# maps to Dafny:

- Entities whose methods assign fields are Dafny classes. Each has a `State()` snapshot that the
  method contracts use.
- The change tracker is an array of entries that the save loops update in place.
- The database tables are a sequence of rows.
- Request handlers are methods over a context object.
- The pure rules (resolution, validation, filtering, paging) are functions. Lemmas state what the
  source promises about them.

Every source of nondeterminism is an input of the model:

- the clock (`now`);
- the stopwatch (`elapsedMs`);
- `Guid.NewGuid` (a `GuidSource` that never repeats an identifier and never yields `Guid.Empty`);
- whether the database rejects a save, the opening of a transaction, a commit or a rollback;
- the header's parse result;
- the verdicts of the e-mail validator and of `Uri.TryCreate`.

Exceptions become `Result` failures. Their error values name the exception.

Files:

- `common.dfy`, `wrappers.dfy`: identifiers, errors, `Option`/`Result`.
- `text.dfy`, `sequences.dfy`: the .NET string and LINQ operations the core uses.
- `entity.dfy`, `tenant.dfy`, `user.dfy`, `role.dfy`: the domain.
- `http_context.dfy`, `tenant_provider.dfy`, `tenant_middleware.dfy`: tenant resolution.
- `rows.dfy`, `db_context.dfy`: rows, change-tracker entries, stamping, the base save, the query
  filter, the transaction coordinator.
- `performance_behavior.dfy`.
- `create_tenant_validator.dfy`, `create_user_validator.dfy`.
- `create_tenant_handler.dfy`, `create_user_handler.dfy`, `get_users.dfy`.

## Model

| member | source | states |
|---|---|---|
| Text.Trim | src/FrontierCRM.Domain/Entities/User.cs:58 | the result is the input with white space cut from its start and its end, and none left at either end; it is empty only when the input is all white space |
| Text.TrimUnique | src/FrontierCRM.Domain/Entities/User.cs:58 | any result meeting that description is the trim, so the contract determines `Trim` |
| Text.TrimClean | src/FrontierCRM.Domain/Entities/User.cs:58 | a string without white space at either end is its own trim |
| Text.TrimIdempotent | src/FrontierCRM.Domain/Entities/User.cs:58 | trimming twice is trimming once |
| Text.AsciiLower | src/FrontierCRM.Application/Features/Users/Queries/GetUsers/GetUsersQueryHandler.cs:39-44 | `ToLower` keeps the length and lower-cases each character |
| Text.AsciiLowerIdempotent | src/FrontierCRM.Application/Features/Users/Queries/GetUsers/GetUsersQueryHandler.cs:39-44 | lower-casing twice is lower-casing once; no upper-case letter remains |
| Text.ContainsIff | src/FrontierCRM.Application/Features/Users/Queries/GetUsers/GetUsersQueryHandler.cs:41-44 | `Contains` holds exactly when the term occurs at some position |
| Text.IndexOf | src/FrontierCRM.Infrastructure/Middleware/TenantMiddleware.cs:105 | the position of the first occurrence of the separator |
| Text.Split | src/FrontierCRM.Infrastructure/Middleware/TenantMiddleware.cs:105 | `Split('.')` gives one more part than there are dots, and no part contains a dot |
| Text.JoinSplit | src/FrontierCRM.Infrastructure/Middleware/TenantMiddleware.cs:105 | joining the parts with the separator gives back the host |
| Text.SplitFirst | src/FrontierCRM.Infrastructure/Middleware/TenantMiddleware.cs:105-108 | the first part is the text before the first separator, or the whole string when there is none |
| Sequences.Filter | src/FrontierCRM.Application/Features/Users/Queries/GetUsers/GetUsersQueryHandler.cs:40-49 | `Where` keeps each element satisfying the predicate as many times as it occurs and drops every other |
| Sequences.Skip | src/FrontierCRM.Application/Features/Users/Queries/GetUsers/GetUsersQueryHandler.cs:54 | `Skip(n)` is the whole sequence for `n <= 0`, the suffix from `n` up to the length, and empty past it |
| Sequences.Take | src/FrontierCRM.Application/Features/Users/Queries/GetUsers/GetUsersQueryHandler.cs:55 | `Take(n)` is empty for `n <= 0`, the prefix of length `n` up to the length, and the whole sequence past it |
| Sequences.SubsequenceTransitive | src/FrontierCRM.Application/Features/Users/Queries/GetUsers/GetUsersQueryHandler.cs:30-56 | chained `Where`/`Skip`/`Take` steps keep a subsequence of the table |
| Sequences.FilterIsSubsequence | src/FrontierCRM.Application/Features/Users/Queries/GetUsers/GetUsersQueryHandler.cs:40-49 | `Where` keeps table order |
| Sequences.SkipTakeIsSlice | src/FrontierCRM.Application/Features/Users/Queries/GetUsers/GetUsersQueryHandler.cs:53-56 | `Skip(n).Take(m)` is the slice from `n` to `n + m`, both cut at the end |
| Common.GuidSource.NewGuid | src/FrontierCRM.Domain/Common/Entity.cs:10 | `Guid.NewGuid()` never yields `Guid.Empty` nor an identifier issued before |
| DomainEntity.Entity.constructor | src/FrontierCRM.Domain/Common/Entity.cs:10-12 | a new entity has its identifier and no domain events |
| DomainEntity.Entity.Raise | src/FrontierCRM.Domain/Common/Entity.cs:23-26 | the event is appended after the earlier events, which keep their order |
| DomainEntity.Entity.ClearDomainEvents | src/FrontierCRM.Domain/Common/Entity.cs:31-34 | no event remains |
| DomainEntity.Entity.Equals | src/FrontierCRM.Domain/Common/Entity.cs:36-48 | equal only to an entity with the same identifier, and always to itself |
| DomainEntity.Entity.GetHashCode | src/FrontierCRM.Domain/Common/Entity.cs:50-53 | an `int` in the 32-bit range, computed from the identifier |
| DomainEntity.OpEquals | src/FrontierCRM.Domain/Common/Entity.cs:55-58 | `==` holds exactly for two nulls or two non-null entities that are `Equals` |
| DomainEntity.OpNotEquals | src/FrontierCRM.Domain/Common/Entity.cs:60-63 | `!=` holds exactly when one side is null and the other not, or both are entities that are not `Equals` |
| DomainEntity.EqualsIff | src/FrontierCRM.Domain/Common/Entity.cs:36-48 | equal exactly when the argument is an entity with the same runtime type and identifier; null and non-entities are never equal |
| DomainEntity.EqualsReflexive | src/FrontierCRM.Domain/Common/Entity.cs:41-42 | every entity equals itself |
| DomainEntity.EqualsSymmetric | src/FrontierCRM.Domain/Common/Entity.cs:44-47 | equality is symmetric |
| DomainEntity.EqualsTransitive | src/FrontierCRM.Domain/Common/Entity.cs:44-47 | equality is transitive |
| DomainEntity.EqualsImpliesSameHash | src/FrontierCRM.Domain/Common/Entity.cs:50-53 | equal entities have equal hash codes |
| DomainEntity.OperatorNullCases | src/FrontierCRM.Domain/Common/Entity.cs:55-63 | `==` holds of two nulls and fails for null against an entity; `!=` is its negation |
| DomainEntity.OperatorAgreesWithEquals | src/FrontierCRM.Domain/Common/Entity.cs:55-58 | on two entities `==` is `Equals` |
| DomainTenant.Tenant.constructor | src/FrontierCRM.Domain/Entities/Tenant.cs:25-43 | name and subdomain as given (the subdomain defaults to null), default settings, created now, active, never updated |
| DomainTenant.NewTenantWithoutSubdomain | src/FrontierCRM.Domain/Entities/Tenant.cs:39-43 | `new Tenant(name)` has no subdomain |
| DomainTenant.Tenant.UpdateSettings | src/FrontierCRM.Domain/Entities/Tenant.cs:45-49 | only the settings and `UpdatedAt` change |
| DomainTenant.Tenant.Deactivate | src/FrontierCRM.Domain/Entities/Tenant.cs:51-55 | only `IsActive` (to false) and `UpdatedAt` change |
| DomainTenant.DeactivateTwice | src/FrontierCRM.Domain/Entities/Tenant.cs:51-55 | deactivating again leaves the tenant inactive with every other field as after one call, apart from the newer `UpdatedAt` |
| DomainUser.DisplayNameOf | src/FrontierCRM.Domain/Entities/User.cs:58 | the display name is "first last" with the white space at both ends cut and none left there; it is empty only when both names are all white space |
| DomainUser.DisplayNameOfPaddedFirstName | src/FrontierCRM.Domain/Entities/User.cs:58 | " Ann" and "Lee" give "Ann Lee": only the outer white space goes |
| DomainUser.DisplayNameOfCleanNames | src/FrontierCRM.Domain/Entities/User.cs:58 | names without white space at either end are joined by exactly one space |
| DomainUser.DisplayNameOfFirstNameOnly | src/FrontierCRM.Domain/Entities/User.cs:58 | with an empty last name the display name is the first name |
| DomainUser.User.constructor | src/FrontierCRM.Domain/Entities/User.cs:34-59 | tenant, e-mail and names as given, the derived display name, default preferences, active, e-mail not verified, created now |
| DomainUser.User.UpdateProfile | src/FrontierCRM.Domain/Entities/User.cs:61-70 | names, derived display name, phone, job title and department (each defaulting to null) and `UpdatedAt` change; nothing else |
| DomainUser.UpdateNamesOnly | src/FrontierCRM.Domain/Entities/User.cs:61-70 | `UpdateProfile(firstName, lastName)` clears phone, job title and department |
| DomainUser.User.Rename | src/FrontierCRM.Domain/Entities/User.cs:63-65 | only the names and the derived display name change |
| DomainUser.User.UpdatePreferences | src/FrontierCRM.Domain/Entities/User.cs:72-76 | only the preferences and `UpdatedAt` change |
| DomainUser.User.RecordLogin | src/FrontierCRM.Domain/Entities/User.cs:78-81 | only `LastLoginAt` changes; `UpdatedAt` does not |
| DomainUser.User.Deactivate | src/FrontierCRM.Domain/Entities/User.cs:83-87 | only `IsActive` (to false) and `UpdatedAt` change |
| DomainRole.Role.constructor | src/FrontierCRM.Domain/Entities/Role.cs:31-36 | tenant, name, description and system flag as given (defaults null and false), created now |
| DomainRole.Role.UpdateDetails | src/FrontierCRM.Domain/Entities/Role.cs:38-43 | only name, description (cleared when omitted) and `UpdatedAt` change |
| DomainRole.NewUserRole | src/FrontierCRM.Application/Features/Users/Commands/CreateUser/CreateUserCommandHandler.cs:80 | the link carries the user, the role and the assignment time now, and an empty tenant and assigner until saved |
| TenantContext.TenantProvider.constructor | src/FrontierCRM.Infrastructure/Services/TenantProvider.cs:15-18 | both caches start empty |
| TenantContext.TenantProvider.Current | src/FrontierCRM.Infrastructure/Services/TenantProvider.cs:20-37 | what reading `TenantId` yields: the cached id, else the `Guid` item, else the "no tenant context" failure, which happens exactly when both are missing |
| TenantContext.TenantProvider.TenantId | src/FrontierCRM.Infrastructure/Services/TenantProvider.cs:20-37 | a cached id is returned whatever the items hold; otherwise a `Guid` item is returned and cached; otherwise it throws and the cache stays empty |
| TenantContext.TenantProvider.TenantName | src/FrontierCRM.Infrastructure/Services/TenantProvider.cs:39-56 | a cached name, else a string item (then cached), else null, which is not cached |
| TenantContext.TenantProvider.HasTenant | src/FrontierCRM.Infrastructure/Services/TenantProvider.cs:58-65 | true exactly when the items contain the key "TenantId", whatever its value |
| TenantContext.HasTenantDoesNotImplyTenantId | src/FrontierCRM.Infrastructure/Services/TenantProvider.cs:28-35 | a "TenantId" item that is not a `Guid` makes `TenantId` throw although `HasTenant` is true |
| TenantResolution.ExtractSubdomain | src/FrontierCRM.Infrastructure/Middleware/TenantMiddleware.cs:103-111 | a label exactly when the host has more than two labels; the label has no dot and, followed by a dot, starts the host |
| TenantResolution.ExtractSubdomainIsFirstLabel | src/FrontierCRM.Infrastructure/Middleware/TenantMiddleware.cs:105-108 | the label is the text before the first dot |
| TenantResolution.ExtractSubdomainTwoLabels | src/FrontierCRM.Infrastructure/Middleware/TenantMiddleware.cs:106-110 | "example.com" has no subdomain |
| TenantResolution.ExtractSubdomainLeadingLabel | src/FrontierCRM.Infrastructure/Middleware/TenantMiddleware.cs:105-108 | "www.example.com" gives "www" |
| TenantResolution.AnyActiveWithId | src/FrontierCRM.Infrastructure/Middleware/TenantMiddleware.cs:96-98 | true exactly when an active tenant has the id |
| TenantResolution.ValidateTenant | src/FrontierCRM.Infrastructure/Middleware/TenantMiddleware.cs:94-101 | the id when an active tenant has it, `Guid.Empty` otherwise |
| TenantResolution.FirstActiveWithSubdomain | src/FrontierCRM.Infrastructure/Middleware/TenantMiddleware.cs:73-76 | the id of the first active tenant with exactly that subdomain, `Guid.Empty` when there is none |
| TenantResolution.SubdomainTenant | src/FrontierCRM.Infrastructure/Middleware/TenantMiddleware.cs:66-83 | `Guid.Empty` for a host without a subdomain; any other result is an active tenant with the host's subdomain |
| TenantResolution.ResolveTenant | src/FrontierCRM.Infrastructure/Middleware/TenantMiddleware.cs:55-101 | a parsed header gives its id or `Guid.Empty`; otherwise the subdomain's tenant or the "default" tenant's lookup |
| TenantResolution.ResolveByHeader | src/FrontierCRM.Infrastructure/Middleware/TenantMiddleware.cs:58-63 | a parsed header yields its tenant when active and `Guid.Empty` otherwise, whatever the host and the default tenant |
| TenantResolution.ResolveIgnoresUnparsedHeader | src/FrontierCRM.Infrastructure/Middleware/TenantMiddleware.cs:58-66 | a missing or unparsable header is the same as none |
| TenantResolution.ResolveBySubdomain | src/FrontierCRM.Infrastructure/Middleware/TenantMiddleware.cs:66-83 | without a parsed header, the first active tenant with the host's subdomain wins |
| TenantResolution.EmptyLabelSkipsLookup | src/FrontierCRM.Infrastructure/Middleware/TenantMiddleware.cs:67-72 | a host starting with a dot never reaches the subdomain lookup |
| TenantResolution.ResolveByDefault | src/FrontierCRM.Infrastructure/Middleware/TenantMiddleware.cs:85-91 | with no header and no subdomain match, the active "default" tenant or `Guid.Empty` |
| TenantResolution.ResolvedTenantIsActive | src/FrontierCRM.Infrastructure/Middleware/TenantMiddleware.cs:55-101 | every result other than `Guid.Empty` is the id of an active tenant |
| TenantResolution.ScenarioHeaderBeatsSubdomain | src/FrontierCRM.Infrastructure/Middleware/TenantMiddleware.cs:58-63 | a header naming tenant 1 beats a host naming "acme" |
| TenantResolution.ScenarioSubdomain | src/FrontierCRM.Infrastructure/Middleware/TenantMiddleware.cs:66-83 | "acme.example.com" resolves to the acme tenant |
| TenantResolution.ScenarioDefault | src/FrontierCRM.Infrastructure/Middleware/TenantMiddleware.cs:85-91 | "example.com" resolves to the default tenant |
| TenantResolution.ScenarioNoTenant | src/FrontierCRM.Infrastructure/Middleware/TenantMiddleware.cs:66-91 | an unknown subdomain and an inactive default tenant give `Guid.Empty` |
| TenantResolution.FindById | src/FrontierCRM.Infrastructure/Middleware/TenantMiddleware.cs:31-34 | a tenant with the id when one exists, none otherwise |
| TenantResolution.ResolvedTenantIsFound | src/FrontierCRM.Infrastructure/Middleware/TenantMiddleware.cs:24-36 | the follow-up lookup finds every resolved tenant |
| TenantResolution.TenantMiddleware.Invoke | src/FrontierCRM.Infrastructure/Middleware/TenantMiddleware.cs:20-53 | "TenantId" is written only for a non-empty result; name and subdomain only when the lookup finds the tenant; an empty result logs a warning; an exception is logged and swallowed; the next delegate runs once, last |
| Rows.TenantStamped | src/FrontierCRM.Infrastructure/Data/ApplicationDbContext.cs:34-40 | an Added tenant-scoped entry gets the tenant; every other entry is unchanged; identity and audit fields stay |
| Rows.AuditStamped | src/FrontierCRM.Infrastructure/Data/ApplicationDbContext.cs:43-54 | Added rows get `CreatedAt`, Modified rows `UpdatedAt` and never `CreatedAt`; rows without the fields and other states are unchanged |
| Rows.StampTenant | src/FrontierCRM.Infrastructure/Data/ApplicationDbContext.cs:34-40 | the first loop, entry by entry |
| Rows.StampAudit | src/FrontierCRM.Infrastructure/Data/ApplicationDbContext.cs:43-54 | the second loop, entry by entry |
| Rows.StampTenantWithoutAdded | src/FrontierCRM.Infrastructure/Data/ApplicationDbContext.cs:34-40 | without an Added tenant-scoped entry the tenant is irrelevant and nothing changes |
| Rows.StampingProperties | src/FrontierCRM.Infrastructure/Data/ApplicationDbContext.cs:34-54 | after both loops: Added scoped rows carry the tenant, non-Added rows keep theirs, Added rows are created now, Modified rows updated now with `CreatedAt` kept |
| Rows.Replace | src/FrontierCRM.Infrastructure/Data/ApplicationDbContext.cs:56 | an update replaces exactly the rows with that key |
| Rows.Remove | src/FrontierCRM.Infrastructure/Data/ApplicationDbContext.cs:56 | a delete removes exactly the rows with that key |
| Rows.PendingCount | src/FrontierCRM.Infrastructure/Data/ApplicationDbContext.cs:56 | the count of entries written; zero exactly when nothing is pending |
| Rows.Persist | src/FrontierCRM.Infrastructure/Data/ApplicationDbContext.cs:56 | the base save applies the entries in tracker order and writes no row that was neither in the table nor tracked |
| Rows.Accepted | src/FrontierCRM.Infrastructure/Data/ApplicationDbContext.cs:56 | after the save an entry is no longer pending; deleted ones are detached |
| Rows.AcceptedHasNothingPending | src/FrontierCRM.Infrastructure/Data/ApplicationDbContext.cs:56 | after a save nothing is left to save |
| Rows.PersistNothingPending | src/FrontierCRM.Infrastructure/Data/ApplicationDbContext.cs:56 | saving with nothing pending writes nothing |
| Rows.PersistAllAdded | src/FrontierCRM.Infrastructure/Data/ApplicationDbContext.cs:56 | saving additions appends their rows in order and keeps every row |
| Rows.PersistKeepsUntouched | src/FrontierCRM.Infrastructure/Data/ApplicationDbContext.cs:56 | a row no update or delete names survives the save |
| Rows.InsertedRowsCarryTenant | src/FrontierCRM.Infrastructure/Data/ApplicationDbContext.cs:31-57 | every tenant-scoped row a save of additions inserts carries the stamped tenant |
| Rows.VisibleAsWritten | src/FrontierCRM.Infrastructure/Data/ApplicationDbContext.cs:89-92 | the filter as written returns only rows of the table |
| Rows.FilterAsWrittenAdmitsEverything | src/FrontierCRM.Infrastructure/Data/ApplicationDbContext.cs:91 | the filter as written returns the whole table, whatever the current tenant |
| Rows.FilterAsWrittenLeaks | src/FrontierCRM.Infrastructure/Data/ApplicationDbContext.cs:91 | with current tenant 1, a user of tenant 2 is visible |
| Rows.ScopedRows | src/FrontierCRM.Infrastructure/Data/ApplicationDbContext.cs:89-92 | the intended filter returns exactly the current tenant's rows and the tenants table |
| Rows.ScopedRowsIsolate | src/FrontierCRM.Infrastructure/Data/ApplicationDbContext.cs:89-92 | under the intended filter another tenant's row is never visible |
| Persistence.SaveWithoutTenantPersistsNothing | src/FrontierCRM.Infrastructure/Data/ApplicationDbContext.cs:34-56 | no tenant context and an entity to stamp: the save throws, writes no row and changes no entry |
| Persistence.SaveSpec | src/FrontierCRM.Infrastructure/Data/ApplicationDbContext.cs:31-57 | the save fails exactly when the database rejects it or an entity needs a tenant that is missing; a failed save writes no row; a successful one leaves nothing pending and counts at most the tracked entries |
| Persistence.SaveOfAdditions | src/FrontierCRM.Infrastructure/Data/ApplicationDbContext.cs:31-57 | saving additions returns their number, keeps existing rows, appends the new ones with their ids, the tenant and `CreatedAt`, and leaves nothing pending |
| Persistence.AllAddedPending | src/FrontierCRM.Infrastructure/Data/ApplicationDbContext.cs:56 | every addition counts as written |
| Persistence.ApplicationDbContext.Add | src/FrontierCRM.Application/Features/Tenants/Commands/CreateTenant/CreateTenantCommandHandler.cs:67 | `DbSet.Add` tracks the entity as Added, after the earlier entries |
| Persistence.ApplicationDbContext.SaveChanges | src/FrontierCRM.Infrastructure/Data/ApplicationDbContext.cs:31-57 | the result, the tables and the tracker are those of the save relation `SaveSpec` |
| Persistence.ApplicationDbContext.SetTenantIds | src/FrontierCRM.Infrastructure/Data/ApplicationDbContext.cs:34-40 | the loop stamps the tenant in place; without a tenant context and with an entry to stamp it throws and no entry has changed |
| Persistence.ApplicationDbContext.SetAuditFields | src/FrontierCRM.Infrastructure/Data/ApplicationDbContext.cs:43-54 | the loop stamps the audit times in place |
| Persistence.ApplicationDbContext.BeginTransaction | src/FrontierCRM.Infrastructure/Data/ApplicationDbContext.cs:94-103 | the open transaction when there is one; otherwise a new handle never used before, or, when the database refuses, a failure with nothing opened |
| Persistence.ApplicationDbContext.RollbackTransaction | src/FrontierCRM.Infrastructure/Data/ApplicationDbContext.cs:127-141 | with no transaction it throws; otherwise the rows return to the snapshot, or stay as they are when the rollback fails and throws; the handle is disposed and none is open after |
| Persistence.ApplicationDbContext.CommitTransaction | src/FrontierCRM.Infrastructure/Data/ApplicationDbContext.cs:105-125 | save then commit; a failure of either rolls back and is rethrown, unless the rollback fails, whose exception replaces it with the saved rows kept; with no transaction the save lands and it throws; none is open after |
| Persistence.CommitThenBegin | src/FrontierCRM.Infrastructure/Data/ApplicationDbContext.cs:117-124 | after a commit the next `Begin` opens a different handle |
| Behaviors.Classify | src/FrontierCRM.Application/Common/Behaviors/PerformanceBehavior.cs:32-41 | a warning exactly above 1000 ms, information otherwise |
| Behaviors.EntryFor | src/FrontierCRM.Application/Common/Behaviors/PerformanceBehavior.cs:23-49 | an error entry exactly when the handler threw, a warning exactly when it answered slowly; tagged with the request name and the time |
| Behaviors.ThresholdIsStrict | src/FrontierCRM.Application/Common/Behaviors/PerformanceBehavior.cs:32 | 1000 ms is information, 1001 ms a warning |
| Behaviors.PerformanceBehavior.Handle | src/FrontierCRM.Application/Common/Behaviors/PerformanceBehavior.cs:21-52 | the handler's response or exception passes through unchanged, slow or not, and exactly one entry is logged |
| TenantValidation.HyphenTailIff | src/FrontierCRM.Application/Features/Tenants/Commands/CreateTenant/CreateTenantCommandValidator.cs:18 | `[a-z0-9\-]*[a-z0-9]` matches exactly the non-empty strings of letters, digits and hyphens ending in a letter or digit |
| TenantValidation.SubdomainPatternIff | src/FrontierCRM.Application/Features/Tenants/Commands/CreateTenant/CreateTenantCommandValidator.cs:18 | the pattern matches exactly the non-empty strings of lower-case letters, digits and hyphens that neither start nor end with a hyphen |
| TenantValidation.MatchesSubdomainPattern | src/FrontierCRM.Application/Features/Tenants/Commands/CreateTenant/CreateTenantCommandValidator.cs:18 | a match is non-empty and starts and ends with a lower-case letter or digit |
| TenantValidation.SubdomainPatternExamples | src/FrontierCRM.Application/Features/Tenants/Commands/CreateTenant/CreateTenantCommandValidator.cs:18 | "a" and "a-b" match; "-a", "a-", "A" and "" do not |
| TenantValidation.BeAValidUrl | src/FrontierCRM.Application/Features/Tenants/Commands/CreateTenant/CreateTenantCommandValidator.cs:43-50 | true for null or empty; otherwise the absolute http(s) verdict |
| TenantValidation.NameFailures | src/FrontierCRM.Application/Features/Tenants/Commands/CreateTenant/CreateTenantCommandValidator.cs:12-14 | no failure exactly when the name is not blank and at most 200 long |
| TenantValidation.SubdomainFailures | src/FrontierCRM.Application/Features/Tenants/Commands/CreateTenant/CreateTenantCommandValidator.cs:16-20 | no failure exactly when the subdomain is null, empty, or at most 100 long and a label of the pattern |
| TenantValidation.WebsiteFailures | src/FrontierCRM.Application/Features/Tenants/Commands/CreateTenant/CreateTenantCommandValidator.cs:22-25 | no failure exactly when the website is null, empty, or at most 500 long and an absolute http(s) URL |
| TenantValidation.IndustryFailures | src/FrontierCRM.Application/Features/Tenants/Commands/CreateTenant/CreateTenantCommandValidator.cs:27-28 | no failure exactly when the industry is null or at most 100 long |
| TenantValidation.LimitFailures | src/FrontierCRM.Application/Features/Tenants/Commands/CreateTenant/CreateTenantCommandValidator.cs:33-40 | no failure exactly when all three limits are positive |
| TenantValidation.ValidateIff | src/FrontierCRM.Application/Features/Tenants/Commands/CreateTenant/CreateTenantCommandValidator.cs:12-40 | the command passes exactly when every rule holds |
| TenantValidation.Validate | src/FrontierCRM.Application/Features/Tenants/Commands/CreateTenant/CreateTenantCommandValidator.cs:12-40 | it throws `NullReference` exactly for null settings; no failure implies the name and industry length limits |
| TenantValidation.LimitsMustBePositive | src/FrontierCRM.Application/Features/Tenants/Commands/CreateTenant/CreateTenantCommandValidator.cs:33-34 | a zero user limit is reported with its message |
| UserValidation.AllDigitsIff | src/FrontierCRM.Application/Features/Users/Commands/CreateUser/CreateUserCommandValidator.cs:27 | `[\d]*` matches exactly the strings of digits |
| UserValidation.PhonePatternIff | src/FrontierCRM.Application/Features/Users/Commands/CreateUser/CreateUserCommandValidator.cs:27 | the phone pattern matches exactly an optional '+' and 1 to 16 digits, the first not zero |
| UserValidation.MatchesPhonePattern | src/FrontierCRM.Application/Features/Users/Commands/CreateUser/CreateUserCommandValidator.cs:27 | a match is 1 to 17 characters long and ends with a digit |
| UserValidation.PhonePatternAccepts | src/FrontierCRM.Application/Features/Users/Commands/CreateUser/CreateUserCommandValidator.cs:27 | "+15550100" and "7" match |
| UserValidation.PhonePatternRejects | src/FrontierCRM.Application/Features/Users/Commands/CreateUser/CreateUserCommandValidator.cs:27 | "0123", "+" and "555-1234" do not match |
| UserValidation.PhonePatternRejectsTooLong | src/FrontierCRM.Application/Features/Users/Commands/CreateUser/CreateUserCommandValidator.cs:27 | seventeen digits do not match |
| UserValidation.EmailFailures | src/FrontierCRM.Application/Features/Users/Commands/CreateUser/CreateUserCommandValidator.cs:12-15 | no failure exactly when the e-mail is not blank, well formed and at most 256 long |
| UserValidation.PersonNameFailures | src/FrontierCRM.Application/Features/Users/Commands/CreateUser/CreateUserCommandValidator.cs:17-23 | no failure exactly when the name is not blank and at most 100 long |
| UserValidation.PhoneFailures | src/FrontierCRM.Application/Features/Users/Commands/CreateUser/CreateUserCommandValidator.cs:25-29 | no failure for a null or empty phone; otherwise exactly when at most 50 long and matching the pattern |
| UserValidation.ItemsPerPageFailures | src/FrontierCRM.Application/Features/Users/Commands/CreateUser/CreateUserCommandValidator.cs:40-42 | no failure exactly for 1 to 1000 |
| UserValidation.ValidateUserIff | src/FrontierCRM.Application/Features/Users/Commands/CreateUser/CreateUserCommandValidator.cs:12-42 | the command passes exactly when every rule holds |
| UserValidation.ValidateUser | src/FrontierCRM.Application/Features/Users/Commands/CreateUser/CreateUserCommandValidator.cs:12-42 | it throws `NullReference` exactly for null preferences; no failure implies a well-formed e-mail of at most 256 characters |
| UserValidation.ItemsPerPageBounds | src/FrontierCRM.Application/Features/Users/Commands/CreateUser/CreateUserCommandValidator.cs:40-42 | 0 and 1001 fail, 1 and 1000 pass |
| TenantCommands.FindBySubdomain | src/FrontierCRM.Application/Features/Tenants/Commands/CreateTenant/CreateTenantCommandHandler.cs:35-36 | a tenant exactly when one, active or not, has the subdomain |
| TenantCommands.NewTenantState | src/FrontierCRM.Application/Features/Tenants/Commands/CreateTenant/CreateTenantCommandHandler.cs:60-65 | the new tenant has the requested name, subdomain, website, industry and settings, is active and created now |
| TenantCommands.AddKeepsSubdomainsUnique | src/FrontierCRM.Application/Features/Tenants/Commands/CreateTenant/CreateTenantCommandHandler.cs:33-42 | adding a tenant that passed the check keeps non-empty subdomains unique |
| TenantCommands.SaveNewTenant | src/FrontierCRM.Application/Features/Tenants/Commands/CreateTenant/CreateTenantCommandHandler.cs:67-68 | saving the new tenant alone appends exactly its row, with or without a tenant context |
| TenantCommands.CreateTenantCommandHandler.Handle | src/FrontierCRM.Application/Features/Tenants/Commands/CreateTenant/CreateTenantCommandHandler.cs:30-71 | a used subdomain throws and adds nothing; null settings throw; otherwise one fresh tenant is built, added and saved once and its id returned; alone in the tracker, it is appended and subdomains stay unique |
| TenantCommands.CreateTenantCommandHandler.CreateAndSave | src/FrontierCRM.Application/Features/Tenants/Commands/CreateTenant/CreateTenantCommandHandler.cs:45-70 | the part of `Handle` after the check |
| TenantCommands.CreateTenantCommandHandler.BuildTenant | src/FrontierCRM.Application/Features/Tenants/Commands/CreateTenant/CreateTenantCommandHandler.cs:45-65 | the tenant built is `NewTenantState` with a fresh id |
| UserCommands.FindByEmail | src/FrontierCRM.Application/Features/Users/Commands/CreateUser/CreateUserCommandHandler.cs:36-37 | a user exactly when one of that tenant has the e-mail |
| UserCommands.EmailInUseThroughFilter | src/FrontierCRM.Application/Features/Users/Commands/CreateUser/CreateUserCommandHandler.cs:36-37 | the duplicate check finds the same users through the intended tenant filter as over the whole table |
| UserCommands.MatchingRoles | src/FrontierCRM.Application/Features/Users/Commands/CreateUser/CreateUserCommandHandler.cs:74-76 | exactly the roles of the tenant whose id was requested |
| UserCommands.ScopedRolesAreMatchingRoles | src/FrontierCRM.Application/Features/Users/Commands/CreateUser/CreateUserCommandHandler.cs:74-76 | the role query gives the same roles through the intended tenant filter |
| UserCommands.NewUserState | src/FrontierCRM.Application/Features/Users/Commands/CreateUser/CreateUserCommandHandler.cs:61-67 | the new user has the tenant, e-mail, names, derived display name, optional fields and preferences of the request, is active, unverified and created now |
| UserCommands.LinkEntries | src/FrontierCRM.Application/Features/Users/Commands/CreateUser/CreateUserCommandHandler.cs:78-82 | one Added entry per link, in order |
| UserCommands.AddKeepsEmailsUnique | src/FrontierCRM.Application/Features/Users/Commands/CreateUser/CreateUserCommandHandler.cs:36-42 | adding a user that passed the check, and links, keeps e-mails unique per tenant |
| UserCommands.SaveNewUser | src/FrontierCRM.Application/Features/Users/Commands/CreateUser/CreateUserCommandHandler.cs:85 | the single save appends the user unchanged and the links stamped with the tenant |
| UserCommands.NewUserSaved | src/FrontierCRM.Application/Features/Users/Commands/CreateUser/CreateUserCommandHandler.cs:69-87 | on success every new row carries the tenant and e-mails stay unique |
| UserCommands.CreateUserCommandHandler.Handle | src/FrontierCRM.Application/Features/Users/Commands/CreateUser/CreateUserCommandHandler.cs:33-88 | no tenant context or a used e-mail throws before anything is added; null preferences throw; otherwise the user and one link per requested role of the tenant are added and saved once, and the user's id returned |
| UserCommands.CreateUserCommandHandler.CreateAndSave | src/FrontierCRM.Application/Features/Users/Commands/CreateUser/CreateUserCommandHandler.cs:44-87 | the part of `Handle` after the checks |
| UserCommands.CreateUserCommandHandler.BuildUser | src/FrontierCRM.Application/Features/Users/Commands/CreateUser/CreateUserCommandHandler.cs:44-67 | the user built is `NewUserState` with a fresh id |
| UserCommands.CreateUserCommandHandler.AddUserAndLinks | src/FrontierCRM.Application/Features/Users/Commands/CreateUser/CreateUserCommandHandler.cs:69-83 | the user is tracked, then one link per role in order, each from the user to the role |
| UserCommands.CreateUserCommandHandler.SaveCreated | src/FrontierCRM.Application/Features/Users/Commands/CreateUser/CreateUserCommandHandler.cs:85-87 | the one save returns the user's id or the save's failure; alone in the tracker, the user and its links are appended with the tenant and e-mails stay unique |
| UserQueries.SearchFilter | src/FrontierCRM.Application/Features/Users/Queries/GetUsers/GetUsersQueryHandler.cs:37-45 | no filter for a null or empty term; otherwise exactly the users one of whose four names contains the term, ignoring case, in order |
| UserQueries.ActiveFilter | src/FrontierCRM.Application/Features/Users/Queries/GetUsers/GetUsersQueryHandler.cs:47-50 | no filter when unset; otherwise exactly the users with that activity, in order |
| UserQueries.TenantFilter | src/FrontierCRM.Application/Features/Users/Queries/GetUsers/GetUsersQueryHandler.cs:31 | exactly the users of the tenant, in order |
| UserQueries.Filtered | src/FrontierCRM.Application/Features/Users/Queries/GetUsers/GetUsersQueryHandler.cs:30-50 | a user is kept exactly when it is in the table, of the tenant, matches the term when one is given and has the activity when one is given; table order is kept |
| UserQueries.WrapInt32 | src/FrontierCRM.Application/Features/Users/Queries/GetUsers/GetUsersQueryHandler.cs:54 | unchecked `int` arithmetic: the congruent value in range, the value itself when in range |
| UserQueries.OffsetAsWritten | src/FrontierCRM.Application/Features/Users/Queries/GetUsers/GetUsersQueryHandler.cs:54 | the offset as written is a 32-bit `int` congruent to the exact offset modulo 2^32 |
| UserQueries.PageAt | src/FrontierCRM.Application/Features/Users/Queries/GetUsers/GetUsersQueryHandler.cs:53-56 | at most `PageSize` users, none for a non-positive size, in table order |
| UserQueries.OffsetAsWrittenAgrees | src/FrontierCRM.Application/Features/Users/Queries/GetUsers/GetUsersQueryHandler.cs:54 | without overflow the offset as written is the exact one |
| UserQueries.OffsetAsWrittenWraps | src/FrontierCRM.Application/Features/Users/Queries/GetUsers/GetUsersQueryHandler.cs:54 | page 0x40000001 of size 4 wraps to offset 0 and returns the first page instead of nothing |
| UserQueries.PageIsSlice | src/FrontierCRM.Application/Features/Users/Queries/GetUsers/GetUsersQueryHandler.cs:53-56 | the page is the slice from `(PageNumber-1)*PageSize`, `PageSize` long, cut at the end |
| UserQueries.PageBeforeFirst | src/FrontierCRM.Application/Features/Users/Queries/GetUsers/GetUsersQueryHandler.cs:53-56 | a page number below 1 gives the first `PageSize` users |
| UserQueries.PagesAreDisjoint | src/FrontierCRM.Application/Features/Users/Queries/GetUsers/GetUsersQueryHandler.cs:54-55 | a later page starts where an earlier one ended |
| UserQueries.GetUsersNeedsTenant | src/FrontierCRM.Application/Features/Users/Queries/GetUsers/GetUsersQueryHandler.cs:31 | without a tenant context the query throws |
| UserQueries.GetUsers | src/FrontierCRM.Application/Features/Users/Queries/GetUsers/GetUsersQueryHandler.cs:28-59 | without a tenant it fails; otherwise the page of the filtered users: the slice from the exact offset, the first `PageSize` for a page number below 1, nothing for a non-positive size |
| UserQueries.GetUsersResult | src/FrontierCRM.Application/Features/Users/Queries/GetUsers/GetUsersQueryHandler.cs:28-59 | every user returned is of the tenant, matches the search and the activity when given; at most `PageSize`; in table order |
| UserQueries.DefaultQueryFirstPage | src/FrontierCRM.Application/Features/Users/Queries/GetUsers/GetUsersQuery.cs:11-14 | the default query returns all of a tenant's users when there are at most 25 |

## Left out

- Async, `CancellationToken` and concurrency between requests are not modelled. Each
  request sees one snapshot of the tables.
- Reflection (`GetProperty(...)?.SetValue`) is modelled as direct field writes. Whether an entity
  has `TenantId`, `CreatedAt` or `UpdatedAt` is a predicate on the row kind.
- `Guid.TryParse` formats are not modelled. The header arrives already classified as absent,
  unparsable or a parsed id.
- `Guid` values are natural numbers, and `GetHashCode` of a `Guid` is a 32-bit function of the
  number, not .NET's mixing of its parts.
- FluentValidation's `EmailAddress()` and `Uri.TryCreate` with its scheme check are inputs of
  the model (`emailFormatOk`, `isAbsoluteHttpUrl`). They are not reimplemented.
- Two parts of .NET regex semantics are not modelled: `\d` matching non-ASCII digits, and `$`
  matching before a final newline. The patterns are modelled over ASCII only.
- `ToLower` is ASCII lower-casing and white space is ASCII white space, with no culture rules.
- The `ValidationBehavior` and `LoggingBehavior` registered before `PerformanceBehavior`
  (src/FrontierCRM.Application/DependencyInjection.cs:35-37) are not part of this model. Their
  source is not available.
- `RolePermission` is not part of this model. No core operation creates one.
- Tracked objects are snapshots taken at `Add`. Later writes to the C# object after `Add` are not
  seen through aliasing.
- The order of rows is taken as table order. `GetUsers` applies `Skip`/`Take` with no
  `OrderBy` (src/FrontierCRM.Application/Features/Users/Queries/GetUsers/GetUsersQueryHandler.cs:53-56),
  so the database fixes none; "in table order" in UserQueries.PageAt, PagesAreDisjoint and
  GetUsersResult holds for the model's order only.
- EF's translation to SQL is not modelled. `Skip`/`Take` have LINQ-to-objects semantics, where a
  negative count means zero.
- The `Include`/`ThenInclude` of roles and the mapping to `UserDto` in `GetUsers` are not
  modelled. The result is the user records.
- The two-argument `new UserRole(user.Id, role.Id)` at
  src/FrontierCRM.Application/Features/Users/Commands/CreateUser/CreateUserCommandHandler.cs:80
  has no matching constructor in src/FrontierCRM.Domain/Entities/UserRole.cs:27. It is modelled
  as a link from the user to the role, whose tenant and assigner stay `Guid.Empty` until the save
  stamps the tenant.
- DomainUser.User.Rename is a step split out of `UpdateProfile`. It has no counterpart method in
  the source.
- Persistence.ApplicationDbContext.SetTenantIds and SetAuditFields are the two loops of
  `SaveChangesAsync`, written as separate methods.
- TenantCommands.CreateTenantCommandHandler.CreateAndSave and BuildTenant, and the user handler's
  CreateAndSave, BuildUser, AddUserAndLinks and SaveCreated, are the handlers' steps split into
  methods.
- A failing `Database.BeginTransactionAsync`, `CommitAsync` or `RollbackAsync` is an input
  (`beginFails`, `commitFails`, `rollbackFails`). Its cause is not modelled, and a failed rollback
  leaves the rows as the save left them.
- The stopwatch, the clock and the logger's message templates are left out. A log entry records
  its level, the request name and the elapsed milliseconds.
- Value-object equality of `TenantSettings`/`UserPreferences` is datatype equality. The custom
  JSON documents are kept as text.
- Exceptions thrown by the database provider during the tenant middleware's queries are one
  input (`Fault`). Which query threw matters only as "before" or "after" the `TenantId` item is
  written.
- UserQueries.GetUsers uses the exact offset `(PageNumber-1)*PageSize`. The 32-bit wrap of the
  code as written is kept apart in UserQueries.OffsetAsWritten (see Findings).
- The user handler's duplicate and role queries read through the corrected tenant filter
  Rows.ScopedRows. UserQueries.GetUsers applies its own `TenantId` predicate to the `Users`
  records, and the tenant handler and the middleware read `Tenants`, which is not
  tenant-scoped. The handlers' explicit `TenantId` predicates give the same results through
  either filter (UserCommands.EmailInUseThroughFilter, UserCommands.ScopedRolesAreMatchingRoles).
  The filter as written is kept apart in Rows.VisibleAsWritten (see Findings).

## Findings

| source | as written | input that shows it | evidently intended | confidence | as-written member | corrected member |
|---|---|---|---|---|---|---|
| src/FrontierCRM.Infrastructure/Data/ApplicationDbContext.cs:91 | the global query filter compares each row's `TenantId` with itself, so it holds for every row and does not narrow reads | current tenant 1, a `Users` row of tenant 2: the row is returned | a row of a tenant-scoped table is visible only when its `TenantId` is the current tenant's | not executed | Rows.FilterAsWrittenLeaks | Rows.ScopedRowsIsolate |
| src/FrontierCRM.Application/Features/Users/Queries/GetUsers/GetUsersQueryHandler.cs:54 | `(PageNumber - 1) * PageSize` is unchecked 32-bit `int` arithmetic and wraps | `PageNumber` 0x40000001, `PageSize` 4: the offset 2^32 wraps to 0, so the first page comes back instead of an empty one | the page starts at the exact offset, so pages far past the end are empty | not executed | UserQueries.OffsetAsWrittenWraps | UserQueries.PageIsSlice |
