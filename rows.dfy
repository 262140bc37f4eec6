/** What the change tracker and the database hold: rows of the four mapped entity types, the
    tracker's entries, the stamping `SaveChangesAsync` applies, what the base save writes, and the
    global tenant query filter. */
module Rows {
  import opened Wrappers
  import opened Common
  import opened Sequences
  import opened DomainEntity
  import opened DomainTenant
  import opened DomainUser
  import opened DomainRole

  /** One row of the `Tenants`, `Users`, `Roles` or `UserRoles` table. */
  datatype Row =
    | TenantRow(tenant: TenantState)
    | UserRow(user: UserState)
    | RoleRow(role: RoleState)
    | UserRoleRow(link: UserRoleState)
  {
    function Kind(): EntityType {
      match this
      case TenantRow(_) => TenantType
      case UserRow(_) => UserType
      case RoleRow(_) => RoleType
      case UserRoleRow(_) => UserRoleType
    }

    function Id(): Guid {
      match this
      case TenantRow(t) => t.id
      case UserRow(u) => u.id
      case RoleRow(r) => r.id
      case UserRoleRow(l) => l.id
    }

    /** Implements `ITenantScoped`: every entity but `Tenant`. */
    predicate IsTenantScoped() {
      !TenantRow?
    }

    function TenantId(): Guid
      requires IsTenantScoped()
    {
      match this
      case UserRow(u) => u.tenantId
      case RoleRow(r) => r.tenantId
      case UserRoleRow(l) => l.tenantId
    }

    /** Has `CreatedAt` and `UpdatedAt` properties: `UserRole` has neither (only `AssignedAt`). */
    predicate HasAuditFields() {
      !UserRoleRow?
    }

    function CreatedAt(): Time
      requires HasAuditFields()
    {
      match this
      case TenantRow(t) => t.createdAt
      case UserRow(u) => u.createdAt
      case RoleRow(r) => r.createdAt
    }

    function UpdatedAt(): Option<Time>
      requires HasAuditFields()
    {
      match this
      case TenantRow(t) => t.updatedAt
      case UserRow(u) => u.updatedAt
      case RoleRow(r) => r.updatedAt
    }

    /** `SetValue` on the `TenantId` property: only that property changes. */
    function WithTenantId(tenantId: Guid): (r: Row)
      requires IsTenantScoped()
      ensures r.IsTenantScoped() && r.TenantId() == tenantId
      ensures r.Kind() == Kind() && r.Id() == Id() && r.HasAuditFields() == HasAuditFields()
      ensures HasAuditFields() ==> r.CreatedAt() == CreatedAt() && r.UpdatedAt() == UpdatedAt()
    {
      match this
      case UserRow(u) => UserRow(u.(tenantId := tenantId))
      case RoleRow(x) => RoleRow(x.(tenantId := tenantId))
      case UserRoleRow(l) => UserRoleRow(l.(tenantId := tenantId))
    }

    /** `SetValue` on the `CreatedAt` property: only that property changes. */
    function WithCreatedAt(now: Time): (r: Row)
      requires HasAuditFields()
      ensures r.HasAuditFields() && r.CreatedAt() == now && r.UpdatedAt() == UpdatedAt()
      ensures r.Kind() == Kind() && r.Id() == Id() && r.IsTenantScoped() == IsTenantScoped()
      ensures IsTenantScoped() ==> r.TenantId() == TenantId()
    {
      match this
      case TenantRow(t) => TenantRow(t.(createdAt := now))
      case UserRow(u) => UserRow(u.(createdAt := now))
      case RoleRow(x) => RoleRow(x.(createdAt := now))
    }

    /** `SetValue` on the `UpdatedAt` property: only that property changes. */
    function WithUpdatedAt(now: Time): (r: Row)
      requires HasAuditFields()
      ensures r.HasAuditFields() && r.UpdatedAt() == Some(now) && r.CreatedAt() == CreatedAt()
      ensures r.Kind() == Kind() && r.Id() == Id() && r.IsTenantScoped() == IsTenantScoped()
      ensures IsTenantScoped() ==> r.TenantId() == TenantId()
    {
      match this
      case TenantRow(t) => TenantRow(t.(updatedAt := Some(now)))
      case UserRow(u) => UserRow(u.(updatedAt := Some(now)))
      case RoleRow(x) => RoleRow(x.(updatedAt := Some(now)))
    }
  }

  /** EF Core's `EntityState`. */
  datatype EntityState = Detached | Unchanged | Deleted | Modified | Added

  /** A change-tracker entry: the entity's state and its current property values. */
  datatype Entry = Entry(state: EntityState, row: Row)

  // ---------------------------------------------------------------- stamping (SaveChangesAsync)

  predicate IsAddedScoped(e: Entry) {
    e.state == Added && e.row.IsTenantScoped()
  }

  predicate HasAddedScoped(entries: seq<Entry>) {
    exists i :: 0 <= i < |entries| && IsAddedScoped(entries[i])
  }

  /** The first loop, on one entry: an Added tenant-scoped entity gets the provider's tenant,
      whatever its constructor set; every other entry is left alone. */
  function TenantStamped(e: Entry, tenantId: Guid): (r: Entry)
    ensures r.state == e.state && r.row.Kind() == e.row.Kind() && r.row.Id() == e.row.Id()
    ensures IsAddedScoped(e) ==> r.row.TenantId() == tenantId
    ensures !IsAddedScoped(e) ==> r == e
    ensures r.row.HasAuditFields() == e.row.HasAuditFields()
    ensures e.row.HasAuditFields() ==> r.row.CreatedAt() == e.row.CreatedAt() && r.row.UpdatedAt() == e.row.UpdatedAt()
  {
    if IsAddedScoped(e) then e.(row := e.row.WithTenantId(tenantId)) else e
  }

  /** The second loop, on one entry: Added entities get `CreatedAt = now`, Modified ones
      `UpdatedAt = now`; entities without the property, and entries in other states, are left alone. */
  function AuditStamped(e: Entry, now: Time): (r: Entry)
    ensures r.state == e.state && r.row.Kind() == e.row.Kind() && r.row.Id() == e.row.Id()
    ensures r.row.IsTenantScoped() == e.row.IsTenantScoped()
    ensures e.row.IsTenantScoped() ==> r.row.TenantId() == e.row.TenantId()
    ensures r.row.HasAuditFields() == e.row.HasAuditFields()
    ensures e.state == Added && e.row.HasAuditFields() ==>
              r.row.CreatedAt() == now && r.row.UpdatedAt() == e.row.UpdatedAt()
    ensures e.state == Modified && e.row.HasAuditFields() ==>
              r.row.UpdatedAt() == Some(now) && r.row.CreatedAt() == e.row.CreatedAt()
    ensures (e.state != Added && e.state != Modified) || !e.row.HasAuditFields() ==> r == e
  {
    if !e.row.HasAuditFields() then e
    else if e.state == Added then e.(row := e.row.WithCreatedAt(now))
    else if e.state == Modified then e.(row := e.row.WithUpdatedAt(now))
    else e
  }

  function StampTenant(entries: seq<Entry>, tenantId: Guid): (r: seq<Entry>)
    ensures |r| == |entries|
    ensures forall i :: 0 <= i < |entries| ==> r[i] == TenantStamped(entries[i], tenantId)
  {
    seq(|entries|, i requires 0 <= i < |entries| => TenantStamped(entries[i], tenantId))
  }

  function StampAudit(entries: seq<Entry>, now: Time): (r: seq<Entry>)
    ensures |r| == |entries|
    ensures forall i :: 0 <= i < |entries| ==> r[i] == AuditStamped(entries[i], now)
  {
    seq(|entries|, i requires 0 <= i < |entries| => AuditStamped(entries[i], now))
  }

  /** Without an Added tenant-scoped entry the provider's tenant is never asked for and is irrelevant. */
  lemma StampTenantWithoutAdded(entries: seq<Entry>, t1: Guid, t2: Guid)
    requires !HasAddedScoped(entries)
    ensures StampTenant(entries, t1) == entries == StampTenant(entries, t2)
  {
  }

  /** Both loops together: Added tenant-scoped rows carry the tenant, entries not Added keep
      their `TenantId`, Added rows get `CreatedAt` and Modified rows `UpdatedAt` but never
      `CreatedAt`. */
  lemma StampingProperties(entries: seq<Entry>, tenantId: Guid, now: Time, i: nat)
    requires i < |entries|
    ensures var s := StampAudit(StampTenant(entries, tenantId), now)[i];
      && s.state == entries[i].state && s.row.Id() == entries[i].row.Id() && s.row.Kind() == entries[i].row.Kind()
      && (IsAddedScoped(entries[i]) ==> s.row.TenantId() == tenantId)
      && (entries[i].state != Added && entries[i].row.IsTenantScoped() ==> s.row.TenantId() == entries[i].row.TenantId())
      && (entries[i].state == Added && entries[i].row.HasAuditFields() ==> s.row.CreatedAt() == now)
      && (entries[i].state == Modified && entries[i].row.HasAuditFields() ==>
            s.row.UpdatedAt() == Some(now) && s.row.CreatedAt() == entries[i].row.CreatedAt())
  {
  }

  // ---------------------------------------------------------------- base.SaveChangesAsync

  /** Rows of the same table with the same key. */
  predicate SameKey(a: Row, b: Row) {
    a.Kind() == b.Kind() && a.Id() == b.Id()
  }

  /** An UPDATE: every row with that key takes the new values. */
  function Replace(rows: seq<Row>, row: Row): (r: seq<Row>)
    ensures |r| == |rows|
    ensures forall i :: 0 <= i < |rows| ==> r[i] == if SameKey(rows[i], row) then row else rows[i]
  {
    seq(|rows|, i requires 0 <= i < |rows| => if SameKey(rows[i], row) then row else rows[i])
  }

  /** A DELETE: the rows with that key go. */
  function Remove(rows: seq<Row>, row: Row): (r: seq<Row>)
    ensures forall x :: x in r ==> x in rows && !SameKey(x, row)
    ensures forall x :: x in rows && !SameKey(x, row) ==> x in r
  {
    Filter((x: Row) => !SameKey(x, row), rows)
  }

  /** The command one entry sends to the database. */
  function Apply(rows: seq<Row>, e: Entry): seq<Row> {
    match e.state
    case Added => rows + [e.row]
    case Modified => Replace(rows, e.row)
    case Deleted => Remove(rows, e.row)
    case _ => rows
  }

  /** The base save: the entries' commands, in tracker order. Every row afterwards was in the
      table or is a tracked entity's row. */
  function Persist(rows: seq<Row>, entries: seq<Entry>): (r: seq<Row>)
    ensures forall x :: x in r ==> x in rows || exists i :: 0 <= i < |entries| && entries[i].row == x
    decreases |entries|
  {
    if entries == [] then rows
    else
      var applied := Apply(rows, entries[0]);
      assert forall x :: x in applied ==> x in rows || x == entries[0].row;
      var r := Persist(applied, entries[1..]);
      assert forall i :: 1 <= i < |entries| ==> entries[i] == entries[1..][i - 1];
      r
  }

  predicate IsPending(e: Entry) {
    e.state == Added || e.state == Modified || e.state == Deleted
  }

  /** The number of state entries written, which `SaveChangesAsync` returns. */
  function PendingCount(entries: seq<Entry>): (n: nat)
    ensures n <= |entries|
    ensures n == 0 <==> forall i :: 0 <= i < |entries| ==> !IsPending(entries[i])
  {
    if entries == [] then 0
    else
      var rest := PendingCount(entries[1..]);
      assert forall i :: 1 <= i < |entries| ==> entries[i] == entries[1..][i - 1];
      (if IsPending(entries[0]) then 1 else 0) + rest
  }

  /** `AcceptAllChanges`: saved entries become Unchanged and deleted ones stop being tracked. */
  function Accepted(e: Entry): (r: Entry)
    ensures r.row == e.row && !IsPending(r)
    ensures e.state == Deleted || e.state == Detached <==> r.state == Detached
  {
    if e.state == Deleted || e.state == Detached then e.(state := Detached) else e.(state := Unchanged)
  }

  function AcceptAll(entries: seq<Entry>): (r: seq<Entry>)
    ensures |r| == |entries|
    ensures forall i :: 0 <= i < |entries| ==> r[i] == Accepted(entries[i])
  {
    seq(|entries|, i requires 0 <= i < |entries| => Accepted(entries[i]))
  }

  /** After the changes are accepted nothing is left to save. */
  lemma AcceptedHasNothingPending(entries: seq<Entry>)
    ensures PendingCount(AcceptAll(entries)) == 0
  {
  }

  /** Saving accepted entries again writes nothing. */
  lemma {:induction false} PersistNothingPending(rows: seq<Row>, entries: seq<Entry>)
    requires forall i :: 0 <= i < |entries| ==> !IsPending(entries[i])
    ensures Persist(rows, entries) == rows
    decreases |entries|
  {
    if entries != [] {
      PersistNothingPending(rows, entries[1..]);
    }
  }

  predicate AllAdded(entries: seq<Entry>) {
    forall i :: 0 <= i < |entries| ==> entries[i].state == Added
  }

  function RowsOf(entries: seq<Entry>): (r: seq<Row>)
    ensures |r| == |entries| && forall i :: 0 <= i < |entries| ==> r[i] == entries[i].row
  {
    seq(|entries|, i requires 0 <= i < |entries| => entries[i].row)
  }

  /** Saving only additions appends their rows, in order, and keeps every existing row. */
  lemma {:induction false} PersistAllAdded(rows: seq<Row>, entries: seq<Entry>)
    requires AllAdded(entries)
    ensures Persist(rows, entries) == rows + RowsOf(entries)
    decreases |entries|
  {
    if entries != [] {
      PersistAllAdded(rows + [entries[0].row], entries[1..]);
      assert RowsOf(entries) == [entries[0].row] + RowsOf(entries[1..]);
    }
  }

  /** A row no update or delete names survives the save. */
  lemma {:induction false} PersistKeepsUntouched(rows: seq<Row>, entries: seq<Entry>, x: Row)
    requires x in rows
    requires forall i :: 0 <= i < |entries| && (entries[i].state == Modified || entries[i].state == Deleted) ==>
               !SameKey(x, entries[i].row)
    ensures x in Persist(rows, entries)
    decreases |entries|
  {
    if entries != [] {
      var next := Apply(rows, entries[0]);
      if entries[0].state == Modified {
        var k :| 0 <= k < |rows| && rows[k] == x;
        assert next[k] == x;
      }
      assert x in next;
      PersistKeepsUntouched(next, entries[1..], x);
    }
  }

  /** Every tenant-scoped row a save of additions inserts carries the tenant it was stamped with. */
  lemma InsertedRowsCarryTenant(rows: seq<Row>, entries: seq<Entry>, tenantId: Guid, now: Time)
    requires AllAdded(entries)
    ensures var after := Persist(rows, StampAudit(StampTenant(entries, tenantId), now));
      |after| == |rows| + |entries| && after[..|rows|] == rows &&
      forall i :: |rows| <= i < |after| && after[i].IsTenantScoped() ==> after[i].TenantId() == tenantId
  {
    var stamped := StampAudit(StampTenant(entries, tenantId), now);
    PersistAllAdded(rows, stamped);
  }

  // ---------------------------------------------------------------- the global query filter

  /** The filter as written: `TenantId(e) == TenantId(e)`, a comparison of a row with itself. */
  predicate TenantFilterAsWritten(r: Row) {
    r.IsTenantScoped() ==> r.TenantId() == r.TenantId()
  }

  /** What a query of a tenant-scoped set returns under the filter as written. */
  function VisibleAsWritten(rows: seq<Row>): (r: seq<Row>)
    ensures forall x :: x in r ==> x in rows
  {
    Filter(TenantFilterAsWritten, rows)
  }

  /** The filter as written admits every row, and so rows of every tenant: with the current
      tenant 1 and a user row of tenant 2 in the table, the query returns that row. */
  lemma {:induction false} FilterAsWrittenAdmitsEverything(rows: seq<Row>, current: Guid)
    ensures VisibleAsWritten(rows) == rows
    decreases |rows|
  {
    if rows != [] {
      FilterAsWrittenAdmitsEverything(rows[1..], current);
    }
  }

  lemma FilterAsWrittenLeaks(u: UserState)
    requires u.tenantId == 2
    ensures var visible := VisibleAsWritten([UserRow(u)]);
      exists x :: x in visible && x.IsTenantScoped() && x.TenantId() != 1
  {
    FilterAsWrittenAdmitsEverything([UserRow(u)], 1);
    assert UserRow(u) in VisibleAsWritten([UserRow(u)]);
  }

  /** The evidently intended filter: a tenant-scoped row is visible only to its own tenant. */
  predicate TenantFilter(r: Row, current: Guid) {
    r.IsTenantScoped() ==> r.TenantId() == current
  }

  /** A query under the intended filter: exactly the rows of the current tenant (and the tenant
      table, which is not tenant-scoped), in table order. */
  function ScopedRows(rows: seq<Row>, current: Guid): (r: seq<Row>)
    ensures forall x :: x in r ==> x in rows && (x.IsTenantScoped() ==> x.TenantId() == current)
    ensures forall x :: x in rows && (x.IsTenantScoped() ==> x.TenantId() == current) ==> x in r
  {
    Filter((x: Row) => TenantFilter(x, current), rows)
  }

  /** Under the intended filter, another tenant's rows are never visible. */
  lemma ScopedRowsIsolate(rows: seq<Row>, current: Guid, x: Row)
    requires x in rows && x.IsTenantScoped() && x.TenantId() != current
    ensures x !in ScopedRows(rows, current)
  {
  }
}
