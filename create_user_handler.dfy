/** `CreateUserCommandHandler`: creates a user in the current tenant, refusing an e-mail the
    tenant already uses, and links the requested roles that belong to the tenant. */
module UserCommands {
  import opened Wrappers
  import opened Common
  import opened DomainUser
  import opened DomainRole
  import opened Rows
  import opened Persistence
  import opened UserValidation

  /** A user of tenant `tenantId` already has this e-mail. */
  predicate EmailInUse(rows: seq<Row>, tenantId: Guid, email: string) {
    exists i :: 0 <= i < |rows| && rows[i].UserRow? && rows[i].user.tenantId == tenantId && rows[i].user.email == email
  }

  /** `Users.FirstOrDefaultAsync(u => u.TenantId == tenantId && u.Email == email)`. */
  function FindByEmail(rows: seq<Row>, tenantId: Guid, email: string): (r: Option<UserState>)
    ensures r.Some? <==> EmailInUse(rows, tenantId, email)
    ensures r.Some? ==> UserRow(r.value) in rows && r.value.tenantId == tenantId && r.value.email == email
  {
    if rows == [] then None
    else if rows[0].UserRow? && rows[0].user.tenantId == tenantId && rows[0].user.email == email then Some(rows[0].user)
    else
      var r := FindByEmail(rows[1..], tenantId, email);
      assert forall i :: 1 <= i < |rows| ==> rows[i] == rows[1..][i - 1];
      r
  }

  /** Reading through the tenant filter finds the same duplicates as reading the whole table. */
  lemma EmailInUseThroughFilter(rows: seq<Row>, tenantId: Guid, email: string)
    ensures EmailInUse(ScopedRows(rows, tenantId), tenantId, email) <==> EmailInUse(rows, tenantId, email)
  {
    var visible := ScopedRows(rows, tenantId);
    if EmailInUse(rows, tenantId, email) {
      var i :| 0 <= i < |rows| && rows[i].UserRow? && rows[i].user.tenantId == tenantId && rows[i].user.email == email;
      assert rows[i] in visible;
      var j :| 0 <= j < |visible| && visible[j] == rows[i];
    }
    if EmailInUse(visible, tenantId, email) {
      var j :| 0 <= j < |visible| && visible[j].UserRow? && visible[j].user.tenantId == tenantId && visible[j].user.email == email;
      assert visible[j] in rows;
      var i :| 0 <= i < |rows| && rows[i] == visible[j];
    }
  }

  predicate IsRequestedRole(r: Row, tenantId: Guid, roleIds: seq<Guid>) {
    r.RoleRow? && r.role.tenantId == tenantId && r.role.id in roleIds
  }

  /** `Roles.Where(r => r.TenantId == tenantId && roleIds.Contains(r.Id))`: in table order. */
  function MatchingRoles(rows: seq<Row>, tenantId: Guid, roleIds: seq<Guid>): (r: seq<RoleState>)
    ensures forall k :: 0 <= k < |r| ==> RoleRow(r[k]) in rows && r[k].tenantId == tenantId && r[k].id in roleIds
    ensures forall x :: RoleRow(x) in rows && x.tenantId == tenantId && x.id in roleIds ==> x in r
  {
    if rows == [] then []
    else
      var rest := MatchingRoles(rows[1..], tenantId, roleIds);
      assert forall x :: x in rows[1..] ==> x in rows;
      assert forall x :: x in rows && x != rows[0] ==> x in rows[1..];
      if IsRequestedRole(rows[0], tenantId, roleIds) then [rows[0].role] + rest else rest
  }

  /** The user the handler builds: tenant, e-mail and names through the constructor (which
      derives the display name), the optional fields and preferences from the request. */
  function NewUserState(id: Guid, now: Time, tenantId: Guid, request: CreateUserCommand, preferences: UserPreferences): (u: UserState)
    ensures u.id == id && u.tenantId == tenantId && u.email == request.email
    ensures u.firstName == request.firstName && u.lastName == request.lastName
    ensures u.displayName == DisplayNameOf(request.firstName, request.lastName)
    ensures u.phone == request.phone && u.jobTitle == request.jobTitle && u.department == request.department
    ensures u.preferences == preferences && u.createdAt == now
    ensures u.isActive && !u.isEmailVerified && u.updatedAt == None && u.lastLoginAt == None
  {
    UserState(id, tenantId, request.email, request.firstName, request.lastName,
              DisplayNameOf(request.firstName, request.lastName), request.phone, request.jobTitle,
              request.department, preferences, now, None, None, true, false)
  }

  function LinkEntries(links: seq<UserRoleState>): (r: seq<Entry>)
    ensures |r| == |links| && forall k :: 0 <= k < |links| ==> r[k] == Entry(Added, UserRoleRow(links[k]))
  {
    seq(|links|, k requires 0 <= k < |links| => Entry(Added, UserRoleRow(links[k])))
  }

  /** No tenant has two users with the same e-mail (the (TenantId, Email) unique index). */
  predicate UniqueEmails(rows: seq<Row>) {
    forall i, j ::
      (0 <= i < |rows| && 0 <= j < |rows| && rows[i].UserRow? && rows[j].UserRow? &&
       rows[i].user.tenantId == rows[j].user.tenantId && rows[i].user.email == rows[j].user.email) ==> i == j
  }

  /** Adding a user whose e-mail passed the handler's check, and role links, keeps e-mails unique. */
  lemma AddKeepsEmailsUnique(rows: seq<Row>, u: UserState, linkRows: seq<Row>)
    requires UniqueEmails(rows) && !EmailInUse(rows, u.tenantId, u.email)
    requires forall k :: 0 <= k < |linkRows| ==> linkRows[k].UserRoleRow?
    ensures UniqueEmails(rows + [UserRow(u)] + linkRows)
  {
    var after := rows + [UserRow(u)] + linkRows;
    forall i, j | 0 <= i < |after| && 0 <= j < |after| && after[i].UserRow? && after[j].UserRow? &&
                  after[i].user.tenantId == after[j].user.tenantId && after[i].user.email == after[j].user.email
      ensures i == j
    {
    }
  }

  /** Saving the new user and its links alone appends the user unchanged and the links stamped
      with the tenant. */
  lemma SaveNewUser(rows: seq<Row>, u: UserState, links: seq<UserRoleState>, tenantId: Guid, now: Time)
    requires u.tenantId == tenantId && u.createdAt == now
    ensures var s := SaveSpec([Entry(Added, UserRow(u))] + LinkEntries(links), rows, Success(tenantId), now, false);
      && s.result == Success(1 + |links|)
      && |s.rows| == |rows| + 1 + |links| && s.rows[..|rows|] == rows && s.rows[|rows|] == UserRow(u)
      && forall k :: |rows| < k < |s.rows| ==> s.rows[k].UserRoleRow? && s.rows[k].TenantId() == tenantId
  {
    var entries := [Entry(Added, UserRow(u))] + LinkEntries(links);
    assert AllAdded(entries);
    var stamped := StampAudit(StampTenant(entries, tenantId), now);
    assert stamped[0] == entries[0];
    assert forall k :: 1 <= k < |entries| ==> entries[k].row.UserRoleRow?;
    SaveOfAdditions(entries, rows, tenantId, now);
    PersistAllAdded(rows, stamped);
  }

  /** The handler gets past its checks: a tenant context, an e-mail free in that tenant, preferences. */
  predicate Proceeds(tenant: Result<Guid, Error>, rows: seq<Row>, request: CreateUserCommand) {
    tenant.Success? && !EmailInUse(rows, tenant.value, request.email) && request.preferences.Some?
  }

  /** The roles the handler links: none, without a query, when no id was requested. */
  function RequestedRoles(rows: seq<Row>, tenantId: Guid, roleIds: seq<Guid>): seq<RoleState> {
    if roleIds == [] then [] else MatchingRoles(rows, tenantId, roleIds)
  }

  /** One link per role, in order, from the user to the role, not yet stamped with a tenant. */
  predicate LinksFor(links: seq<UserRoleState>, userId: Guid, roles: seq<RoleState>) {
    |links| == |roles| &&
    forall k :: 0 <= k < |links| ==> links[k].userId == userId && links[k].roleId == roles[k].id && links[k].tenantId == EmptyGuid
  }

  /** The success case of the handler with nothing else tracked: the user row lands unchanged,
      every new row carries the tenant, and e-mails stay unique. */
  lemma NewUserSaved(tracked: seq<Entry>, rows: seq<Row>, u: UserState, links: seq<UserRoleState>,
                     tenantId: Guid, now: Time, saveFails: bool)
    requires tracked == [] && u.tenantId == tenantId && u.createdAt == now && !EmailInUse(rows, tenantId, u.email)
    requires SaveSpec(tracked + [Entry(Added, UserRow(u))] + LinkEntries(links), rows, Success(tenantId), now, saveFails).result.Success?
    ensures var after := SaveSpec(tracked + [Entry(Added, UserRow(u))] + LinkEntries(links), rows, Success(tenantId), now, saveFails).rows;
      && |after| == |rows| + 1 + |links| && after[..|rows|] == rows
      && after[|rows|] == UserRow(u)
      && (forall k :: |rows| <= k < |after| ==> after[k].IsTenantScoped() && after[k].TenantId() == tenantId)
      && (UniqueEmails(rows) ==> UniqueEmails(after))
  {
    var entries := tracked + [Entry(Added, UserRow(u))] + LinkEntries(links);
    assert entries == [Entry(Added, UserRow(u))] + LinkEntries(links);
    assert !saveFails;
    SaveNewUser(rows, u, links, tenantId, now);
    var after := SaveSpec(entries, rows, Success(tenantId), now, saveFails).rows;
    if UniqueEmails(rows) {
      assert after == rows + [UserRow(u)] + after[|rows| + 1..];
      AddKeepsEmailsUnique(rows, u, after[|rows| + 1..]);
    }
  }

  class CreateUserCommandHandler {
    const context: ApplicationDbContext

    constructor (context: ApplicationDbContext)
      ensures this.context == context
    {
      this.context := context;
    }

    /** `Handle`. No tenant context throws from the duplicate query; an e-mail used in the
        current tenant throws before anything is added. Otherwise the user is added, then one
        link per role of the current tenant whose id was requested (none, and no role query,
        when no id was), all saved at once, and the user's id returned. */
    method Handle(request: CreateUserCommand, ids: GuidSource, now: Time, saveFails: bool)
      returns (r: Result<Guid, Error>, ghost created: UserState, ghost links: seq<UserRoleState>)
      requires ids.Valid()
      modifies context`tracker, context`rows, context.tenantProvider`cachedTenantId, ids
      ensures ids.Valid()
      ensures old(context.tenantProvider.Current()).Failure? ==>
                r == Failure(NoTenantContext) && context.rows == old(context.rows) && context.tracker == old(context.tracker)
      ensures old(context.tenantProvider.Current()).Success? &&
              EmailInUse(old(context.rows), old(context.tenantProvider.Current()).value, request.email) ==>
                r == Failure(EmailTaken) && context.rows == old(context.rows) && context.tracker == old(context.tracker)
      ensures old(context.tenantProvider.Current()).Success? &&
              !EmailInUse(old(context.rows), old(context.tenantProvider.Current()).value, request.email) &&
              request.preferences.None? ==>
                r == Failure(NullReference) && context.rows == old(context.rows) && context.tracker == old(context.tracker)
      ensures Proceeds(old(context.tenantProvider.Current()), old(context.rows), request) ==>
                && created == NewUserState(created.id, now, old(context.tenantProvider.Current()).value, request, request.preferences.value)
                && created.id != EmptyGuid && created.id !in old(ids.issued)
      ensures Proceeds(old(context.tenantProvider.Current()), old(context.rows), request) ==>
                LinksFor(links, created.id, RequestedRoles(old(context.rows), old(context.tenantProvider.Current()).value, request.roleIds))
      ensures Proceeds(old(context.tenantProvider.Current()), old(context.rows), request) ==>
                var s := SaveSpec(old(context.tracker[..]) + [Entry(Added, UserRow(created))] + LinkEntries(links),
                                  old(context.rows), old(context.tenantProvider.Current()), now, saveFails);
                r == (if s.result.Success? then Success(created.id) else Failure(s.result.error)) &&
                context.rows == s.rows && context.tracker[..] == s.entries
      ensures old(context.tracker[..]) == [] && r.Success? ==>
                var before := old(context.rows);
                && |context.rows| == |before| + 1 + |links| && context.rows[..|before|] == before
                && context.rows[|before|] == UserRow(created)
                && (forall k :: |before| <= k < |context.rows| ==>
                      context.rows[k].IsTenantScoped() && context.rows[k].TenantId() == old(context.tenantProvider.Current()).value)
                && (UniqueEmails(before) ==> UniqueEmails(context.rows))
    {
      created := NewUserState(EmptyGuid, now, EmptyGuid, request, DefaultPreferences);
      links := [];
      var current := context.tenantProvider.TenantId();
      if current.Failure? {
        return Failure(current.error), created, links;
      }
      var tenantId := current.value;
      EmailInUseThroughFilter(context.rows, tenantId, request.email);
      var existing := FindByEmail(ScopedRows(context.rows, tenantId), tenantId, request.email);
      if existing.Some? {
        return Failure(EmailTaken), created, links;
      }
      if request.preferences.None? {
        return Failure(NullReference), created, links;
      }
      r, created, links := CreateAndSave(request, tenantId, request.preferences.value, ids, now, saveFails);
    }

    /** The handler past its checks: builds the user, adds it and its links, saves once. */
    method CreateAndSave(request: CreateUserCommand, tenantId: Guid, preferences: UserPreferences,
                         ids: GuidSource, now: Time, saveFails: bool)
      returns (r: Result<Guid, Error>, ghost created: UserState, ghost links: seq<UserRoleState>)
      requires ids.Valid() && context.tenantProvider.Current() == Success(tenantId)
      requires !EmailInUse(context.rows, tenantId, request.email)
      modifies context`tracker, context`rows, context.tenantProvider`cachedTenantId, ids
      ensures ids.Valid()
      ensures created == NewUserState(created.id, now, tenantId, request, preferences)
      ensures created.id != EmptyGuid && created.id !in old(ids.issued)
      ensures LinksFor(links, created.id, RequestedRoles(old(context.rows), tenantId, request.roleIds))
      ensures var s := SaveSpec(old(context.tracker[..]) + [Entry(Added, UserRow(created))] + LinkEntries(links),
                                old(context.rows), Success(tenantId), now, saveFails);
                r == (if s.result.Success? then Success(created.id) else Failure(s.result.error)) &&
                context.rows == s.rows && context.tracker[..] == s.entries
      ensures old(context.tracker[..]) == [] && r.Success? ==>
                var before := old(context.rows);
                && |context.rows| == |before| + 1 + |links| && context.rows[..|before|] == before
                && context.rows[|before|] == UserRow(created)
                && (forall k :: |before| <= k < |context.rows| ==>
                      context.rows[k].IsTenantScoped() && context.rows[k].TenantId() == tenantId)
                && (UniqueEmails(before) ==> UniqueEmails(context.rows))
    {
      ghost var rowsBefore := context.rows;
      ghost var trackedBefore := context.tracker[..];
      var state := BuildUser(request, tenantId, preferences, ids, now);
      created := state;
      assert rowsBefore == old(context.rows) && trackedBefore == old(context.tracker[..]);
      var roles: seq<RoleState> := [];
      if request.roleIds != [] {
        roles := MatchingRoles(ScopedRows(context.rows, tenantId), tenantId, request.roleIds);
        ScopedRolesAreMatchingRoles(context.rows, tenantId, request.roleIds);
      }
      links := AddUserAndLinks(state, roles, ids, now);
      assert context.tenantProvider.Current() == Success(tenantId);
      r := SaveCreated(trackedBefore, created, links, state.id, tenantId, now, saveFails);
    }

    /** The single `SaveChangesAsync` of the handler, over the entries it has added. */
    method SaveCreated(ghost trackedBefore: seq<Entry>, ghost created: UserState, ghost links: seq<UserRoleState>,
                       userId: Guid, tenantId: Guid, now: Time, saveFails: bool)
      returns (r: Result<Guid, Error>)
      requires userId == created.id
      requires context.tenantProvider.Current() == Success(tenantId)
      requires created.tenantId == tenantId && created.createdAt == now && !EmailInUse(context.rows, tenantId, created.email)
      requires context.tracker[..] == trackedBefore + [Entry(Added, UserRow(created))] + LinkEntries(links)
      modifies context.tracker, context`rows, context.tenantProvider`cachedTenantId
      ensures var s := SaveSpec(old(context.tracker[..]), old(context.rows), Success(tenantId), now, saveFails);
                r == (if s.result.Success? then Success(created.id) else Failure(s.result.error)) &&
                context.rows == s.rows && context.tracker[..] == s.entries
      ensures trackedBefore == [] && r.Success? ==>
                var before := old(context.rows);
                && |context.rows| == |before| + 1 + |links| && context.rows[..|before|] == before
                && context.rows[|before|] == UserRow(created)
                && (forall k :: |before| <= k < |context.rows| ==>
                      context.rows[k].IsTenantScoped() && context.rows[k].TenantId() == tenantId)
                && (UniqueEmails(before) ==> UniqueEmails(context.rows))
    {
      ghost var rowsBefore := context.rows;
      var saved := context.SaveChanges(now, saveFails);
      if saved.Failure? {
        return Failure(saved.error);
      }
      r := Success(userId);
      if trackedBefore == [] {
        NewUserSaved(trackedBefore, rowsBefore, created, links, tenantId, now, saveFails);
      }
    }

    /** `new User(tenantId, email, firstName, lastName) { Phone, JobTitle, Department, Preferences }`. */
    method BuildUser(request: CreateUserCommand, tenantId: Guid, preferences: UserPreferences, ids: GuidSource, now: Time)
      returns (state: UserState)
      requires ids.Valid()
      modifies ids
      ensures ids.Valid() && ids.issued >= old(ids.issued)
      ensures state == NewUserState(state.id, now, tenantId, request, preferences)
      ensures state.id != EmptyGuid && state.id !in old(ids.issued)
    {
      var id := ids.NewGuid();
      var user := new User(id, now, tenantId, request.email, request.firstName, request.lastName);
      user.phone, user.jobTitle, user.department := request.phone, request.jobTitle, request.department;
      user.preferences := preferences;
      state := user.State();
    }

    /** `Users.Add(user)`, then `UserRoles.Add(new UserRole(user.Id, role.Id))` for each role in
        order: the links keep the default tenant until the save stamps it. */
    method AddUserAndLinks(user: UserState, roles: seq<RoleState>, ids: GuidSource, now: Time)
      returns (ghost links: seq<UserRoleState>)
      requires ids.Valid()
      modifies context`tracker, ids
      ensures ids.Valid() && ids.issued >= old(ids.issued) && fresh(context.tracker)
      ensures LinksFor(links, user.id, roles)
      ensures context.tracker[..] == old(context.tracker[..]) + [Entry(Added, UserRow(user))] + LinkEntries(links)
    {
      context.Add(UserRow(user));
      links := [];
      var i := 0;
      while i < |roles|
        invariant 0 <= i <= |roles| && |links| == i
        invariant ids.Valid() && ids.issued >= old(ids.issued) && fresh(context.tracker)
        invariant forall k :: 0 <= k < i ==>
                    links[k].userId == user.id && links[k].roleId == roles[k].id && links[k].tenantId == EmptyGuid
        invariant context.tracker[..] == old(context.tracker[..]) + [Entry(Added, UserRow(user))] + LinkEntries(links)
      {
        var linkId := ids.NewGuid();
        var link := NewUserRole(linkId, now, user.id, roles[i].id);
        context.Add(UserRoleRow(link));
        ghost var previous := links;
        links := links + [link];
        assert LinkEntries(links) == LinkEntries(previous) + [Entry(Added, UserRoleRow(link))];
        i := i + 1;
      }
    }
  }

  /** The role query through the tenant filter returns the same roles as over the whole table. */
  lemma {:induction false} ScopedRolesAreMatchingRoles(rows: seq<Row>, tenantId: Guid, roleIds: seq<Guid>)
    ensures MatchingRoles(ScopedRows(rows, tenantId), tenantId, roleIds) == MatchingRoles(rows, tenantId, roleIds)
    decreases |rows|
  {
    if rows != [] {
      ScopedRolesAreMatchingRoles(rows[1..], tenantId, roleIds);
    }
  }
}
