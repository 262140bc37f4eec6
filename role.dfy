/** The `Role` entity and the `UserRole` link between a user and a role. */
module DomainRole {
  import opened Wrappers
  import opened Common

  /** A snapshot of a role's fields: what the change tracker and the database hold. */
  datatype RoleState = RoleState(
    id: Guid, tenantId: Guid, name: string, description: Option<string>,
    isSystemRole: bool, createdAt: Time, updatedAt: Option<Time>)

  class Role {
    const id: Guid
    const tenantId: Guid            // init-only
    var name: string
    var description: Option<string>
    var isSystemRole: bool
    const createdAt: Time           // init-only
    var updatedAt: Option<Time>

    function State(): RoleState
      reads this
    {
      RoleState(id, tenantId, name, description, isSystemRole, createdAt, updatedAt)
    }

    /** `new Role(tenantId, name, description, isSystemRole)`; the source's defaults for the last
        two are `null` and `false`. */
    constructor (id: Guid, now: Time, tenantId: Guid, name: string,
                 description: Option<string> := None, isSystemRole: bool := false)
      ensures State() == RoleState(id, tenantId, name, description, isSystemRole, now, None)
    {
      this.id := id;
      this.tenantId := tenantId;
      this.name := name;
      this.description := description;
      this.isSystemRole := isSystemRole;
      createdAt := now;
      updatedAt := None;
    }

    /** `UpdateDetails`: replaces the name and the description (an omitted description clears
        it) and stamps `UpdatedAt`; tenant, system flag and creation time stay. */
    method UpdateDetails(name: string, now: Time, description: Option<string> := None)
      modifies this`name, this`description, this`updatedAt
      ensures State() == old(State()).(name := name, description := description, updatedAt := Some(now))
    {
      this.name := name;
      this.description := description;
      updatedAt := Some(now);
    }
  }

  /** A snapshot of a `UserRole` link. */
  datatype UserRoleState = UserRoleState(
    id: Guid, tenantId: Guid, userId: Guid, roleId: Guid, assignedAt: Time, assignedBy: Guid)

  /** The link `new UserRole(userId, roleId)` that the user-creation handler builds: tenant and
      assigning user keep their defaults (`Guid.Empty`); the tenant is stamped when saved. */
  function NewUserRole(id: Guid, now: Time, userId: Guid, roleId: Guid): (l: UserRoleState)
    ensures l.userId == userId && l.roleId == roleId && l.id == id && l.assignedAt == now
    ensures l.tenantId == EmptyGuid && l.assignedBy == EmptyGuid
  {
    UserRoleState(id, EmptyGuid, userId, roleId, now, EmptyGuid)
  }
}
