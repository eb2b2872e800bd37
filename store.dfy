/**
 * The `Roles` driver of the SQL backend: five tables held as sequences of
 * rows in insertion order, and the operations that change them. Each
 * operation is one transaction; an operation that fails leaves every table
 * as it was.
 */
module Store {
  import opened Records
  import opened Rows
  import opened Tables
  import opened Patches

  class Roles {
    var roles: seq<Role>
    var permissions: seq<Permission>
    var rolePermissions: seq<RolePermission>
    var roleUsers: seq<RoleUser>
    var roleOrganizations: seq<RoleOrganization>

    /**
     * The integrity every operation keeps: the primary keys and unique
     * constraints, and the foreign keys of the permission links and of the
     * user grants.
     */
    ghost predicate Valid()
      reads this
    {
      && RolesUnique(roles)
      && PermissionsUnique(permissions)
      && Distinct(rolePermissions)
      && Distinct(roleUsers)
      && Distinct(roleOrganizations)
      && LinksResolve(roles, permissions, rolePermissions)
      && UserGrantsResolve(roles, roleUsers)
    }

    /** The foreign key of the organization grants, which `DeleteRole` does not keep. */
    ghost predicate OrganizationGrantsValid()
      reads this
    {
      OrganizationGrantsResolve(roles, roleOrganizations)
    }

    constructor ()
      ensures Valid() && OrganizationGrantsValid()
      ensures roles == [] && permissions == []
      ensures rolePermissions == [] && roleUsers == [] && roleOrganizations == []
    {
      roles, permissions := [], [];
      rolePermissions, roleUsers, roleOrganizations := [], [], [];
    }

    // -------------------------------------------------------------------
    // Roles
    // -------------------------------------------------------------------

    /** `create_role`: store a role whose id and scoped name are both unused. */
    method CreateRole(role: Role) returns (r: Result<Role>)
      requires Valid()
      modifies this
      ensures Valid()
      ensures old(OrganizationGrantsValid()) ==> OrganizationGrantsValid()
      ensures r.Err? <==>
        HasRole(old(roles), role.id) || RoleNameTaken(old(roles), role.name, role.applicationId, role.id)
      ensures r.Ok? ==> r.value == role && roles == old(roles) + [role]
      ensures r.Err? ==> r.error == Conflict && roles == old(roles)
      ensures permissions == old(permissions) && rolePermissions == old(rolePermissions)
      ensures roleUsers == old(roleUsers) && roleOrganizations == old(roleOrganizations)
    {
      if HasRole(roles, role.id) || RoleNameTaken(roles, role.name, role.applicationId, role.id) {
        return Err(Conflict);
      }
      AppendKeepsUnique(roles, role, RoleIdOf, RoleNameOf);
      forall x | x in roles ensures HasRole(roles + [role], x.id) {
        assert x in roles + [role];
      }
      ResolveUnderCoveringTables(roles, roles + [role], permissions, permissions,
                                 rolePermissions, roleUsers, roleOrganizations);
      roles := roles + [role];
      r := Ok(role);
    }

    /**
     * `update_role`: apply the attribute assignments, in order, to the
     * stored role; the patched role must not take another role's scoped name.
     */
    method UpdateRole(id: Id, updates: seq<RoleUpdate>) returns (r: Result<Role>)
      requires Valid()
      modifies this
      ensures Valid()
      ensures old(OrganizationGrantsValid()) ==> OrganizationGrantsValid()
      ensures !HasRole(old(roles), id) ==> r == Err(NotFound(RoleKind, id))
      ensures HasRole(old(roles), id) ==>
        var k := RoleIndex(old(roles), id).value;
        var patched := PatchedRole(old(roles)[k], updates);
        if RoleNameTaken(old(roles), patched.name, patched.applicationId, id)
        then r == Err(Conflict)
        else r == Ok(patched) && roles == old(roles)[k := patched]
      ensures r.Err? ==> roles == old(roles)
      ensures permissions == old(permissions) && rolePermissions == old(rolePermissions)
      ensures roleUsers == old(roleUsers) && roleOrganizations == old(roleOrganizations)
    {
      var found := RoleIndex(roles, id);
      if found.None? {
        return Err(NotFound(RoleKind, id));
      }
      var k := found.value;
      var current := roles[k];
      var i := 0;
      while i < |updates|
        invariant 0 <= i <= |updates|
        invariant current == PatchedRole(roles[k], updates[..i])
      {
        assert updates[..i + 1][..i] == updates[..i];
        current := ApplyRoleUpdate(current, updates[i]);
        i := i + 1;
      }
      assert updates[..|updates|] == updates;
      if RoleNameTaken(roles, current.name, current.applicationId, id) {
        return Err(Conflict);
      }
      ReplaceKeepsUnique(roles, k, current, RoleIdOf, RoleNameOf);
      ReplaceKeepsRoleIds(roles, k, current);
      ResolveUnderCoveringTables(roles, roles[k := current], permissions, permissions,
                                 rolePermissions, roleUsers, roleOrganizations);
      roles := roles[k := current];
      r := Ok(current);
    }

    /**
     * `delete_role`: remove the role, its permission links and its user
     * grants. Its organization grants stay.
     */
    method DeleteRole(id: Id) returns (r: Outcome)
      requires Valid()
      modifies this
      ensures Valid()
      ensures r == if HasRole(old(roles), id) then Done else Failed(NotFound(RoleKind, id))
      ensures r.Done? ==> roles == Filter(old(roles), RoleIdIsNot(id))
      ensures r.Done? ==> rolePermissions == Filter(old(rolePermissions), LinkRoleIsNot(id))
      ensures r.Done? ==> roleUsers == Filter(old(roleUsers), UserGrantRoleIsNot(id))
      ensures r.Failed? ==> roles == old(roles) && rolePermissions == old(rolePermissions) && roleUsers == old(roleUsers)
      ensures !HasRole(roles, id) && ListPermissionsForRole(roles, permissions, rolePermissions, id).Err?
      ensures permissions == old(permissions) && roleOrganizations == old(roleOrganizations)
    {
      if !HasRole(roles, id) {
        return Failed(NotFound(RoleKind, id));
      }
      RemoveRoleKeepsValid(id);
      rolePermissions := Filter(rolePermissions, LinkRoleIsNot(id));
      roleUsers := Filter(roleUsers, UserGrantRoleIsNot(id));
      roles := Filter(roles, RoleIdIsNot(id));
      r := Done;
    }

    /**
     * The delete of a role with the cascade extended to its organization
     * grants, which keeps those grants referring to stored roles.
     */
    method DeleteRoleCascading(id: Id) returns (r: Outcome)
      requires Valid()
      modifies this
      ensures Valid()
      ensures old(OrganizationGrantsValid()) ==> OrganizationGrantsValid()
      ensures r == if HasRole(old(roles), id) then Done else Failed(NotFound(RoleKind, id))
      ensures r.Done? ==> roles == Filter(old(roles), RoleIdIsNot(id))
      ensures r.Done? ==> rolePermissions == Filter(old(rolePermissions), LinkRoleIsNot(id))
      ensures r.Done? ==> roleUsers == Filter(old(roleUsers), UserGrantRoleIsNot(id))
      ensures r.Done? ==> roleOrganizations == Filter(old(roleOrganizations), OrganizationGrantRoleIsNot(id))
      ensures r.Failed? ==> roles == old(roles) && rolePermissions == old(rolePermissions)
      ensures r.Failed? ==> roleUsers == old(roleUsers) && roleOrganizations == old(roleOrganizations)
      ensures !HasRole(roles, id) && ListPermissionsForRole(roles, permissions, rolePermissions, id).Err?
      ensures permissions == old(permissions)
    {
      if !HasRole(roles, id) {
        return Failed(NotFound(RoleKind, id));
      }
      RemoveRoleKeepsValid(id);
      FilterKeepsDistinct(roleOrganizations, OrganizationGrantRoleIsNot(id));
      if OrganizationGrantsValid() {
        CascadeKeepsOrganizationGrantsResolving(roles, roleOrganizations, id);
      }
      rolePermissions := Filter(rolePermissions, LinkRoleIsNot(id));
      roleUsers := Filter(roleUsers, UserGrantRoleIsNot(id));
      roleOrganizations := Filter(roleOrganizations, OrganizationGrantRoleIsNot(id));
      roles := Filter(roles, RoleIdIsNot(id));
      r := Done;
    }

    /** The tables left by removing a role and its links and user grants are valid. */
    lemma RemoveRoleKeepsValid(id: Id)
      requires Valid()
      ensures RolesUnique(Filter(roles, RoleIdIsNot(id)))
      ensures Distinct(Filter(rolePermissions, LinkRoleIsNot(id)))
      ensures Distinct(Filter(roleUsers, UserGrantRoleIsNot(id)))
      ensures LinksResolve(Filter(roles, RoleIdIsNot(id)), permissions, Filter(rolePermissions, LinkRoleIsNot(id)))
      ensures UserGrantsResolve(Filter(roles, RoleIdIsNot(id)), Filter(roleUsers, UserGrantRoleIsNot(id)))
    {
      FilterKeepsUnique(roles, RoleIdIsNot(id), RoleIdOf, RoleNameOf);
      FilterKeepsDistinct(rolePermissions, LinkRoleIsNot(id));
      FilterKeepsDistinct(roleUsers, UserGrantRoleIsNot(id));
      forall l | l in Filter(rolePermissions, LinkRoleIsNot(id))
        ensures HasRole(Filter(roles, RoleIdIsNot(id)), l.roleId)
      {
        WithoutRoleResolves(roles, id, l.roleId);
      }
      forall g | g in Filter(roleUsers, UserGrantRoleIsNot(id))
        ensures HasRole(Filter(roles, RoleIdIsNot(id)), g.roleId)
      {
        WithoutRoleResolves(roles, id, g.roleId);
      }
    }

    // -------------------------------------------------------------------
    // Role-user grants
    // -------------------------------------------------------------------

    /**
     * `add_role_to_user`: after the role, user and organization are found,
     * store the grant unless it is already stored.
     */
    method AddRoleToUser(directory: Directory, roleId: Id, userId: Id, organizationId: Id, applicationId: Id)
      returns (r: Outcome)
      requires Valid()
      modifies this
      ensures Valid()
      ensures old(OrganizationGrantsValid()) ==> OrganizationGrantsValid()
      ensures !HasRole(old(roles), roleId) ==> r == Failed(NotFound(RoleKind, roleId))
      ensures HasRole(old(roles), roleId) && userId !in directory.users ==>
        r == Failed(NotFound(UserKind, userId))
      ensures HasRole(old(roles), roleId) && userId in directory.users && organizationId !in directory.organizations ==>
        r == Failed(NotFound(OrganizationKind, organizationId))
      ensures r.Done? <==>
        HasRole(old(roles), roleId) && userId in directory.users && organizationId in directory.organizations
      ensures var t := RoleUser(roleId, userId, organizationId, applicationId);
        && (r.Done? ==> roleUsers == Grant(old(roleUsers), t) && multiset(roleUsers)[t] == 1)
        && (r.Done? && t in old(roleUsers) ==> roleUsers == old(roleUsers))
        && (r.Failed? ==> roleUsers == old(roleUsers))
      ensures roles == old(roles) && permissions == old(permissions)
      ensures rolePermissions == old(rolePermissions) && roleOrganizations == old(roleOrganizations)
    {
      r := UserGrantCheck(roles, directory, roleId, userId, organizationId);
      if r.Failed? {
        return;
      }
      var t := RoleUser(roleId, userId, organizationId, applicationId);
      GrantStoresOnce(roleUsers, t);
      if t in roleUsers {
        return;
      }
      roleUsers := roleUsers + [t];
    }

    /**
     * `remove_role_from_user`: when `checkIds` holds, the role, user and
     * organization must be found; then delete the grant if it is stored.
     */
    method RemoveRoleFromUser(
      directory: Directory, roleId: Id, userId: Id, organizationId: Id, applicationId: Id, checkIds: bool)
      returns (r: Outcome)
      requires Valid()
      modifies this
      ensures Valid()
      ensures old(OrganizationGrantsValid()) ==> OrganizationGrantsValid()
      ensures checkIds && !HasRole(old(roles), roleId) ==> r == Failed(NotFound(RoleKind, roleId))
      ensures checkIds && HasRole(old(roles), roleId) && userId !in directory.users ==>
        r == Failed(NotFound(UserKind, userId))
      ensures checkIds && HasRole(old(roles), roleId) && userId in directory.users && organizationId !in directory.organizations ==>
        r == Failed(NotFound(OrganizationKind, organizationId))
      ensures r.Done? <==>
        !checkIds || (HasRole(old(roles), roleId) && userId in directory.users && organizationId in directory.organizations)
      ensures var t := RoleUser(roleId, userId, organizationId, applicationId);
        && (r.Done? ==> roleUsers == Revoke(old(roleUsers), t))
        && (r.Done? && t in old(roleUsers) ==> |roleUsers| == |old(roleUsers)| - 1)
        && (r.Failed? ==> roleUsers == old(roleUsers))
      ensures roles == old(roles) && permissions == old(permissions)
      ensures rolePermissions == old(rolePermissions) && roleOrganizations == old(roleOrganizations)
    {
      r := if checkIds then UserGrantCheck(roles, directory, roleId, userId, organizationId) else Done;
      if r.Failed? {
        return;
      }
      var t := RoleUser(roleId, userId, organizationId, applicationId);
      RevokeKeepsDistinct(roleUsers, t);
      if t !in roleUsers {
        return;
      }
      RevokeDropsOne(roleUsers, t);
      roleUsers := Filter(roleUsers, Differs(t));
    }

    // -------------------------------------------------------------------
    // Role-organization grants
    // -------------------------------------------------------------------

    /**
     * `add_role_to_organization`: when `checkIds` holds, the role and
     * organization must be found; then store the grant unless it is stored.
     */
    method AddRoleToOrganization(
      directory: Directory, roleId: Id, organizationId: Id, applicationId: Id, checkIds: bool)
      returns (r: Outcome)
      requires Valid()
      modifies this
      ensures Valid()
      ensures checkIds && old(OrganizationGrantsValid()) ==> OrganizationGrantsValid()
      ensures checkIds && !HasRole(old(roles), roleId) ==> r == Failed(NotFound(RoleKind, roleId))
      ensures checkIds && HasRole(old(roles), roleId) && organizationId !in directory.organizations ==>
        r == Failed(NotFound(OrganizationKind, organizationId))
      ensures r.Done? <==> !checkIds || (HasRole(old(roles), roleId) && organizationId in directory.organizations)
      ensures var t := RoleOrganization(roleId, organizationId, applicationId);
        && (r.Done? ==> roleOrganizations == Grant(old(roleOrganizations), t) && multiset(roleOrganizations)[t] == 1)
        && (r.Done? && t in old(roleOrganizations) ==> roleOrganizations == old(roleOrganizations))
        && (r.Failed? ==> roleOrganizations == old(roleOrganizations))
      ensures roles == old(roles) && permissions == old(permissions)
      ensures rolePermissions == old(rolePermissions) && roleUsers == old(roleUsers)
    {
      r := if checkIds then OrganizationGrantCheck(roles, directory, roleId, organizationId) else Done;
      if r.Failed? {
        return;
      }
      var t := RoleOrganization(roleId, organizationId, applicationId);
      GrantStoresOnce(roleOrganizations, t);
      if t in roleOrganizations {
        return;
      }
      roleOrganizations := roleOrganizations + [t];
    }

    /**
     * `remove_role_from_organization`: when `checkIds` holds, the role and
     * organization must be found; then delete the grant if it is stored.
     */
    method RemoveRoleFromOrganization(
      directory: Directory, roleId: Id, organizationId: Id, applicationId: Id, checkIds: bool)
      returns (r: Outcome)
      requires Valid()
      modifies this
      ensures Valid()
      ensures old(OrganizationGrantsValid()) ==> OrganizationGrantsValid()
      ensures checkIds && !HasRole(old(roles), roleId) ==> r == Failed(NotFound(RoleKind, roleId))
      ensures checkIds && HasRole(old(roles), roleId) && organizationId !in directory.organizations ==>
        r == Failed(NotFound(OrganizationKind, organizationId))
      ensures r.Done? <==> !checkIds || (HasRole(old(roles), roleId) && organizationId in directory.organizations)
      ensures var t := RoleOrganization(roleId, organizationId, applicationId);
        && (r.Done? ==> roleOrganizations == Revoke(old(roleOrganizations), t))
        && (r.Done? && t in old(roleOrganizations) ==> |roleOrganizations| == |old(roleOrganizations)| - 1)
        && (r.Failed? ==> roleOrganizations == old(roleOrganizations))
      ensures roles == old(roles) && permissions == old(permissions)
      ensures rolePermissions == old(rolePermissions) && roleUsers == old(roleUsers)
    {
      r := if checkIds then OrganizationGrantCheck(roles, directory, roleId, organizationId) else Done;
      if r.Failed? {
        return;
      }
      var t := RoleOrganization(roleId, organizationId, applicationId);
      RevokeKeepsDistinct(roleOrganizations, t);
      if t !in roleOrganizations {
        return;
      }
      RevokeDropsOne(roleOrganizations, t);
      roleOrganizations := Filter(roleOrganizations, Differs(t));
    }

    // -------------------------------------------------------------------
    // Permissions
    // -------------------------------------------------------------------

    /** `create_permission`: store a permission whose id and scoped name are both unused. */
    method CreatePermission(permission: Permission) returns (r: Result<Permission>)
      requires Valid()
      modifies this
      ensures Valid()
      ensures old(OrganizationGrantsValid()) ==> OrganizationGrantsValid()
      ensures r.Err? <==>
        || HasPermission(old(permissions), permission.id)
        || PermissionNameTaken(old(permissions), permission.name, permission.applicationId, permission.id)
      ensures r.Ok? ==> r.value == permission && permissions == old(permissions) + [permission]
      ensures r.Err? ==> r.error == Conflict && permissions == old(permissions)
      ensures roles == old(roles) && rolePermissions == old(rolePermissions)
      ensures roleUsers == old(roleUsers) && roleOrganizations == old(roleOrganizations)
    {
      if || HasPermission(permissions, permission.id)
         || PermissionNameTaken(permissions, permission.name, permission.applicationId, permission.id)
      {
        return Err(Conflict);
      }
      AppendKeepsUnique(permissions, permission, PermissionIdOf, PermissionNameOf);
      forall x | x in permissions ensures HasPermission(permissions + [permission], x.id) {
        assert x in permissions + [permission];
      }
      ResolveUnderCoveringTables(roles, roles, permissions, permissions + [permission],
                                 rolePermissions, roleUsers, roleOrganizations);
      permissions := permissions + [permission];
      r := Ok(permission);
    }

    /**
     * `update_permission`: apply the attribute assignments, in order, to the
     * stored permission; the patched permission must not take another
     * permission's scoped name.
     */
    method UpdatePermission(id: Id, updates: seq<PermissionUpdate>) returns (r: Result<Permission>)
      requires Valid()
      modifies this
      ensures Valid()
      ensures old(OrganizationGrantsValid()) ==> OrganizationGrantsValid()
      ensures !HasPermission(old(permissions), id) ==> r == Err(NotFound(PermissionKind, id))
      ensures HasPermission(old(permissions), id) ==>
        var k := PermissionIndex(old(permissions), id).value;
        var patched := PatchedPermission(old(permissions)[k], updates);
        if PermissionNameTaken(old(permissions), patched.name, patched.applicationId, id)
        then r == Err(Conflict)
        else r == Ok(patched) && permissions == old(permissions)[k := patched]
      ensures r.Err? ==> permissions == old(permissions)
      ensures roles == old(roles) && rolePermissions == old(rolePermissions)
      ensures roleUsers == old(roleUsers) && roleOrganizations == old(roleOrganizations)
    {
      var found := PermissionIndex(permissions, id);
      if found.None? {
        return Err(NotFound(PermissionKind, id));
      }
      var k := found.value;
      var current := permissions[k];
      var i := 0;
      while i < |updates|
        invariant 0 <= i <= |updates|
        invariant current == PatchedPermission(permissions[k], updates[..i])
      {
        assert updates[..i + 1][..i] == updates[..i];
        current := ApplyPermissionUpdate(current, updates[i]);
        i := i + 1;
      }
      assert updates[..|updates|] == updates;
      if PermissionNameTaken(permissions, current.name, current.applicationId, id) {
        return Err(Conflict);
      }
      ReplaceKeepsUnique(permissions, k, current, PermissionIdOf, PermissionNameOf);
      ReplaceKeepsPermissionIds(permissions, k, current);
      ResolveUnderCoveringTables(roles, roles, permissions, permissions[k := current],
                                 rolePermissions, roleUsers, roleOrganizations);
      permissions := permissions[k := current];
      r := Ok(current);
    }

    /** `delete_permission`: remove the permission and its role links. */
    method DeletePermission(id: Id) returns (r: Outcome)
      requires Valid()
      modifies this
      ensures Valid()
      ensures old(OrganizationGrantsValid()) ==> OrganizationGrantsValid()
      ensures r == if HasPermission(old(permissions), id) then Done else Failed(NotFound(PermissionKind, id))
      ensures r.Done? ==> permissions == Filter(old(permissions), PermissionIdIsNot(id))
      ensures r.Done? ==> rolePermissions == Filter(old(rolePermissions), LinkPermissionIsNot(id))
      ensures r.Failed? ==> permissions == old(permissions) && rolePermissions == old(rolePermissions)
      ensures !HasPermission(permissions, id)
      ensures roles == old(roles) && roleUsers == old(roleUsers) && roleOrganizations == old(roleOrganizations)
    {
      if !HasPermission(permissions, id) {
        return Failed(NotFound(PermissionKind, id));
      }
      FilterKeepsUnique(permissions, PermissionIdIsNot(id), PermissionIdOf, PermissionNameOf);
      FilterKeepsDistinct(rolePermissions, LinkPermissionIsNot(id));
      forall l | l in Filter(rolePermissions, LinkPermissionIsNot(id))
        ensures HasPermission(Filter(permissions, PermissionIdIsNot(id)), l.permissionId)
      {
        WithoutPermissionResolves(permissions, id, l.permissionId);
      }
      rolePermissions := Filter(rolePermissions, LinkPermissionIsNot(id));
      permissions := Filter(permissions, PermissionIdIsNot(id));
      r := Done;
    }

    // -------------------------------------------------------------------
    // Role-permission links
    // -------------------------------------------------------------------

    /**
     * `add_permission_to_role`: after the role and permission are found,
     * store the link unless it is already stored.
     */
    method AddPermissionToRole(roleId: Id, permissionId: Id) returns (r: Outcome)
      requires Valid()
      modifies this
      ensures Valid()
      ensures old(OrganizationGrantsValid()) ==> OrganizationGrantsValid()
      ensures !HasRole(old(roles), roleId) ==> r == Failed(NotFound(RoleKind, roleId))
      ensures HasRole(old(roles), roleId) && !HasPermission(old(permissions), permissionId) ==>
        r == Failed(NotFound(PermissionKind, permissionId))
      ensures r.Done? <==> HasRole(old(roles), roleId) && HasPermission(old(permissions), permissionId)
      ensures var t := RolePermission(roleId, permissionId);
        && (r.Done? ==> rolePermissions == Grant(old(rolePermissions), t) && multiset(rolePermissions)[t] == 1)
        && (r.Done? && t in old(rolePermissions) ==> rolePermissions == old(rolePermissions))
        && (r.Failed? ==> rolePermissions == old(rolePermissions))
      ensures roles == old(roles) && permissions == old(permissions)
      ensures roleUsers == old(roleUsers) && roleOrganizations == old(roleOrganizations)
    {
      r := LinkCheck(roles, permissions, roleId, permissionId);
      if r.Failed? {
        return;
      }
      var t := RolePermission(roleId, permissionId);
      GrantStoresOnce(rolePermissions, t);
      if t in rolePermissions {
        return;
      }
      rolePermissions := rolePermissions + [t];
    }

    /**
     * `remove_permission_from_role`: after the role and permission are
     * found, delete the link if it is stored.
     */
    method RemovePermissionFromRole(roleId: Id, permissionId: Id) returns (r: Outcome)
      requires Valid()
      modifies this
      ensures Valid()
      ensures old(OrganizationGrantsValid()) ==> OrganizationGrantsValid()
      ensures !HasRole(old(roles), roleId) ==> r == Failed(NotFound(RoleKind, roleId))
      ensures HasRole(old(roles), roleId) && !HasPermission(old(permissions), permissionId) ==>
        r == Failed(NotFound(PermissionKind, permissionId))
      ensures r.Done? <==> HasRole(old(roles), roleId) && HasPermission(old(permissions), permissionId)
      ensures var t := RolePermission(roleId, permissionId);
        && (r.Done? ==> rolePermissions == Revoke(old(rolePermissions), t))
        && (r.Done? && t in old(rolePermissions) ==> |rolePermissions| == |old(rolePermissions)| - 1)
        && (r.Failed? ==> rolePermissions == old(rolePermissions))
      ensures roles == old(roles) && permissions == old(permissions)
      ensures roleUsers == old(roleUsers) && roleOrganizations == old(roleOrganizations)
    {
      r := LinkCheck(roles, permissions, roleId, permissionId);
      if r.Failed? {
        return;
      }
      var t := RolePermission(roleId, permissionId);
      RevokeKeepsDistinct(rolePermissions, t);
      if t !in rolePermissions {
        return;
      }
      RevokeDropsOne(rolePermissions, t);
      rolePermissions := Filter(rolePermissions, Differs(t));
    }
  }

  /**
   * A run of the driver's operations after which `DeleteRole` has left an
   * organization grant that refers to no stored role.
   */
  method DeleteRoleStrandsOrganizationGrant() returns (s: Roles)
    ensures s.Valid() && !s.OrganizationGrantsValid()
    ensures RoleOrganization("r", "org", "app") in s.roleOrganizations && !HasRole(s.roles, "r")
  {
    s := new Roles();
    var role := Role("r", "admin", false, "app");
    var created := s.CreateRole(role);
    assert s.roles[0] == role;
    var granted := s.AddRoleToOrganization(Directory({}, {"org"}), "r", "org", "app", true);
    var deleted := s.DeleteRole("r");
    assert RoleOrganization("r", "org", "app") in s.roleOrganizations;
  }
}
