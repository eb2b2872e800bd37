/**
 * The read side of the roles driver over the five tables: lookups by id,
 * the filtered listings, the integrity the tables keep (unique keys, join
 * rows that refer to stored entities), and the row filters that the
 * cascading deletes apply.
 */
module Tables {
  import opened Records
  import opened Rows

  // ---------------------------------------------------------------------
  // Lookup by primary key
  // ---------------------------------------------------------------------

  predicate HasRole(roles: seq<Role>, id: Id) {
    exists x :: x in roles && x.id == id
  }

  predicate HasPermission(permissions: seq<Permission>, id: Id) {
    exists x :: x in permissions && x.id == id
  }

  /** The position of the first role with this id, if any. */
  function RoleIndex(roles: seq<Role>, id: Id): (k: Option<nat>)
    ensures k.None? <==> !HasRole(roles, id)
    ensures k.Some? ==> k.value < |roles| && roles[k.value].id == id
    ensures k.Some? ==> forall j | 0 <= j < k.value :: roles[j].id != id
  {
    if roles == [] then None
    else if roles[0].id == id then Some(0)
    else match RoleIndex(roles[1..], id)
      case None => None
      case Some(k) => Some(k + 1)
  }

  /** The position of the first permission with this id, if any. */
  function PermissionIndex(permissions: seq<Permission>, id: Id): (k: Option<nat>)
    ensures k.None? <==> !HasPermission(permissions, id)
    ensures k.Some? ==> k.value < |permissions| && permissions[k.value].id == id
    ensures k.Some? ==> forall j | 0 <= j < k.value :: permissions[j].id != id
  {
    if permissions == [] then None
    else if permissions[0].id == id then Some(0)
    else match PermissionIndex(permissions[1..], id)
      case None => None
      case Some(k) => Some(k + 1)
  }

  /** `_get_role`: the stored role with this id, or NotFound. */
  function GetRole(roles: seq<Role>, id: Id): (r: Result<Role>)
    ensures r.Ok? <==> HasRole(roles, id)
    ensures r.Ok? ==> r.value in roles && r.value.id == id
    ensures r.Err? ==> r.error == NotFound(RoleKind, id)
  {
    match RoleIndex(roles, id)
    case None => Err(NotFound(RoleKind, id))
    case Some(k) => Ok(roles[k])
  }

  /** `_get_permission`: the stored permission with this id, or NotFound. */
  function GetPermission(permissions: seq<Permission>, id: Id): (r: Result<Permission>)
    ensures r.Ok? <==> HasPermission(permissions, id)
    ensures r.Ok? ==> r.value in permissions && r.value.id == id
    ensures r.Err? ==> r.error == NotFound(PermissionKind, id)
  {
    match PermissionIndex(permissions, id)
    case None => Err(NotFound(PermissionKind, id))
    case Some(k) => Ok(permissions[k])
  }

  // ---------------------------------------------------------------------
  // Unique keys: the primary key `id` and the `(name, application_id)`
  // unique constraint
  // ---------------------------------------------------------------------

  function RoleIdOf(r: Role): Id { r.id }
  function RoleNameOf(r: Role): ScopedName { ScopedName(r.name, r.applicationId) }
  function PermissionIdOf(p: Permission): Id { p.id }
  function PermissionNameOf(p: Permission): ScopedName { ScopedName(p.name, p.applicationId) }

  /** No row repeats, and no two rows share an id or a scoped name. */
  ghost predicate KeyedUnique<T>(s: seq<T>, id: T -> Id, name: T -> ScopedName) {
    && Distinct(s)
    && forall x, y | x in s && y in s && x != y :: id(x) != id(y) && name(x) != name(y)
  }

  ghost predicate RolesUnique(roles: seq<Role>) {
    KeyedUnique(roles, RoleIdOf, RoleNameOf)
  }

  ghost predicate PermissionsUnique(permissions: seq<Permission>) {
    KeyedUnique(permissions, PermissionIdOf, PermissionNameOf)
  }

  /** Some role other than the one with id `id` already uses this scoped name. */
  predicate RoleNameTaken(roles: seq<Role>, name: string, applicationId: Id, id: Id) {
    exists x :: x in roles && x.id != id && x.name == name && x.applicationId == applicationId
  }

  /** Some permission other than the one with id `id` already uses this scoped name. */
  predicate PermissionNameTaken(permissions: seq<Permission>, name: string, applicationId: Id, id: Id) {
    exists x :: x in permissions && x.id != id && x.name == name && x.applicationId == applicationId
  }

  /** Appending an entity whose keys are both fresh keeps the keys unique. */
  lemma AppendKeepsUnique<T(!new)>(s: seq<T>, p: T, id: T -> Id, name: T -> ScopedName)
    requires KeyedUnique(s, id, name)
    requires forall x | x in s :: id(x) != id(p) && name(x) != name(p)
    ensures KeyedUnique(s + [p], id, name)
  {
    var t := s + [p];
    forall i, j | 0 <= i < j < |t|
      ensures t[i] != t[j]
    {
      assert t[i] == s[i] && s[i] in s;
      if j < |s| {
        assert t[j] == s[j];
      } else {
        assert t[j] == p;
      }
    }
  }

  /**
   * Overwriting the entity at position `k` with one that keeps its id, and
   * whose scoped name no other entity uses, keeps the keys unique.
   */
  lemma ReplaceKeepsUnique<T(!new)>(s: seq<T>, k: nat, p: T, id: T -> Id, name: T -> ScopedName)
    requires KeyedUnique(s, id, name) && k < |s| && id(p) == id(s[k])
    requires forall x | x in s && id(x) != id(p) :: name(x) != name(p)
    ensures KeyedUnique(s[k := p], id, name)
  {
    var t := s[k := p];
    // every entity of `s` other than `s[k]` has an id other than `p`'s
    forall j | 0 <= j < |s| && j != k
      ensures id(s[j]) != id(p) && name(s[j]) != name(p)
    {
      assert s[j] != s[k];
    }
    forall i, j | 0 <= i < j < |t|
      ensures t[i] != t[j]
    {
      if i != k && j != k {
        assert t[i] == s[i] && t[j] == s[j];
      } else if i == k {
        assert t[j] == s[j];
      } else {
        assert t[i] == s[i];
      }
    }
    forall x, y | x in t && y in t && x != y
      ensures id(x) != id(y) && name(x) != name(y)
    {
      var i :| 0 <= i < |t| && t[i] == x;
      var j :| 0 <= j < |t| && t[j] == y;
      if i != k && j != k {
        assert x == s[i] && y == s[j];
      } else if i == k {
        assert y == s[j];
      } else {
        assert x == s[i];
      }
    }
  }

  /** Removing entities keeps the keys unique. */
  lemma FilterKeepsUnique<T(!new)>(s: seq<T>, keep: T -> bool, id: T -> Id, name: T -> ScopedName)
    requires KeyedUnique(s, id, name)
    ensures KeyedUnique(Filter(s, keep), id, name)
  {
    FilterKeepsDistinct(s, keep);
  }

  // ---------------------------------------------------------------------
  // Join rows that refer to stored entities (the foreign keys)
  // ---------------------------------------------------------------------

  ghost predicate LinksResolve(roles: seq<Role>, permissions: seq<Permission>, links: seq<RolePermission>) {
    forall l | l in links :: HasRole(roles, l.roleId) && HasPermission(permissions, l.permissionId)
  }

  ghost predicate UserGrantsResolve(roles: seq<Role>, grants: seq<RoleUser>) {
    forall g | g in grants :: HasRole(roles, g.roleId)
  }

  ghost predicate OrganizationGrantsResolve(roles: seq<Role>, grants: seq<RoleOrganization>) {
    forall g | g in grants :: HasRole(roles, g.roleId)
  }

  /**
   * When every role and permission of the old tables still has its id in
   * the new ones, every join row that resolved still resolves.
   */
  lemma ResolveUnderCoveringTables(
    a: seq<Role>, b: seq<Role>, pa: seq<Permission>, pb: seq<Permission>,
    links: seq<RolePermission>, users: seq<RoleUser>, organizations: seq<RoleOrganization>)
    requires forall x | x in a :: HasRole(b, x.id)
    requires forall x | x in pa :: HasPermission(pb, x.id)
    ensures LinksResolve(a, pa, links) ==> LinksResolve(b, pb, links)
    ensures UserGrantsResolve(a, users) ==> UserGrantsResolve(b, users)
    ensures OrganizationGrantsResolve(a, organizations) ==> OrganizationGrantsResolve(b, organizations)
  {
    forall id | HasRole(a, id) ensures HasRole(b, id) {
      var x :| x in a && x.id == id;
    }
    forall id | HasPermission(pa, id) ensures HasPermission(pb, id) {
      var x :| x in pa && x.id == id;
    }
  }

  /** Overwriting a row with one of the same id keeps every id present. */
  lemma ReplaceKeepsRoleIds(roles: seq<Role>, k: nat, p: Role)
    requires k < |roles| && p.id == roles[k].id
    ensures forall x | x in roles :: HasRole(roles[k := p], x.id)
  {
    forall x | x in roles ensures HasRole(roles[k := p], x.id) {
      var i :| 0 <= i < |roles| && roles[i] == x;
      if i == k {
        assert roles[k := p][k] == p;
      } else {
        assert roles[k := p][i] == x;
      }
    }
  }

  /** Overwriting a row with one of the same id keeps every id present. */
  lemma ReplaceKeepsPermissionIds(permissions: seq<Permission>, k: nat, p: Permission)
    requires k < |permissions| && p.id == permissions[k].id
    ensures forall x | x in permissions :: HasPermission(permissions[k := p], x.id)
  {
    forall x | x in permissions ensures HasPermission(permissions[k := p], x.id) {
      var i :| 0 <= i < |permissions| && permissions[i] == x;
      if i == k {
        assert permissions[k := p][k] == p;
      } else {
        assert permissions[k := p][i] == x;
      }
    }
  }

  // ---------------------------------------------------------------------
  // Row filters of the cascading deletes
  // ---------------------------------------------------------------------

  function RoleIdIsNot(id: Id): Role -> bool { (x: Role) => x.id != id }
  function PermissionIdIsNot(id: Id): Permission -> bool { (x: Permission) => x.id != id }
  function LinkRoleIsNot(id: Id): RolePermission -> bool { (l: RolePermission) => l.roleId != id }
  function LinkPermissionIsNot(id: Id): RolePermission -> bool { (l: RolePermission) => l.permissionId != id }
  function UserGrantRoleIsNot(id: Id): RoleUser -> bool { (g: RoleUser) => g.roleId != id }
  function OrganizationGrantRoleIsNot(id: Id): RoleOrganization -> bool { (g: RoleOrganization) => g.roleId != id }

  /** Removing a role keeps every other id resolvable. */
  lemma WithoutRoleResolves(roles: seq<Role>, id: Id, other: Id)
    requires HasRole(roles, other) && other != id
    ensures HasRole(Filter(roles, RoleIdIsNot(id)), other)
  {
    var x :| x in roles && x.id == other;
    assert x in Filter(roles, RoleIdIsNot(id));
  }

  /** Removing a permission keeps every other id resolvable. */
  lemma WithoutPermissionResolves(permissions: seq<Permission>, id: Id, other: Id)
    requires HasPermission(permissions, other) && other != id
    ensures HasPermission(Filter(permissions, PermissionIdIsNot(id)), other)
  {
    var x :| x in permissions && x.id == other;
    assert x in Filter(permissions, PermissionIdIsNot(id));
  }

  /**
   * Deleting a role that was just created, with its (necessarily empty)
   * cascade, restores every table it touches.
   */
  lemma DeleteRoleUndoesCreate(
    roles: seq<Role>, permissions: seq<Permission>,
    links: seq<RolePermission>, grants: seq<RoleUser>, role: Role)
    requires !HasRole(roles, role.id)
    requires LinksResolve(roles, permissions, links) && UserGrantsResolve(roles, grants)
    ensures Filter(roles + [role], RoleIdIsNot(role.id)) == roles
    ensures Filter(links, LinkRoleIsNot(role.id)) == links
    ensures Filter(grants, UserGrantRoleIsNot(role.id)) == grants
  {
    FilterAppend(roles, [role], RoleIdIsNot(role.id));
    FilterKeepsAll(roles, RoleIdIsNot(role.id));
    assert Filter([role], RoleIdIsNot(role.id)) == [];
    FilterKeepsAll(links, LinkRoleIsNot(role.id));
    FilterKeepsAll(grants, UserGrantRoleIsNot(role.id));
  }

  /**
   * Deleting a permission that was just created, with its (necessarily
   * empty) cascade, restores every table it touches.
   */
  lemma DeletePermissionUndoesCreate(
    roles: seq<Role>, permissions: seq<Permission>,
    links: seq<RolePermission>, permission: Permission)
    requires !HasPermission(permissions, permission.id)
    requires LinksResolve(roles, permissions, links)
    ensures Filter(permissions + [permission], PermissionIdIsNot(permission.id)) == permissions
    ensures Filter(links, LinkPermissionIsNot(permission.id)) == links
  {
    FilterAppend(permissions, [permission], PermissionIdIsNot(permission.id));
    FilterKeepsAll(permissions, PermissionIdIsNot(permission.id));
    assert Filter([permission], PermissionIdIsNot(permission.id)) == [];
    FilterKeepsAll(links, LinkPermissionIsNot(permission.id));
  }

  /** Cascading a role delete into the organization grants keeps them resolving. */
  lemma CascadeKeepsOrganizationGrantsResolving(roles: seq<Role>, grants: seq<RoleOrganization>, id: Id)
    requires OrganizationGrantsResolve(roles, grants)
    ensures OrganizationGrantsResolve(Filter(roles, RoleIdIsNot(id)), Filter(grants, OrganizationGrantRoleIsNot(id)))
  {
    forall g | g in Filter(grants, OrganizationGrantRoleIsNot(id))
      ensures HasRole(Filter(roles, RoleIdIsNot(id)), g.roleId)
    {
      WithoutRoleResolves(roles, id, g.roleId);
    }
  }

  // ---------------------------------------------------------------------
  // Listings
  // ---------------------------------------------------------------------

  /** Every role, or those of one application (`list_roles(application_id=...)`). */
  function ListRoles(roles: seq<Role>, applicationId: Option<Id>): (r: seq<Role>)
    ensures applicationId.None? ==> r == roles
    ensures applicationId.Some? ==>
      forall x :: x in r <==> x in roles && x.applicationId == applicationId.value
  {
    match applicationId
    case None => roles
    case Some(a) => Filter(roles, RoleInApplication(a))
  }

  function RoleInApplication(a: Id): Role -> bool { (x: Role) => x.applicationId == a }

  /** Every permission, or those of one application. */
  function ListPermissions(permissions: seq<Permission>, applicationId: Option<Id>): (r: seq<Permission>)
    ensures applicationId.None? ==> r == permissions
    ensures applicationId.Some? ==>
      forall x :: x in r <==> x in permissions && x.applicationId == applicationId.value
  {
    match applicationId
    case None => permissions
    case Some(a) => Filter(permissions, PermissionInApplication(a))
  }

  function PermissionInApplication(a: Id): Permission -> bool { (x: Permission) => x.applicationId == a }

  /** A created role is listed after every role created before it. */
  lemma CreatedRoleListedLast(roles: seq<Role>, role: Role, applicationId: Option<Id>)
    ensures ListRoles(roles + [role], applicationId) ==
      if applicationId.None? || role.applicationId == applicationId.value
      then ListRoles(roles, applicationId) + [role]
      else ListRoles(roles, applicationId)
  {
    if applicationId.Some? {
      FilterAppend(roles, [role], RoleInApplication(applicationId.value));
      assert [role][1..] == [];
    }
  }

  /** A created permission is listed after every permission created before it. */
  lemma CreatedPermissionListedLast(permissions: seq<Permission>, permission: Permission, applicationId: Option<Id>)
    ensures ListPermissions(permissions + [permission], applicationId) ==
      if applicationId.None? || permission.applicationId == applicationId.value
      then ListPermissions(permissions, applicationId) + [permission]
      else ListPermissions(permissions, applicationId)
  {
    if applicationId.Some? {
      FilterAppend(permissions, [permission], PermissionInApplication(applicationId.value));
      assert [permission][1..] == [];
    }
  }

  /** The optional filters of `list_role_user_assignments`. */
  datatype UserAssignmentFilter = UserAssignmentFilter(userId: Option<Id>, organizationId: Option<Id>, applicationId: Option<Id>)

  /** The optional filters of `list_role_organization_assignments`. */
  datatype OrganizationAssignmentFilter = OrganizationAssignmentFilter(organizationId: Option<Id>, applicationId: Option<Id>)

  /** A filter value applies only when it is present and non-empty. */
  predicate Supplied(f: Option<Id>) {
    f.Some? && f.value != ""
  }

  predicate MatchesUserFilter(g: RoleUser, f: UserAssignmentFilter) {
    && (Supplied(f.userId) ==> g.userId == f.userId.value)
    && (Supplied(f.organizationId) ==> g.organizationId == f.organizationId.value)
    && (Supplied(f.applicationId) ==> g.applicationId == f.applicationId.value)
  }

  predicate MatchesOrganizationFilter(g: RoleOrganization, f: OrganizationAssignmentFilter) {
    && (Supplied(f.organizationId) ==> g.organizationId == f.organizationId.value)
    && (Supplied(f.applicationId) ==> g.applicationId == f.applicationId.value)
  }

  function UserFilterKeeps(f: UserAssignmentFilter): RoleUser -> bool { (g: RoleUser) => MatchesUserFilter(g, f) }
  function OrganizationFilterKeeps(f: OrganizationAssignmentFilter): RoleOrganization -> bool {
    (g: RoleOrganization) => MatchesOrganizationFilter(g, f)
  }

  /** The user grants that agree with every supplied filter, in grant order. */
  function ListRoleUserAssignments(grants: seq<RoleUser>, f: UserAssignmentFilter): (r: seq<RoleUser>)
    ensures forall g :: g in r <==>
      && g in grants
      && (Supplied(f.userId) ==> g.userId == f.userId.value)
      && (Supplied(f.organizationId) ==> g.organizationId == f.organizationId.value)
      && (Supplied(f.applicationId) ==> g.applicationId == f.applicationId.value)
  {
    Filter(grants, UserFilterKeeps(f))
  }

  /** The organization grants that agree with every supplied filter, in grant order. */
  function ListRoleOrganizationAssignments(grants: seq<RoleOrganization>, f: OrganizationAssignmentFilter): (r: seq<RoleOrganization>)
    ensures forall g :: g in r <==>
      && g in grants
      && (Supplied(f.organizationId) ==> g.organizationId == f.organizationId.value)
      && (Supplied(f.applicationId) ==> g.applicationId == f.applicationId.value)
  {
    Filter(grants, OrganizationFilterKeeps(f))
  }

  /** Without any supplied filter the listing is the whole table, in grant order. */
  lemma UnfilteredListingsAreTables(users: seq<RoleUser>, organizations: seq<RoleOrganization>)
    ensures ListRoleUserAssignments(users, UserAssignmentFilter(None, None, None)) == users
    ensures ListRoleOrganizationAssignments(organizations, OrganizationAssignmentFilter(None, None)) == organizations
  {
    FilterKeepsAll(users, UserFilterKeeps(UserAssignmentFilter(None, None, None)));
    FilterKeepsAll(organizations, OrganizationFilterKeeps(OrganizationAssignmentFilter(None, None)));
  }

  /** A new user grant is listed after every grant made before it. */
  lemma UserGrantListedLast(grants: seq<RoleUser>, t: RoleUser, f: UserAssignmentFilter)
    ensures ListRoleUserAssignments(Grant(grants, t), f) ==
      if t !in grants && MatchesUserFilter(t, f)
      then ListRoleUserAssignments(grants, f) + [t]
      else ListRoleUserAssignments(grants, f)
  {
    if t !in grants {
      FilterAppend(grants, [t], UserFilterKeeps(f));
      assert [t][1..] == [];
    }
  }

  /** A new organization grant is listed after every grant made before it. */
  lemma OrganizationGrantListedLast(grants: seq<RoleOrganization>, t: RoleOrganization, f: OrganizationAssignmentFilter)
    ensures ListRoleOrganizationAssignments(Grant(grants, t), f) ==
      if t !in grants && MatchesOrganizationFilter(t, f)
      then ListRoleOrganizationAssignments(grants, f) + [t]
      else ListRoleOrganizationAssignments(grants, f)
  {
    if t !in grants {
      FilterAppend(grants, [t], OrganizationFilterKeeps(f));
      assert [t][1..] == [];
    }
  }

  function LinkedTo(roleId: Id, links: seq<RolePermission>): Permission -> bool {
    (p: Permission) => RolePermission(roleId, p.id) in links
  }

  /** `list_permissions_for_role`: NotFound for an unknown role, else its linked permissions. */
  function ListPermissionsForRole(
    roles: seq<Role>, permissions: seq<Permission>, links: seq<RolePermission>, roleId: Id): (r: Result<seq<Permission>>)
    ensures r.Err? <==> !HasRole(roles, roleId)
    ensures r.Err? ==> r.error == NotFound(RoleKind, roleId)
    ensures r.Ok? ==> forall p :: p in r.value <==> p in permissions && RolePermission(roleId, p.id) in links
  {
    match GetRole(roles, roleId)
    case Err(e) => Err(e)
    case Ok(_) => Ok(Filter(permissions, LinkedTo(roleId, links)))
  }

  // ---------------------------------------------------------------------
  // Existence checks made before a grant or revoke, in the driver's order
  // ---------------------------------------------------------------------

  function UserGrantCheck(roles: seq<Role>, directory: Directory, roleId: Id, userId: Id, organizationId: Id): Outcome {
    if !HasRole(roles, roleId) then Failed(NotFound(RoleKind, roleId))
    else if userId !in directory.users then Failed(NotFound(UserKind, userId))
    else if organizationId !in directory.organizations then Failed(NotFound(OrganizationKind, organizationId))
    else Done
  }

  function OrganizationGrantCheck(roles: seq<Role>, directory: Directory, roleId: Id, organizationId: Id): Outcome {
    if !HasRole(roles, roleId) then Failed(NotFound(RoleKind, roleId))
    else if organizationId !in directory.organizations then Failed(NotFound(OrganizationKind, organizationId))
    else Done
  }

  function LinkCheck(roles: seq<Role>, permissions: seq<Permission>, roleId: Id, permissionId: Id): Outcome {
    if !HasRole(roles, roleId) then Failed(NotFound(RoleKind, roleId))
    else if !HasPermission(permissions, permissionId) then Failed(NotFound(PermissionKind, permissionId))
    else Done
  }
}
