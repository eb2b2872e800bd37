/**
 * The records of the role/permission store: the five tables of the SQL
 * backend (roles, permissions, and the three join tables), the error the
 * driver raises, and the view of the external identity and project stores
 * that the grant operations consult.
 */
module Records {

  /** Identifiers are strings; the 64-character column width is not modelled. */
  type Id = string

  datatype Option<T> = None | Some(value: T)

  /** A row of `role_fiware`; `(name, applicationId)` is unique. */
  datatype Role = Role(id: Id, name: string, isInternal: bool, applicationId: Id)

  /** A row of `permission_fiware`; `(name, applicationId)` is unique. */
  datatype Permission = Permission(
    id: Id,
    name: string,
    isInternal: bool,
    applicationId: Id,
    action: Option<string>,
    resource: Option<string>,
    xml: Option<string>)

  /** A row of `role_permission_fiware`; the whole row is the primary key. */
  datatype RolePermission = RolePermission(roleId: Id, permissionId: Id)

  /** A row of `role_user_fiware`; the whole row is the primary key. */
  datatype RoleUser = RoleUser(roleId: Id, userId: Id, organizationId: Id, applicationId: Id)

  /** A row of `role_organization_fiware`; the whole row is the primary key. */
  datatype RoleOrganization = RoleOrganization(roleId: Id, organizationId: Id, applicationId: Id)

  /** The unique key an application gives to the name of a role or permission. */
  datatype ScopedName = ScopedName(name: string, applicationId: Id)

  /** Which kind of referenced entity was missing. */
  datatype Kind = RoleKind | PermissionKind | UserKind | OrganizationKind

  /**
   * NotFound is the error the driver raises itself; Conflict stands for the
   * integrity error the database raises when an insert or update would break
   * a primary key or the `(name, application_id)` unique constraint.
   */
  datatype Error = NotFound(kind: Kind, id: Id) | Conflict

  datatype Result<T> = Ok(value: T) | Err(error: Error)

  /** The outcome of an operation that returns nothing on success. */
  datatype Outcome = Done | Failed(error: Error)

  /**
   * The ids the identity store knows as users and the project store knows
   * as organizations, at the time of the call.
   */
  datatype Directory = Directory(users: set<Id>, organizations: set<Id>)
}
