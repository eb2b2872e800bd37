# Roles and permissions store of the FIWARE keystone extension

This project models the SQL backend of the `roles` extension
(`keystone/contrib/roles/backends/sql.py`). It holds application-scoped
roles and permissions, and three join tables:

- permissions granted to roles;
- roles granted to users inside an organization for an application;
- roles granted to whole organizations for an application.

The driver class `Roles` becomes a Dafny class. Its five fields are the five
tables, each a sequence of rows in insertion order. The driver's operations
become methods of that class:

- role and permission create, update and delete;
- user and organization grants and revokes;
- permission links and unlinks.

Each method runs as one transaction: when it fails, every table keeps its
old value. Lookups and listings read the tables without changing them, so
they are pure functions over the sequences.

The model proves:

- Key uniqueness: the primary keys and the `(name, application_id)` unique
  constraints.
- Foreign keys: every permission link and user grant refers to a stored
  role and permission. Every method keeps this.
- Missing references: each operation reports NotFound for a missing role,
  permission, user or organization, checking them in the order the driver
  does.
- Grants: a grant stores its row exactly once. Repeating a grant or a revoke
  changes nothing more.
- Updates: a patch overwrites exactly the attributes it names, taking the
  last value given for each, and keeps the id.
- Cascades: deleting a role removes its permission links and user grants.
  Deleting a permission removes its links.
- Listings: each returns exactly the matching rows. In the role and
  permission listings and the two assignment listings, a row created or
  granted later is listed later.

Modules:

| file | module | contents |
|---|---|---|
| `records.dfy` | `Records` | the five row types, errors, and the directory of known users and organizations |
| `rows.dfy` | `Rows` | the filtered query and the check-then-insert / check-then-delete of a join table, with their lemmas |
| `tables.dfy` | `Tables` | lookups, listings, the unique-key and foreign-key predicates and the lemmas about them |
| `patches.dfy` | `Patches` | the attribute-by-attribute update of a role or permission |
| `store.dfy` | `Store` | the class `Roles` and its operations |

The identity store (`identity_api.get_user`) and the project store
(`assignment_api.get_project`) are outside this backend. They appear as a
`Directory` argument holding the user ids and organization ids that those
stores know at the time of the call.

The database raises an integrity error when an insert or update would break
a primary key or a unique constraint. The model turns that error into the
result `Conflict`, and the transaction changes nothing.

## Model

| member | source | states |
|---|---|---|
| Rows.Filter | keystone/contrib/roles/backends/sql.py:93-98 | a filtered query returns exactly the rows the condition admits, never more rows than the table |
| Rows.FilterAppend | keystone/contrib/roles/backends/sql.py:145-156 | a query keeps table order: rows added later are returned after rows added earlier |
| Rows.FilterKeepsAll | keystone/contrib/roles/backends/sql.py:145-156 | a condition that admits every row returns the whole table unchanged |
| Rows.FilterKeepsDistinct | keystone/contrib/roles/backends/sql.py:134-140 | deleting rows by a condition never creates a repeated row |
| Rows.DistinctOccursOnce | keystone/contrib/roles/backends/sql.py:60-74 | in a table whose whole row is the primary key, a stored row occurs exactly once |
| Rows.Grant | keystone/contrib/roles/backends/sql.py:166-179 | check-then-insert: the row is present afterwards; a present row leaves the table unchanged; a new row is appended at the end, after the old table |
| Rows.Revoke | keystone/contrib/roles/backends/sql.py:190-200 | check-then-delete: the row is absent afterwards, every other row stays, and an absent row leaves the table unchanged |
| Rows.GrantStoresOnce | keystone/contrib/roles/backends/sql.py:166-179 | a grant keeps a duplicate-free table duplicate-free and stores the granted row exactly once |
| Rows.RevokeDropsOne | keystone/contrib/roles/backends/sql.py:190-200 | revoking a stored row shortens the table by exactly one row |
| Rows.RevokeKeepsDistinct | keystone/contrib/roles/backends/sql.py:190-200 | a revoke keeps a duplicate-free table duplicate-free |
| Rows.RevokeUndoesGrant | keystone/contrib/roles/backends/sql.py:166-200 | revoking a row that a grant just added restores the table exactly |
| Rows.RevokeKeepsOrder | keystone/contrib/roles/backends/sql.py:190-200 | revoking a stored row removes it from where it stands and leaves every other row in its original order |
| Rows.GrantRevokeIdempotent | keystone/contrib/roles/backends/sql.py:171-173 | granting twice equals granting once; revoking twice equals revoking once |
| Tables.RoleIndex | keystone/contrib/roles/backends/sql.py:108-110 | the lookup by primary key finds a position exactly when a role with that id is stored; the role there has that id and no earlier role has it |
| Tables.PermissionIndex | keystone/contrib/roles/backends/sql.py:271-273 | the lookup by primary key finds a position exactly when a permission with that id is stored; the permission there has that id and no earlier permission has it |
| Tables.GetRole | keystone/contrib/roles/backends/sql.py:108-118 | a stored role with the id is returned exactly when one exists; otherwise NotFound for a role with that id |
| Tables.GetPermission | keystone/contrib/roles/backends/sql.py:271-281 | a stored permission with the id is returned exactly when one exists; otherwise NotFound for a permission with that id |
| Tables.AppendKeepsUnique | keystone/contrib/roles/backends/sql.py:21-34 | adding an entity whose id and `(name, application_id)` are both unused keeps both keys unique |
| Tables.ReplaceKeepsUnique | keystone/contrib/roles/backends/sql.py:121-127 | overwriting an entity in place, keeping its id and taking no other entity's scoped name, keeps both keys unique |
| Tables.FilterKeepsUnique | keystone/contrib/roles/backends/sql.py:129-142 | deleting entities keeps both keys unique |
| Tables.ResolveUnderCoveringTables | keystone/contrib/roles/backends/sql.py:50-87 | join rows keep referring to stored entities when every old id is still stored |
| Tables.ReplaceKeepsRoleIds | keystone/contrib/roles/backends/sql.py:121-127 | updating a role in place leaves every role id stored |
| Tables.ReplaceKeepsPermissionIds | keystone/contrib/roles/backends/sql.py:283-289 | updating a permission in place leaves every permission id stored |
| Tables.WithoutRoleResolves | keystone/contrib/roles/backends/sql.py:129-142 | after a role is deleted, every other role id is still stored |
| Tables.WithoutPermissionResolves | keystone/contrib/roles/backends/sql.py:291-300 | after a permission is deleted, every other permission id is still stored |
| Tables.DeleteRoleUndoesCreate | keystone/contrib/roles/backends/sql.py:100-142 | deleting a role just created restores the role table, the permission links and the user grants exactly |
| Tables.DeletePermissionUndoesCreate | keystone/contrib/roles/backends/sql.py:263-300 | deleting a permission just created restores the permission table and the permission links exactly |
| Tables.CascadeKeepsOrganizationGrantsResolving | keystone/contrib/roles/backends/sql.py:76-87 | when a role delete also removes that role's organization grants, every remaining grant refers to a stored role |
| Tables.ListRoles | keystone/contrib/roles/backends/sql.py:93-98 | with no filter, the whole table in order; with an application id, exactly the roles of that application |
| Tables.ListPermissions | keystone/contrib/roles/backends/sql.py:256-261 | with no filter, the whole table in order; with an application id, exactly the permissions of that application |
| Tables.CreatedRoleListedLast | keystone/contrib/roles/backends/sql.py:93-106 | a created role is listed last, after the listing as it was before, when it matches the filter; other listings do not change |
| Tables.CreatedPermissionListedLast | keystone/contrib/roles/backends/sql.py:256-269 | a created permission is listed last, after the listing as it was before, when it matches the filter; other listings do not change |
| Tables.ListRoleUserAssignments | keystone/contrib/roles/backends/sql.py:145-156 | a user grant is listed exactly when it is stored and agrees with each filter that is given and non-empty |
| Tables.ListRoleOrganizationAssignments | keystone/contrib/roles/backends/sql.py:203-212 | an organization grant is listed exactly when it is stored and agrees with each filter that is given and non-empty |
| Tables.UnfilteredListingsAreTables | keystone/contrib/roles/backends/sql.py:145-212 | with no filters, each assignment listing is its whole table in grant order |
| Tables.UserGrantListedLast | keystone/contrib/roles/backends/sql.py:145-179 | a new user grant that matches the filters is listed last, after the old listing; any other grant leaves the listing unchanged |
| Tables.OrganizationGrantListedLast | keystone/contrib/roles/backends/sql.py:203-234 | a new organization grant that matches the filters is listed last, after the old listing; any other grant leaves the listing unchanged |
| Tables.ListPermissionsForRole | keystone/contrib/roles/backends/sql.py:302-308 | NotFound for the role exactly when it is not stored; otherwise exactly the stored permissions linked to that role |
| Patches.ApplyRoleUpdate | keystone/contrib/roles/backends/sql.py:125-126 | one attribute assignment writes the attribute it names, leaves every other attribute alone, and keeps the id |
| Patches.PatchedRole | keystone/contrib/roles/backends/sql.py:121-127 | applying a patch keeps the role id |
| Patches.PatchedRoleAttributes | keystone/contrib/roles/backends/sql.py:121-127 | a patched role keeps each attribute the patch does not name, and takes the last value given for each attribute it names |
| Patches.ApplyPermissionUpdate | keystone/contrib/roles/backends/sql.py:287-288 | one attribute assignment writes the attribute it names, leaves every other attribute alone, and keeps the id |
| Patches.PatchedPermission | keystone/contrib/roles/backends/sql.py:283-289 | applying a patch keeps the permission id |
| Patches.PatchedPermissionAttributes | keystone/contrib/roles/backends/sql.py:283-289 | a patched permission keeps each attribute the patch does not name, and takes the last value given for each attribute it names |
| Store.Roles.constructor | keystone/contrib/roles/backends/sql.py:90-91 | the store starts with five empty tables, which satisfy every integrity predicate |
| Store.Roles.CreateRole | keystone/contrib/roles/backends/sql.py:100-106 | Conflict exactly when the id or the `(name, application_id)` is already used; otherwise the role is appended; no other table changes; integrity kept |
| Store.Roles.UpdateRole | keystone/contrib/roles/backends/sql.py:121-127 | NotFound for an unknown id. Otherwise the stored role is replaced in place by the patched role. Conflict, changing nothing, when the patched name is taken within its application. Integrity kept |
| Store.Roles.DeleteRole | keystone/contrib/roles/backends/sql.py:129-142 | NotFound for an unknown id. Otherwise the role, its permission links and its user grants are removed, and its organization grants stay. Afterwards the role is gone and listing its permissions is NotFound |
| Store.Roles.DeleteRoleCascading | keystone/contrib/roles/backends/sql.py:129-142 | corrected delete: as `DeleteRole`, and it also removes the role's organization grants, so those grants keep referring to stored roles |
| Store.Roles.RemoveRoleKeepsValid | keystone/contrib/roles/backends/sql.py:129-142 | the tables left by the role delete keep unique keys and resolving links and user grants |
| Store.Roles.AddRoleToUser | keystone/contrib/roles/backends/sql.py:159-179 | NotFound for role, then user, then organization, in that order. Otherwise the grant is stored exactly once, and a repeated grant changes nothing. Only the user grants change |
| Store.Roles.RemoveRoleFromUser | keystone/contrib/roles/backends/sql.py:181-200 | the same checks, made only when `check_ids` is set. Then the grant is revoked, and a stored grant shortens the table by one. Only the user grants change |
| Store.Roles.AddRoleToOrganization | keystone/contrib/roles/backends/sql.py:215-234 | with `check_ids`, NotFound for role, then organization. Otherwise the grant is stored exactly once. Only the organization grants change |
| Store.Roles.RemoveRoleFromOrganization | keystone/contrib/roles/backends/sql.py:236-253 | with `check_ids`, NotFound for role, then organization. Otherwise the grant is revoked. Only the organization grants change |
| Store.Roles.CreatePermission | keystone/contrib/roles/backends/sql.py:263-269 | Conflict exactly when the id or the `(name, application_id)` is already used; otherwise the permission is appended; no other table changes |
| Store.Roles.UpdatePermission | keystone/contrib/roles/backends/sql.py:283-289 | NotFound for an unknown id. Otherwise the stored permission is replaced in place by the patched permission. Conflict, changing nothing, when the patched name is taken within its application |
| Store.Roles.DeletePermission | keystone/contrib/roles/backends/sql.py:291-300 | NotFound for an unknown id. Otherwise the permission and its role links are removed, and grants and roles are untouched |
| Store.Roles.AddPermissionToRole | keystone/contrib/roles/backends/sql.py:310-323 | NotFound for role, then permission. Otherwise the link is stored exactly once, and a repeated link changes nothing |
| Store.Roles.RemovePermissionFromRole | keystone/contrib/roles/backends/sql.py:325-337 | NotFound for role, then permission. Otherwise the link is revoked, and a stored link shortens the table by one |
| Store.DeleteRoleStrandsOrganizationGrant | keystone/contrib/roles/backends/sql.py:129-142 | creating a role, granting it to an organization and deleting it through the modelled operations leaves a valid store whose organization grant refers to no stored role |

## Left out

- Sessions and transactions: each method is treated as atomic. The check-then-insert of a grant is not atomic in the driver: its query runs before `session.begin()`. Concurrent callers can therefore race, and the model does not capture that.
- The identity, project and OAuth2 consumer services: only whether an id is known, as the `Directory` argument. The consumer check is commented out in the driver.
- `to_dict` / `from_dict`: the rendering of rows as dictionaries is not modelled. This includes the `attributes` list of `Permission`, which joins `'action' 'resource'` into one name. Operations return the row values.
- Tables.ListRoles: only the `application_id` filter of `list_roles(**kwargs)` is modelled, not arbitrary column filters. Tables.ListPermissions has the same limit.
- Store.Roles.UpdateRole: only the non-key attributes can be patched, with values of the column's type. A patch of `id`, an unknown attribute or a `None` in a non-nullable column is not modelled. Store.Roles.UpdatePermission has the same limit.
- Store.Roles.CreateRole: column defaults and width limits are not modelled. These are `is_internal` defaulting to false and the 64-, 10- and 256-character limits; the caller supplies every field. Store.Roles.CreatePermission has the same limit.
- Tables.ListPermissionsForRole: the result follows permission-table order. The SQL join gives no order guarantee.
- Foreign keys to `consumer_oauth2`, `user` and `project` are not enforced by the model. The referenced tables are not part of this model.
- Tables.GetRole, Store.Roles.CreateRole, Store.Roles.AddRoleToUser: every id, name and filter value is compared as an exact string, as SQLite's default BINARY collation does. This covers the lookups by primary key, the `(name, application_id)` unique constraints, the existence checks before each grant and revoke, and the listing filters. Under a case-insensitive collation, ids, names and grant rows that differ only in letter case would be treated as equal. A lookup would then find them, a create would raise Conflict, and a repeated grant would change nothing. The model does not capture this.
- Store.Roles.DeleteRole and Store.Roles.AddRoleToOrganization: the model assumes a database that does not enforce the foreign key from `role_organization_fiware.role_id` to `role_fiware.id`, as SQLite does by default. On a database that enforces it, deleting a role that still has organization grants fails with an integrity error and changes nothing. Adding an organization grant for an unknown role without `check_ids` fails the same way. The model instead completes both operations and tracks the resulting dangling grants with `OrganizationGrantsValid`.
- Schema migrations, the REST controllers, the token and resolver layers, and the tests are not part of this model.

## Findings

| source | as written | input that shows it | evidently intended | confidence | as-written member | corrected member |
|---|---|---|---|---|---|---|
| keystone/contrib/roles/backends/sql.py:129-142 | `delete_role` deletes the role's permission links and user grants, but not its rows in `role_organization_fiware` | role `r` of application `app` granted to organization `org`, then `delete_role("r")`: the grant stays and refers to no role (a database that enforces the foreign key of line 80 rejects the delete instead) | the cascade also removes the role's organization grants | medium, not executed | Store.DeleteRoleStrandsOrganizationGrant | Store.Roles.DeleteRoleCascading |
