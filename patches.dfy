/**
 * Partial updates of roles and permissions. The driver copies each supplied
 * attribute onto the stored entity in turn; a patch is modelled as the
 * sequence of those attribute assignments, over the non-key attributes.
 */
module Patches {
  import opened Records

  datatype RoleAttribute = RoleNameAttribute | RoleInternalAttribute | RoleApplicationAttribute

  datatype RoleUpdate =
    | SetRoleName(name: string)
    | SetRoleInternal(isInternal: bool)
    | SetRoleApplication(applicationId: Id)

  function RoleTarget(u: RoleUpdate): RoleAttribute {
    match u
    case SetRoleName(_) => RoleNameAttribute
    case SetRoleInternal(_) => RoleInternalAttribute
    case SetRoleApplication(_) => RoleApplicationAttribute
  }

  datatype PermissionAttribute =
    | PermissionNameAttribute | PermissionInternalAttribute | PermissionApplicationAttribute
    | ActionAttribute | ResourceAttribute | XmlAttribute

  datatype PermissionUpdate =
    | SetPermissionName(name: string)
    | SetPermissionInternal(isInternal: bool)
    | SetPermissionApplication(applicationId: Id)
    | SetAction(action: Option<string>)
    | SetResource(resource: Option<string>)
    | SetXml(xml: Option<string>)

  function PermissionTarget(u: PermissionUpdate): PermissionAttribute {
    match u
    case SetPermissionName(_) => PermissionNameAttribute
    case SetPermissionInternal(_) => PermissionInternalAttribute
    case SetPermissionApplication(_) => PermissionApplicationAttribute
    case SetAction(_) => ActionAttribute
    case SetResource(_) => ResourceAttribute
    case SetXml(_) => XmlAttribute
  }

  /** The value an attribute holds, whatever its column type. */
  datatype Value = Text(text: string) | Flag(flag: bool) | OptionalText(optional: Option<string>)

  /** The assignment at `i` is the last one in `us` that targets attribute `a`. */
  ghost predicate IsLastUpdate<U, A>(us: seq<U>, target: U -> A, a: A, i: int) {
    && 0 <= i < |us|
    && target(us[i]) == a
    && forall j | i < j < |us| :: target(us[j]) != a
  }

  /** No assignment in `us` targets attribute `a`. */
  ghost predicate Untouched<U, A>(us: seq<U>, target: U -> A, a: A) {
    forall i | 0 <= i < |us| :: target(us[i]) != a
  }

  function RoleValue(r: Role, a: RoleAttribute): Value {
    match a
    case RoleNameAttribute => Text(r.name)
    case RoleInternalAttribute => Flag(r.isInternal)
    case RoleApplicationAttribute => Text(r.applicationId)
  }

  function RoleUpdateValue(u: RoleUpdate): Value {
    match u
    case SetRoleName(n) => Text(n)
    case SetRoleInternal(b) => Flag(b)
    case SetRoleApplication(a) => Text(a)
  }

  /** One `setattr` on a role: it writes the targeted attribute and nothing else. */
  function ApplyRoleUpdate(r: Role, u: RoleUpdate): (p: Role)
    ensures p.id == r.id
    ensures forall a :: RoleValue(p, a) == (if a == RoleTarget(u) then RoleUpdateValue(u) else RoleValue(r, a))
  {
    match u
    case SetRoleName(n) => r.(name := n)
    case SetRoleInternal(b) => r.(isInternal := b)
    case SetRoleApplication(a) => r.(applicationId := a)
  }

  /** The role after the assignments of `us`, applied from first to last. */
  function PatchedRole(r: Role, us: seq<RoleUpdate>): (p: Role)
    ensures p.id == r.id
    decreases |us|
  {
    if us == [] then r else ApplyRoleUpdate(PatchedRole(r, us[..|us| - 1]), us[|us| - 1])
  }

  /**
   * A patched role keeps every attribute the patch does not mention and
   * takes, for every attribute it does mention, the last value supplied.
   */
  lemma {:induction false} PatchedRoleAttributes(r: Role, us: seq<RoleUpdate>)
    ensures forall a | Untouched(us, RoleTarget, a) :: RoleValue(PatchedRole(r, us), a) == RoleValue(r, a)
    ensures forall a, i | IsLastUpdate(us, RoleTarget, a, i) :: RoleValue(PatchedRole(r, us), a) == RoleUpdateValue(us[i])
  {
    if us != [] {
      var n := |us| - 1;
      var init := us[..n];
      PatchedRoleAttributes(r, init);
      forall a | Untouched(us, RoleTarget, a)
        ensures RoleValue(PatchedRole(r, us), a) == RoleValue(r, a)
      {
        forall i | 0 <= i < |init| ensures RoleTarget(init[i]) != a {
          assert init[i] == us[i];
        }
        assert RoleTarget(us[n]) != a;
      }
      forall a, i | IsLastUpdate(us, RoleTarget, a, i)
        ensures RoleValue(PatchedRole(r, us), a) == RoleUpdateValue(us[i])
      {
        if i < n {
          forall j | i < j < |init| ensures RoleTarget(init[j]) != a {
            assert init[j] == us[j];
          }
          assert IsLastUpdate(init, RoleTarget, a, i);
          assert init[i] == us[i];
        }
      }
    }
  }

  function PermissionValue(p: Permission, a: PermissionAttribute): Value {
    match a
    case PermissionNameAttribute => Text(p.name)
    case PermissionInternalAttribute => Flag(p.isInternal)
    case PermissionApplicationAttribute => Text(p.applicationId)
    case ActionAttribute => OptionalText(p.action)
    case ResourceAttribute => OptionalText(p.resource)
    case XmlAttribute => OptionalText(p.xml)
  }

  function PermissionUpdateValue(u: PermissionUpdate): Value {
    match u
    case SetPermissionName(n) => Text(n)
    case SetPermissionInternal(b) => Flag(b)
    case SetPermissionApplication(a) => Text(a)
    case SetAction(v) => OptionalText(v)
    case SetResource(v) => OptionalText(v)
    case SetXml(v) => OptionalText(v)
  }

  /** One `setattr` on a permission: it writes the targeted attribute and nothing else. */
  function ApplyPermissionUpdate(p: Permission, u: PermissionUpdate): (q: Permission)
    ensures q.id == p.id
    ensures forall a ::
              PermissionValue(q, a) == (if a == PermissionTarget(u) then PermissionUpdateValue(u) else PermissionValue(p, a))
  {
    match u
    case SetPermissionName(n) => p.(name := n)
    case SetPermissionInternal(b) => p.(isInternal := b)
    case SetPermissionApplication(a) => p.(applicationId := a)
    case SetAction(v) => p.(action := v)
    case SetResource(v) => p.(resource := v)
    case SetXml(v) => p.(xml := v)
  }

  /** The permission after the assignments of `us`, applied from first to last. */
  function PatchedPermission(p: Permission, us: seq<PermissionUpdate>): (q: Permission)
    ensures q.id == p.id
    decreases |us|
  {
    if us == [] then p else ApplyPermissionUpdate(PatchedPermission(p, us[..|us| - 1]), us[|us| - 1])
  }

  /**
   * A patched permission keeps every attribute the patch does not mention
   * and takes, for every attribute it does mention, the last value supplied.
   */
  lemma {:induction false} PatchedPermissionAttributes(p: Permission, us: seq<PermissionUpdate>)
    ensures forall a | Untouched(us, PermissionTarget, a) ::
      PermissionValue(PatchedPermission(p, us), a) == PermissionValue(p, a)
    ensures forall a, i | IsLastUpdate(us, PermissionTarget, a, i) ::
      PermissionValue(PatchedPermission(p, us), a) == PermissionUpdateValue(us[i])
  {
    if us != [] {
      var n := |us| - 1;
      var init := us[..n];
      PatchedPermissionAttributes(p, init);
      forall a | Untouched(us, PermissionTarget, a)
        ensures PermissionValue(PatchedPermission(p, us), a) == PermissionValue(p, a)
      {
        forall i | 0 <= i < |init| ensures PermissionTarget(init[i]) != a {
          assert init[i] == us[i];
        }
        assert PermissionTarget(us[n]) != a;
      }
      forall a, i | IsLastUpdate(us, PermissionTarget, a, i)
        ensures PermissionValue(PatchedPermission(p, us), a) == PermissionUpdateValue(us[i])
      {
        if i < n {
          forall j | i < j < |init| ensures PermissionTarget(init[j]) != a {
            assert init[j] == us[j];
          }
          assert IsLastUpdate(init, PermissionTarget, a, i);
          assert init[i] == us[i];
        }
      }
    }
  }
}
