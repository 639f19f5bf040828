/** The role-based access check that guards the API routes (`require_permission`). */
module Dependencies {
  import opened Common
  import opened Models

  const SuperAdmin := "Super Admin"

  /** The access rule stated flat: an active user whose role is Super Admin, or whose role
      grants the permission. */
  predicate Grants(user: User, required: string)
  {
    user.isActive && user.role.Some? &&
    (user.role.value.name == SuperAdmin || required in user.role.value.permissions)
  }

  /** The 403 detail, which names the missing permission. */
  function DeniedDetail(required: string): string
  {
    "Permission denied. Requires: '" + required + "'"
  }

  /** `permission_checker` as built by `require_permission(required)`: `user` is what the token
      resolved to. The checks run in the source's order: authentication and activity, then
      Super Admin, then membership. A user without a role who is not rejected earlier makes
      `current_user.role.permissions` raise, which escapes the handler. */
  function PermissionChecker(required: string, user: Option<User>): (r: Result<User, Error>)
    ensures user.None? || !user.value.isActive ==>
              r == Failure(HttpError(401, "Not authenticated or inactive user"))
    ensures r.Success? <==> user.Some? && Grants(user.value, required)
    ensures r.Success? ==> user == Some(r.value)
    ensures r.Failure? && r.error.HttpError? && r.error.status == 403 ==>
              r.error.detail == DeniedDetail(required)
    ensures r.Failure? && user.Some? && user.value.isActive ==>
              if user.value.role.Some? then r.error == HttpError(403, DeniedDetail(required))
              else r.error.Uncaught?
  {
    if user.None? || !user.value.isActive then
      Failure(HttpError(401, "Not authenticated or inactive user"))
    else if user.value.role.Some? && user.value.role.value.name == SuperAdmin then
      Success(user.value)
    else if user.value.role.None? then
      Failure(Uncaught("AttributeError"))
    else if required !in user.value.role.value.permissions then
      Failure(HttpError(403, DeniedDetail(required)))
    else
      Success(user.value)
  }

  /** Granting a role more permissions never turns an accepted request into a rejected one,
      and a Super Admin is accepted whatever is required. */
  lemma MorePermissionsNeverHurt(required: string, u: User, extra: set<string>)
    requires u.role.Some?
    ensures PermissionChecker(required, Some(u)).Success? ==>
              PermissionChecker(required, Some(u.(role := Some(u.role.value.(permissions := u.role.value.permissions + extra))))).Success?
    ensures u.isActive && u.role.value.name == SuperAdmin ==>
              forall p :: PermissionChecker(p, Some(u)).Success?
  {
  }
}
