/** The roles guard: a route's required roles against the authenticated user's role. */
module RolesGuard {
  import opened Common

  /** No role restriction: the metadata is absent or lists no role. */
  predicate Unrestricted(requiredRoles: Option<seq<Role>>) {
    requiredRoles.None? || |requiredRoles.value| == 0
  }

  /** The capability the guard enforces: an unrestricted route, or a user holding one of the listed roles. */
  predicate Entitled(requiredRoles: Option<seq<Role>>, user: Option<RequestUser>) {
    Unrestricted(requiredRoles) || (user.Some? && user.value.role in requiredRoles.value)
  }

  /** `RolesGuard.canActivate`, with the roles metadata passed in as data. */
  function CanActivate(requiredRoles: Option<seq<Role>>, user: Option<RequestUser>): (r: GuardResult)
    ensures r == Allow <==> Entitled(requiredRoles, user)
    ensures r != NotFound
    ensures !Unrestricted(requiredRoles) && user.None? ==> r == Forbidden(AccessDenied)
    ensures !Unrestricted(requiredRoles) && user.Some? && user.value.role !in requiredRoles.value
            ==> r == Forbidden(InsufficientPermissions)
  {
    if Unrestricted(requiredRoles) then Allow
    else if user.None? then Forbidden(AccessDenied)
    else if user.value.role !in requiredRoles.value then Forbidden(InsufficientPermissions)
    else Allow
  }

  /** An unrestricted route admits every request, with or without a user. */
  lemma UnrestrictedAllowsAnyone(requiredRoles: Option<seq<Role>>, user: Option<RequestUser>)
    requires Unrestricted(requiredRoles)
    ensures CanActivate(requiredRoles, user) == Allow
  {
  }

  /** Listing more roles never takes access away from anyone. */
  lemma MoreRolesAdmitMore(roles: seq<Role>, extra: seq<Role>, user: Option<RequestUser>)
    requires |roles| > 0
    requires CanActivate(Some(roles), user) == Allow
    ensures CanActivate(Some(roles + extra), user) == Allow
  {
  }
}
