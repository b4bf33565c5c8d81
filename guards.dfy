/** The two request guards: the products service's role guard, fed by the
    gateway's `x-user-role` header, and the finance service's shared-secret
    guard on `x-gateway-secret`. */
module Guards {
  import opened Wrappers

  datatype GuardError =
    | NoRoleProvided   // ForbiddenException('Access Denied: No role provided')
    | ServiceAuthFailed  // UnauthorizedException('Service-to-Service authentication failed')

  /** `requiredRoles.some(role => role === userRole)`. */
  function SomeEquals(required: seq<string>, userRole: string): (r: bool)
    ensures r <==> userRole in required
  {
    if |required| == 0 then false
    else required[0] == userRole || SomeEquals(required[1..], userRole)
  }

  /** `RolesGuard.canActivate`: no role metadata allows everything (an empty
      list is metadata and allows nobody); required roles with no header are
      forbidden; otherwise the header must be one of the roles. */
  function RolesCanActivate(required: Option<seq<string>>, userRole: Option<string>): (r: Result<bool, GuardError>)
    ensures required.None? ==> r == Ok(true)
    ensures required.Some? && !Truthy(userRole) ==> r == Err(NoRoleProvided)
    ensures required.Some? && Truthy(userRole) ==> r == Ok(userRole.value in required.value)
  {
    if required.None? then Ok(true)
    else if !Truthy(userRole) then Err(NoRoleProvided)
    else Ok(SomeEquals(required.value, userRole.value))
  }

  /** Requiring more roles never turns an allowed request away: whatever a
      list allows, any list holding its roles allows too. */
  lemma RolesMonotone(required: seq<string>, more: seq<string>, userRole: Option<string>)
    requires forall role :: role in required ==> role in more
    requires RolesCanActivate(Some(required), userRole) == Ok(true)
    ensures RolesCanActivate(Some(more), userRole) == Ok(true)
  {
  }

  /** Only a present header can be allowed once roles are required. */
  lemma RolesAllowedOnlyWithRole(required: seq<string>, userRole: Option<string>)
    ensures RolesCanActivate(Some(required), userRole) == Ok(true)
        <==> Truthy(userRole) && userRole.value in required
  {
  }

  /** `ServiceAuthGuard.canActivate`: without a configured secret (unset or
      empty) every request is refused with `false`; with one, a header that
      differs or is missing is unauthorized, and an equal header passes. */
  function ServiceCanActivate(expectedSecret: Option<string>, secretHeader: Option<string>): (r: Result<bool, GuardError>)
    ensures !Truthy(expectedSecret) ==> r == Ok(false)
    ensures Truthy(expectedSecret) && secretHeader != expectedSecret ==> r == Err(ServiceAuthFailed)
    ensures Truthy(expectedSecret) && secretHeader == expectedSecret ==> r == Ok(true)
  {
    if !Truthy(expectedSecret) then Ok(false)
    else if secretHeader != expectedSecret then Err(ServiceAuthFailed)
    else Ok(true)
  }

  /** A request passes only with a header equal to a configured, non-empty
      secret; and `false` is returned only when no secret is configured. */
  lemma ServicePassMeansSecretMatched(expectedSecret: Option<string>, secretHeader: Option<string>)
    ensures ServiceCanActivate(expectedSecret, secretHeader) == Ok(true)
        <==> expectedSecret.Some? && expectedSecret.value != "" && secretHeader == expectedSecret
    ensures ServiceCanActivate(expectedSecret, secretHeader) == Ok(false) <==> !Truthy(expectedSecret)
  {
  }
}
