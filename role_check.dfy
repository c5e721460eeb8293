/** `RoleCheckMiddleware(roles)`: lets a request through only when the role in
    its claims is one of the allowed roles. */
module RoleCheck {
  import opened Errors
  import opened Jwt
  import opened JsValues
  import opened ApiErrors

  datatype GateResult = Pass | Deny(error: Thrown)

  /** The role `req.user?.role` gives; "" when there is no user or no role. */
  function RoleOf(user: Option<Claims>): string
  {
    if user.Some? then user.value.role else ""
  }

  function DenialMessage(roles: seq<string>): string
  {
    "Access denied. Required roles: " + Join(roles, ", ")
  }

  /** The gate made for `roles`, applied to a request whose `req.user` is `user`. */
  function Gate(roles: seq<string>, user: Option<Claims>): (g: GateResult)
    ensures g.Pass? ==> user.Some? && user.value.role != "" && user.value.role in roles
    ensures g.Deny? ==> g.error == Call(Forbidden, DenialMessage(roles))
  {
    var role := RoleOf(user);
    if role == "" || role !in roles then Deny(Call(Forbidden, DenialMessage(roles))) else Pass
  }

  /** A request passes exactly when it has a user whose non-empty role is in
      the list; otherwise it is refused with a 403 ApiError naming the roles,
      never with anything else. */
  lemma GateCases(roles: seq<string>, user: Option<Claims>)
    ensures Gate(roles, user).Pass? <==> user.Some? && user.value.role != "" && user.value.role in roles
    ensures Gate(roles, user).Deny? ==> Gate(roles, user).error == Api(ApiError(403, DenialMessage(roles)))
    ensures user.None? ==> Gate(roles, user).Deny?
  {
  }

  /** Allowing more roles never refuses a request that passed. */
  lemma GateMonotone(roles: seq<string>, more: seq<string>, user: Option<Claims>)
    requires forall r :: r in roles ==> r in more
    ensures Gate(roles, user).Pass? ==> Gate(more, user).Pass?
  {
  }
}
