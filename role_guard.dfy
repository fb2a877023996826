/**
  The Angular route guard: a route that names a role opens only for a
  signed-in user of exactly that role; every refusal sends the browser to
  the login page.
 */
module RoleGuard {
  import opened Records

  /** Whether navigation goes ahead, and where the guard sends the browser
      instead. */
  datatype GuardResult = GuardResult(allowed: bool, redirect: Option<string>)

  /** `canActivate`: `required` is the route's `data.role`, absent when the
      route names none (then nobody's role equals it). */
  function CanActivate(current: Option<User>, required: Option<Role>): (r: GuardResult)
    ensures r.allowed <==> current.Some? && required.Some? && current.value.role == required.value
    ensures !r.allowed <==> r.redirect == Some("/login")
    ensures r.allowed <==> r.redirect.None?
  {
    if current.Some? && required.Some? && current.value.role == required.value then
      GuardResult(true, None)
    else
      GuardResult(false, Some("/login"))
  }
}
