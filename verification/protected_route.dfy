/** The route guard wrapped around protected pages. */
module ProtectedRoute {
  import opened Wrappers
  import opened Schema
  import opened Auth

  /** What the guard renders. */
  datatype Decision = Spinner | RedirectToLogin | RedirectToHome | RenderChildren

  /** `roles.some(r => allowedRoles.includes(r.role))`. */
  predicate HoldsOneOf(roles: seq<UserRole>, allowed: seq<AppRole>) {
    exists i :: 0 <= i < |roles| && roles[i].role in allowed
  }

  /** A missing or empty list of allowed roles skips the role check. */
  predicate RoleCheckPasses(roles: seq<UserRole>, allowedRoles: Option<seq<AppRole>>) {
    allowedRoles.None? || |allowedRoles.value| == 0 || HoldsOneOf(roles, allowedRoles.value)
  }

  /** The guard's chain: loading, then authentication (when required), then roles. */
  function Guard(isLoading: bool, requireAuth: bool, user: Option<string>, roles: seq<UserRole>,
                 allowedRoles: Option<seq<AppRole>>): (d: Decision)
    ensures isLoading ==> d == Spinner
    ensures d == RedirectToLogin <==> !isLoading && requireAuth && user.None?
    ensures d == RedirectToHome <==>
              !isLoading && (!requireAuth || user.Some?) && !RoleCheckPasses(roles, allowedRoles)
    ensures d == RenderChildren <==>
              !isLoading && (!requireAuth || user.Some?) && RoleCheckPasses(roles, allowedRoles)
  {
    if isLoading then Spinner
    else if requireAuth && user.None? then RedirectToLogin
    else if allowedRoles.Some? && |allowedRoles.value| > 0 && !HoldsOneOf(roles, allowedRoles.value) then RedirectToHome
    else RenderChildren
  }

  /** The role list of the admin area. */
  const AdminRoles := [SuperAdmin, CityManager, SalonManager, Staff]

  /** A signed-in, loaded user passes the admin area's guard exactly when `isAdmin` holds. */
  lemma AdminAreaIsAdmin(user: string, roles: seq<UserRole>)
    ensures Guard(false, true, Some(user), roles, Some(AdminRoles)) == RenderChildren <==> IsAdmin(FlagsOf(roles))
  {
    IsAdminIff(roles);
    if IsAdmin(FlagsOf(roles)) {
      var i :| 0 <= i < |roles| && roles[i].role != Customer;
      assert roles[i].role in AdminRoles;
    }
  }

  /** After sign-out (no user, no roles) no page that requires sign-in or a role renders. */
  lemma SignedOutSeesNothingProtected(isLoading: bool, requireAuth: bool, allowed: seq<AppRole>)
    requires requireAuth || |allowed| > 0
    ensures Guard(isLoading, requireAuth, None, [], Some(allowed)) != RenderChildren
  {
  }
}
