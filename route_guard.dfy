/** The access decision of the protected-route wrapper: from the session
    state, the route's restrictions and the requested path, whether to show
    the spinner, redirect, or render the page. */
module RouteGuard {
  import opened Wrappers
  import opened JsStrings

  datatype UserType = Staff | Owner

  /** The signed-in user; a missing or empty role counts as no role. */
  datatype UserSession = UserSession(id: string, email: string, name: string, role: Option<string>, userType: UserType)

  /** What the wrapper renders. A redirect to a login page remembers the
      path the visitor asked for. */
  datatype Decision =
    | Spinner
    | Redirect(path: string, from: Option<string>)
    | RenderChildren
    | RenderOutlet

  predicate HasRole(u: UserSession) {
    u.role.Some? && u.role.value != ""
  }

  /** The role test: it applies only when the route lists roles and the user has one. */
  predicate RolePermits(u: UserSession, allowedRoles: seq<string>) {
    |allowedRoles| == 0 || !HasRole(u) || u.role.value in allowedRoles
  }

  /** Where an authenticated user is sent when refused: owners to their
      dashboard, staff to the home page. */
  function HomeOf(u: UserSession): (path: string)
    ensures path == "/owner/dashboard" <==> u.userType == Owner
  {
    if u.userType == Owner then "/owner/dashboard" else "/"
  }

  /** `ProtectedRoute`: loading, then authentication, then the user type,
      then the role; the first test that fails decides. */
  function Guard(loading: bool, isAuthenticated: bool, user: Option<UserSession>, allowedRoles: seq<string>,
                 userType: Option<UserType>, pathname: string, hasChildren: bool): (d: Decision)
    ensures loading ==> d == Spinner
    ensures d.Redirect? && d.from.Some? ==> d.from.value == pathname && (d.path == "/login" || d.path == "/owner/login")
  {
    if loading then Spinner
    else if !isAuthenticated || user.None? then
      Redirect(if StartsWith(pathname, "/owner") then "/owner/login" else "/login", Some(pathname))
    else if userType.Some? && user.value.userType != userType.value then
      Redirect(HomeOf(user.value), None)
    else if !RolePermits(user.value, allowedRoles) then
      Redirect(HomeOf(user.value), None)
    else if hasChildren then RenderChildren
    else RenderOutlet
  }

  /** The page is rendered exactly when every test passes. */
  lemma GuardRendersIff(loading: bool, isAuthenticated: bool, user: Option<UserSession>, allowedRoles: seq<string>,
                        userType: Option<UserType>, pathname: string, hasChildren: bool)
    ensures var d := Guard(loading, isAuthenticated, user, allowedRoles, userType, pathname, hasChildren);
      (d.RenderChildren? || d.RenderOutlet?) <==>
        (!loading && isAuthenticated && user.Some?
         && (userType.None? || user.value.userType == userType.value)
         && RolePermits(user.value, allowedRoles))
  {
  }

  /** Visitors without a session are sent to the owner login on any path
      starting with "/owner" (including the staff page "/owners"), and to
      the staff login elsewhere. */
  lemma GuardLoginRedirect(isAuthenticated: bool, user: Option<UserSession>, allowedRoles: seq<string>,
                           userType: Option<UserType>, rest: string, other: string, hasChildren: bool)
    requires !isAuthenticated || user.None?
    requires !StartsWith(other, "/owner")
    ensures Guard(false, isAuthenticated, user, allowedRoles, userType, "/owner" + rest, hasChildren)
            == Redirect("/owner/login", Some("/owner" + rest))
    ensures Guard(false, isAuthenticated, user, allowedRoles, userType, "/owners", hasChildren)
            == Redirect("/owner/login", Some("/owners"))
    ensures Guard(false, isAuthenticated, user, allowedRoles, userType, other, hasChildren)
            == Redirect("/login", Some(other))
  {
    assert ("/owner" + rest)[..6] == "/owner";
    assert "/owners"[..6] == "/owner";
  }

  /** A signed-in user who is refused is sent home, and the home depends
      only on the user's type, not on which test failed or on the path. */
  lemma GuardRefusalGoesHome(isAuthenticated: bool, u: UserSession, allowedRoles: seq<string>,
                             userType: Option<UserType>, pathname: string, hasChildren: bool)
    requires isAuthenticated
    ensures var d := Guard(false, isAuthenticated, Some(u), allowedRoles, userType, pathname, hasChildren);
      d.Redirect? ==> d == Redirect(HomeOf(u), None)
  {
  }

  /** A user without a role passes every role list, and a route without a
      type or role restriction admits every signed-in user. */
  lemma GuardRoleless(u: UserSession, allowedRoles: seq<string>, pathname: string, hasChildren: bool)
    requires !HasRole(u)
    ensures Guard(false, true, Some(u), allowedRoles, None, pathname, hasChildren)
            == (if hasChildren then RenderChildren else RenderOutlet)
    ensures Guard(false, true, Some(u), [], None, pathname, hasChildren)
            == Guard(false, true, Some(u.(role := Some("x"))), [], None, pathname, hasChildren)
  {
  }

  /** A user whose type does not match is refused even when the role would be accepted. */
  lemma GuardTypeBeforeRole(u: UserSession, allowedRoles: seq<string>, t: UserType, pathname: string, hasChildren: bool)
    requires u.userType != t
    requires RolePermits(u, allowedRoles)
    ensures Guard(false, true, Some(u), allowedRoles, Some(t), pathname, hasChildren) == Redirect(HomeOf(u), None)
  {
  }
}
