/** `handleLogin` of frontend/src/componentes/Auth/login.js: sign in, read
    the user's role, and go to the dashboard for that role. */
module Login {
  import opened JsValues

  const AdminDashboardRoute := "/AdminDashboard"
  const CashierDashboardRoute := "/CashierDashboard"
  const UnknownRole := "Rol no reconocido"

  /** The answer of `auth.signInWithPassword`. */
  datatype SignIn = SignInError(message: string) | SignedIn(user: string)

  /** The answer of the `profiles` role query: an error, or the row's `role`. */
  datatype RoleAnswer = RoleError(message: string) | RoleRow(role: Option<string>)

  /** Where a login attempt ends: the route it navigates to, the error it
      shows, and whether it queried the profile at all. */
  datatype LoginOutcome = LoginOutcome(route: Option<string>, error: Option<string>, profileQueried: bool)

  function HandleLogin(signIn: SignIn, answer: RoleAnswer): (o: LoginOutcome)
    ensures o.route.Some? <==> o.error.None?
    ensures o.profileQueried <==> signIn.SignedIn?
    ensures signIn.SignInError? ==> o.error == Some(signIn.message)
    ensures signIn.SignedIn? && answer.RoleError? ==> o.route.None? && o.error == Some(answer.message)
    ensures o.route == Some(AdminDashboardRoute) <==> signIn.SignedIn? && answer == RoleRow(Some("admin"))
    ensures o.route == Some(CashierDashboardRoute) <==> signIn.SignedIn? && answer == RoleRow(Some("cashier"))
    ensures o.error == Some(UnknownRole) && signIn.SignedIn? && answer.RoleRow? ==>
      answer.role != Some("admin") && answer.role != Some("cashier")
  {
    match signIn
    case SignInError(message) => LoginOutcome(None, Some(message), false)
    case SignedIn(_) =>
      match answer
      case RoleError(message) => LoginOutcome(None, Some(message), true)
      case RoleRow(role) =>
        if role == Some("admin") then LoginOutcome(Some(AdminDashboardRoute), None, true)
        else if role == Some("cashier") then LoginOutcome(Some(CashierDashboardRoute), None, true)
        else LoginOutcome(None, Some(UnknownRole), true)
  }

  /** Only the two known roles ever leave the login page. */
  lemma OnlyKnownRolesNavigate(signIn: SignIn, answer: RoleAnswer)
    ensures HandleLogin(signIn, answer).route.Some? ==>
      answer.RoleRow? && (answer.role == Some("admin") || answer.role == Some("cashier"))
    ensures signIn.SignedIn? && answer.RoleRow? && answer.role != Some("admin") && answer.role != Some("cashier") ==>
      HandleLogin(signIn, answer) == LoginOutcome(None, Some(UnknownRole), true)
  {
  }
}

/** `ProtectedRoute` of src/componentes/Auth/protectetroute.js: the
    authentication check run on mount and the render decision after it. */
module ProtectedRoute {
  import opened JsValues

  const LoginRoute := "/login"
  const UnauthorizedRoute := "/unauthorized"

  /** A signed-in user as the guard keeps it, with the role it read. */
  datatype GuardUser = GuardUser(id: string, role: Option<string>)

  /** The answer of the role query: whether it erred and the row, if any. */
  datatype RoleQuery = RoleQuery(failed: bool, row: Option<Option<string>>)

  /** `getUserRole(userId)`: the role, or `None` where it throws. */
  function GetUserRole(q: RoleQuery): (r: Option<Option<string>>)
    ensures r.None? <==> q.failed || q.row.None?
    ensures r.Some? ==> r == q.row
  {
    if q.failed || q.row.None? then None else q.row
  }

  /** `redirectByRole(role)`. */
  function RedirectByRole(role: Option<string>): (route: string)
    ensures route == "/admin" <==> role == Some("admin")
    ensures route == "/cashier" <==> role == Some("cashier")
    ensures route != "/admin" && route != "/cashier" ==> route == "/"
  {
    if role == Some("admin") then "/admin"
    else if role == Some("cashier") then "/cashier"
    else "/"
  }

  /** What `checkAuth` leaves: the route it navigates to, if any, and the
      `user` state. */
  datatype Check = Check(navigateTo: Option<string>, user: Option<GuardUser>)

  /** `checkAuth()` for a page kind, the required role (`roleRequired`, an
      empty string counting as none), the auth service's user, the role
      query's answer and the `user` state before. */
  function CheckAuth(isAuthPage: bool, roleRequired: Option<string>, authUser: Option<string>,
                     q: RoleQuery, user0: Option<GuardUser>): Check
  {
    if isAuthPage && authUser.Some? then
      // a failed role read on an auth page navigates nowhere
      if GetUserRole(q).None? then Check(None, user0)
      else Check(Some(RedirectByRole(GetUserRole(q).value)), user0)
    else if !isAuthPage && authUser.None? then Check(Some(LoginRoute), user0)
    else if authUser.Some? then
      if GetUserRole(q).None? then Check(Some(LoginRoute), user0)
      else
        var role := GetUserRole(q).value;
        var user := Some(GuardUser(authUser.value, role));
        if Truthy(roleRequired) && role != roleRequired then Check(Some(UnauthorizedRoute), user)
        else Check(None, user)
    else Check(None, user0)
  }

  /** The decision table of `checkAuth`. */
  lemma CheckAuthTable(isAuthPage: bool, roleRequired: Option<string>, authUser: Option<string>,
                       q: RoleQuery, user0: Option<GuardUser>)
    ensures var c := CheckAuth(isAuthPage, roleRequired, authUser, q, user0);
      && (isAuthPage && authUser.Some? && GetUserRole(q).Some? ==>
            c.navigateTo == Some(RedirectByRole(GetUserRole(q).value)))
      && (isAuthPage ==> c.navigateTo != Some(LoginRoute) && c.user == user0)
      && (!isAuthPage && authUser.None? ==> c.navigateTo == Some(LoginRoute))
      && (!isAuthPage && authUser.Some? && GetUserRole(q).None? ==> c.navigateTo == Some(LoginRoute))
      && (!isAuthPage && authUser.Some? && GetUserRole(q).Some? ==>
            && c.user == Some(GuardUser(authUser.value, GetUserRole(q).value))
            && (c.navigateTo == Some(UnauthorizedRoute) <==> Truthy(roleRequired) && GetUserRole(q).value != roleRequired)
            && (c.navigateTo.None? <==> !Truthy(roleRequired) || GetUserRole(q).value == roleRequired))
  {
  }

  /** Without a required role every signed-in user whose role can be read
      passes a protected page. */
  lemma NoRequiredRoleAdmitsAll(roleRequired: Option<string>, id: string, q: RoleQuery, user0: Option<GuardUser>)
    requires !Truthy(roleRequired) && GetUserRole(q).Some?
    ensures CheckAuth(false, roleRequired, Some(id), q, user0).navigateTo.None?
  {
  }

  /** What the guard renders. */
  datatype View = Spinner | Children | Nothing

  /** The render decision. */
  function Render(loading: bool, isAuthPage: bool, user: Option<GuardUser>): (v: View)
    ensures v == Spinner <==> loading
    ensures v == Children <==> !loading && (isAuthPage <==> user.None?)
  {
    if loading then Spinner
    else if isAuthPage && user.None? then Children
    else if !isAuthPage && user.Some? then Children
    else Nothing
  }

  /** After the check, a protected page shows its children exactly when the
      role of a signed-in user could be read, or a user was already kept;
      the children show even on the way to `/unauthorized`. */
  lemma ProtectedPageShows(roleRequired: Option<string>, authUser: Option<string>, q: RoleQuery, user0: Option<GuardUser>)
    ensures var c := CheckAuth(false, roleRequired, authUser, q, user0);
      && (Render(false, false, c.user) == Children <==> (authUser.Some? && GetUserRole(q).Some?) || user0.Some?)
      && (c.navigateTo == Some(UnauthorizedRoute) ==> Render(false, false, c.user) == Children)
  {
  }

  /** An auth page with nobody signed in shows its children and navigates
      nowhere. */
  lemma AuthPageShowsWhenSignedOut(roleRequired: Option<string>, q: RoleQuery)
    ensures CheckAuth(true, roleRequired, None, q, None) == Check(None, None)
    ensures Render(false, true, None) == Children
  {
  }
}
