/** The route tables (the four files under server/route): each route is a verb, a path,
    the chain of guards Express runs before the handler, and the handler.
    Running a chain composes `isAuthenticated` and `authorizeRoles`. */
module Routes {
  import opened Js
  import opened Errors
  import opened UserModel
  import opened Http
  import opened Auth

  datatype Verb = Get | Post | Put | Delete

  /** `isAuthenticated`, or `authorizeRoles(...roles)`. */
  datatype Guard = RequireAuth | RequireRole(roles: seq<string>)

  /** The handler a route ends in. */
  datatype Action =
    | RegistrationUser | ActivateUser | LoginUser | LogoutUser | UpdateAccessToken | GetUserInfo
    | SocialAuth | UpdateUserInfo | UpdatePassword | UpdateProfilePicture | GetAllUsers
    | UploadCourse | EditCourse | GetSingleCourse | GetAllCourse | GetCourseByUser | AddQuestion
    | AddAnswer | AddReview | AddReply | GetAllCourses | DeleteCourse
    | CreateOrder
    | GetNotifications

  datatype Route = Route(verb: Verb, path: string, guards: seq<Guard>, action: Action)

  const AdminOnly := [RequireAuth, RequireRole(["admin"])]

  /** server/route/user.route.ts */
  const UserRoutes: seq<Route> := [
    Route(Post, "/registration", [], RegistrationUser),
    Route(Post, "/activate-user", [], ActivateUser),
    Route(Post, "/login", [], LoginUser),
    Route(Get, "/logout", [RequireAuth], LogoutUser),
    Route(Get, "/refresh-token", [], UpdateAccessToken),
    Route(Get, "/me", [RequireAuth], GetUserInfo),
    Route(Post, "/social-auth", [], SocialAuth),
    Route(Put, "/update-profile", [RequireAuth], UpdateUserInfo),
    Route(Put, "/update-password", [RequireAuth], UpdatePassword),
    Route(Put, "/update-avatar", [RequireAuth], UpdateProfilePicture),
    Route(Get, "/get-all-users", AdminOnly, GetAllUsers)
  ]

  /** server/route/course.route.ts */
  const CourseRoutes: seq<Route> := [
    Route(Post, "/create-course", AdminOnly, UploadCourse),
    Route(Put, "/edit-course/:id", AdminOnly, EditCourse),
    Route(Get, "/get-course/:id", [], GetSingleCourse),
    Route(Get, "/get-courses", [], GetAllCourse),
    Route(Get, "/get-course-content/:id", [RequireAuth], GetCourseByUser),
    Route(Put, "/add-question", [RequireAuth], AddQuestion),
    Route(Put, "/add-answer", [RequireAuth], AddAnswer),
    Route(Put, "/add-review/:id", [RequireAuth], AddReview),
    Route(Put, "/add-reply", AdminOnly, AddReply),
    Route(Get, "/get-all-courses", AdminOnly, GetAllCourses),
    Route(Delete, "/delete-course/:id", AdminOnly, DeleteCourse)
  ]

  /** server/route/order.route.ts */
  const OrderRoutes: seq<Route> := [
    Route(Post, "/create-order", [RequireAuth], CreateOrder)
  ]

  /** server/route/notification.route.ts */
  const NotificationRoutes: seq<Route> := [
    Route(Get, "/get-notifications", AdminOnly, GetNotifications)
  ]

  const AllRoutes := UserRoutes + CourseRoutes + OrderRoutes + NotificationRoutes

  /** Who may run each handler: anyone, any signed-in user, or a signed-in
      admin; the chain of guards that says so. */
  function Chain(a: Action): seq<Guard> {
    match a
    case RegistrationUser | ActivateUser | LoginUser | UpdateAccessToken | SocialAuth => []
    case GetSingleCourse | GetAllCourse => []
    case LogoutUser | GetUserInfo | UpdateUserInfo | UpdatePassword | UpdateProfilePicture => [RequireAuth]
    case GetCourseByUser | AddQuestion | AddAnswer | AddReview => [RequireAuth]
    case CreateOrder => [RequireAuth]
    case GetAllUsers | UploadCourse | EditCourse | AddReply | GetAllCourses | DeleteCourse => AdminOnly
    case GetNotifications => AdminOnly
  }

  /** Every user route runs the chain its handler calls for. */
  lemma UserRoutesFollowChains()
    ensures forall i :: 0 <= i < |UserRoutes| ==> UserRoutes[i].guards == Chain(UserRoutes[i].action)
  {
  }

  /** Every user handler is mounted. */
  lemma UserRoutesMountHandlers()
    ensures forall a: Action :: a.RegistrationUser? || a.ActivateUser? || a.LoginUser? || a.LogoutUser? ||
                                a.UpdateAccessToken? || a.GetUserInfo? || a.SocialAuth? || a.UpdateUserInfo? ||
                                a.UpdatePassword? || a.UpdateProfilePicture? || a.GetAllUsers? ==>
              exists i :: 0 <= i < |UserRoutes| && UserRoutes[i].action == a
  {
    forall a: Action | a.RegistrationUser? || a.ActivateUser? || a.LoginUser? || a.LogoutUser? ||
                       a.UpdateAccessToken? || a.GetUserInfo? || a.SocialAuth? || a.UpdateUserInfo? ||
                       a.UpdatePassword? || a.UpdateProfilePicture? || a.GetAllUsers?
      ensures exists i :: 0 <= i < |UserRoutes| && UserRoutes[i].action == a
    {
      var i := match a
        case RegistrationUser => 0 case ActivateUser => 1 case LoginUser => 2 case LogoutUser => 3
        case UpdateAccessToken => 4 case GetUserInfo => 5 case SocialAuth => 6 case UpdateUserInfo => 7
        case UpdatePassword => 8 case UpdateProfilePicture => 9 case _ => 10;
      assert UserRoutes[i].action == a;
    }
  }

  /** Every course route runs the chain its handler calls for. */
  lemma CourseRoutesFollowChains()
    ensures forall i :: 0 <= i < |CourseRoutes| ==> CourseRoutes[i].guards == Chain(CourseRoutes[i].action)
  {
  }

  /** Every course handler is mounted. */
  lemma CourseRoutesMountHandlers()
    ensures forall a: Action :: a.UploadCourse? || a.EditCourse? || a.GetSingleCourse? || a.GetAllCourse? ||
                                a.GetCourseByUser? || a.AddQuestion? || a.AddAnswer? || a.AddReview? ||
                                a.AddReply? || a.GetAllCourses? || a.DeleteCourse? ==>
              exists i :: 0 <= i < |CourseRoutes| && CourseRoutes[i].action == a
  {
    forall a: Action | a.UploadCourse? || a.EditCourse? || a.GetSingleCourse? || a.GetAllCourse? ||
                       a.GetCourseByUser? || a.AddQuestion? || a.AddAnswer? || a.AddReview? ||
                       a.AddReply? || a.GetAllCourses? || a.DeleteCourse?
      ensures exists i :: 0 <= i < |CourseRoutes| && CourseRoutes[i].action == a
    {
      var i := match a
        case UploadCourse => 0 case EditCourse => 1 case GetSingleCourse => 2 case GetAllCourse => 3
        case GetCourseByUser => 4 case AddQuestion => 5 case AddAnswer => 6 case AddReview => 7
        case AddReply => 8 case GetAllCourses => 9 case _ => 10;
      assert CourseRoutes[i].action == a;
    }
  }

  /** How a chain ends: the handler runs with this `req.user`, an answer or
      error is produced, or a guard leaves the request unanswered. */
  datatype Outcome = Reached(reqUser: Option<User>) | Blocked(reply: Reply) | Hung

  /** Express running the chain: each guard either calls `next()` and the
      next guard runs, or ends the chain. */
  function RunGuards(guards: seq<Guard>, jar: map<string, Cookie>, cache: map<nat, User>,
                     reqUser: Option<User>): Outcome
    decreases |guards|
  {
    if guards == [] then Reached(reqUser)
    else
      match guards[0]
      case RequireAuth =>
        (match Authenticate(jar, cache)
         case Authenticated(u) => RunGuards(guards[1..], jar, cache, Some(u))
         case Denied(e) => Blocked(Forwarded(e))
         case Unanswered => Hung)
      case RequireRole(roles) =>
        var r := AuthorizeRoles(roles, reqUser);
        if r == Proceed then RunGuards(guards[1..], jar, cache, reqUser) else Blocked(r)
  }

  /** A request as Express receives it: `req.user` is not yet set. */
  function Dispatch(r: Route, jar: map<string, Cookie>, cache: map<nat, User>): Outcome {
    RunGuards(r.guards, jar, cache, None)
  }

  /** Every role guard comes after an authentication guard. */
  predicate AuthBeforeRoles(guards: seq<Guard>) {
    forall i :: 0 <= i < |guards| && guards[i].RequireRole? ==>
      exists j :: 0 <= j < i && guards[j] == RequireAuth
  }

  /** The only chains the tables use. */
  predicate Canonical(guards: seq<Guard>) {
    guards == [] || guards == [RequireAuth] || guards == AdminOnly
  }

  lemma CanonicalOrdersGuards(guards: seq<Guard>)
    requires Canonical(guards)
    ensures AuthBeforeRoles(guards)
    ensures guards != [] ==> guards[0] == RequireAuth
  {
    if guards == AdminOnly {
      assert guards[0] == RequireAuth;
    }
  }

  /** Each table uses canonical chains only. */
  lemma TablesAreCanonical()
    ensures forall r :: r in AllRoutes ==> Canonical(r.guards)
  {
    assert forall i :: 0 <= i < |UserRoutes| ==> Canonical(UserRoutes[i].guards);
    assert forall i :: 0 <= i < |CourseRoutes| ==> Canonical(CourseRoutes[i].guards);
    assert forall r :: r in AllRoutes ==> r in UserRoutes || r in CourseRoutes || r in OrderRoutes || r in NotificationRoutes;
  }

  /** In every table, `isAuthenticated` precedes `authorizeRoles`. */
  lemma AuthPrecedesRoles(r: Route)
    requires r in AllRoutes
    ensures AuthBeforeRoles(r.guards)
  {
    TablesAreCanonical();
    CanonicalOrdersGuards(r.guards);
  }

  /** A chain that starts with the authentication guard blocks a request
      without an access token with the 401 answer. */
  lemma {:induction false} NoTokenBlocked(guards: seq<Guard>, jar: map<string, Cookie>, cache: map<nat, User>,
                                          reqUser: Option<User>)
    requires guards != [] && guards[0] == RequireAuth
    requires TokenIn(jar, AccessCookie).None?
    ensures RunGuards(guards, jar, cache, reqUser) == Blocked(Forwarded(LoginRequired))
  {
  }

  /** A request with no access cookie never reaches a guarded handler. */
  lemma NoCookieNeverReachesGuarded(r: Route, jar: map<string, Cookie>, cache: map<nat, User>)
    requires r in AllRoutes && r.guards != []
    requires TokenIn(jar, AccessCookie).None?
    ensures Dispatch(r, jar, cache) == Blocked(Forwarded(LoginRequired))
  {
    TablesAreCanonical();
    CanonicalOrdersGuards(r.guards);
    NoTokenBlocked(r.guards, jar, cache, None);
  }

  /** After a chain that authenticates and has no later authentication
      guard, a role guard's roles include the final `req.user`'s role. */
  lemma {:induction false} RoleGuardHolds(guards: seq<Guard>, jar: map<string, Cookie>, cache: map<nat, User>,
                                          reqUser: Option<User>, i: nat)
    requires i < |guards| && guards[i].RequireRole?
    requires forall j :: i < j < |guards| ==> guards[j] != RequireAuth
    requires RunGuards(guards, jar, cache, reqUser).Reached?
    ensures RunGuards(guards, jar, cache, reqUser).reqUser.Some?
    ensures RunGuards(guards, jar, cache, reqUser).reqUser.value.role in guards[i].roles
    decreases |guards|
  {
    var next := match guards[0]
                case RequireAuth => Some(Authenticate(jar, cache).user)
                case RequireRole(_) => reqUser;
    if i == 0 {
      RoleGuardKeepsUser(guards[1..], jar, cache, reqUser);
    } else {
      assert guards[0] == RequireAuth ==> Authenticate(jar, cache).Authenticated?;
      assert RunGuards(guards, jar, cache, reqUser) == RunGuards(guards[1..], jar, cache, next);
      RoleGuardHolds(guards[1..], jar, cache, next, i - 1);
    }
  }

  /** A chain without an authentication guard leaves `req.user` as it was. */
  lemma {:induction false} RoleGuardKeepsUser(guards: seq<Guard>, jar: map<string, Cookie>, cache: map<nat, User>,
                                              reqUser: Option<User>)
    requires forall j :: 0 <= j < |guards| ==> guards[j] != RequireAuth
    requires RunGuards(guards, jar, cache, reqUser).Reached?
    ensures RunGuards(guards, jar, cache, reqUser).reqUser == reqUser
    decreases |guards|
  {
    if guards != [] {
      assert forall j :: 0 <= j < |guards[1..]| ==> guards[1..][j] == guards[j + 1];
      RoleGuardKeepsUser(guards[1..], jar, cache, reqUser);
    }
  }

  /** A non-admin never reaches an admin-only handler. */
  lemma NonAdminNeverReachesAdminOnly(r: Route, jar: map<string, Cookie>, cache: map<nat, User>)
    requires r in AllRoutes && RequireRole(["admin"]) in r.guards
    requires Dispatch(r, jar, cache).Reached?
    ensures Dispatch(r, jar, cache).reqUser.Some? && Dispatch(r, jar, cache).reqUser.value.role == "admin"
  {
    TablesAreCanonical();
    assert r.guards == AdminOnly;
    RoleGuardHolds(r.guards, jar, cache, None, 1);
  }

  /** A chain that authenticates reaches its handler with `req.user` set. */
  lemma AuthenticatedHandlersHaveUser(r: Route, jar: map<string, Cookie>, cache: map<nat, User>)
    requires r in AllRoutes && r.guards != []
    requires Dispatch(r, jar, cache).Reached?
    ensures Dispatch(r, jar, cache).reqUser.Some?
    ensures Authenticate(jar, cache).Authenticated?
    ensures Dispatch(r, jar, cache).reqUser.value == Authenticate(jar, cache).user
  {
    TablesAreCanonical();
    if r.guards == AdminOnly {
      assert AuthorizeRoles(["admin"], Some(Authenticate(jar, cache).user)) == Proceed;
    }
  }

  /** A request with no guard reaches its handler whatever it carries. */
  lemma PublicRoutesAlwaysReached(r: Route, jar: map<string, Cookie>, cache: map<nat, User>)
    requires r.guards == []
    ensures Dispatch(r, jar, cache) == Reached(None)
  {
  }

  /** `createOrder` is the one order route; any authenticated user reaches it,
      and only an authenticated one. */
  lemma CreateOrderReachedIffAuthenticated(jar: map<string, Cookie>, cache: map<nat, User>)
    ensures |OrderRoutes| == 1 && OrderRoutes[0].verb == Post && OrderRoutes[0].path == "/create-order"
    ensures OrderRoutes[0].action == CreateOrder && OrderRoutes[0].guards == [RequireAuth]
    ensures Dispatch(OrderRoutes[0], jar, cache).Reached? <==> Authenticate(jar, cache).Authenticated?
    ensures Dispatch(OrderRoutes[0], jar, cache).Reached? ==>
              Dispatch(OrderRoutes[0], jar, cache).reqUser == Some(Authenticate(jar, cache).user)
  {
  }

  /** `getNotifications` is the one notification route: `isAuthenticated`
      runs first, `authorizeRoles('admin')` second, and only an authenticated
      admin reaches the handler. */
  lemma GetNotificationsAdminOnly(jar: map<string, Cookie>, cache: map<nat, User>)
    ensures |NotificationRoutes| == 1 && NotificationRoutes[0].verb == Get
    ensures NotificationRoutes[0].path == "/get-notifications" && NotificationRoutes[0].action == GetNotifications
    ensures NotificationRoutes[0].guards == [RequireAuth, RequireRole(["admin"])]
    ensures Dispatch(NotificationRoutes[0], jar, cache).Reached? <==>
              Authenticate(jar, cache).Authenticated? && Authenticate(jar, cache).user.role == "admin"
  {
    var g := NotificationRoutes[0].guards;
    if Authenticate(jar, cache).Authenticated? {
      var u := Authenticate(jar, cache).user;
      assert RunGuards(g, jar, cache, None) == RunGuards(g[1..], jar, cache, Some(u));
      assert RunGuards(g[1..], jar, cache, Some(u)) ==
             if u.role in ["admin"] then RunGuards([], jar, cache, Some(u)) else Blocked(AuthorizeRoles(["admin"], Some(u)));
    }
  }

  /** A non-admin that passes authentication gets the 403 naming its role. */
  lemma NonAdminGets403(r: Route, jar: map<string, Cookie>, cache: map<nat, User>)
    requires r.guards == AdminOnly
    requires Authenticate(jar, cache).Authenticated? && Authenticate(jar, cache).user.role != "admin"
    ensures Dispatch(r, jar, cache) ==
              Blocked(Forwarded(Handler(403, "Role (" + Authenticate(jar, cache).user.role +
                                             ") is not allowed to access this resource")))
  {
    var u := Authenticate(jar, cache).user;
    assert RunGuards(r.guards, jar, cache, None) == RunGuards(r.guards[1..], jar, cache, Some(u));
  }
}
