/** Whole sessions, as a client drives them: handlers called one after the
    other on the same server, with the cookies the browser keeps in between. */
module Lifecycle {
  import opened Js
  import opened Errors
  import opened Tokens
  import opened UserModel
  import opened Documents
  import opened Http
  import opened Store
  import opened UserController
  import opened OrderController
  import opened LayoutController
  import opened Auth

  /** The browser sends `cookie` under `name` with its next request, whatever
      the server last set there. */
  method ClientSets(w: World, name: string, cookie: Cookie)
    modifies w`jar
    ensures w.jar == old(w.jar)[name := cookie]
  {
    w.jar := w.jar[name := cookie];
  }

  /** Register, then activate with the mailed code, then redeem the same
      ticket again, then log in: the replay is refused because the email is
      now taken, and the new user's password opens a session. */
  method RegisterActivateReplayLogin(w: World, name: string, email: string, password: string)
    returns (registered: Reply, activated: Reply, replayed: Reply, loggedIn: Reply)
    requires w.Valid()
    requires FindByEmail(w.users, email).None?
    requires UserErrors(NewUser(|w.users|, name, email, Some(password))) == []
    requires password != ""
    modifies w`users, w`cache, w`jar, w`accessOptions
    ensures w.Valid()
    ensures registered.Sent? && registered.status == 201 && registered.body.Activation?
    ensures activated == Sent(201, Message("Account has been activated!"))
    ensures replayed == Forwarded(EmailExists)
    ensures var u := PreSave(NewUser(|old(w.users)|, name, email, Some(password)));
            w.users == old(w.users) + [u] && loggedIn == Sent(200, Session(u, SignAccessToken(u))) &&
            w.cache == old(w.cache)[u.id := u]
  {
    var attempted;
    registered, attempted := RegistrationUser(w, name, email, Some(password), Delivered);
    var ticket := registered.body.activationToken;
    activated := ActivateUser(w, Some(ticket), ticket.activationCode);
    replayed := ActivateUser(w, Some(ticket), ticket.activationCode);
    var u := PreSave(NewUser(|old(w.users)|, name, email, Some(password)));
    assert w.users[|old(w.users)|] == u;
    FindOwnEmail(w.users, |old(w.users)|);
    loggedIn := LoginUser(w, email, password);
  }

  /** Log out of the session `req.user` belongs to, then send back a refresh
      cookie that session was issued: the token still verifies, but its
      session is gone, so no new access token is issued. */
  method LogoutThenRefresh(w: World, kept: Cookie) returns (loggedOut: Reply, refreshed: Reply)
    requires w.Valid() && w.reqUser.Some?
    requires kept.value == Signed(SignRefreshToken(w.reqUser.value))
    modifies w`cache, w`jar, w`reqUser
    ensures w.Valid()
    ensures loggedOut == Sent(200, Message("Logged out successfully!"))
    ensures refreshed == Forwarded(CouldNotRefresh)
    ensures old(w.reqUser).value.id !in w.cache
  {
    var u := w.reqUser.value;
    loggedOut := LogoutUser(w);
    ClientSets(w, RefreshCookie, kept);
    assert DecodeRefresh(w.jar) == Verified(u.id) && u.id !in w.cache;
    refreshed := UpdateAccessToken(w);
  }

  /** Log in, log out, then send the refresh cookie the login set: the
      refresh is refused and the session stays closed. */
  method LogoutKillsRefresh(w: World, email: string, password: string)
    returns (loggedIn: Reply, loggedOut: Reply, refreshed: Reply)
    requires w.Valid()
    requires email != "" && password != ""
    requires FindByEmail(w.users, email).Some?
    requires w.users[FindByEmail(w.users, email).value].password == Some(Hash(Plain(password)))
    modifies w`cache, w`jar, w`accessOptions, w`reqUser
    ensures w.Valid()
    ensures loggedIn.Sent? && loggedIn.status == 200
    ensures loggedOut == Sent(200, Message("Logged out successfully!"))
    ensures refreshed == Forwarded(CouldNotRefresh)
    ensures FindByEmail(w.users, email).value !in w.cache
  {
    var u := w.users[FindByEmail(w.users, email).value];
    loggedIn := LoginUser(w, email, password);
    assert TokenIn(w.jar, AccessCookie) == Some(SignAccessToken(u)) && w.cache[u.id] == u;
    var kept := w.jar[RefreshCookie];
    assert kept.value == Signed(SignRefreshToken(u));
    var reply := IsAuthenticated(w);
    assert w.reqUser == Some(u);
    loggedOut, refreshed := LogoutThenRefresh(w, kept);
  }

  /** Ordering a course twice: the second order is refused, because the first
      one added the course to the stored user, and nothing else is written. */
  method OrderTwice(w: World, courseId: nat) returns (first: Reply, second: Reply)
    requires w.Valid() && w.reqUser.Some?
    requires courseId !in w.users[w.reqUser.value.id].courses && courseId in w.courses
    modifies w`users, w`courses, w`notifications, w`orders
    ensures w.Valid()
    ensures first == Sent(201, OrderPlaced(Order(courseId, w.reqUser.value.id)))
    ensures second == Forwarded(AlreadyEnrolled)
    ensures w.orders == old(w.orders) + [Order(courseId, w.reqUser.value.id)]
    ensures |w.notifications| == |old(w.notifications)| + 1
  {
    var mail;
    first, mail := CreateOrder(w, courseId, Delivered);
    second, mail := CreateOrder(w, courseId, Delivered);
  }

  /** Creating a layout of a new type stores it, `getLayoutByType` then finds
      it, and a second create of that type is refused. */
  method CreateThenGetLayout(w: World, body: LayoutBody, upload: UploadOutcome)
    returns (created: Reply, found: Reply, again: Reply)
    requires w.Valid()
    requires FindLayout(w.layouts, body.kind).None?
    requires body.kind == "Faq" && body.faq.Some?
    modifies w`layouts
    ensures w.Valid()
    ensures created == Sent(200, Message("Layout created successfully"))
    ensures found == Sent(201, LayoutFound(Some(Layout(|old(w.layouts)|, "Faq", None, FaqItems(body.faq.value), []))))
    ensures again == Forwarded(LayoutExists)
  {
    var calls;
    created, calls := CreateLayout(w, body, upload);
    assert w.layouts[|old(w.layouts)|].kind == "Faq";
    found := GetLayoutByType(w, body.kind);
    again, calls := CreateLayout(w, body, upload);
  }
}
