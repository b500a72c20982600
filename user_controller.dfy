/** The account and session handlers (server/controller/user.controller.ts).
    A request body field the client leaves out is the empty string here, which
    every test in these handlers treats as falsy, as it does `undefined`; the
    registration password is optional instead, since `minlength` skips an
    absent value but rejects an empty one.
    Handlers mounted behind `isAuthenticated` require `req.user`. */
module UserController {
  import opened Js
  import opened Errors
  import opened Mongoose
  import opened Tokens
  import opened UserModel
  import opened Http
  import opened Store
  import opened Jwt

  const EmailExists := Handler(400, "Email already exists")
  const IncorrectCode := Handler(400, "Incorrect activation code")
  const MissingCredentials := Handler(400, "Please enter your email and password")
  const InvalidCredentials := Handler(400, "Invalid email or password")
  const CouldNotRefresh := Handler(400, "Could not refresh token")
  const MissingPasswords := Handler(400, "Please enter old password and new password")
  const InvalidUser := Handler(400, "Invalid user")
  const WrongOldPassword := Handler(400, "Old password is incorrect")
  /** What bcrypt's compare throws when the stored password is absent. */
  const NoStoredPassword := "Illegal arguments: string, undefined"

  /** The options a logout clears both cookies with: `{ maxAge: 1 }`. */
  const ClearOptions := CookieOptions(None, Int(1), false, "", false)

  /** Both session cookies, their values and options unchanged. */
  twostate predicate SessionUnchanged(w: World)
    reads w
  {
    w.cache == old(w.cache) && w.jar == old(w.jar) && w.accessOptions == old(w.accessOptions)
  }

  /** `createActivationToken(user)`: a code drawn from 1000..9999 and a ticket
      carrying exactly the registration and that code, valid for five minutes. */
  method CreateActivationToken(user: Registration) returns (token: Ticket, activationCode: string)
    ensures |activationCode| == 4 && AllDigits(activationCode) && activationCode[0] != '0'
    ensures ParseInt(activationCode).Int? && 1000 <= ParseInt(activationCode).value <= 9999
    ensures token == Ticket(user, activationCode, "5m", Intact)
    ensures VerifyTicket(token) == Verified(token)
  {
    // Math.floor(1000 + Math.random() * 9000)
    var n: nat :| 1000 <= n <= 9999;
    activationCode := NatToString(n);
    FourDigits(n);
    ParseIntOfNatToString(n);
    token := Ticket(user, activationCode, "5m", Intact);
  }

  /** `registrationUser`: refuses a taken email before anything else; otherwise
      mails the code and answers with the ticket. The collection is not
      touched. `attempted` is the mail handed to the sender, if any. */
  method RegistrationUser(w: World, name: string, email: string, password: Option<string>, mail: MailOutcome)
    returns (reply: Reply, attempted: Option<Mail>)
    requires w.Valid()
    ensures FindByEmail(w.users, email).Some? ==> reply == Forwarded(EmailExists) && attempted.None?
    ensures FindByEmail(w.users, email).None? ==>
              attempted.Some? && attempted.value.to == email &&
              attempted.value.subject == "Active Your Account in NammDev" &&
              attempted.value.template == "activation-mall.ejs" &&
              attempted.value.data.ActivationMail? && attempted.value.data.userName == name &&
              |attempted.value.data.activationCode| == 4 && AllDigits(attempted.value.data.activationCode)
    ensures FindByEmail(w.users, email).None? && mail.MailFailed? ==>
              reply == Forwarded(Handler(400, mail.message))
    ensures FindByEmail(w.users, email).None? && mail.Delivered? ==>
              reply == Sent(201, Activation("Please check your email " + email + " to activate your account!",
                                            Ticket(Registration(name, email, password),
                                                   attempted.value.data.activationCode, "5m", Intact)))
  {
    if FindByEmail(w.users, email).Some? {
      return Forwarded(EmailExists), None;
    }
    var user := Registration(name, email, password);
    var token, activationCode := CreateActivationToken(user);
    attempted := Some(Mail(email, "Active Your Account in NammDev", "activation-mall.ejs",
                           ActivationMail(name, activationCode)));
    if mail.MailFailed? {
      return Forwarded(Handler(400, mail.message)), attempted;
    }
    reply := Sent(201, Activation("Please check your email " + email + " to activate your account!", token));
  }

  /** `jwt.verify(activation_token, ACTIVATION_SECRET_KEY)`; a missing token is
      refused as not provided. */
  function DecodeTicket(t: Option<Ticket>): (d: Decoded<Ticket>)
    ensures t.None? ==> d == Rejected(MissingToken)
    ensures d.Verified? <==> t.Some? && t.value.seal == Intact
    ensures d.Verified? ==> d.payload == t.value
  {
    if t.None? then Rejected(MissingToken) else VerifyTicket(t.value)
  }

  /** `activateUser`: the ticket is verified, then the code compared, then the
      email looked up again, and only then is the user created, with the
      ticket's name, email and password. A ticket without a password creates
      a user without one: `minlength` does not run on an absent value. */
  method ActivateUser(w: World, activationToken: Option<Ticket>, activationCode: string) returns (reply: Reply)
    requires w.Valid()
    modifies w`users
    ensures w.Valid()
    ensures DecodeTicket(activationToken).Rejected? ==>
              reply == Forwarded(Handler(400, DecodeTicket(activationToken).error.message)) && w.users == old(w.users)
    ensures DecodeTicket(activationToken).Verified? && activationCode != activationToken.value.activationCode ==>
              reply == Forwarded(IncorrectCode) && w.users == old(w.users)
    ensures DecodeTicket(activationToken).Verified? && activationCode == activationToken.value.activationCode ==>
              var u := activationToken.value.user;
              var doc := NewUser(|old(w.users)|, u.name, u.email, u.password);
              if FindByEmail(old(w.users), u.email).Some? then
                reply == Forwarded(EmailExists) && w.users == old(w.users)
              else if UserErrors(doc) != [] then
                reply == Forwarded(Handler(400, ValidationError("User", UserErrors(doc)).message)) &&
                w.users == old(w.users)
              else
                reply == Sent(201, Message("Account has been activated!")) &&
                w.users == old(w.users) + [PreSave(doc)]
  {
    var decoded := DecodeTicket(activationToken);
    if decoded.Rejected? {
      return Forwarded(Handler(400, decoded.error.message));
    }
    var ticket := decoded.payload;
    if activationCode != ticket.activationCode {
      return Forwarded(IncorrectCode);
    }
    var user := ticket.user;
    if FindByEmail(w.users, user.email).Some? {
      return Forwarded(EmailExists);
    }
    var created := w.Create(user.name, user.email, user.password);
    if created.Failure? {
      return Forwarded(Handler(400, created.error.message));
    }
    reply := Sent(201, Message("Account has been activated!"));
  }

  /** `loginUser`: an unknown email and a wrong password get the same answer;
      on success the session is opened with the user as read with its
      password. A user without a stored password makes bcrypt throw. */
  method LoginUser(w: World, email: string, password: string) returns (reply: Reply)
    requires w.Valid()
    modifies w`cache, w`jar, w`accessOptions
    ensures w.Valid()
    ensures email == "" || password == "" ==> reply == Forwarded(MissingCredentials) && SessionUnchanged(w)
    ensures email != "" && password != "" ==>
              match FindByEmail(w.users, email)
              case None => reply == Forwarded(InvalidCredentials) && SessionUnchanged(w)
              case Some(k) =>
                var u := w.users[k];
                if u.password.None? then
                  reply == Forwarded(Handler(404, NoStoredPassword)) && SessionUnchanged(w)
                else if !ComparePassword(password, u.password.value) then
                  reply == Forwarded(InvalidCredentials) && SessionUnchanged(w)
                else
                  reply == Sent(200, Session(u, SignAccessToken(u))) &&
                  w.cache == old(w.cache)[u.id := u] &&
                  w.accessOptions == SecuredFor(old(w.accessOptions), w.production) &&
                  w.jar == SessionCookies(old(w.jar), u, w.accessOptions, w.refreshOptions) &&
                  TokenIn(w.jar, AccessCookie) == Some(SignAccessToken(u)) &&
                  TokenIn(w.jar, RefreshCookie) == Some(SignRefreshToken(u))
  {
    if email == "" || password == "" {
      return Forwarded(MissingCredentials);
    }
    var found := FindByEmail(w.users, email);
    if found.None? {
      return Forwarded(InvalidCredentials);
    }
    var user := Select(w.users[found.value], true);
    if user.password.None? {
      return Forwarded(Handler(404, NoStoredPassword));
    }
    if !ComparePassword(password, user.password.value) {
      return Forwarded(InvalidCredentials);
    }
    reply := SendToken(w, user, 200);
  }

  /** `logoutUser`: both cookies become '' with `maxAge` 1 and the session of
      `req.user` is deleted. */
  method LogoutUser(w: World) returns (reply: Reply)
    requires w.Valid() && w.reqUser.Some?
    modifies w`jar, w`cache
    ensures w.Valid()
    ensures w.jar == old(w.jar)[AccessCookie := Cookie(Blank, ClearOptions)][RefreshCookie := Cookie(Blank, ClearOptions)]
    ensures w.cache == old(w.cache) - {w.reqUser.value.id}
    ensures TokenIn(w.jar, AccessCookie).None? && TokenIn(w.jar, RefreshCookie).None?
    ensures reply == Sent(200, Message("Logged out successfully!"))
  {
    w.jar := w.jar[AccessCookie := Cookie(Blank, ClearOptions)];
    w.jar := w.jar[RefreshCookie := Cookie(Blank, ClearOptions)];
    var userId := w.reqUser.value.id;
    w.cache := w.cache - {userId};
    reply := Sent(200, Message("Logged out successfully!"));
  }

  /** `jwt.verify(refresh_token, REFRESH_TOKEN)` on the refresh cookie. */
  function DecodeRefresh(jar: map<string, Cookie>): (d: Decoded<nat>)
    ensures TokenIn(jar, RefreshCookie).None? ==> d == Rejected(MissingToken)
    ensures d.Verified? <==> TokenIn(jar, RefreshCookie).Some? &&
                             TokenIn(jar, RefreshCookie).value.kind == Refresh &&
                             TokenIn(jar, RefreshCookie).value.seal == Intact
    ensures d.Verified? ==> d.payload == TokenIn(jar, RefreshCookie).value.id
  {
    match TokenIn(jar, RefreshCookie)
    case None => Rejected(MissingToken)
    case Some(t) => Verify(t, Refresh)
  }

  /** `updateAccessToken`: a verified refresh token is honoured only while its
      session exists; then both tokens are signed anew for the cached user,
      `req.user` becomes the cached snapshot and both cookies are set with the
      current options. The cache itself is not written. */
  method UpdateAccessToken(w: World) returns (reply: Reply)
    requires w.Valid()
    modifies w`jar, w`reqUser
    ensures w.Valid()
    ensures match DecodeRefresh(old(w.jar))
            case Rejected(e) =>
              reply == Forwarded(Handler(400, e.message)) && w.jar == old(w.jar) && w.reqUser == old(w.reqUser)
            case Verified(id) =>
              if id !in w.cache then
                reply == Forwarded(CouldNotRefresh) && w.jar == old(w.jar) && w.reqUser == old(w.reqUser)
              else
                var user := w.cache[id];
                reply == Sent(200, Refreshed(SignAccessToken(user))) &&
                w.reqUser == Some(user) &&
                w.jar == old(w.jar)[AccessCookie := Cookie(Signed(SignAccessToken(user)), w.accessOptions)]
                                   [RefreshCookie := Cookie(Signed(SignRefreshToken(user)), w.refreshOptions)] &&
                Verify(SignAccessToken(user), Access) == Verified(id) &&
                Verify(SignRefreshToken(user), Refresh) == Verified(id)
  {
    var decoded := DecodeRefresh(w.jar);
    if decoded.Rejected? {
      return Forwarded(Handler(400, decoded.error.message));
    }
    var session := decoded.payload;
    if session !in w.cache {
      return Forwarded(CouldNotRefresh);
    }
    var user := w.cache[session];
    var accessToken := Sign(Access, user.id, "5m");
    var refreshToken := Sign(Refresh, user.id, "7d");
    w.reqUser := Some(user);
    w.jar := w.jar[AccessCookie := Cookie(Signed(accessToken), w.accessOptions)];
    w.jar := w.jar[RefreshCookie := Cookie(Signed(refreshToken), w.refreshOptions)];
    reply := Sent(200, Refreshed(accessToken));
  }

  /** `getUserInfo`: the stored user of `req.user`, read without its password. */
  method GetUserInfo(w: World) returns (reply: Reply)
    requires w.Valid() && w.reqUser.Some?
    ensures reply.Sent? && reply.status == 201 && reply.body.Profile?
    ensures reply.body.user.id == w.reqUser.value.id && reply.body.user.password.None?
    ensures reply.body.user.(password := w.users[w.reqUser.value.id].password) == w.users[w.reqUser.value.id]
  {
    var user := Select(w.users[w.reqUser.value.id], false);
    reply := Sent(201, Profile(user));
  }

  /** `socialAuth`: a known email opens a session for that user (read without
      its password); an unknown one creates a user without a password first. */
  method SocialAuth(w: World, email: string, name: string) returns (reply: Reply)
    requires w.Valid()
    modifies w`users, w`cache, w`jar, w`accessOptions
    ensures w.Valid()
    ensures match FindByEmail(old(w.users), email)
            case Some(k) =>
              var u := Select(old(w.users)[k], false);
              w.users == old(w.users) && reply == Sent(200, Session(u, SignAccessToken(u))) &&
              w.cache == old(w.cache)[k := u] &&
              w.accessOptions == SecuredFor(old(w.accessOptions), w.production) &&
              w.jar == SessionCookies(old(w.jar), u, w.accessOptions, w.refreshOptions)
            case None =>
              var doc := NewUser(|old(w.users)|, name, email, None);
              if UserErrors(doc) != [] then
                reply == Forwarded(Handler(400, ValidationError("User", UserErrors(doc)).message)) &&
                w.users == old(w.users) && SessionUnchanged(w)
              else
                w.users == old(w.users) + [doc] && reply == Sent(200, Session(doc, SignAccessToken(doc))) &&
                w.cache == old(w.cache)[doc.id := doc] &&
                w.accessOptions == SecuredFor(old(w.accessOptions), w.production) &&
                w.jar == SessionCookies(old(w.jar), doc, w.accessOptions, w.refreshOptions)
  {
    var found := FindByEmail(w.users, email);
    if found.None? {
      var created := w.Create(name, email, None);
      if created.Failure? {
        return Forwarded(Handler(400, created.error.message));
      }
      reply := SendToken(w, created.value, 200);
    } else {
      reply := SendToken(w, Select(w.users[found.value], false), 200);
    }
  }

  /** The user document after `updateUserInfo`'s assignments: each non-empty
      field replaces the stored one. */
  function EditedInfo(u: User, email: string, name: string): (v: User)
    ensures v.email == (if email != "" then email else u.email)
    ensures v.name == (if name != "" then name else u.name)
    ensures v.(email := u.email, name := u.name) == u
  {
    var withEmail := if email != "" then u.(email := email) else u;
    if name != "" then withEmail.(name := name) else withEmail
  }

  /** `updateUserInfo`: a supplied email that any user holds, the caller
      included, is refused; otherwise the fields are set, the user saved and
      its session rewritten with the saved document. */
  method UpdateUserInfo(w: World, email: string, name: string) returns (reply: Reply)
    requires w.Valid() && w.reqUser.Some?
    modifies w`users, w`cache
    ensures w.Valid()
    ensures var me := w.reqUser.value.id;
            var doc := EditedInfo(Select(old(w.users)[me], false), email, name);
            if email != "" && FindByEmail(old(w.users), email).Some? then
              reply == Forwarded(EmailExists) && w.users == old(w.users) && w.cache == old(w.cache)
            else if UserErrors(doc) != [] then
              reply == Forwarded(Handler(400, ValidationError("User", UserErrors(doc)).message)) &&
              w.users == old(w.users) && w.cache == old(w.cache)
            else
              reply == Sent(200, Profile(doc)) &&
              w.users == old(w.users)[me := doc.(password := old(w.users)[me].password)] &&
              w.cache == old(w.cache)[me := doc]
  {
    var userId := w.reqUser.value.id;
    if email != "" && FindByEmail(w.users, email).Some? {
      return Forwarded(EmailExists);
    }
    var user := EditedInfo(Select(w.users[userId], false), email, name);
    assert !EmailTaken(w.users, user) by {
      if email == "" {
        FindOwnEmail(w.users, userId);
      }
    }
    assert PreSave(user) == user;
    var saved := w.Save(user);
    if saved.Failure? {
      return Forwarded(Handler(400, saved.error.message));
    }
    w.cache := w.cache[userId := saved.value];
    reply := Sent(200, Profile(saved.value));
  }

  /** `updatePassword`: both passwords are required, the user must have a
      stored password and the old one must match it; the new one is then
      validated, hashed once and stored, and the session holds the saved
      document with its digest. */
  method UpdatePassword(w: World, oldPassword: string, newPassword: string) returns (reply: Reply)
    requires w.Valid() && w.reqUser.Some?
    modifies w`users, w`cache
    ensures w.Valid()
    ensures var me := w.reqUser.value.id;
            var u := old(w.users)[me];
            if oldPassword == "" || newPassword == "" then
              reply == Forwarded(MissingPasswords) && w.users == old(w.users) && w.cache == old(w.cache)
            else if u.password.None? then
              reply == Forwarded(InvalidUser) && w.users == old(w.users) && w.cache == old(w.cache)
            else if !ComparePassword(oldPassword, u.password.value) then
              reply == Forwarded(WrongOldPassword) && w.users == old(w.users) && w.cache == old(w.cache)
            else if |newPassword| < MinPasswordLength then
              reply == Forwarded(Handler(400, ValidationError("User", [PasswordShort]).message)) &&
              w.users == old(w.users) && w.cache == old(w.cache)
            else
              var saved := u.(password := Some(Hash(Plain(newPassword))));
              reply == Sent(200, Profile(saved)) && w.users == old(w.users)[me := saved] &&
              w.cache == old(w.cache)[me := saved] &&
              ComparePassword(newPassword, saved.password.value)
  {
    if oldPassword == "" || newPassword == "" {
      return Forwarded(MissingPasswords);
    }
    var userId := w.reqUser.value.id;
    var user := Select(w.users[userId], true);
    if user.password.None? {
      return Forwarded(InvalidUser);
    }
    if !ComparePassword(oldPassword, user.password.value) {
      return Forwarded(WrongOldPassword);
    }
    user := user.(password := Some(Plain(newPassword)));
    FindOwnEmail(w.users, userId);
    var saved := w.Save(user);
    if saved.Failure? {
      return Forwarded(Handler(400, saved.error.message));
    }
    w.cache := w.cache[userId := saved.value];
    reply := Sent(200, Profile(saved.value));
  }

  /** `updateProfilePicture`: with an avatar, the old picture is destroyed
      (when it has a public id) before the new one is uploaded into "avatars";
      the user is saved either way and its session rewritten. `calls` are the
      media store calls in the order made. */
  method UpdateProfilePicture(w: World, avatar: string, upload: UploadOutcome)
    returns (reply: Reply, calls: seq<MediaCall>)
    requires w.Valid() && w.reqUser.Some?
    modifies w`users, w`cache
    ensures w.Valid()
    ensures var me := w.reqUser.value.id;
            var u := Select(old(w.users)[me], false);
            var destroy := if u.avatar.Some? && u.avatar.value.publicId != "" then [Destroy(u.avatar.value.publicId)] else [];
            if avatar == "" then
              calls == [] && reply == Sent(200, Profile(u)) && w.users == old(w.users) &&
              w.cache == old(w.cache)[me := u]
            else if upload.UploadFailed? then
              calls == destroy + [Upload(avatar, "avatars")] &&
              reply == Forwarded(Handler(400, upload.message)) && w.users == old(w.users) && w.cache == old(w.cache)
            else
              var v := u.(avatar := Some(Avatar(upload.publicId, upload.url)));
              calls == destroy + [Upload(avatar, "avatars")] && reply == Sent(200, Profile(v)) &&
              w.users == old(w.users)[me := v.(password := old(w.users)[me].password)] &&
              w.cache == old(w.cache)[me := v]
  {
    var userId := w.reqUser.value.id;
    var user := Select(w.users[userId], false);
    calls := [];
    if avatar != "" {
      var destroy := if user.avatar.Some? && user.avatar.value.publicId != "" then
                       [Destroy(user.avatar.value.publicId)] else [];
      calls := destroy + [Upload(avatar, "avatars")];
      if upload.UploadFailed? {
        return Forwarded(Handler(400, upload.message)), calls;
      }
      user := user.(avatar := Some(Avatar(upload.publicId, upload.url)));
    }
    FindOwnEmail(w.users, userId);
    ReadDocumentValidates(w.users[userId], user);
    var saved := w.Save(user);
    assert saved == Success(user);
    w.cache := w.cache[userId := saved.value];
    reply := Sent(200, Profile(saved.value));
  }
}
