/** The request guards (server/middleware/auth.ts). `isAuthenticated` decides
    from the access cookie and the session cache alone; the user collection is
    never read. `authorizeRoles` tests the role of `req.user`. */
module Auth {
  import opened Js
  import opened Errors
  import opened Tokens
  import opened UserModel
  import opened Http
  import opened Store

  /** What `isAuthenticated` does with a request: call `next()` with this
      `req.user`, pass an error on, or leave the request unanswered. */
  datatype AuthResult = Authenticated(user: User) | Denied(err: Err) | Unanswered

  const LoginRequired := Handler(401, "Please login to access this resource")

  /** `isAuthenticated` as a function of the cookies and the cache. A token
      that fails verification throws out of the handler, and the wrapper
      passes that library error on as it is. A verified id without a session
      produces an ErrorHandler that is returned, not passed to `next`, so
      nothing answers. Verification never returns a falsy payload, so the
      "Access Token is not valid" branch cannot be taken. */
  function Authenticate(jar: map<string, Cookie>, cache: map<nat, User>): (r: AuthResult)
    ensures TokenIn(jar, AccessCookie).None? ==> r == Denied(LoginRequired)
    ensures r.Authenticated? <==>
              TokenIn(jar, AccessCookie).Some? && TokenIn(jar, AccessCookie).value.kind == Access &&
              TokenIn(jar, AccessCookie).value.seal == Intact && TokenIn(jar, AccessCookie).value.id in cache
    ensures r.Authenticated? ==> r.user == cache[TokenIn(jar, AccessCookie).value.id]
    ensures r.Unanswered? <==>
              TokenIn(jar, AccessCookie).Some? && Verify(TokenIn(jar, AccessCookie).value, Access).Verified? &&
              TokenIn(jar, AccessCookie).value.id !in cache
  {
    match TokenIn(jar, AccessCookie)
    case None => Denied(LoginRequired)
    case Some(t) =>
      match Verify(t, Access)
      case Rejected(e) => Denied(Thrown(e.name, e.message))
      case Verified(id) => if id in cache then Authenticated(cache[id]) else Unanswered
  }

  /** Only the access cookie matters: two requests that carry the same access
      token are treated alike, whatever else they carry. */
  lemma AuthenticateReadsOnlyAccessCookie(jar1: map<string, Cookie>, jar2: map<string, Cookie>, cache: map<nat, User>)
    requires TokenIn(jar1, AccessCookie) == TokenIn(jar2, AccessCookie)
    ensures Authenticate(jar1, cache) == Authenticate(jar2, cache)
  {
  }

  /** A token that fails verification is refused before the cache is looked
      at: the outcome is the same whatever the cache holds, and no user is set. */
  lemma RejectedTokenSkipsCache(jar: map<string, Cookie>, cache1: map<nat, User>, cache2: map<nat, User>)
    requires TokenIn(jar, AccessCookie).Some? ==> Verify(TokenIn(jar, AccessCookie).value, Access).Rejected?
    ensures Authenticate(jar, cache1) == Authenticate(jar, cache2)
    ensures Authenticate(jar, cache1).Denied?
  {
  }

  /** The answers the client gets when the guard refuses: 401 without a
      token, and the error responder's two token messages otherwise. */
  lemma DeniedAnswers(jar: map<string, Cookie>, cache: map<nat, User>)
    ensures TokenIn(jar, AccessCookie).None? ==>
              Normalise(Authenticate(jar, cache).err) == Envelope(401, false, LoginRequired.message)
    ensures TokenIn(jar, AccessCookie).Some? && TokenIn(jar, AccessCookie).value.seal == Expired &&
            TokenIn(jar, AccessCookie).value.kind == Access ==>
              Normalise(Authenticate(jar, cache).err) == Envelope(400, false, JwtExpiredMessage)
    ensures TokenIn(jar, AccessCookie).Some? &&
            (TokenIn(jar, AccessCookie).value.seal == Tampered || TokenIn(jar, AccessCookie).value.kind == Refresh) ==>
              Normalise(Authenticate(jar, cache).err) == Envelope(400, false, JwtInvalidMessage)
  {
  }

  /** `isAuthenticated` step by step: on success `req.user` is the cached
      snapshot and `next()` is called; otherwise `req.user` is left alone. */
  method IsAuthenticated(w: World) returns (reply: Reply)
    requires w.Valid()
    modifies w`reqUser
    ensures w.Valid()
    ensures match Authenticate(w.jar, w.cache)
            case Authenticated(u) => reply == Proceed && w.reqUser == Some(u)
            case Denied(e) => reply == Forwarded(e) && w.reqUser == old(w.reqUser)
            case Unanswered => reply == Stalled && w.reqUser == old(w.reqUser)
  {
    var accessToken := TokenIn(w.jar, AccessCookie);
    if accessToken.None? {
      return Forwarded(LoginRequired);
    }
    var decoded := Verify(accessToken.value, Access);
    if decoded.Rejected? {
      return Forwarded(Thrown(decoded.error.name, decoded.error.message));
    }
    var id := decoded.payload;
    if id !in w.cache {
      return Stalled;
    }
    w.reqUser := Some(w.cache[id]);
    reply := Proceed;
  }

  /** `authorizeRoles(...roles)`: `next()` exactly when `req.user`'s role is
      one of `roles` (the `|| ''` can never make the test true); otherwise a
      403 naming the role. Without a `req.user` the role read throws. */
  function AuthorizeRoles(roles: seq<string>, reqUser: Option<User>): (r: Reply)
    ensures r == Proceed <==> reqUser.Some? && reqUser.value.role in roles
    ensures reqUser.Some? && reqUser.value.role !in roles ==>
              r == Forwarded(Handler(403, "Role (" + reqUser.value.role + ") is not allowed to access this resource"))
    ensures reqUser.None? ==> r == Forwarded(Documents.ReadError("undefined", "role"))
  {
    if reqUser.None? then Forwarded(Documents.ReadError("undefined", "role"))
    else if !(reqUser.value.role in roles) || Truthy("") then
      Forwarded(Handler(403, "Role (" + reqUser.value.role + ") is not allowed to access this resource"))
    else Proceed
  }
}
