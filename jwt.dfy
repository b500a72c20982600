/** The session cookies (server/utils/jwt.ts): the two lifetimes read from the
    environment, the cookie options computed from them when the module is
    loaded, and `sendToken`, which opens a session. */
module Jwt {
  import opened Js
  import opened Errors
  import opened Tokens
  import opened UserModel
  import opened CourseModel
  import opened Http
  import opened Store

  const AccessExpireFallback := "300"
  const RefreshExpireFallback := "1200"

  /** `parseInt(process.env.X || fallback, 10)`: an unset or empty variable
      falls back. */
  function ExpireSetting(env: Option<string>, fallback: string): Num {
    ParseInt(if env.Some? && Truthy(env.value) then env.value else fallback)
  }

  /** With the variables unset or empty the lifetimes are 300 and 1200. */
  lemma DefaultExpireSettings(env: Option<string>)
    requires env.None? || env == Some("")
    ensures ExpireSetting(env, AccessExpireFallback) == Int(300)
    ensures ExpireSetting(env, RefreshExpireFallback) == Int(1200)
  {
    assert NatToString(300) == AccessExpireFallback by {
      assert NatToString(30) == "30" by {
        assert NatToString(3) == "3";
      }
    }
    assert NatToString(1200) == RefreshExpireFallback by {
      assert NatToString(120) == "120" by {
        assert NatToString(12) == "12" by {
          assert NatToString(1) == "1";
        }
      }
    }
    ParseIntOfNatToString(300);
    ParseIntOfNatToString(1200);
  }

  /** `accessTokenOptions`, computed once from the access lifetime and the
      load time `now` (both in the units the code multiplies). */
  function AccessTokenOptions(accessExpire: Num, now: int): CookieOptions {
    var maxAge := Mul(accessExpire, 60 * 60 * 1000);
    CookieOptions(Some(Add(now, maxAge)), maxAge, true, "lax", false)
  }

  /** `refreshTokenOptions`: its `expires` uses the refresh lifetime, but its
      `maxAge` is computed from the access lifetime. */
  function RefreshTokenOptions(accessExpire: Num, refreshExpire: Num, now: int): CookieOptions {
    CookieOptions(Some(Add(now, Mul(refreshExpire, 24 * 60 * 60 * 1000))),
                  Mul(accessExpire, 24 * 60 * 60 * 1000), true, "lax", false)
  }

  /** What the two option records hold, for any lifetimes and load time. */
  lemma CookieOptionsArithmetic(access: Num, refresh: Num, now: int)
    ensures var a := AccessTokenOptions(access, now);
            var r := RefreshTokenOptions(access, refresh, now);
            a.httpOnly && r.httpOnly && a.sameSite == "lax" && r.sameSite == "lax" &&
            !a.secure && !r.secure &&
            (access.Int? ==> a.maxAge == Int(access.value * 3600000) &&
                             a.expires == Some(Int(now + access.value * 3600000)) &&
                             r.maxAge == Int(access.value * 86400000)) &&
            (refresh.Int? ==> r.expires == Some(Int(now + refresh.value * 86400000))) &&
            (access.NaN? ==> a.maxAge == NaN && r.maxAge == NaN)
  {
  }

  /** The refresh cookie's `maxAge` does not depend on REFRESH_TOKEN_EXPIRE. */
  lemma RefreshMaxAgeUsesAccessExpire(access: Num, refresh1: Num, refresh2: Num, now: int)
    ensures RefreshTokenOptions(access, refresh1, now).maxAge == RefreshTokenOptions(access, refresh2, now).maxAge
    ensures RefreshTokenOptions(access, refresh1, now).maxAge == Mul(access, 24 * 60 * 60 * 1000)
  {
  }

  /** With both variables unset: an access cookie of 1 080 000 000 ms (300
      hours), a refresh cookie whose `maxAge` is 25 920 000 000 ms (300 days)
      and whose `expires` is 1200 days after the load time. */
  lemma DefaultCookieLifetimes(now: int)
    ensures var access := ExpireSetting(None, AccessExpireFallback);
            var refresh := ExpireSetting(None, RefreshExpireFallback);
            AccessTokenOptions(access, now).maxAge == Int(1080000000) &&
            RefreshTokenOptions(access, refresh, now).maxAge == Int(25920000000) &&
            RefreshTokenOptions(access, refresh, now).expires == Some(Int(now + 103680000000))
  {
    DefaultExpireSettings(None);
  }

  /** Loading the server: both option records are computed from the
      environment at load time `now`. */
  method Load(accessEnv: Option<string>, refreshEnv: Option<string>, now: int, production: bool,
              courses: map<nat, Course>) returns (w: World)
    requires forall k :: k in courses ==> courses[k].id == k
    ensures fresh(w) && w.Valid()
    ensures var access := ExpireSetting(accessEnv, AccessExpireFallback);
            w.accessOptions == AccessTokenOptions(access, now) &&
            w.refreshOptions == RefreshTokenOptions(access, ExpireSetting(refreshEnv, RefreshExpireFallback), now)
    ensures w.production == production && w.courses == courses
    ensures w.users == [] && w.cache == map[] && w.jar == map[] && w.reqUser.None?
  {
    var accessExpire := ExpireSetting(accessEnv, AccessExpireFallback);
    var refreshExpire := ExpireSetting(refreshEnv, RefreshExpireFallback);
    w := new World(AccessTokenOptions(accessExpire, now),
                   RefreshTokenOptions(accessExpire, refreshExpire, now), production, courses);
  }

  /** The shared access options after `sendToken`: made secure for good in
      production, untouched otherwise. */
  function SecuredFor(options: CookieOptions, production: bool): CookieOptions {
    if production then options.(secure := true) else options
  }

  /** The cookies after `sendToken` for `user`: both tokens, each with the
      options it is set with. */
  function SessionCookies(jar: map<string, Cookie>, user: User, access: CookieOptions,
                          refresh: CookieOptions): map<string, Cookie> {
    jar[AccessCookie := Cookie(Signed(SignAccessToken(user)), access)]
       [RefreshCookie := Cookie(Signed(SignRefreshToken(user)), refresh)]
  }

  /** `sendToken(user, statusCode, res)`: the snapshot of `user` becomes its
      session, replacing any earlier one; in production the shared access
      options become `secure` for good; both cookies are set; the answer holds
      the user and the access token. */
  method SendToken(w: World, user: User, statusCode: int) returns (reply: Reply)
    requires w.Valid() && user.id < |w.users|
    modifies w`cache, w`jar, w`accessOptions
    ensures w.Valid()
    ensures w.cache == old(w.cache)[user.id := user]
    ensures w.accessOptions == SecuredFor(old(w.accessOptions), w.production)
    ensures w.jar == SessionCookies(old(w.jar), user, w.accessOptions, w.refreshOptions)
    ensures !w.jar[RefreshCookie].options.secure
    ensures reply == Sent(statusCode, Session(user, SignAccessToken(user)))
  {
    var accessToken := SignAccessToken(user);
    var refreshToken := SignRefreshToken(user);
    w.cache := w.cache[user.id := user];
    if w.production {
      w.accessOptions := w.accessOptions.(secure := true);
    }
    w.jar := w.jar[AccessCookie := Cookie(Signed(accessToken), w.accessOptions)];
    w.jar := w.jar[RefreshCookie := Cookie(Signed(refreshToken), w.refreshOptions)];
    reply := Sent(statusCode, Session(user, accessToken));
  }
}
