# lms-fullstack backend: sessions, enrolment, layouts and guards in Dafny

This project models the server of the NammDev/lms-fullstack e-learning platform, which is written in TypeScript on Express, MongoDB and Redis. It covers:

- the account and session lifecycle: registration with an emailed activation code, activation, login, social sign-in, logout, access-token refresh, and profile, password and avatar updates;
- the request guards `isAuthenticated` and `authorizeRoles`;
- the cookie options and `sendToken`;
- the user and course schemas, with their validators, defaults and the pre-save password hook;
- course enrolment (`createOrder`);
- the type-keyed layout store (`createLayout`, `editLayout`, `getLayoutByType`);
- the central error responder;
- the four route tables and the guard chains they mount.

## How the model is built

All state the server keeps between requests lives in one object, `Store.World`. Its parts:

- the user collection (a sequence; a user's id is its position);
- the Redis session cache (user id to user snapshot);
- the browser's cookie jar;
- the shared `accessTokenOptions` object, whose `secure` flag `sendToken` sets in production;
- the course, notification, order and layout collections;
- `req.user` of the request being handled.

`World.Valid()` is the invariant every handler keeps.

- **Users.** Every stored user passed validation and holds a hashed password or none. Emails are distinct. Ids are positions.
- **Sessions.** Every session belongs to a stored user and is keyed by its id.
- **Layouts.** There is at most one layout per type.
- **Cookie options.** The access options differ from their load-time value only in `secure`, and only in production. The refresh options are never secure.

Handlers are methods on that state, in the order the source runs its steps. Each method states its answer and its whole new state for every branch, including the error branches. Its `calls` or `attempted` out-parameters record the calls it makes to the media store and the mail sender, in order.

The outside services are abstract:

- **Tokens.** They are values recording their secret, claim, `expiresIn` and whether the copy presented is intact, expired or tampered. Verification checks the signature before the expiry.
- **bcrypt.** It is an uninterpreted constructor: a digest equals only the digest of the same input.
- **Mail and uploads.** Their success or failure is a parameter of the handler.

The schema validators of `user.model.ts` and `course.model.ts` are functions giving the list of failed validators in path order. The email regular expression is written out character by character, and it is proved equal to a plain description of well-formed addresses.

The route files are tables of `(verb, path, guards, handler)`. Running a guard chain composes the guard model. On top of that come theorems about who can reach which handler. Module `Lifecycle` strings handlers together into client sessions, for example: register, activate, replay the ticket, then log in; or log in, log out, then try to refresh.

### Where the code and the system's design description differ

The model follows the code in each case.

- **Refresh and the cache.** `updateAccessToken` does not rewrite the session cache. It only reads it and sets `req.user`.
- **Cache miss.** On a cache miss, `isAuthenticated` returns an `ErrorHandler` instead of passing it to `next`, so the request is left unanswered (`Stalled`), not refused.
- **Bad tokens.** A token that fails verification makes `jwt.verify` throw. The library error reaches the error responder as it is and becomes a 400, not a 401.
  - The "Access Token is not valid" branch cannot be taken.
  - A refresh with a bad token answers 400 with the library's message, not "Could not refresh token".
- **Logout cookies.** Logout clears the cookies with `maxAge: 1`.

## Model

| member | source | states |
|---|---|---|
| Errors.ErrorMiddleware | server/middleware/error.ts:4-36 | The envelope is never `success`. The first matching rule decides: CastError gives 404 with the path; code 11000 gives 400 "Duplicate <keys> entered"; otherwise the error keeps its status and message, defaulting to 500 and "Internal Server Error". No later rule fires after a rewrite. |
| Errors.HandlerPassesThrough | server/middleware/error.ts:32-35 | An ErrorHandler with a status and a message reaches the client unchanged, with `success: false`. |
| Errors.TokenErrorsNormalise | server/middleware/error.ts:21-30 | JsonWebTokenError and TokenExpiredError each become 400 with their fixed message, whatever their own message was. |
| Tokens.VerifyAccepts | server/middleware/auth.ts:17 | A token verifies exactly when it was signed with the secret it is checked against and is intact, and then it yields the signed id. Signing and then verifying returns the id. |
| UserModel.NewUser | server/models/user.model.ts:45-57 | A created user has role "user", is not verified, has no courses and no avatar, and holds the given name, email and password. |
| UserModel.Select | server/models/user.model.ts:36-40 | Without `+password` the password is absent, and nothing else differs from the stored document. |
| UserModel.PreSaveRehashes | server/models/user.model.ts:63-69 | The hook hashes on every save. Saving a document that holds its digest hashes it again, and the user's own password then no longer matches. |
| UserModel.SignAccessToken | server/models/user.model.ts:72-74 | The access token carries the user's id, verifies only with ACCESS_TOKEN, and expires in "5m". |
| UserModel.SignRefreshToken | server/models/user.model.ts:76-78 | The refresh token carries the same id, verifies only with REFRESH_TOKEN, and expires in "7d". |
| UserModel.EmailPatternIsWellFormed | server/models/user.model.ts:6 | The pattern accepts exactly the empty string and addresses with one '@', a non-empty local part over `[A-Za-z0-9_.-]`, and at least two dot-separated non-empty `[A-Za-z0-9_-]` labels whose last has 2 to 4 characters (both directions). |
| UserModel.UserErrorsExplained | server/models/user.model.ts:26-40 | A user passes validation exactly when it has a name, a non-empty well-formed email and no plain password under six characters. Each failed rule contributes its own message. |
| CourseModel.CourseErrors | server/models/course.model.ts:84-121 | A required path's error (name, description, price, both thumbnail parts, tags, level, demoUrl) is listed exactly when that path is missing. Errors are listed in the schema's path order. There is none exactly when all are present. |
| CourseModel.MissingRequired | server/models/course.model.ts:84-121 | The required paths the input leaves out are listed in schema order. A path is listed exactly when it is missing, and the list is empty exactly when every required path is present. |
| CourseModel.NewCourse | server/models/course.model.ts:84-142 | Creation succeeds exactly when every required path is present, and otherwise fails with the validator list. On success the document keeps every given field: name, description, price, the thumbnail's id and url, tags, level, demoUrl, and the benefits, prerequisites, reviews and content lists. `estimatedPrice` is kept as given (optional), and `ratings` and `purchased` default to 0. |
| CourseModel.NewReview | server/models/course.model.ts:51-58 | A review's rating defaults to 0. The user and comment are kept. |
| Http.TokenIn | server/middleware/auth.ts:12-13 | A request carries a token exactly when the cookie is present and not the empty string a logout left. |
| Store.FindByEmail | server/controller/user.controller.ts:26 | `findOne({ email })`: the first user with that email, or none exactly when no user has it. |
| Store.FindLayout | server/controller/layout.controller.ts:14 | `findOne({ type })`: the first layout of that type, or none exactly when none has it. |
| Store.Stored | server/models/user.model.ts:63-69 | After a save, the stored password is the hook's digest of the document's password, or the previous one when the document was read without it. Every other field is the document's. |
| Store.World.Create | server/models/user.model.ts:24-69 | `userModel.create`: it fails exactly on a validation error or a taken email, with the ValidationError or the duplicate-key error and no change. Otherwise it appends the hashed new user at the next id. The invariant is kept. |
| Store.World.Save | server/models/user.model.ts:24-69 | `doc.save()`: it fails exactly on a validation error or an email held by another user, and changes nothing then. Otherwise the user's position holds `Stored(previous, doc)`. The invariant is kept. |
| Store.World.InsertLayout | server/controller/layout.controller.ts:32 | A layout of a new type is appended at the next id, and at most one layout per type remains. |
| Store.World.UpdateLayout | server/controller/layout.controller.ts:80 | `findByIdAndUpdate`: the record keeps its id and type, and its parts are replaced. |
| Jwt.DefaultExpireSettings | server/utils/jwt.ts:15-16 | An unset or empty variable gives the lifetimes 300 and 1200. |
| Jwt.CookieOptionsArithmetic | server/utils/jwt.ts:19-31 | Both option records are httpOnly, `sameSite: 'lax'` and not secure. The access `maxAge` is access·3 600 000 and `expires` is now plus that. The refresh `maxAge` is access·86 400 000 and its `expires` is now plus refresh·86 400 000. A NaN lifetime gives NaN. |
| Jwt.RefreshMaxAgeUsesAccessExpire | server/utils/jwt.ts:28 | The refresh cookie's `maxAge` depends on the access lifetime only, never on REFRESH_TOKEN_EXPIRE. |
| Jwt.DefaultCookieLifetimes | server/utils/jwt.ts:15-31 | With both variables unset: an access `maxAge` of 1 080 000 000 ms, a refresh `maxAge` of 25 920 000 000 ms, and a refresh `expires` 103 680 000 000 ms after load. |
| Jwt.Load | server/utils/jwt.ts:15-31 | The server starts with both option records computed from the environment and the load time, and with empty users, sessions and cookies. |
| Jwt.SendToken | server/utils/jwt.ts:33-53 | The session for the user's id is overwritten with the snapshot. `secure` is set on the access options only, and only in production. Both cookies are set, the refresh one never secure. The answer carries the given status, the user and the access token. |
| Auth.Authenticate | server/middleware/auth.ts:10-30 | No token gives 401 "Please login to access this resource". The user is set exactly when an intact access token's id has a session, and it is that cached snapshot. The request is left unanswered exactly when a verified id has no session. |
| Auth.AuthenticateReadsOnlyAccessCookie | server/middleware/auth.ts:12-27 | Two requests with the same access token get the same outcome. Nothing but that cookie and the cache is read. |
| Auth.RejectedTokenSkipsCache | server/middleware/auth.ts:17-20 | A token that fails verification is refused whatever the cache holds, and no user is set. |
| Auth.DeniedAnswers | server/middleware/auth.ts:12-20 | The client sees 401 without a token, and 400 with the expired or invalid token message otherwise. |
| Auth.IsAuthenticated | server/middleware/auth.ts:10-30 | `next()` with `req.user` set to the cached snapshot exactly in the authenticated case. Otherwise the error is passed on, or the request is left unanswered, and `req.user` is unchanged. The invariant is kept. |
| Auth.AuthorizeRoles | server/middleware/auth.ts:33-42 | It passes exactly when `req.user`'s role is one of the roles (the trailing `''` fallback adds nothing). Otherwise it gives 403 naming the role, and without a user the role read throws. |
| UserController.CreateActivationToken | server/controller/user.controller.ts:64-75 | The code is four digits with value in 1000..9999. The ticket carries exactly the registration and that code, expires in "5m", and verifies. |
| UserController.RegistrationUser | server/controller/user.controller.ts:22-58 | A taken email gives 400 "Email already exists", with no ticket and no mail. Otherwise the activation mail goes to the email with the user's name and the code. A mail failure gives 400 with its message. Success gives 201 with a ticket carrying the name, the email and the password, or no password when the body has none. |
| UserController.DecodeTicket | server/controller/user.controller.ts:86 | A missing ticket is refused as not provided. A ticket verifies exactly when it is intact, and yields itself. |
| UserController.ActivateUser | server/controller/user.controller.ts:82-115 | In this order: a bad ticket gives 400 with the library message; a wrong code gives 400 "Incorrect activation code"; an email taken at redeem time gives 400; a validation failure gives 400. Each of these creates nothing. Otherwise exactly one user is created, with the ticket's name and email. It has the ticket's password hashed, or no password when the ticket carries none. |
| UserController.LoginUser | server/controller/user.controller.ts:122-142 | A missing field gives 400. An unknown email and a wrong password give the same 400 "Invalid email or password". A user without a password gives 404 with bcrypt's error. Each leaves the session as it was. Success gives 200 with the user and access token, and the session cached. The shared access options become secure in production. The jar gains the access cookie with those options and the refresh cookie with its own options, each carrying the user's token. |
| UserController.LogoutUser | server/controller/user.controller.ts:144-160 | Both cookies are overwritten with '' and `maxAge: 1`, and so carry no token. The session of `req.user` is deleted. The answer is 200 "Logged out successfully!". |
| UserController.DecodeRefresh | server/controller/user.controller.ts:166-167 | A missing cookie is refused as not provided. The token verifies exactly when it is an intact refresh token, and yields its id. |
| UserController.UpdateAccessToken | server/controller/user.controller.ts:163-197 | A rejected token gives 400 with its message. A verified id without a session gives 400 "Could not refresh token". Neither changes anything. With a session, both tokens are signed anew for the cached user and verify to the id, `req.user` becomes the snapshot, and both cookies are set. |
| UserController.GetUserInfo | server/controller/user.controller.ts:199-208 | The answer is 201 with the stored user of `req.user`, without its password. |
| UserController.SocialAuth | server/controller/user.controller.ts:217-236 | A known email opens a session for that user, read without its password. An unknown email creates a user without a password first, or answers the validation error and changes nothing. Each session is cached and answers 200 with the access token. The access options become secure in production, and the jar gains both cookies with the user's tokens and their options. |
| UserController.EditedInfo | server/controller/user.controller.ts:250-259 | Each non-empty field replaces the stored one. Nothing else changes. |
| UserController.UpdateUserInfo | server/controller/user.controller.ts:244-270 | A supplied email that any user holds, the caller included, gives 400 and no change. A validation failure gives 400 and no change. Otherwise the edited user is stored with its password kept, cached, and returned. |
| UserController.UpdatePassword | server/controller/user.controller.ts:277-304 | In order, each of these gives its 400 and no change: a missing field, no stored password, a wrong old password, a short new one. Otherwise the new password is hashed once, stored and cached, and it matches. |
| UserController.UpdateProfilePicture | server/controller/user.controller.ts:311-339 | With an avatar, the old picture is destroyed (when it has a public id) before the upload into "avatars". An upload failure gives 400 and no change. The user is saved, cached and returned, with the new avatar when one was given. |
| OrderController.NextPurchased | server/controller/order.controller.ts:68 | A non-zero counter goes up by one. A zero counter stays zero. |
| OrderController.ZeroPurchasedNeverMoves | server/controller/order.controller.ts:68 | A course at 0 purchases stays at 0 after any number of orders. |
| OrderController.PositivePurchasedCounts | server/controller/order.controller.ts:68 | A non-zero counter counts every later order. |
| OrderController.OrderNotification | server/controller/order.controller.ts:62-66 | The notification is for the buyer, titled "New Order", and its message names the user and the course (with the template's stray '}'). |
| OrderController.ConfirmationMail | server/controller/order.controller.ts:32-51 | The mail goes to the user's email with "Order Confirmation" and the template, and carries at most the first six characters of the course id, the name and the price. |
| OrderController.CreateOrder | server/controller/order.controller.ts:13-76 | Already enrolled gives 400, and a missing course gives 404; both send no mail and change nothing. A mail failure gives 500 and changes nothing. On success the course id is appended once to the user's courses, one notification is added, `purchased` follows `NextPurchased`, the order `{courseId, userId}` is recorded, and the answer is 201. |
| LayoutController.FaqItems | server/controller/layout.controller.ts:35-39 | One `{question, answer}` per request item, in order. |
| LayoutController.Categories | server/controller/layout.controller.ts:43-47 | One `{title}` per request item, in order. |
| LayoutController.FaqItemsRoundTrip | server/controller/layout.controller.ts:35-39 | Projecting the items a stored FAQ would be sent as gives that FAQ back. |
| LayoutController.FaqItemsIgnoreOtherFields | server/controller/layout.controller.ts:35-39 | Request lists that agree on questions and answers store the same FAQ. |
| LayoutController.CategoriesRoundTrip | server/controller/layout.controller.ts:43-47 | Projecting the items a stored category list would be sent as gives it back. |
| LayoutController.CreateLayout | server/controller/layout.controller.ts:9-55 | An existing type gives 400 and no change, so there is one record per type. A banner upload into "layout" happens first, and its failure gives 500. An absent list gives 500. An unknown type creates nothing but still answers 200 "Layout created successfully". |
| LayoutController.AsWrittenImageReadThrows | server/controller/layout.controller.ts:65 | As written, reading `bannerData.image.public_id` throws for every stored layout. |
| LayoutController.StoredImageIdReads | server/controller/layout.controller.ts:65 | Read from `banner.image`, the id is the stored banner's public id, and the read throws only for a record without a banner. |
| LayoutController.EditLayout | server/controller/layout.controller.ts:58-108 | For a banner, the stored image is destroyed before the new one is uploaded into "layout", and the record is then updated by id. For a list, its record's list is replaced by the projection. A missing list, a missing record or a failed upload gives 500 with that error. Another type answers 200 and changes nothing. |
| LayoutController.GetLayoutByType | server/controller/layout.controller.ts:111-121 | The answer is 201 with the layout of that type, or null exactly when none exists. |
| Routes.UserRoutesFollowChains | server/route/user.route.ts:19-32 | Registration, activation, login, refresh and social sign-in are public. Logout, /me and the three updates require authentication only. get-all-users requires authentication then admin. |
| Routes.UserRoutesMountHandlers | server/route/user.route.ts:19-32 | Every user handler is mounted. |
| Routes.CourseRoutesFollowChains | server/route/course.route.ts:19-31 | create, edit, add-reply, get-all-courses and delete require authentication then admin. get-course and get-courses are public. get-course-content, add-question, add-answer and add-review require authentication only. |
| Routes.CourseRoutesMountHandlers | server/route/course.route.ts:19-31 | Every course handler is mounted. |
| Routes.TablesAreCanonical | server/route/course.route.ts:19-31 | Every chain in the four tables is empty, authentication, or authentication then admin. |
| Routes.AuthPrecedesRoles | server/route/course.route.ts:19-31 | In every table, `isAuthenticated` precedes each `authorizeRoles`. |
| Routes.NoTokenBlocked | server/middleware/auth.ts:12-14 | A chain that starts by authenticating stops a request without an access token with the 401. |
| Routes.NoCookieNeverReachesGuarded | server/route/user.route.ts:22-32 | A request with no access cookie never reaches a guarded handler of any table. |
| Routes.RoleGuardHolds | server/middleware/auth.ts:33-42 | When a chain reaches its handler, every role guard after the last authentication admits the final `req.user`. |
| Routes.NonAdminNeverReachesAdminOnly | server/route/course.route.ts:19-31 | A handler behind `authorizeRoles('admin')` is reached only with an admin `req.user`. |
| Routes.AuthenticatedHandlersHaveUser | server/middleware/auth.ts:27-28 | A guarded handler is reached only after authentication succeeded, with `req.user` the cached snapshot. |
| Routes.PublicRoutesAlwaysReached | server/route/user.route.ts:19-26 | An unguarded route reaches its handler whatever the request carries. |
| Routes.CreateOrderReachedIffAuthenticated | server/route/order.route.ts:8 | The one order route is POST /create-order, guarded by authentication only. Any authenticated user reaches `createOrder`, with `req.user` set, and only such a user. |
| Routes.GetNotificationsAdminOnly | server/route/notification.route.ts:8-13 | The one notification route is GET /get-notifications, with authentication first and `authorizeRoles('admin')` second. It is reached exactly by an authenticated admin. |
| Routes.NonAdminGets403 | server/middleware/auth.ts:35-37 | An authenticated non-admin on an admin route gets the 403 naming its role. |
| Lifecycle.RegisterActivateReplayLogin | server/controller/user.controller.ts:22-142 | Register, activate, replay the same ticket, then log in. The replay is refused as "Email already exists", exactly one user is added, and the password opens a session for it. |
| Lifecycle.LogoutThenRefresh | server/controller/user.controller.ts:144-197 | After logout, a refresh with a refresh token issued to that session still verifies but is refused "Could not refresh token", and the session stays gone. |
| Lifecycle.LogoutKillsRefresh | server/controller/user.controller.ts:122-197 | Log in, authenticate, log out, then send the refresh cookie the login set. The refresh is refused and the user has no session. |
| Lifecycle.OrderTwice | server/controller/order.controller.ts:13-76 | Ordering a course twice records one order and one notification, and the second order is refused "You already enrolled this course". |
| Lifecycle.CreateThenGetLayout | server/controller/layout.controller.ts:9-121 | Creating a FAQ layout stores it, `getLayoutByType` then finds exactly it, and a second create is refused. |

## Left out

- `catchAsyncError.ts`, `redis.ts`, `layout.model.ts`, `order.model.ts` and `notification.model.ts` are not part of this model. The layout, order and notification records are the plain values the handlers create.
- Concurrency: requests are handled one at a time, so read-modify-write races on users, courses and sessions are not modelled.
- Dates and clocks: cookie `expires` is a number computed from a load time passed in. Token expiry is a flag on the presented token, and the order mail's locale date string is dropped.
- Cryptography: JWT signatures and bcrypt are abstract values. The activation code's `Math.random` is a free choice in 1000..9999.
- A malformed id (CastError) in `findById` is not modelled. Ids are natural numbers, and `req.user._id` always names a stored user.
- Request body fields the client leaves out are the empty string, which every test in these handlers treats as falsy, as it does `undefined`. The registration password is the exception: it is optional, because `minlength` skips an absent value but rejects an empty one. A filter `{ email }` without an email is modelled as a search for the empty email, which matches no stored user. Whether Mongoose drops an `undefined` field from a filter depends on query-casting options that these files do not set.
- UserController.SocialAuth: a request without an email is modelled as the empty email. That finds no user and fails validation with 400. If Mongoose drops the `undefined` field, `findOne({})` (server/controller/user.controller.ts:221) returns the first stored user, and the caller is signed in as that user (line 230). That reading is not modelled, for the reason above.
- UserController.RegistrationUser: likewise, a registration without an email is modelled as a search for the empty email. It is not `findOne({})`, which would answer "Email already exists" once any user exists (server/controller/user.controller.ts:26).
- Store.World.Create: a user created without a password skips the `isModified` branch (server/models/user.model.ts:64-65), but the hook as written then calls `bcrypt.hash(undefined, 10)` (line 67). socialAuth and an activation ticket without a password both create such users. The model stores the user with no password, for the reason given under Store.World.Save.
- Numbers are integers, with a NaN case for lifetimes only. Floating-point precision is not modelled.
- socialAuth: the avatar string in its body is not stored. The schema expects an object there, and its cast is not modelled.
- Store.World.Save: when a document read without its password is saved, the hook as written hashes `undefined`, and bcrypt throws "Illegal arguments: undefined, number". The model keeps the stored digest instead, because what Mongoose does with an error raised after `next()` was called is not visible in these files.
- CreateOrder: saving the course is not revalidated. `payment_info` is ignored, as the source ignores it. The lookup of existing enrolments compares stored course ids.
- The media store's `destroy` is assumed to succeed. Only uploads may fail.
- A `faq` or `categories` value that is present but not an array is not modelled.
- Of the upload options only the folder is kept; the avatar width (150) is not modelled.
- Express path parameters (`/:id`) are kept as text, and path matching is not modelled. Which chain guards which handler is stated through the handler classification `Routes.Chain`.
- The handlers behind the course, analytics and notification routes are named in the route tables only. Their controllers are stubs or thin queries, so no handler beyond the guard chain is modelled.
- getAllUsers and getAllOrders are not modelled. Their controllers and services only query a collection.

## Findings

| source | as written | input that shows it | evidently intended | confidence | as-written member | corrected member |
|---|---|---|---|---|---|---|
| server/controller/layout.controller.ts:65 | `editLayout` destroys `bannerData.image.public_id`, but a layout record keeps its image under `banner` | any `editLayout` with type 'Banner' while a Banner layout exists: `bannerData.image` is undefined, the read throws, and the handler answers 500 before uploading | read `bannerData.banner.image.public_id`, destroy the old image, upload the new one, update the record | not executed | LayoutController.AsWrittenImageReadThrows | LayoutController.EditLayout |
