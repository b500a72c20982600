/** Everything the server keeps between requests: the user collection, the
    session cache, the browser's cookies, the cookie options object that
    `sendToken` changes, the course, notification, order and layout
    collections, and `req.user` of the request being handled (requests are
    handled one at a time). The user collection's `create` and `save`, with
    the schema's validators, its unique email index and its pre-save hook,
    are methods here. */
module Store {
  import opened Js
  import opened Errors
  import opened Mongoose
  import opened UserModel
  import opened CourseModel
  import opened Documents
  import opened Http

  /** `userModel.findOne({ email })`: the position of the first user with
      that email. */
  function FindByEmail(users: seq<User>, email: string): (r: Option<nat>)
    ensures r.Some? ==> r.value < |users| && users[r.value].email == email
    ensures r.Some? ==> forall i :: 0 <= i < r.value ==> users[i].email != email
    ensures r.None? <==> forall i :: 0 <= i < |users| ==> users[i].email != email
  {
    if users == [] then None
    else if users[0].email == email then Some(0)
    else
      match FindByEmail(users[1..], email)
      case None => None
      case Some(k) => Some(k + 1)
  }

  /** `layoutModel.findOne({ type })`: the position of the first layout of
      that type. */
  function FindLayout(layouts: seq<Layout>, kind: string): (r: Option<nat>)
    ensures r.Some? ==> r.value < |layouts| && layouts[r.value].kind == kind
    ensures r.None? <==> forall i :: 0 <= i < |layouts| ==> layouts[i].kind != kind
  {
    if layouts == [] then None
    else if layouts[0].kind == kind then Some(0)
    else
      match FindLayout(layouts[1..], kind)
      case None => None
      case Some(k) => Some(k + 1)
  }

  /** A stored password is a digest, or absent for a user who signed in
      through a social provider. */
  predicate StoredPassword(p: Option<Secret>) {
    p.None? || p.value.Hashed?
  }

  /** A user as the collection holds it: it passed validation and its
      password, if any, is a digest. */
  predicate Admitted(u: User) {
    u.name != "" && u.email != "" && EmailPattern(u.email) && StoredPassword(u.password)
  }

  /** Admission is validation plus a stored password. */
  lemma AdmittedIsValidated(u: User)
    ensures Admitted(u) <==> UserErrors(u) == [] && StoredPassword(u.password)
  {
  }

  /** A document read without its password, with the name and email of an
      admitted user, passes validation. */
  lemma ReadDocumentValidates(u: User, doc: User)
    requires Admitted(u) && doc.name == u.name && doc.email == u.email && doc.password.None?
    ensures UserErrors(doc) == []
  {
  }

  /** The unique email index: no two stored users share an email. */
  ghost predicate EmailsDistinct(users: seq<User>) {
    forall i, j :: 0 <= i < j < |users| ==> users[i].email != users[j].email
  }

  /** The user collection: ids are positions, every user passed validation
      when it was stored, and the unique index keeps emails distinct. */
  ghost predicate UsersValid(users: seq<User>) {
    (forall i :: 0 <= i < |users| ==> users[i].id == i && Admitted(users[i])) &&
    EmailsDistinct(users)
  }

  /** Under the unique index, no other user has the email of user `i`. */
  lemma OthersDiffer(users: seq<User>, i: nat)
    requires EmailsDistinct(users) && i < |users|
    ensures forall j :: 0 <= j < |users| && j != i ==> users[j].email != users[i].email
  {
    forall j | 0 <= j < |users| && j != i
      ensures users[j].email != users[i].email
    {
      if j < i {
        assert users[j].email != users[i].email;
      } else {
        assert users[i].email != users[j].email;
      }
    }
  }

  /** Looking up a stored user's own email finds that user. */
  lemma FindOwnEmail(users: seq<User>, i: nat)
    requires EmailsDistinct(users) && i < |users|
    ensures FindByEmail(users, users[i].email) == Some(i)
  {
    OthersDiffer(users, i);
  }

  /** Replacing user `i` by a valid document whose email no other user has
      keeps the collection valid. */
  lemma ReplacePreservesUsersValid(users: seq<User>, i: nat, u: User)
    requires UsersValid(users) && i < |users|
    requires u.id == i && Admitted(u)
    requires forall j :: 0 <= j < |users| && j != i ==> users[j].email != u.email
    ensures UsersValid(users[i := u])
  {
    var after := users[i := u];
    forall a, b | 0 <= a < b < |after|
      ensures after[a].email != after[b].email
    {
      if a != i && b != i {
        assert users[a].email != users[b].email;
      }
    }
  }

  /** Appending a valid document whose email no stored user has keeps the
      collection valid. */
  lemma AppendPreservesUsersValid(users: seq<User>, u: User)
    requires UsersValid(users)
    requires u.id == |users| && Admitted(u)
    requires forall j :: 0 <= j < |users| ==> users[j].email != u.email
    ensures UsersValid(users + [u])
  {
    var after := users + [u];
    forall a, b | 0 <= a < b < |after|
      ensures after[a].email != after[b].email
    {
      if b < |users| {
        assert users[a].email != users[b].email;
      }
    }
  }

  /** At most one layout of each type; ids are positions. */
  ghost predicate LayoutsValid(layouts: seq<Layout>) {
    (forall i :: 0 <= i < |layouts| ==> layouts[i].id == i) &&
    (forall i, j :: 0 <= i < j < |layouts| ==> layouts[i].kind != layouts[j].kind)
  }

  /** Every session belongs to a stored user and is keyed by its id. */
  ghost predicate CacheValid(cache: map<nat, User>, count: nat) {
    forall k :: k in cache ==> k < count && cache[k].id == k
  }

  ghost predicate CoursesValid(courses: map<nat, Course>) {
    forall k :: k in courses ==> courses[k].id == k
  }

  /** The access options differ from those computed at load time at most in
      `secure`, which only production sets; the refresh options are never
      secure. */
  ghost predicate OptionsValid(access: CookieOptions, base: CookieOptions, refresh: CookieOptions, production: bool) {
    access == base.(secure := access.secure) && (access.secure ==> production) &&
    !base.secure && !refresh.secure
  }

  /** Another stored user than `doc` already holds `doc.email`. */
  predicate EmailTaken(users: seq<User>, doc: User) {
    var k := FindByEmail(users, doc.email);
    k.Some? && k.value != doc.id
  }

  /** What the collection holds after `doc.save()` succeeds. The hook hashes
      the password the document holds; a document read without its password
      leaves the stored one as it was. */
  function Stored(previous: User, doc: User): (u: User)
    ensures u.password == if doc.password.Some? then Some(Hash(doc.password.value)) else previous.password
    ensures u.(password := doc.password) == doc
  {
    if doc.password.Some? then PreSave(doc) else doc.(password := previous.password)
  }

  class World {
    var users: seq<User>
    /** The session cache: user id to the user snapshot `sendToken` wrote. */
    var cache: map<nat, User>
    /** The cookies the browser holds, and sends with its next request. */
    var jar: map<string, Cookie>
    /** `req.user` of the request being handled. */
    var reqUser: Option<User>
    /** `accessTokenOptions`: `sendToken` sets its `secure` flag in production. */
    var accessOptions: CookieOptions
    /** `accessTokenOptions` as the module computed it when it was loaded. */
    const accessBase: CookieOptions
    /** `refreshTokenOptions`, never changed. */
    const refreshOptions: CookieOptions
    /** `process.env.NODE_ENV === 'production'` */
    const production: bool
    var courses: map<nat, Course>
    var notifications: seq<Notification>
    var orders: seq<Order>
    var layouts: seq<Layout>

    ghost predicate Valid()
      reads this
    {
      UsersValid(users) && CacheValid(cache, |users|) &&
      (reqUser.Some? ==> reqUser.value.id < |users|) &&
      CoursesValid(courses) && LayoutsValid(layouts) &&
      OptionsValid(accessOptions, accessBase, refreshOptions, production)
    }

    /** A server that has just started: the collections hold only the given
        courses, and no browser has a cookie yet. */
    constructor (accessOptions: CookieOptions, refreshOptions: CookieOptions, production: bool,
                 courses: map<nat, Course>)
      requires !accessOptions.secure && !refreshOptions.secure
      requires forall k :: k in courses ==> courses[k].id == k
      ensures Valid()
      ensures this.accessOptions == accessOptions && accessBase == accessOptions
      ensures this.refreshOptions == refreshOptions && this.production == production
      ensures this.courses == courses
      ensures users == [] && cache == map[] && jar == map[] && reqUser.None?
      ensures notifications == [] && orders == [] && layouts == []
    {
      users := [];
      cache := map[];
      jar := map[];
      reqUser := None;
      this.accessOptions := accessOptions;
      accessBase := accessOptions;
      this.refreshOptions := refreshOptions;
      this.production := production;
      this.courses := courses;
      notifications := [];
      orders := [];
      layouts := [];
    }

    /** `userModel.create({ name, email, password })`: validation first, then
        the unique email index, then the pre-save hook hashes the password;
        the new user's id is the next position. */
    method Create(name: string, email: string, password: Option<string>) returns (r: Result<User, Err>)
      requires Valid()
      modifies this`users
      ensures Valid()
      ensures r.Failure? ==> users == old(users)
      ensures r.Failure? <==> UserErrors(NewUser(|old(users)|, name, email, password)) != [] ||
                              FindByEmail(old(users), email).Some?
      ensures UserErrors(NewUser(|old(users)|, name, email, password)) != [] ==>
                r.error == ValidationError("User", UserErrors(NewUser(|old(users)|, name, email, password)))
      ensures UserErrors(NewUser(|old(users)|, name, email, password)) == [] && FindByEmail(old(users), email).Some? ==>
                r.error == DuplicateKey(["email"])
      ensures r.Success? ==> r.value == PreSave(NewUser(|old(users)|, name, email, password)) && users == old(users) + [r.value]
    {
      var doc := NewUser(|users|, name, email, password);
      var errs := UserErrors(doc);
      if errs != [] {
        return Failure(ValidationError("User", errs));
      }
      if FindByEmail(users, email).Some? {
        return Failure(DuplicateKey(["email"]));
      }
      var saved := PreSave(doc);
      AdmittedIsValidated(saved);
      AppendPreservesUsersValid(users, saved);
      users := users + [saved];
      r := Success(saved);
    }

    /** `doc.save()` for a user read from the collection: validation first,
        then the unique email index, then the pre-save hook. On success the
        document's position holds `Stored(previous, doc)`, and the result is
        the document as the hook left it. */
    method Save(doc: User) returns (r: Result<User, Err>)
      requires Valid() && doc.id < |users|
      modifies this`users
      ensures Valid()
      ensures r.Failure? ==> users == old(users)
      ensures r.Failure? <==> UserErrors(doc) != [] || EmailTaken(old(users), doc)
      ensures UserErrors(doc) != [] ==> r.error == ValidationError("User", UserErrors(doc))
      ensures UserErrors(doc) == [] && EmailTaken(old(users), doc) ==> r.error == DuplicateKey(["email"])
      ensures r.Success? ==> r.value == PreSave(doc) && users == old(users)[doc.id := Stored(old(users)[doc.id], doc)]
    {
      var errs := UserErrors(doc);
      if errs != [] {
        return Failure(ValidationError("User", errs));
      }
      if EmailTaken(users, doc) {
        return Failure(DuplicateKey(["email"]));
      }
      var stored := Stored(users[doc.id], doc);
      AdmittedIsValidated(stored);
      var k := FindByEmail(users, doc.email);
      if k.Some? {
        OthersDiffer(users, doc.id);
      }
      ReplacePreservesUsersValid(users, doc.id, stored);
      users := users[doc.id := stored];
      r := Success(PreSave(doc));
    }

    /** `layoutModel.create(...)` for a type that has no record yet: the new
        record's id is the next position. */
    method InsertLayout(l: Layout)
      requires Valid() && l.id == |layouts| && FindLayout(layouts, l.kind).None?
      modifies this`layouts
      ensures Valid()
      ensures layouts == old(layouts) + [l]
    {
      layouts := layouts + [l];
    }

    /** `layoutModel.findByIdAndUpdate(id, ...)`: the record keeps its id and
        type, its parts are replaced. */
    method UpdateLayout(k: nat, l: Layout)
      requires Valid() && k < |layouts| && l.id == layouts[k].id && l.kind == layouts[k].kind
      modifies this`layouts
      ensures Valid()
      ensures layouts == old(layouts)[k := l]
    {
      layouts := layouts[k := l];
    }
  }
}
