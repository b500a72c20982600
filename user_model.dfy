/** The user document (server/models/user.model.ts): its fields and defaults,
    its validators, the password hook that runs before every save, password
    comparison and the two token signers. */
module UserModel {
  import opened Js
  import opened Tokens
  import opened Mongoose

  // ---------------------------------------------------------------------------
  // Passwords. bcrypt is uninterpreted: a digest is a value that only equals
  // the digest of the same input.

  datatype Secret = Plain(text: string) | Hashed(of: Secret)

  /** `bcrypt.hash(secret, 10)` */
  function Hash(s: Secret): Secret {
    Hashed(s)
  }

  /** `bcrypt.compare(entered, stored)` */
  predicate ComparePassword(entered: string, stored: Secret) {
    stored == Hash(Plain(entered))
  }

  // ---------------------------------------------------------------------------
  // The document.

  datatype Avatar = Avatar(publicId: string, url: string)

  /** A user document. `password` is None when the document was read without
      it (the default selection) or when the user never had one (social sign-in). */
  datatype User = User(id: nat, name: string, email: string, password: Option<Secret>,
                       avatar: Option<Avatar>, role: string, isVerified: bool, courses: seq<nat>)

  const DefaultRole := "user"
  const MinPasswordLength := 6

  /** A new document as `create` builds it from the given fields: everything
      else takes the schema's default. */
  function NewUser(id: nat, name: string, email: string, password: Option<string>): (u: User)
    ensures u.role == DefaultRole && !u.isVerified && u.courses == [] && u.avatar.None?
    ensures u.id == id && u.name == name && u.email == email
    ensures password.Some? ==> u.password == Some(Plain(password.value))
    ensures password.None? ==> u.password.None?
  {
    User(id, name, email, if password.Some? then Some(Plain(password.value)) else None,
         None, DefaultRole, false, [])
  }

  /** The document as a query returns it: `password` has `select: false`, so it
      is there only when the query asks for `+password`. */
  function Select(u: User, withPassword: bool): (v: User)
    ensures !withPassword ==> v.password.None?
    ensures v.(password := u.password) == u
  {
    if withPassword then u else u.(password := None)
  }

  /** The pre-save hook as written: `next()` is called but not returned when the
      password is unmodified, so the hook goes on and hashes whatever password
      the document holds, on every save. */
  function PreSave(u: User): User {
    u.(password := if u.password.Some? then Some(Hash(u.password.value)) else None)
  }

  /** Because the hook hashes on every save, saving a document that was read
      with its (already hashed) password hashes the digest again, and the
      user's own password no longer matches. */
  lemma {:induction false} PreSaveRehashes(u: User, p: string)
    requires u.password == Some(Hash(Plain(p)))
    ensures ComparePassword(p, u.password.value)
    ensures PreSave(u).password == Some(Hash(Hash(Plain(p))))
    ensures !ComparePassword(p, PreSave(u).password.value)
  {
    assert Hash(Plain(p)) != Plain(p);
  }

  /** `signAccessToken`: claim `{ id: _id }`, ACCESS_TOKEN, five minutes. */
  function SignAccessToken(u: User): (t: Token)
    ensures Verify(t, Access) == Verified(u.id) && Verify(t, Refresh).Rejected?
    ensures t.expiresIn == "5m"
  {
    Sign(Access, u.id, "5m")
  }

  /** `signRefreshToken`: the same claim, REFRESH_TOKEN, seven days. */
  function SignRefreshToken(u: User): (t: Token)
    ensures Verify(t, Refresh) == Verified(u.id) && Verify(t, Access).Rejected?
    ensures t.expiresIn == "7d"
  {
    Sign(Refresh, u.id, "7d")
  }

  // ---------------------------------------------------------------------------
  // The email pattern /^([\w-\.]+@([\w-]+\.)+[\w-]{2,4})?$/.

  /** `\w` */
  predicate IsWordChar(c: char) {
    'a' <= c <= 'z' || 'A' <= c <= 'Z' || '0' <= c <= '9' || c == '_'
  }

  /** `[\w-\.]`: the characters of the part before '@' */
  predicate IsLocalChar(c: char) {
    IsWordChar(c) || c == '-' || c == '.'
  }

  /** `[\w-]`: the characters of a domain label */
  predicate IsLabelChar(c: char) {
    IsWordChar(c) || c == '-'
  }

  predicate AllLocal(s: string) {
    forall i :: 0 <= i < |s| ==> IsLocalChar(s[i])
  }

  predicate AllLabel(s: string) {
    forall i :: 0 <= i < |s| ==> IsLabelChar(s[i])
  }

  /** `[\w-]{2,4}$` */
  predicate TopLabel(t: string) {
    2 <= |t| <= 4 && AllLabel(t)
  }

  /** `([\w-]+\.)+[\w-]{2,4}$`, read as the regular expression reads it: one
      label and a dot, then either the final label or the same again. */
  predicate DomainPattern(d: string)
    decreases |d|, 1
  {
    exists i | 0 < i < |d| :: DomainStep(d, i)
  }

  /** The first label of `d` ends with the dot at `i`, and the rest matches. */
  predicate DomainStep(d: string, i: int)
    decreases |d|, 0
  {
    0 < i < |d| && d[i] == '.' && AllLabel(d[..i]) &&
    (TopLabel(d[i + 1..]) || DomainPattern(d[i + 1..]))
  }

  /** The whole pattern: the group is optional, so the empty string matches. */
  predicate EmailPattern(s: string) {
    s == [] || exists k | 0 < k < |s| :: EmailStep(s, k)
  }

  /** The '@' at `k` separates a local part and a domain the pattern accepts. */
  predicate EmailStep(s: string, k: int) {
    0 < k < |s| && s[k] == '@' && AllLocal(s[..k]) && DomainPattern(s[k + 1..])
  }

  // A second, independent description of the same language, by splitting.

  function IndexOf(s: string, c: char): (i: nat)
    requires c in s
    ensures i < |s| && s[i] == c && c !in s[..i]
  {
    if s[0] == c then 0
    else
      var j := IndexOf(s[1..], c);
      assert s[..j + 1] == [s[0]] + s[1..][..j];
      j + 1
  }

  /** `s.split(sep)` for a one-character separator. */
  function Split(s: string, sep: char): (parts: seq<string>)
    ensures |parts| >= 1
    decreases |s|
  {
    if sep !in s then [s]
    else
      var i := IndexOf(s, sep);
      [s[..i]] + Split(s[i + 1..], sep)
  }

  /** The domain is at least two non-empty dot-separated labels over `[\w-]`,
      the last of two to four characters. */
  predicate DomainShape(d: string) {
    var labels := Split(d, '.');
    |labels| >= 2 &&
    (forall j :: 0 <= j < |labels| ==> labels[j] != [] && AllLabel(labels[j])) &&
    2 <= |labels[|labels| - 1]| <= 4
  }

  /** Empty, or exactly one '@' with a non-empty `[\w.-]` part before it and a
      well-shaped domain after it. */
  predicate WellFormedEmail(s: string) {
    s == [] ||
    var parts := Split(s, '@');
    |parts| == 2 && parts[0] != [] && AllLocal(parts[0]) && DomainShape(parts[1])
  }

  lemma SplitAt(s: string, sep: char, k: nat)
    requires k < |s| && s[k] == sep && sep !in s[..k]
    ensures Split(s, sep) == [s[..k]] + Split(s[k + 1..], sep)
  {
  }

  lemma SplitOne(s: string, sep: char)
    requires |Split(s, sep)| == 1
    ensures sep !in s && Split(s, sep) == [s]
  {
  }

  /** No '@' can occur in a domain the pattern accepts. */
  lemma {:induction false} DomainPatternChars(d: string)
    requires DomainPattern(d)
    ensures '@' !in d
    decreases |d|
  {
    var i :| 0 < i < |d| && DomainStep(d, i);
    var rest := d[i + 1..];
    if DomainPattern(rest) {
      DomainPatternChars(rest);
    }
    assert d == d[..i] + [d[i]] + rest;
    assert '@' !in d[..i];
  }

  lemma {:induction false} DomainPatternToShape(d: string)
    requires DomainPattern(d)
    ensures DomainShape(d)
    decreases |d|
  {
    var i :| 0 < i < |d| && DomainStep(d, i);
    var rest := d[i + 1..];
    assert '.' !in d[..i];
    SplitAt(d, '.', i);
    if TopLabel(rest) {
      assert '.' !in rest;
      assert Split(d, '.') == [d[..i], rest];
    } else {
      DomainPatternToShape(rest);
      var tail := Split(rest, '.');
      assert Split(d, '.') == [d[..i]] + tail;
    }
  }

  lemma {:induction false} DomainShapeToPattern(d: string)
    requires DomainShape(d)
    ensures DomainPattern(d)
    decreases |d|
  {
    var labels := Split(d, '.');
    assert '.' in d;
    var i := IndexOf(d, '.');
    var rest := d[i + 1..];
    var tail := Split(rest, '.');
    assert labels == [d[..i]] + tail;
    assert labels[0] == d[..i];
    if |tail| == 1 {
      SplitOne(rest, '.');
      assert TopLabel(rest);
    } else {
      assert forall j :: 0 <= j < |tail| ==> tail[j] == labels[j + 1];
      DomainShapeToPattern(rest);
    }
    assert DomainStep(d, i);
  }

  /** The pattern accepts exactly the empty string and the well-formed addresses. */
  lemma EmailPatternIsWellFormed(s: string)
    ensures EmailPattern(s) <==> WellFormedEmail(s)
  {
    if s != [] && EmailPattern(s) {
      PatternToWellFormed(s);
    }
    if s != [] && WellFormedEmail(s) {
      WellFormedToPattern(s);
    }
  }

  lemma PatternToWellFormed(s: string)
    requires s != [] && EmailPattern(s)
    ensures WellFormedEmail(s)
  {
    var k :| 0 < k < |s| && EmailStep(s, k);
    var d := s[k + 1..];
    assert '@' !in s[..k];
    DomainPatternChars(d);
    SplitAt(s, '@', k);
    assert Split(s, '@') == [s[..k], d];
    DomainPatternToShape(d);
  }

  lemma WellFormedToPattern(s: string)
    requires s != [] && WellFormedEmail(s)
    ensures EmailPattern(s)
  {
    var parts := Split(s, '@');
    assert '@' in s;
    var k := IndexOf(s, '@');
    var d := s[k + 1..];
    assert parts == [s[..k]] + Split(d, '@');
    SplitOne(d, '@');
    DomainShapeToPattern(d);
    assert EmailStep(s, k);
  }

  // ---------------------------------------------------------------------------
  // Validation, in the schema's path order. `match` skips the empty string,
  // which `required` has already rejected; `minlength` checks the password as
  // the request gave it, before the hook hashes it.

  const NameRequired := FieldError("name", "Please enter your name")
  const EmailRequired := FieldError("email", "Please enter your email")
  const EmailInvalid := FieldError("email", "Please enter valid email address")
  const PasswordShort := FieldError("password", "Password must be at least 6 characters")

  predicate PasswordTooShort(p: Option<Secret>) {
    p.Some? && p.value.Plain? && |p.value.text| < MinPasswordLength
  }

  function UserErrors(u: User): seq<FieldError> {
    (if u.name == "" then [NameRequired] else []) +
    (if u.email == "" then [EmailRequired]
     else if !EmailPattern(u.email) then [EmailInvalid] else []) +
    (if PasswordTooShort(u.password) then [PasswordShort] else [])
  }

  /** A user passes validation exactly when it has a name, a non-empty
      well-formed email, and no plain password shorter than six characters;
      each failed rule contributes its own error. */
  lemma UserErrorsExplained(u: User)
    ensures UserErrors(u) == [] <==>
              u.name != "" && u.email != "" && WellFormedEmail(u.email) && !PasswordTooShort(u.password)
    ensures NameRequired in UserErrors(u) <==> u.name == ""
    ensures EmailRequired in UserErrors(u) <==> u.email == ""
    ensures EmailInvalid in UserErrors(u) <==> u.email != "" && !WellFormedEmail(u.email)
    ensures PasswordShort in UserErrors(u) <==> PasswordTooShort(u.password)
  {
    EmailPatternIsWellFormed(u.email);
  }
}
