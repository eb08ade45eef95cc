/**
 * The User Service's `User` schema: `email` is required, unique, trimmed and
 * lower-cased; `password` (the stored hash) is required; `firstName` and
 * `lastName` are required and trimmed; timestamps are kept. The serialised
 * form renames `_id` and drops the hash and `__v`.
 */
module UserSchema {
  import opened Wrappers
  import opened Text
  import opened Http
  import opened AuthUtils

  /** A stored user document; `passwordHash` is the `password` path. */
  datatype User = User(
    oid: string, email: string, passwordHash: string,
    firstName: string, lastName: string, createdAt: int, updatedAt: int)

  /** No upper-case ASCII letter. */
  predicate LowerCase(s: string) {
    forall i :: 0 <= i < |s| ==> !('A' <= s[i] <= 'Z')
  }

  /** Lower-casing keeps a trimmed string trimmed: it maps no character to or from white space. */
  lemma ToLowerKeepsTrimmed(s: string)
    requires Trimmed(s)
    ensures Trimmed(ToLower(s))
  {
    if |s| > 0 {
      assert ToLower(s)[0] == LowerChar(s[0]);
      assert ToLower(s)[|s| - 1] == LowerChar(s[|s| - 1]);
    }
  }

  /** The `email` path's setters, `trim` then `lowercase`; they also cast query filters on the path. */
  function NormaliseEmail(s: string): (r: string)
    ensures Trimmed(r) && LowerCase(r)
    ensures |r| <= |s|
  {
    ToLowerKeepsTrimmed(Trim(s));
    ToLower(Trim(s))
  }

  /** A normalised address normalises to itself, so storing and looking up agree. */
  lemma NormaliseIdempotent(s: string)
    ensures NormaliseEmail(NormaliseEmail(s)) == NormaliseEmail(s)
  {
    var n := NormaliseEmail(s);
    TrimmedFixed(n);
    ToLowerIdempotent(Trim(s));
  }

  /** Two addresses differing only in case and surrounding white space are one address. */
  lemma NormaliseIgnoresCase(s: string)
    ensures NormaliseEmail(ToLower(s)) == NormaliseEmail(s)
    ensures NormaliseEmail(" " + s) == NormaliseEmail(s)
  {
    assert TrimStart(" " + s) == TrimStart(s);
    var t := Trim(s);
    assert Trim(ToLower(s)) == ToLower(t) by {
      LowerTrimCommute(s);
    }
    ToLowerIdempotent(t);
  }

  /** Lower-casing and trimming commute, since lower-casing keeps white space where it is. */
  lemma {:induction false} LowerTrimCommute(s: string)
    ensures Trim(ToLower(s)) == ToLower(Trim(s))
  {
    LowerTrimStart(s);
    LowerTrimEnd(TrimStart(s));
  }

  lemma LowerKeepsSpace(c: char)
    ensures IsSpace(LowerChar(c)) == IsSpace(c)
  {
  }

  lemma {:induction false} LowerTrimStart(s: string)
    ensures TrimStart(ToLower(s)) == ToLower(TrimStart(s))
    decreases |s|
  {
    if |s| > 0 {
      var l := ToLower(s);
      assert l[0] == LowerChar(s[0]);
      LowerKeepsSpace(s[0]);
      if IsSpace(s[0]) {
        assert l[1..] == ToLower(s[1..]);
        LowerTrimStart(s[1..]);
      }
    }
  }

  lemma {:induction false} LowerTrimEnd(s: string)
    ensures TrimEnd(ToLower(s)) == ToLower(TrimEnd(s))
    decreases |s|
  {
    if |s| > 0 {
      assert ToLower(s)[..|s| - 1] == ToLower(s[..|s| - 1]);
      assert ToLower(s)[|s| - 1] == LowerChar(s[|s| - 1]);
      LowerTrimEnd(s[..|s| - 1]);
    }
  }

  /** The schema's constraints on a stored user. */
  predicate ValidUser(u: User) {
    && u.email != "" && NormaliseEmail(u.email) == u.email
    && u.passwordHash != ""
    && u.firstName != "" && Trimmed(u.firstName)
    && u.lastName != "" && Trimmed(u.lastName)
  }

  /** A required, trimmed string path: present and not blank once trimmed. */
  predicate Given(v: Option<string>) {
    v.Some? && Trim(v.value) != ""
  }

  /**
   * `UserModel.create({ email, password: hash, firstName, lastName })`: the
   * saved document, or `None` when a required path is missing or blank.
   */
  function NewUser(oid: string, email: Option<string>, passwordHash: string,
                   firstName: Option<string>, lastName: Option<string>, now: int): (r: Option<User>)
    ensures r.Some? <==>
      email.Some? && NormaliseEmail(email.value) != "" && passwordHash != "" && Given(firstName) && Given(lastName)
    ensures r.Some? ==>
      && ValidUser(r.value)
      && r.value.oid == oid && r.value.passwordHash == passwordHash
      && r.value.email == NormaliseEmail(email.value)
      && r.value.firstName == Trim(firstName.value) && r.value.lastName == Trim(lastName.value)
      && r.value.createdAt == now && r.value.updatedAt == now
  {
    if email.None? || NormaliseEmail(email.value) == "" then None
    else if passwordHash == "" then None
    else if !Given(firstName) || !Given(lastName) then None
    else
      NormaliseIdempotent(email.value);
      Some(User(oid, NormaliseEmail(email.value), passwordHash, Trim(firstName.value), Trim(lastName.value), now, now))
  }

  /** `toJSON`: `_id` renamed to `id`; the password hash and `__v` dropped. */
  function UserJson(u: User): (j: JsonObject)
    ensures "password" !in j && "_id" !in j && "__v" !in j
    ensures j.Keys == {"id", "email", "firstName", "lastName", "createdAt", "updatedAt"}
    ensures j["id"] == JStr(u.oid) && j["email"] == JStr(u.email)
    ensures j["firstName"] == JStr(u.firstName) && j["lastName"] == JStr(u.lastName)
    ensures j["createdAt"] == JTime(u.createdAt) && j["updatedAt"] == JTime(u.updatedAt)
  {
    map["id" := JStr(u.oid), "email" := JStr(u.email),
        "firstName" := JStr(u.firstName), "lastName" := JStr(u.lastName),
        "createdAt" := JTime(u.createdAt), "updatedAt" := JTime(u.updatedAt)]
  }

  /** No value in the serialised user is the hash, unless the hash equals another field. */
  lemma UserJsonHidesHash(u: User)
    requires u.passwordHash !in {u.oid, u.email, u.firstName, u.lastName}
    ensures JStr(u.passwordHash) !in UserJson(u).Values
  {
  }

  /** `comparePassword(candidate)`: the candidate checked against the stored hash. */
  function ComparePassword(u: User, candidate: string, check: PasswordCheck): bool {
    check(candidate, u.passwordHash)
  }

  /**
   * A saved user accepts the password it was registered with, whenever the
   * password check accepts a password against its own hash (the bcrypt
   * round trip, taken as a hypothesis).
   */
  lemma SavedHashAccepts(oid: string, email: Option<string>, password: string, hash: Hasher, check: PasswordCheck,
                         firstName: Option<string>, lastName: Option<string>, now: int)
    requires check(password, hash(password))
    requires NewUser(oid, email, hash(password), firstName, lastName, now).Some?
    ensures ComparePassword(NewUser(oid, email, hash(password), firstName, lastName, now).value, password, check)
  {
  }

  /** The `{ id, email, firstName, lastName }` object the controller answers with. */
  datatype UserView = UserView(id: string, email: string, firstName: string, lastName: string)

  function ViewOf(u: User): UserView {
    UserView(u.oid, u.email, u.firstName, u.lastName)
  }
}
