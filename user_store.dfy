/**
 * The User Service's auth controller over the `users` collection. A store
 * error (a driver failure, or an id that is not an ObjectId) is the `fault`
 * input; bcrypt rejecting a missing password is a 500 as well. Password
 * hashing, its check and token issue are parameters.
 */
module UserStore {
  import opened Wrappers
  import opened Text
  import opened Http
  import opened Outcomes
  import opened AuthUtils
  import opened UserSchema

  const DuplicateEmail: string := "User with this email already exists"
  const BadCredentials: string := "Invalid email or password"
  const Unauthorized: string := "Unauthorized"
  const UserNotFound: string := "User not found"
  const RegisterFailed: string := "Server error during registration"
  const LoginFailed: string := "Server error during login"
  const ProfileFailed: string := "Server error getting user profile"

  /** The two success bodies: `{ token, user }` after register or login, and the bare profile. */
  datatype AuthBody = Session(token: string, user: UserView) | Profile(user: UserView)

  predicate UniqueOids(users: seq<User>) {
    forall i, j :: 0 <= i < j < |users| ==> users[i].oid != users[j].oid
  }

  /** The `unique` index on `email`. */
  predicate UniqueEmails(users: seq<User>) {
    forall i, j :: 0 <= i < j < |users| ==> users[i].email != users[j].email
  }

  /** The first user holding exactly `address`, or -1. */
  function FindAddress(users: seq<User>, address: string): (k: int)
    ensures -1 <= k < |users|
    ensures k >= 0 ==> users[k].email == address && forall i :: 0 <= i < k ==> users[i].email != address
    ensures k == -1 ==> forall i :: 0 <= i < |users| ==> users[i].email != address
    decreases |users|
  {
    if |users| == 0 then -1
    else if users[0].email == address then 0
    else
      var k := FindAddress(users[1..], address);
      if k == -1 then -1 else k + 1
  }

  /** `findOne({ email })` with the filter cast by the path's setters; an absent address matches nobody. */
  function FindByEmail(users: seq<User>, email: Option<string>): (k: int)
    ensures -1 <= k < |users|
    ensures k >= 0 ==> email.Some? && users[k].email == NormaliseEmail(email.value)
    ensures k == -1 ==> email.None? || forall i :: 0 <= i < |users| ==> users[i].email != NormaliseEmail(email.value)
    ensures k >= 0 ==> forall i :: 0 <= i < k ==> users[i].email != users[k].email
  {
    if email.None? then -1 else FindAddress(users, NormaliseEmail(email.value))
  }

  /** `findById(id)`. */
  function FindById(users: seq<User>, id: string): (k: int)
    ensures -1 <= k < |users|
    ensures k >= 0 ==> users[k].oid == id
    ensures k == -1 ==> forall i :: 0 <= i < |users| ==> users[i].oid != id
    decreases |users|
  {
    if |users| == 0 then -1
    else if users[0].oid == id then 0
    else
      var k := FindById(users[1..], id);
      if k == -1 then -1 else k + 1
  }

  /** `req.userId || req.body.userId`. */
  function ProfileId(reqUserId: Option<string>, bodyUserId: Option<string>): (id: Option<string>)
    ensures Truthy(reqUserId) ==> id == reqUserId
    ensures !Truthy(reqUserId) ==> id == bodyUserId
  {
    if Truthy(reqUserId) then reqUserId else bodyUserId
  }

  /** With unique addresses, the lookup lands on the one user holding the address, wherever it is. */
  lemma FindByEmailUnique(users: seq<User>, email: string, i: int)
    requires UniqueEmails(users) && 0 <= i < |users| && users[i].email == NormaliseEmail(email)
    ensures FindByEmail(users, Some(email)) == i
  {
  }

  /** A user appended with a fresh address is found by any spelling of it that normalises to it. */
  lemma FindAppended(users: seq<User>, u: User, email: string)
    requires UniqueEmails(users) && FindByEmail(users, Some(email)) == -1
    requires u.email == NormaliseEmail(email)
    ensures FindByEmail(users + [u], Some(email)) == |users|
  {
    FindByEmailUnique(users + [u], email, |users|);
  }

  /** Every stored user satisfies the schema. */
  predicate AllValid(users: seq<User>) {
    forall u :: u in users ==> ValidUser(u)
  }

  /** The collection's indexes and setters: unique ids, unique normalised addresses, valid documents. */
  predicate Consistent(users: seq<User>) {
    UniqueOids(users) && UniqueEmails(users) && AllValid(users)
  }

  /** A user with a fresh id and a fresh address keeps both indexes unique. */
  lemma AppendKeepsUnique(users: seq<User>, u: User)
    requires UniqueOids(users) && UniqueEmails(users)
    requires forall v :: v in users ==> v.oid != u.oid
    requires forall i :: 0 <= i < |users| ==> users[i].email != u.email
    ensures UniqueOids(users + [u]) && UniqueEmails(users + [u])
  {
    var all := users + [u];
    forall i, j | 0 <= i < j < |all|
      ensures all[i].oid != all[j].oid && all[i].email != all[j].email
    {
      assert all[i] == users[i];
      if j < |users| {
        assert all[j] == users[j];
      } else {
        assert users[i] in users;
      }
    }
  }

  /**
   * What a successful registration leaves behind: the collection stays
   * consistent and the new user is found under the address it registered with.
   */
  lemma RegisterAppends(users: seq<User>, u: User, email: string)
    requires Consistent(users) && ValidUser(u) && u.email == NormaliseEmail(email)
    requires FindByEmail(users, Some(email)) == -1
    requires forall v :: v in users ==> v.oid != u.oid
    ensures Consistent(users + [u])
    ensures FindByEmail(users + [u], Some(email)) == |users|
  {
    AppendKeepsUnique(users, u);
    assert AllValid(users + [u]);
    FindAppended(users, u, email);
  }

  class UserStore {
    var users: seq<User>

    predicate Valid()
      reads this
    {
      Consistent(users)
    }

    constructor ()
      ensures users == [] && Valid()
    {
      users := [];
    }

    /**
     * `register`: a taken address (after normalisation) is a 400 with
     * nothing stored; otherwise the hash of the password, never the password,
     * is saved with the normalised address, and the answer is 201 with a
     * token for the new id and the user without any password.
     */
    method Register(email: Option<string>, password: Option<string>, firstName: Option<string>,
                    lastName: Option<string>, oid: string, now: int, hash: Hasher, issue: Issuer, fault: bool)
      returns (reply: Reply<AuthBody>)
      modifies this
      requires Valid() && forall u :: u in users ==> u.oid != oid
      ensures Valid()
      ensures fault ==> reply == Reply(500, Message(RegisterFailed)) && users == old(users)
      ensures !fault && FindByEmail(old(users), email) >= 0 ==>
        reply == Reply(400, Message(DuplicateEmail)) && users == old(users)
      ensures !fault && FindByEmail(old(users), email) == -1 && password.None? ==>
        reply == Reply(500, Message(RegisterFailed)) && users == old(users)
      ensures !fault && FindByEmail(old(users), email) == -1 && password.Some? ==>
        match NewUser(oid, email, hash(password.value), firstName, lastName, now)
        case None => reply == Reply(500, Message(RegisterFailed)) && users == old(users)
        case Some(u) =>
          && users == old(users) + [u]
          && u.passwordHash == hash(password.value)
          && reply == Reply(201, One(Session(issue(oid), ViewOf(u))))
      ensures reply.status == 201 ==> |users| == |old(users)| + 1 && FindByEmail(users, email) == |old(users)|
      ensures reply.status != 201 ==> users == old(users)
    {
      if fault {
        return Reply(500, Message(RegisterFailed));
      }
      if FindByEmail(users, email) >= 0 {
        return Reply(400, Message(DuplicateEmail));
      }
      if password.None? {
        return Reply(500, Message(RegisterFailed));
      }
      var created := NewUser(oid, email, hash(password.value), firstName, lastName, now);
      if created.None? {
        return Reply(500, Message(RegisterFailed));
      }
      var u := created.value;
      assert email == Some(email.value);
      RegisterAppends(users, u, email.value);
      users := users + [u];
      reply := Reply(201, One(Session(issue(oid), ViewOf(u))));
    }

    /**
     * `login`: an unknown address and a wrong password give the same 401;
     * success is 200 with a token for the user found and no password.
     */
    method Login(email: Option<string>, password: Option<string>, check: PasswordCheck, issue: Issuer, fault: bool)
      returns (reply: Reply<AuthBody>)
      ensures fault ==> reply == Reply(500, Message(LoginFailed))
      ensures !fault && FindByEmail(users, email) == -1 ==> reply == Reply(401, Message(BadCredentials))
      ensures !fault && FindByEmail(users, email) >= 0 ==>
        var u := users[FindByEmail(users, email)];
        && (password.None? ==> reply == Reply(500, Message(LoginFailed)))
        && (password.Some? && !ComparePassword(u, password.value, check) ==> reply == Reply(401, Message(BadCredentials)))
        && (password.Some? && ComparePassword(u, password.value, check) ==>
              reply == Reply(200, One(Session(issue(u.oid), ViewOf(u)))))
      ensures reply.status == 401 ==> reply == Reply(401, Message(BadCredentials))
      ensures reply.status == 200 ==>
        email.Some? && password.Some? && reply.body.One? && reply.body.doc.Session?
        && exists u :: u in users && u.email == NormaliseEmail(email.value)
             && check(password.value, u.passwordHash) && reply.body.doc.token == issue(u.oid)
    {
      if fault {
        return Reply(500, Message(LoginFailed));
      }
      var k := FindByEmail(users, email);
      if k == -1 {
        return Reply(401, Message(BadCredentials));
      }
      var u := users[k];
      if password.None? {
        return Reply(500, Message(LoginFailed));
      }
      if !ComparePassword(u, password.value, check) {
        return Reply(401, Message(BadCredentials));
      }
      reply := Reply(200, One(Session(issue(u.oid), ViewOf(u))));
    }

    /**
     * `getProfile`: the identity is `req.userId`, else `req.body.userId`;
     * none is a 401, an unknown one a 404, and a known one the four public
     * fields of that user.
     */
    method GetProfile(reqUserId: Option<string>, bodyUserId: Option<string>, fault: bool)
      returns (reply: Reply<AuthBody>)
      ensures var id := ProfileId(reqUserId, bodyUserId);
        && (!Truthy(id) ==> reply == Reply(401, Message(Unauthorized)))
        && (Truthy(id) && fault ==> reply == Reply(500, Message(ProfileFailed)))
        && (Truthy(id) && !fault && FindById(users, id.value) == -1 ==> reply == Reply(404, Message(UserNotFound)))
        && (Truthy(id) && !fault && FindById(users, id.value) >= 0 ==>
              reply == Reply(200, One(Profile(ViewOf(users[FindById(users, id.value)])))))
      ensures reply.status == 200 ==>
        reply.body.One? && reply.body.doc.Profile? && exists u :: u in users && reply.body.doc.user == ViewOf(u)
    {
      var id := ProfileId(reqUserId, bodyUserId);
      if !Truthy(id) {
        return Reply(401, Message(Unauthorized));
      }
      if fault {
        return Reply(500, Message(ProfileFailed));
      }
      var k := FindById(users, id.value);
      if k == -1 {
        return Reply(404, Message(UserNotFound));
      }
      reply := Reply(200, One(Profile(ViewOf(users[k]))));
    }
  }
}
