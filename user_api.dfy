/**
 * The gateway's REST data source for accounts, reduced to its fallback
 * store: a list of mock users and a map from mock tokens to user ids. Both
 * are module-global in the source; here they are the fields of one
 * `UserApi` object. Clock readings are parameters.
 */
module UserApiSource {
  import opened Wrappers
  import opened Text
  import opened Outcomes

  /** A mock user record, `{ id, ...userData, createdAt, updatedAt }`. */
  datatype MockUser = MockUser(id: string, email: string, password: string,
                               firstName: string, lastName: string,
                               createdAt: string, updatedAt: string)

  /** The user object handed back to callers: the record without its password. */
  datatype Profile = Profile(id: string, email: string, firstName: string, lastName: string,
                             createdAt: string, updatedAt: string)

  datatype AuthPayload = AuthPayload(token: string, user: Profile)

  /** The fields of the `register` input. */
  datatype RegisterInput = RegisterInput(email: string, password: string, firstName: string, lastName: string)

  const UserNotFound: string := "User not found"
  const InvalidPassword: string := "Invalid password"
  const DuplicateEmail: string := "User with this email already exists"

  /** The returned user object: every field of the record except the password. */
  function ProfileOf(u: MockUser): (p: Profile)
    ensures p.id == u.id && p.email == u.email
    ensures p.firstName == u.firstName && p.lastName == u.lastName
    ensures p.createdAt == u.createdAt && p.updatedAt == u.updatedAt
  {
    Profile(u.id, u.email, u.firstName, u.lastName, u.createdAt, u.updatedAt)
  }

  /** `mock-token-${Date.now()}`: never mistaken for a JWT, whose text starts with "ey". */
  function MockToken(now: nat): (t: string)
    ensures StartsWith(t, "mock-token-")
    ensures !StartsWith(t, "ey")
    ensures ' ' !in t
  {
    var t := "mock-token-" + NatToString(now);
    assert t[0] == 'm';
    assert forall i :: 11 <= i < |t| ==> t[i] == NatToString(now)[i - 11];
    t
  }

  /** `user-${Date.now()}`. */
  function MockUserId(now: nat): (id: string)
    ensures id != ""
  {
    "user-" + NatToString(now)
  }

  /** `find(u => u.email === email)`, as an index: exact comparison, no normalisation. */
  function FindByEmail(users: seq<MockUser>, email: string): (k: int)
    ensures -1 <= k < |users|
    ensures k >= 0 ==> users[k].email == email && forall j :: 0 <= j < k ==> users[j].email != email
    ensures k == -1 ==> forall j :: 0 <= j < |users| ==> users[j].email != email
    decreases |users|
  {
    if |users| == 0 then -1
    else if users[0].email == email then 0
    else
      var k := FindByEmail(users[1..], email);
      if k == -1 then -1 else k + 1
  }

  /** `find(u => u.id === userId)`, as an index. */
  function FindById(users: seq<MockUser>, id: string): (k: int)
    ensures -1 <= k < |users|
    ensures k >= 0 ==> users[k].id == id && forall j :: 0 <= j < k ==> users[j].id != id
    ensures k == -1 ==> forall j :: 0 <= j < |users| ==> users[j].id != id
    decreases |users|
  {
    if |users| == 0 then -1
    else if users[0].id == id then 0
    else
      var k := FindById(users[1..], id);
      if k == -1 then -1 else k + 1
  }

  /** No two mock users share an id. */
  predicate UniqueIds(users: seq<MockUser>) {
    forall i, j :: 0 <= i < j < |users| ==> users[i].id != users[j].id
  }

  /** No two mock users share an email. */
  predicate UniqueEmails(users: seq<MockUser>) {
    forall i, j :: 0 <= i < j < |users| ==> users[i].email != users[j].email
  }

  /** Every mock user has a non-empty id. */
  predicate NonEmptyIds(users: seq<MockUser>) {
    forall i :: 0 <= i < |users| ==> users[i].id != ""
  }

  /**
   * The mock-token path of `getProfile`: the token must map to a truthy id,
   * and that id to a user; the first such user's profile is returned.
   */
  function LookupProfile(users: seq<MockUser>, tokens: map<string, string>, token: string): (p: Option<Profile>)
    ensures p.Some? <==> token in tokens && tokens[token] != "" && exists i :: 0 <= i < |users| && users[i].id == tokens[token]
    ensures p.Some? ==> p == Some(ProfileOf(users[FindById(users, tokens[token])]))
  {
    if token !in tokens || tokens[token] == "" then None
    else
      var k := FindById(users, tokens[token]);
      if k == -1 then None else Some(ProfileOf(users[k]))
  }

  /** When ids are unique, a token mapped to a user's id resolves to that very user. */
  lemma TokenResolvesToItsUser(users: seq<MockUser>, tokens: map<string, string>, token: string, k: int)
    requires UniqueIds(users) && 0 <= k < |users| && users[k].id != ""
    ensures LookupProfile(users, tokens[token := users[k].id], token) == Some(ProfileOf(users[k]))
  {
  }

  /** Appending a user whose email is new keeps emails unique. */
  lemma AppendKeepsEmailsUnique(users: seq<MockUser>, u: MockUser)
    requires UniqueEmails(users) && FindByEmail(users, u.email) == -1
    ensures UniqueEmails(users + [u])
  {
    var users' := users + [u];
    forall i, j | 0 <= i < j < |users'|
      ensures users'[i].email != users'[j].email
    {
      if j == |users| {
        assert users'[i] == users[i];
      } else {
        assert users'[i] == users[i] && users'[j] == users[j];
      }
    }
  }

  /** Appending a user whose id is new keeps ids unique. */
  lemma AppendKeepsIdsUnique(users: seq<MockUser>, u: MockUser)
    requires UniqueIds(users) && FindById(users, u.id) == -1
    ensures UniqueIds(users + [u])
  {
    var users' := users + [u];
    forall i, j | 0 <= i < j < |users'|
      ensures users'[i].id != users'[j].id
    {
      if j == |users| {
        assert users'[i] == users[i];
      } else {
        assert users'[i] == users[i] && users'[j] == users[j];
      }
    }
  }

  /**
   * The single user the mock list starts with; `created` and `updated` are
   * the two clock readings taken when the module was loaded.
   */
  function SeedUser(created: string, updated: string): MockUser {
    MockUser("test-user-1", "test@example.com", "password123", "Test", "User", created, updated)
  }

  /**
   * The user mock registration creates. The source reads the clock once for
   * the id (`idClock`) and once for each timestamp, so the three need not agree.
   */
  function NewMockUser(input: RegisterInput, idClock: nat, created: string, updated: string): (u: MockUser)
    ensures u.id == MockUserId(idClock)
    ensures u.email == input.email && u.password == input.password
    ensures u.firstName == input.firstName && u.lastName == input.lastName
    ensures u.createdAt == created && u.updatedAt == updated
  {
    MockUser(MockUserId(idClock), input.email, input.password, input.firstName, input.lastName, created, updated)
  }

  /**
   * The data source. `remote` is the outcome of the call to the User
   * Service; a failed outcome selects the mock branch.
   */
  class UserApi {
    var users: seq<MockUser>
    var tokens: map<string, string>

    /** Every mock user id is truthy, so each recorded token can resolve. */
    predicate Valid()
      reads this
    {
      NonEmptyIds(users)
    }

    constructor (created: string, updated: string)
      ensures users == [SeedUser(created, updated)] && tokens == map[]
      ensures Valid()
    {
      users := [SeedUser(created, updated)];
      tokens := map[];
    }

    /**
     * `login`: the mock branch finds the first user with exactly that email,
     * compares the plain password, and on success records a new token for
     * the user's id. The user list never changes.
     */
    method Login(email: string, password: string, remote: Outcome<AuthPayload>, now: nat)
      returns (r: Outcome<AuthPayload>)
      modifies this
      ensures users == old(users)
      ensures remote.Ok? ==> r == remote && tokens == old(tokens)
      ensures remote.Failed? && FindByEmail(users, email) == -1 ==>
        r == Failed(PlainError(UserNotFound)) && tokens == old(tokens)
      ensures remote.Failed? && FindByEmail(users, email) >= 0 && users[FindByEmail(users, email)].password != password ==>
        r == Failed(PlainError(InvalidPassword)) && tokens == old(tokens)
      ensures remote.Failed? && FindByEmail(users, email) >= 0 && users[FindByEmail(users, email)].password == password ==>
        var u := users[FindByEmail(users, email)];
        && tokens == old(tokens)[MockToken(now) := u.id]
        && r == Ok(AuthPayload(MockToken(now), ProfileOf(u)))
      ensures r.Failed? ==> r.error.status.None?
    {
      if remote.Ok? {
        return remote;
      }
      var k := FindByEmail(users, email);
      if k == -1 {
        return Failed(PlainError(UserNotFound));
      }
      var u := users[k];
      if u.password != password {
        return Failed(PlainError(InvalidPassword));
      }
      var token := "mock-token-" + NatToString(now);
      tokens := tokens[token := u.id];
      r := Ok(AuthPayload(token, ProfileOf(u)));
    }

    /**
     * `register`: the mock branch refuses an email already in the list
     * (exact comparison) and changes nothing; otherwise it appends exactly
     * one user and maps a new token to that user's id.
     */
    method Register(input: RegisterInput, remote: Outcome<AuthPayload>,
                    idClock: nat, created: string, updated: string, tokenClock: nat)
      returns (r: Outcome<AuthPayload>)
      modifies this
      requires Valid()
      ensures Valid()
      ensures remote.Ok? ==> r == remote && users == old(users) && tokens == old(tokens)
      ensures remote.Failed? && FindByEmail(old(users), input.email) >= 0 ==>
        r == Failed(PlainError(DuplicateEmail)) && users == old(users) && tokens == old(tokens)
      ensures remote.Failed? && FindByEmail(old(users), input.email) == -1 ==>
        && users == old(users) + [NewMockUser(input, idClock, created, updated)]
        && tokens == old(tokens)[MockToken(tokenClock) := MockUserId(idClock)]
        && r == Ok(AuthPayload(MockToken(tokenClock), ProfileOf(NewMockUser(input, idClock, created, updated))))
      ensures UniqueEmails(old(users)) ==> UniqueEmails(users)
      ensures r.Failed? ==> r.error.status.None?
    {
      if remote.Ok? {
        return remote;
      }
      if FindByEmail(users, input.email) >= 0 {
        return Failed(PlainError(DuplicateEmail));
      }
      var u := MockUser("user-" + NatToString(idClock), input.email, input.password,
                        input.firstName, input.lastName, created, updated);
      if UniqueEmails(users) {
        AppendKeepsEmailsUnique(users, u);
      }
      users := users + [u];
      var token := "mock-token-" + NatToString(tokenClock);
      tokens := tokens[token := u.id];
      r := Ok(AuthPayload(token, ProfileOf(u)));
    }

    /**
     * `getProfile`: a token starting with "ey" takes the JWT path, whose
     * combined outcome is `jwtProfile`; any other token is resolved through
     * the token map. Every failure is `null`; nothing changes.
     */
    method GetProfile(token: string, jwtProfile: Option<Profile>) returns (p: Option<Profile>)
      ensures StartsWith(token, "ey") ==> p == jwtProfile
      ensures !StartsWith(token, "ey") ==> p == LookupProfile(users, tokens, token)
    {
      if StartsWith(token, "ey") {
        return jwtProfile;
      }
      if token !in tokens || tokens[token] == "" {
        return None;
      }
      var userId := tokens[token];
      var k := FindById(users, userId);
      if k == -1 {
        return None;
      }
      p := Some(ProfileOf(users[k]));
    }
  }

  /** After a successful mock login, the issued token resolves to the user who logged in. */
  lemma LoginTokenResolves(users: seq<MockUser>, tokens: map<string, string>, email: string, now: nat)
    requires UniqueIds(users) && NonEmptyIds(users) && FindByEmail(users, email) >= 0
    ensures var u := users[FindByEmail(users, email)];
      LookupProfile(users, tokens[MockToken(now) := u.id], MockToken(now)) == Some(ProfileOf(u))
  {
    TokenResolvesToItsUser(users, tokens, MockToken(now), FindByEmail(users, email));
  }

  /**
   * After a mock registration with a fresh id, the issued token resolves to
   * the new user, whichever clock readings the id and the token were built from.
   */
  lemma RegisterTokenResolves(users: seq<MockUser>, tokens: map<string, string>, input: RegisterInput,
                              idClock: nat, created: string, updated: string, tokenClock: nat)
    requires UniqueIds(users) && FindById(users, MockUserId(idClock)) == -1
    ensures var u := NewMockUser(input, idClock, created, updated);
      LookupProfile(users + [u], tokens[MockToken(tokenClock) := MockUserId(idClock)], MockToken(tokenClock))
        == Some(ProfileOf(u))
  {
    var u := NewMockUser(input, idClock, created, updated);
    AppendKeepsIdsUnique(users, u);
    TokenResolvesToItsUser(users + [u], tokens, MockToken(tokenClock), |users|);
  }
}
