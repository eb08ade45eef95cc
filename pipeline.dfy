/**
 * The tiers composed: what the browser client stores, what the gateway makes
 * of it, what the Job Tracker Service's guard extracts, and how the gateway's
 * mock fallbacks change what the resolvers can report.
 */
module Pipeline {
  import opened Wrappers
  import opened Text
  import opened Http
  import opened Outcomes
  import opened AuthUtils
  import Bearer
  import ClientAuthLink
  import GatewayMain
  import JobApiSource
  import UserApiSource
  import JobResolvers
  import AuthResolvers
  import TrackerGuard
  import UserRoutes
  import ApplicationSchema

  /**
   * The `Authorization` header the Job Tracker Service receives for a browser
   * request: the client's link builds it, the gateway's context extracts a
   * token from it, and the gateway's REST source re-prefixes that token; the
   * value is normalised each time it crosses the wire.
   */
  function Forwarded(hasWindow: bool, stored: Option<string>, headers: Headers): (h: Option<string>)
    ensures h.Some? <==> GatewayMain.ContextToken(ClientHeader(hasWindow, stored, headers)).Some?
    ensures h.Some? ==> StartsWith(h.value, "Bearer") && Unpadded(h.value)
  {
    var token := GatewayMain.ContextToken(ClientHeader(hasWindow, stored, headers));
    match JobApiSource.OutgoingAuthorization(token)
    case None => None
    case Some(v) =>
      GatewayMain.ContextTokenNeverPrefixed(ClientHeader(hasWindow, stored, headers));
      BearerWordArrives(token.value);
      Some(Transmitted(v))
  }

  /** The `Authorization` header as the gateway reads it from the browser's request. */
  function ClientHeader(hasWindow: bool, stored: Option<string>, headers: Headers): (h: Option<string>)
    ensures h.Some? && Unpadded(h.value)
    ensures h.value == "" <==> ClientAuthLink.StoredToken(hasWindow, stored) == ""
  {
    var sent := ClientAuthLink.AuthLink(hasWindow, stored, headers)["Authorization"];
    HeaderInTransit(ClientAuthLink.StoredToken(hasWindow, stored));
    Some(Transmitted(sent))
  }

  /** A browser with a stored token sends `Bearer <token>`, as it arrives after transit. */
  lemma ClientHeaderOf(token: string, headers: Headers)
    requires token != ""
    ensures ClientHeader(true, Some(token), headers) == Some(Transmitted(Bearer.Header(token)))
  {
    assert ClientAuthLink.StoredToken(true, Some(token)) == token;
  }

  /**
   * A `Bearer <t>` header loses the trailing white space of `t` in transit;
   * when `t` is nothing but white space, only the word "Bearer" arrives.
   */
  lemma HeaderInTransit(t: string)
    ensures Transmitted(Bearer.Header(t)) ==
      if StripTrailing(t) == "" then "Bearer" else Bearer.Header(StripTrailing(t))
  {
    var h := Bearer.Header(t);
    assert h == Bearer.Prefix + t;
    WordFirst(h);
    StripTrailingConcat(Bearer.Prefix, t);
    PrefixStripped();
    assert Bearer.Header(StripTrailing(t)) == Bearer.Prefix + StripTrailing(t);
  }

  /** Whatever the token, what arrives still starts with the word "Bearer". */
  lemma BearerWordArrives(t: string)
    ensures StartsWith(Transmitted(Bearer.Header(t)), "Bearer")
  {
    var h := Bearer.Header(t);
    WordFirst(h);
    var r := StripTrailing(h);
    assert h[..6] == "Bearer" by {
      assert h[..6] == h[..|Bearer.Prefix|][..6];
    }
    assert |r| > 5 by {
      assert h[5] == 'r';
    }
    assert r[..6] == h[..6];
  }

  /** A value that starts with a visible character only loses its trailing white space. */
  lemma WordFirst(v: string)
    requires v != "" && !HttpSpace(v[0])
    ensures Transmitted(v) == StripTrailing(v)
  {
    assert StripLeading(v) == v;
  }

  /**
   * Once the gateway has read a token that does not end in white space, the
   * service receives exactly `Bearer <token>`.
   */
  lemma ForwardsToken(hasWindow: bool, stored: Option<string>, headers: Headers, t: string)
    requires t != "" && !HttpSpace(t[|t| - 1])
    requires GatewayMain.ContextToken(ClientHeader(hasWindow, stored, headers)) == Some(t)
    ensures Forwarded(hasWindow, stored, headers) == Some(Bearer.Header(t))
  {
    GatewayMain.ContextTokenNeverPrefixed(ClientHeader(hasWindow, stored, headers));
    assert StripTrailing(t) == t;
    HeaderInTransit(t);
  }

  /** The word "Bearer" on its own: no space, no prefix, and the gateway and the guards keep it. */
  lemma BearerWord()
    ensures ' ' !in "Bearer" && !HttpSpace("Bearer"[5]) && !StartsWith("Bearer", Bearer.Prefix)
    ensures GatewayMain.ContextToken(Some("Bearer")) == Some("Bearer")
    ensures GatewayMain.ContextToken(Some(Bearer.Header("Bearer"))) == Some("Bearer")
    ensures Bearer.SecondField(Bearer.Header("Bearer")) == "Bearer"
  {
    GatewayMain.UnprefixedPassThrough("Bearer");
    GatewayMain.ClientHeaderRoundTrip("Bearer");
    Bearer.SecondFieldOfHeader("Bearer");
  }

  /** `"Bearer "` arrives as `"Bearer"`. */
  lemma PrefixStripped()
    ensures StripTrailing(Bearer.Prefix) == "Bearer"
  {
    var p := Bearer.Prefix;
    assert HttpSpace(p[|p| - 1]);
    assert p[..|p| - 1] == "Bearer";
    assert !HttpSpace("Bearer"[5]);
  }

  /** A token without a space cannot start with `Bearer `, whose seventh character is a space. */
  lemma SpaceFreeNotPrefixed(token: string)
    requires ' ' !in token
    ensures !StartsWith(token, Bearer.Prefix)
  {
    assert Bearer.Prefix[6] == ' ';
    if |token| >= |Bearer.Prefix| {
      assert token[6] in token;
    }
  }

  /**
   * The headline round trip: a non-empty, space-free stored token that does
   * not end in white space reaches the service guard unchanged, whatever
   * other headers the client sends.
   */
  lemma StoredTokenReachesGuard(token: string, headers: Headers)
    requires token != "" && ' ' !in token && !HttpSpace(token[|token| - 1])
    ensures Forwarded(true, Some(token), headers) == Some(Bearer.Header(token))
    ensures TrackerGuard.Prefixed(Forwarded(true, Some(token), headers))
    ensures Bearer.SecondField(Forwarded(true, Some(token), headers).value) == token
  {
    assert StripTrailing(token) == token;
    ClientHeaderOf(token, headers);
    HeaderInTransit(token);
    GatewayMain.ClientHeaderRoundTrip(token);
    ForwardsToken(true, Some(token), headers, token);
    Bearer.SecondFieldOfHeader(token);
  }

  /**
   * A space-free stored token that ends in other white space (a tab, say)
   * reaches the guard without it.
   */
  lemma TrailingSpaceDropped(token: string, headers: Headers)
    requires ' ' !in token && StripTrailing(token) != ""
    ensures Forwarded(true, Some(token), headers) == Some(Bearer.Header(StripTrailing(token)))
  {
    var t := StripTrailing(token);
    StripTrailingKeepsOut(token, ' ');
    GatewayReadsStripped(token, headers);
    ForwardsToken(true, Some(token), headers, t);
  }

  /** The gateway reads a space-free stored token without its trailing white space. */
  lemma GatewayReadsStripped(token: string, headers: Headers)
    requires ' ' !in StripTrailing(token) && StripTrailing(token) != ""
    ensures GatewayMain.ContextToken(ClientHeader(true, Some(token), headers)) == Some(StripTrailing(token))
  {
    ClientHeaderOf(token, headers);
    HeaderInTransit(token);
    GatewayMain.ClientHeaderRoundTrip(StripTrailing(token));
  }

  /**
   * A stored token made only of white space arrives at the gateway as the
   * bare word "Bearer", which the gateway takes as the token and forwards as
   * `Bearer Bearer`: the service guard is handed "Bearer".
   */
  lemma BlankTokenBecomesBearer(token: string, headers: Headers)
    requires token != "" && StripTrailing(token) == ""
    ensures ClientHeader(true, Some(token), headers) == Some("Bearer")
    ensures Forwarded(true, Some(token), headers) == Some(Bearer.Header("Bearer"))
    ensures Bearer.SecondField(Forwarded(true, Some(token), headers).value) == "Bearer"
  {
    HeaderInTransit(token);
    BearerWord();
    ForwardsToken(true, Some(token), headers, "Bearer");
  }

  /**
   * With no stored token the client still sends an (empty) header, the
   * gateway reads no token, and every job resolver refuses before it calls
   * the data source; nothing is forwarded.
   */
  lemma NoTokenFailsAtGateway<T, U>(hasWindow: bool, stored: Option<string>, headers: Headers, call: Outcome<T>,
                                    me: Outcome<Option<U>>)
    requires ClientAuthLink.StoredToken(hasWindow, stored) == ""
    ensures ClientHeader(hasWindow, stored, headers) == Some("")
    ensures Forwarded(hasWindow, stored, headers) == None
    ensures JobResolvers.Applications(GatewayMain.ContextToken(ClientHeader(hasWindow, stored, headers)), call).AuthenticationError?
    ensures AuthResolvers.Me(GatewayMain.ContextToken(ClientHeader(hasWindow, stored, headers)), me) == None
  {
    GatewayMain.MissingHeaderNoToken(Some(""));
  }

  /** A stored token with a space in it is cut at the space on the way through the gateway. */
  lemma SpacedTokenTruncated(first: string, rest: string, headers: Headers)
    requires first != "" && ' ' !in first && !HttpSpace(first[|first| - 1])
    ensures Forwarded(true, Some(first + " " + rest), headers) == Some(Bearer.Header(first))
  {
    var token := first + " " + rest;
    StripTrailingConcat(first + " ", rest);
    var kept := StripTrailing(token);
    if StripTrailing(rest) == "" {
      assert (first + " ")[..|first|] == first;
      assert StripTrailing(first) == first;
      assert kept == first;
      GatewayMain.ClientHeaderRoundTrip(first);
    } else {
      assert kept == first + " " + StripTrailing(rest);
      GatewayMain.ExtraFieldsDropped(first, StripTrailing(rest));
    }
    HeaderInTransit(token);
    ClientHeaderOf(token, headers);
    ForwardsToken(true, Some(token), headers, first);
  }

  /**
   * A stored token that starts with a space, followed by anything but white
   * space, is lost entirely: nothing is forwarded. (A stored token of white
   * space only is `BlankTokenBecomesBearer`.)
   */
  lemma LeadingSpaceLost(rest: string, headers: Headers)
    requires StripTrailing(rest) != ""
    ensures Forwarded(true, Some(" " + rest), headers) == None
  {
    ClientHeaderOf(" " + rest, headers);
    HeaderInTransit(" " + rest);
    StripTrailingConcat(" ", rest);
    GatewayMain.EmptyFieldNoToken(StripTrailing(rest));
  }

  /** A prefixed header prefixed again is `Bearer` followed by a space and the original header's token. */
  lemma Reprefixed(t: string)
    ensures Bearer.Header(Bearer.Header(t)) == Bearer.Header("Bearer" + " " + t)
  {
    assert Bearer.Header(t) == "Bearer" + " " + t;
  }

  /** Prefixing the value that arrived commutes with the transit of the prefixed header. */
  lemma DoubleHeaderInTransit(t: string)
    ensures Transmitted(Bearer.Header(Bearer.Header(t))) == Bearer.Header(Transmitted(Bearer.Header(t)))
  {
    var inner := Bearer.Header(t);
    BearerWordArrives(t);
    WordFirst(inner);
    HeaderInTransit(inner);
  }

  /** A doubly prefixed header leaves the gateway with the word "Bearer" as its token. */
  lemma MangledToken(t: string)
    ensures GatewayMain.ContextToken(Some(Transmitted(Bearer.Header(Bearer.Header(t))))) == Some("Bearer")
  {
    DoubleHeaderInTransit(t);
    HeaderInTransit(t);
    BearerWord();
    if StripTrailing(t) != "" {
      Reprefixed(StripTrailing(t));
      GatewayMain.ExtraFieldsDropped("Bearer", StripTrailing(t));
    }
  }

  /**
   * A stored token that already carries `Bearer ` is not passed on: the
   * client prefixes it again, the gateway keeps the word "Bearer", and the
   * service guard is handed "Bearer" as the token.
   */
  lemma PrefixedTokenMangled(t: string, headers: Headers)
    ensures Forwarded(true, Some(Bearer.Header(t)), headers) == Some(Bearer.Header("Bearer"))
    ensures Bearer.SecondField(Forwarded(true, Some(Bearer.Header(t)), headers).value) == "Bearer"
  {
    var stored := Bearer.Header(t);
    ClientHeaderOf(stored, headers);
    MangledToken(t);
    BearerWord();
    ForwardsToken(true, Some(stored), headers, "Bearer");
  }

  /**
   * A token the User Service issued for `id` (with issuer and verifier in
   * agreement) brings `id` through the gateway to the Job Tracker Service's
   * guard, which writes it into the request.
   */
  lemma IssuedTokenIdentity(issue: Issuer, verify: Verifier, id: string, headers: Headers)
    requires Agree(issue, verify, id) && issue(id) != "" && ' ' !in issue(id)
    requires !HttpSpace(issue(id)[|issue(id)| - 1])
    requires !StartsWith(issue(id), TrackerGuard.MockPrefix)
    ensures TrackerGuard.Decide(Forwarded(true, Some(issue(id)), headers), verify) == Proceed(Some(id))
  {
    StoredTokenReachesGuard(issue(id), headers);
    TrackerGuard.IssuedTokenPasses(issue, verify, id);
  }

  /**
   * Every token the gateway's mock login or mock registration hands out
   * passes the Job Tracker Service's guard as the one test user, whichever
   * mock user it was issued to: all mock sessions share one owner.
   */
  lemma MockSessionsShareOneOwner(now: nat, headers: Headers, verify: Verifier)
    ensures TrackerGuard.Decide(Forwarded(true, Some(UserApiSource.MockToken(now)), headers), verify)
            == Proceed(Some(TrackerGuard.MockUserId))
  {
    var t := UserApiSource.MockToken(now);
    var digits := NatToString(now);
    assert t == "mock-token-" + digits && t[|t| - 1] == digits[|digits| - 1];
    StoredTokenReachesGuard(t, headers);
    TrackerGuard.MockBypassIgnoresVerifier(t, verify, verify);
  }

  /**
   * Creating through the gateway: the data source adds `userId:
   * 'default-user'`, and the service's stamping discards it, so the document
   * saved is the one the client's own fields give, owned by the caller.
   */
  lemma GatewayCreateOwnedByCaller(data: Fields, posted: Fields, userId: string, oid: string, now: int,
                                   parseDate: ApplicationSchema.DateParser)
    requires posted.Keys == data.Keys + {"userId"}
    requires forall k :: k in data && k != "userId" ==> posted[k] == data[k]
    ensures ApplicationSchema.NewApplication(oid, ApplicationSchema.Stamped(posted, userId), now, parseDate)
         == ApplicationSchema.NewApplication(oid, ApplicationSchema.Stamped(data, userId), now, parseDate)
  {
    var a := ApplicationSchema.Stamped(posted, userId);
    var b := ApplicationSchema.Stamped(data, userId);
    assert a.Keys == b.Keys;
    assert forall k :: k in a ==> a[k] == b[k];
    assert a == b;
  }

  /**
   * The gateway's data sources fall back to their mock stores on every
   * error, the service's own 4xx replies included, and the errors the
   * fallbacks raise carry no HTTP status. So the resolver mappings keyed on
   * a status never fire through them: a missing application is not `null`,
   * an update or delete of one is not "Application not found", and a taken
   * email is not reported as such.
   */
  lemma StatusMappingsUnreachable<T, U>(token: Option<string>, r: Outcome<T>, s: Outcome<U>)
    requires r.Failed? ==> r.error.status.None?
    requires s.Failed? ==> s.error.status.None?
    ensures JobResolvers.Application(token, r) != Resolved(None)
    ensures !JobResolvers.UpdateJobApplication(token, r).UserInputError?
    ensures !JobResolvers.DeleteJobApplication(token, r).UserInputError?
    ensures !AuthResolvers.Register(s).UserInputError?
  {
  }

  /**
   * A wrong password for a real account: the service's 401 sends the gateway
   * to its mock login, which does not know the account, so the client is
   * told "Failed to login: User not found" rather than the credential error.
   */
  lemma RealLoginFailureMisreported()
    ensures AuthResolvers.Login<UserApiSource.AuthPayload>(Failed(PlainError(UserApiSource.UserNotFound)))
         == InternalError("Failed to login: User not found")
    ensures AuthResolvers.Login<UserApiSource.AuthPayload>(Failed(PlainError(UserApiSource.InvalidPassword))).InternalError?
  {
  }

  /**
   * A registered user reaches their profile: the token issued at
   * registration, sent as `Bearer <token>` and read after transit, passes
   * the User Service's router and guard with the new user's id as identity.
   */
  lemma RegisteredTokenReachesProfile(issue: Issuer, verify: Verifier, oid: string)
    requires Agree(issue, verify, oid) && issue(oid) != "" && ' ' !in issue(oid)
    requires !HttpSpace(issue(oid)[|issue(oid)| - 1])
    ensures UserRoutes.Handle("GET", "/profile", Some(Transmitted(Bearer.Header(issue(oid)))), verify)
         == Dispatched(UserRoutes.ProfileEndpoint, Some(oid))
  {
    assert StripTrailing(issue(oid)) == issue(oid);
    HeaderInTransit(issue(oid));
    assert Text.ToLower("/profile") == "/profile";
    SpaceFreeNotPrefixed(issue(oid));
    assert StartsWith(Bearer.Header(issue(oid)), Bearer.Prefix);
    Bearer.SecondFieldOfHeader(issue(oid));
  }
}
