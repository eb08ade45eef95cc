/**
 * The Job Tracker Service's `authMiddleware`: the guard in front of every
 * job-application route. It takes the token from a `Bearer ` header, lets any
 * token starting with `mock-token-` through as the fixed test user, and
 * otherwise asks the token verifier for the identity.
 */
module TrackerGuard {
  import opened Wrappers
  import opened Text
  import opened Http
  import opened AuthUtils
  import Outcomes
  import Bearer

  /** `ALLOW_MOCK_TOKENS`, fixed on in the source. */
  const AllowMockTokens: bool := true
  const MockPrefix: string := "mock-token-"
  const MockUserId: string := "test-user-1"
  const NoToken: string := "No token provided"
  const InvalidToken: string := "Invalid or expired token"

  /** The header is present, non-empty and starts with `Bearer `. */
  predicate Prefixed(authorization: Option<string>) {
    Outcomes.Truthy(authorization) && StartsWith(authorization.value, Bearer.Prefix)
  }

  /**
   * The guard's decision. A missing or unprefixed header is refused with
   * "No token provided"; a mock token passes as the test user without the
   * verifier being asked; any other token passes exactly when it verifies,
   * with the payload's `userId` (which may be absent) as the identity.
   */
  function Decide(authorization: Option<string>, verify: Verifier): (d: Decision)
    ensures d.Deny? ==> d.status == 401
    ensures !Prefixed(authorization) ==> d == Deny(401, NoToken)
    ensures Prefixed(authorization) ==>
      var token := Bearer.SecondField(authorization.value);
      && (StartsWith(token, MockPrefix) ==> d == Proceed(Some(MockUserId)))
      && (!StartsWith(token, MockPrefix) ==>
            (d.Proceed? <==> verify(token).Some?)
            && (d.Proceed? ==> d.identity == verify(token).value.userId)
            && (d.Deny? ==> d.message == InvalidToken))
  {
    if !Prefixed(authorization) then Deny(401, NoToken)
    else
      var token := Bearer.SecondField(authorization.value);
      if AllowMockTokens && StartsWith(token, MockPrefix) then Proceed(Some(MockUserId))
      else match verify(token)
        case Some(claims) => Proceed(claims.userId)
        case None => Deny(401, InvalidToken)
  }

  /**
   * `authMiddleware(req, res, next)`: on success it overwrites
   * `req.body.userId` with the guard's identity, whatever the client sent,
   * leaves the response alone and calls `next`; on refusal it answers with
   * the decision's status and message and leaves the request alone.
   */
  method AuthMiddleware(req: Request, res: Response, verify: Verifier) returns (next: bool)
    modifies req, res
    ensures next <==> Decide(req.Authorization(), verify).Proceed?
    ensures next ==> req.bodyUserId == Decide(req.Authorization(), verify).identity
    ensures next ==> res.status == old(res.status) && res.message == old(res.message) && res.ended == old(res.ended)
    ensures !next ==> req.bodyUserId == old(req.bodyUserId)
    ensures !next ==>
      && res.status == Decide(req.Authorization(), verify).status
      && res.message == Some(Decide(req.Authorization(), verify).message)
      && res.ended
    ensures req.userId == old(req.userId) && res.headers == old(res.headers)
  {
    var authHeader := req.Authorization();
    if authHeader.None? || authHeader.value == "" || !StartsWith(authHeader.value, Bearer.Prefix) {
      res.SendMessage(401, NoToken);
      return false;
    }
    var token := Bearer.SecondField(authHeader.value);
    if AllowMockTokens && StartsWith(token, MockPrefix) {
      req.bodyUserId := Some(MockUserId);
      return true;
    }
    var decoded := verify(token);
    if decoded.None? {
      res.SendMessage(401, InvalidToken);
      return false;
    }
    req.bodyUserId := decoded.value.userId;
    return true;
  }

  /** Whatever the verifier would say, a mock token is let through as the test user. */
  lemma MockBypassIgnoresVerifier(token: string, v1: Verifier, v2: Verifier)
    requires StartsWith(token, MockPrefix) && ' ' !in token
    ensures Decide(Some(Bearer.Header(token)), v1) == Decide(Some(Bearer.Header(token)), v2)
    ensures Decide(Some(Bearer.Header(token)), v1) == Proceed(Some(MockUserId))
  {
    Bearer.SecondFieldOfHeader(token);
  }

  /**
   * A header carrying a space-free token issued for `id` passes the guard
   * with identity `id`, provided the issuer and the verifier agree and the
   * token does not look like a mock token.
   */
  lemma IssuedTokenPasses(issue: Issuer, verify: Verifier, id: string)
    requires Agree(issue, verify, id)
    requires ' ' !in issue(id) && !StartsWith(issue(id), MockPrefix)
    ensures Decide(Some(Bearer.Header(issue(id))), verify) == Proceed(Some(id))
  {
    Bearer.SecondFieldOfHeader(issue(id));
  }

  /** `"Bearer "` and `"Bearer  x"` hand the empty token to the verifier. */
  lemma EmptyTokenVerified(rest: string, verify: Verifier)
    ensures Decide(Some(Bearer.Prefix), verify) == Decide(Some(Bearer.Header(" " + rest)), verify)
    ensures Decide(Some(Bearer.Prefix), verify) ==
      if verify("").Some? then Proceed(verify("").value.userId) else Deny(401, InvalidToken)
  {
    Bearer.EmptyAfterPrefix();
    Bearer.DoubleSpace(rest);
  }
}
