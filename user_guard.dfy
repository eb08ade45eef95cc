/**
 * The User Service's `authMiddleware`, in front of the profile route. Same
 * header handling as the Job Tracker Service's guard, but every token goes to
 * the verifier (there is no mock bypass) and the identity is written twice:
 * into `req.userId` and into `req.body.userId`.
 */
module UserGuard {
  import opened Wrappers
  import opened Text
  import opened Http
  import opened AuthUtils
  import Bearer
  import TrackerGuard

  const NoToken: string := "No token provided"
  const InvalidToken: string := "Invalid token"

  /**
   * The guard's decision: "No token provided" for a missing or unprefixed
   * header, "Invalid token" when the verifier refuses, and otherwise the
   * payload's `userId`.
   */
  function Decide(authorization: Option<string>, verify: Verifier): (d: Decision)
    ensures d.Deny? ==> d.status == 401
    ensures !TrackerGuard.Prefixed(authorization) ==> d == Deny(401, NoToken)
    ensures TrackerGuard.Prefixed(authorization) ==>
      var token := Bearer.SecondField(authorization.value);
      && (d.Proceed? <==> verify(token).Some?)
      && (d.Proceed? ==> d.identity == verify(token).value.userId)
      && (d.Deny? ==> d.message == InvalidToken)
  {
    if !TrackerGuard.Prefixed(authorization) then Deny(401, NoToken)
    else match verify(Bearer.SecondField(authorization.value))
      case Some(claims) => Proceed(claims.userId)
      case None => Deny(401, InvalidToken)
  }

  /**
   * `authMiddleware(req, res, next)`: on success both `req.userId` and
   * `req.body.userId` hold the verified identity and the response is left
   * alone; on refusal the response carries the decision and the request is
   * left alone.
   */
  method AuthMiddleware(req: Request, res: Response, verify: Verifier) returns (next: bool)
    modifies req, res
    ensures next <==> Decide(req.Authorization(), verify).Proceed?
    ensures next ==> req.userId == Decide(req.Authorization(), verify).identity
    ensures next ==> req.bodyUserId == Decide(req.Authorization(), verify).identity
    ensures next ==> res.status == old(res.status) && res.message == old(res.message) && res.ended == old(res.ended)
    ensures !next ==> req.userId == old(req.userId) && req.bodyUserId == old(req.bodyUserId)
    ensures !next ==>
      && res.status == Decide(req.Authorization(), verify).status
      && res.message == Some(Decide(req.Authorization(), verify).message)
      && res.ended
    ensures res.headers == old(res.headers)
  {
    var authHeader := req.Authorization();
    if authHeader.None? || authHeader.value == "" || !StartsWith(authHeader.value, Bearer.Prefix) {
      res.SendMessage(401, NoToken);
      return false;
    }
    var token := Bearer.SecondField(authHeader.value);
    var decoded := verify(token);
    if decoded.None? {
      res.SendMessage(401, InvalidToken);
      return false;
    }
    req.userId := decoded.value.userId;
    req.bodyUserId := decoded.value.userId;
    return true;
  }

  /**
   * The two guards agree on every non-mock token: both let it through with
   * the same identity, or both refuse it (with their own messages).
   */
  lemma GuardsAgreeOffMock(authorization: Option<string>, verify: Verifier)
    requires !TrackerGuard.Prefixed(authorization)
      || !StartsWith(Bearer.SecondField(authorization.value), TrackerGuard.MockPrefix)
    ensures Decide(authorization, verify).Proceed? <==> TrackerGuard.Decide(authorization, verify).Proceed?
    ensures Decide(authorization, verify).Proceed? ==>
      Decide(authorization, verify) == TrackerGuard.Decide(authorization, verify)
  {
  }

  /**
   * A mock token passes the Job Tracker Service's guard unconditionally, but
   * this guard only when the verifier accepts it.
   */
  lemma MockTokenNeedsVerifierHere(token: string, verify: Verifier)
    requires StartsWith(token, TrackerGuard.MockPrefix) && ' ' !in token
    ensures TrackerGuard.Decide(Some(Bearer.Header(token)), verify).Proceed?
    ensures Decide(Some(Bearer.Header(token)), verify).Proceed? <==> verify(token).Some?
  {
    Bearer.SecondFieldOfHeader(token);
  }

  /** A space-free token issued for `id` passes this guard with identity `id` when issuer and verifier agree. */
  lemma IssuedTokenPasses(issue: Issuer, verify: Verifier, id: string)
    requires Agree(issue, verify, id) && ' ' !in issue(id)
    ensures Decide(Some(Bearer.Header(issue(id))), verify) == Proceed(Some(id))
  {
    Bearer.SecondFieldOfHeader(issue(id));
  }
}
