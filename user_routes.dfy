/**
 * The User Service's router, mounted at `/api/auth`: two public routes and
 * one guarded route. Paths match without regard to case and with an optional
 * trailing slash; the GET route also answers HEAD.
 */
module UserRoutes {
  import opened Wrappers
  import opened Text
  import opened Http
  import opened AuthUtils
  import UserGuard

  datatype Endpoint = RegisterEndpoint | LoginEndpoint | ProfileEndpoint

  /** Express's default path test for a literal route. */
  predicate PathIs(path: string, literal: string) {
    ToLower(path) == literal || ToLower(path) == literal + "/"
  }

  /** Only the profile route runs the guard. */
  predicate Guarded(e: Endpoint) {
    e == ProfileEndpoint
  }

  /** The table: POST /register, POST /login and GET /profile, and no other route. */
  function Route(verb: string, path: string): (e: Option<Endpoint>)
    ensures e == Some(RegisterEndpoint) <==> verb == "POST" && PathIs(path, "/register")
    ensures e == Some(LoginEndpoint) <==> verb == "POST" && PathIs(path, "/login")
    ensures e == Some(ProfileEndpoint) <==> (verb == "GET" || verb == "HEAD") && PathIs(path, "/profile")
  {
    if verb == "POST" && PathIs(path, "/register") then Some(RegisterEndpoint)
    else if verb == "POST" && PathIs(path, "/login") then Some(LoginEndpoint)
    else if (verb == "GET" || verb == "HEAD") && PathIs(path, "/profile") then Some(ProfileEndpoint)
    else None
  }

  /**
   * A request through the router: the public routes are dispatched with no
   * identity, whatever the headers say; the profile route is dispatched only
   * past the guard, carrying its identity.
   */
  function Handle(verb: string, path: string, authorization: Option<string>, verify: Verifier): (s: Step<Endpoint>)
    ensures Route(verb, path).None? <==> s.Unrouted?
    ensures s.Refused? ==> Route(verb, path) == Some(ProfileEndpoint) && UserGuard.Decide(authorization, verify).Deny?
    ensures s.Dispatched? && Guarded(s.handler) ==> UserGuard.Decide(authorization, verify) == Proceed(s.identity)
    ensures s.Dispatched? && !Guarded(s.handler) ==> s.identity.None?
    ensures s.Dispatched? ==> Route(verb, path) == Some(s.handler)
  {
    match Route(verb, path)
    case None => Unrouted
    case Some(e) =>
      if Guarded(e) then
        match UserGuard.Decide(authorization, verify)
        case Deny(status, message) => Refused(status, message)
        case Proceed(identity) => Dispatched(e, identity)
      else Dispatched(e, None)
  }

  /** Registration and login are reached with any headers at all. */
  lemma PublicRoutesIgnoreHeaders(path: string, a1: Option<string>, a2: Option<string>, verify: Verifier)
    requires PathIs(path, "/register") || PathIs(path, "/login")
    ensures Handle("POST", path, a1, verify) == Handle("POST", path, a2, verify)
    ensures Handle("POST", path, a1, verify).Dispatched?
  {
  }

  /** Upper-case paths reach the same handlers. */
  lemma CaseInsensitive(verb: string, path: string)
    ensures Route(verb, ToLower(path)) == Route(verb, path)
  {
    ToLowerIdempotent(path);
  }
}
