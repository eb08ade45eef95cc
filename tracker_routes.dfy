/**
 * The Job Tracker Service's router, mounted at `/api/applications`: the guard
 * runs first on every request that enters it, then one of five handlers is
 * chosen by method and router-relative path. Express matches paths without
 * regard to case and with an optional trailing slash, and lets a GET route
 * answer HEAD requests.
 */
module TrackerRoutes {
  import opened Wrappers
  import opened Http
  import opened AuthUtils
  import TrackerGuard

  /** The five controller entry points, with the `:id` parameter where there is one. */
  datatype Handler =
    | GetAll
    | GetById(id: string)
    | Create
    | Update(id: string)
    | Delete(id: string)

  /** A GET route answers GET and HEAD. */
  predicate IsGet(verb: string) {
    verb == "GET" || verb == "HEAD"
  }

  /** The path segment `/:id` captures: one non-empty segment, with an optional trailing slash. */
  function IdParam(path: string): (id: Option<string>)
    ensures id.Some? ==> id.value != "" && '/' !in id.value
    ensures id.Some? ==> path == "/" + id.value || path == "/" + id.value + "/"
  {
    if |path| >= 2 && path[0] == '/' then
      var body := if path[|path| - 1] == '/' then path[1..|path| - 1] else path[1..];
      if body != "" && '/' !in body then Some(body) else None
    else None
  }

  /** Every non-empty, slash-free id is captured back from `/id` and from `/id/`. */
  lemma IdParamOf(id: string)
    requires id != "" && '/' !in id
    ensures IdParam("/" + id) == Some(id)
    ensures IdParam("/" + id + "/") == Some(id)
  {
    assert ("/" + id)[1..] == id;
    assert ("/" + id + "/")[1..|"/" + id + "/"| - 1] == id;
    assert ("/" + id)[|"/" + id| - 1] == id[|id| - 1];
  }

  /** The route table: `/` takes GET and POST, `/:id` takes GET, PUT and DELETE, and nothing else matches. */
  function Route(verb: string, path: string): (h: Option<Handler>)
    ensures h == Some(GetAll) <==> IsGet(verb) && path == "/"
    ensures h == Some(Create) <==> verb == "POST" && path == "/"
    ensures h.Some? && h.value.GetById? <==> IsGet(verb) && IdParam(path).Some?
    ensures h.Some? && h.value.Update? <==> verb == "PUT" && IdParam(path).Some?
    ensures h.Some? && h.value.Delete? <==> verb == "DELETE" && IdParam(path).Some?
    ensures h.Some? && !h.value.GetAll? && !h.value.Create? ==> h.value.id == IdParam(path).value
  {
    if path == "/" then
      if IsGet(verb) then Some(GetAll) else if verb == "POST" then Some(Create) else None
    else match IdParam(path)
      case None => None
      case Some(id) =>
        if IsGet(verb) then Some(GetById(id))
        else if verb == "PUT" then Some(Update(id))
        else if verb == "DELETE" then Some(Delete(id))
        else None
  }

  /**
   * `router.use(authMiddleware)` followed by the table: the guard decides
   * first, for every request, and only a request it lets through is routed,
   * carrying the guard's identity.
   */
  function Handle(verb: string, path: string, authorization: Option<string>, verify: Verifier): (s: Step<Handler>)
    ensures s.Refused? <==> TrackerGuard.Decide(authorization, verify).Deny?
    ensures s.Dispatched? ==>
      && TrackerGuard.Decide(authorization, verify) == Proceed(s.identity)
      && Route(verb, path) == Some(s.handler)
    ensures s.Unrouted? ==> Route(verb, path).None?
  {
    match TrackerGuard.Decide(authorization, verify)
    case Deny(status, message) => Refused(status, message)
    case Proceed(identity) =>
      match Route(verb, path)
      case Some(h) => Dispatched(h, identity)
      case None => Unrouted
  }

  /** Even a request no route would take is refused by the guard first, so it never learns that. */
  lemma GuardBeforeRouting(verb: string, path: string, authorization: Option<string>, verify: Verifier)
    requires TrackerGuard.Decide(authorization, verify).Deny?
    ensures Handle(verb, path, authorization, verify) ==
      Refused(401, TrackerGuard.Decide(authorization, verify).message)
  {
  }
}
