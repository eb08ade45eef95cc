/** The browser client's `authLink`: the headers attached to every GraphQL request. */
module ClientAuthLink {
  import opened Wrappers
  import opened Http
  import Bearer

  /**
   * The token the link reads: `''` on the server (no `window`), otherwise the
   * stored `token` item or `''` when there is none.
   */
  function StoredToken(hasWindow: bool, stored: Option<string>): string {
    if hasWindow then stored.GetOr("") else ""
  }

  /**
   * The headers handed to the HTTP link: every incoming header kept, and
   * `Authorization` set to `Bearer <token>`, or to the empty string (not left
   * out) when there is no token.
   */
  function AuthLink(hasWindow: bool, stored: Option<string>, headers: Headers): (out: Headers)
    ensures out.Keys == headers.Keys + {"Authorization"}
    ensures forall name :: name in headers && name != "Authorization" ==> out[name] == headers[name]
    ensures out["Authorization"] == "" <==> StoredToken(hasWindow, stored) == ""
    ensures StoredToken(hasWindow, stored) != "" ==>
      out["Authorization"] == Bearer.Header(StoredToken(hasWindow, stored))
    ensures !hasWindow ==> out["Authorization"] == ""
  {
    var token := StoredToken(hasWindow, stored);
    headers["Authorization" := if token != "" then Bearer.Header(token) else ""]
  }
}
