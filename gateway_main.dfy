/**
 * The gateway's request entry: the CORS middleware in front of every route, and
 * the Apollo `context` callback that turns the Authorization header into the
 * token the resolvers and data sources see.
 */
module GatewayMain {
  import opened Wrappers
  import opened Text
  import opened Http
  import Bearer
  import Outcomes

  /**
   * The `context` callback: a missing header reads as `''`; a `Bearer ` header
   * gives its second space-separated field; any other header is taken whole;
   * an empty result becomes `null`. The token is not verified here.
   */
  function ContextToken(authorization: Option<string>): (token: Option<string>)
    ensures token != Some("")
  {
    var header := authorization.GetOr("");
    var raw := if StartsWith(header, Bearer.Prefix) then Bearer.SecondField(header) else header;
    if raw == "" then None else Some(raw)
  }

  /** The header the client builds from a non-empty, space-free token gives that token back. */
  lemma ClientHeaderRoundTrip(token: string)
    requires token != "" && ' ' !in token
    ensures ContextToken(Some(Bearer.Header(token))) == Some(token)
  {
    Bearer.SecondFieldOfHeader(token);
  }

  /** A header without the `Bearer ` prefix is passed through whole. */
  lemma UnprefixedPassThrough(header: string)
    requires header != "" && !StartsWith(header, Bearer.Prefix)
    ensures ContextToken(Some(header)) == Some(header)
  {
  }

  /** A missing or empty header gives no token. */
  lemma MissingHeaderNoToken(authorization: Option<string>)
    requires authorization == None || authorization == Some("")
    ensures ContextToken(authorization) == None
  {
  }

  /** `"Bearer "` and `"Bearer  x"` give an empty field, hence no token. */
  lemma EmptyFieldNoToken(rest: string)
    ensures ContextToken(Some(Bearer.Prefix)) == None
    ensures ContextToken(Some(Bearer.Header(" " + rest))) == None
  {
    Bearer.EmptyAfterPrefix();
    Bearer.DoubleSpace(rest);
  }

  /** `"Bearer a b"` keeps only `a`. */
  lemma ExtraFieldsDropped(first: string, rest: string)
    requires first != "" && ' ' !in first
    ensures ContextToken(Some(Bearer.Header(first + " " + rest))) == Some(first)
  {
    Bearer.ExtraFieldsDropped(first, rest);
  }

  /**
   * The context token never itself starts with `Bearer `: a split field has no
   * space, and an unprefixed header is taken only when it lacks the prefix.
   */
  lemma ContextTokenNeverPrefixed(authorization: Option<string>)
    ensures ContextToken(authorization).Some? ==> !StartsWith(ContextToken(authorization).value, Bearer.Prefix)
  {
    var header := authorization.GetOr("");
    if StartsWith(header, Bearer.Prefix) {
      var t := Bearer.SecondField(header);
      assert |t| >= 7 ==> t[6] != Bearer.Prefix[6];
    }
  }

  const DefaultOrigin: string := "http://localhost:3000"
  const AllowedMethods: string := "GET, POST, OPTIONS"
  const AllowedHeaders: string := "Origin, X-Requested-With, Content-Type, Accept, Authorization"

  /** The four CORS headers set on every response. */
  function CorsHeaders(origin: Option<string>): (h: Headers)
    ensures h.Keys == {"Access-Control-Allow-Origin", "Access-Control-Allow-Methods",
                       "Access-Control-Allow-Headers", "Access-Control-Allow-Credentials"}
    ensures h["Access-Control-Allow-Origin"] == if Outcomes.Truthy(origin) then origin.value else DefaultOrigin
    ensures Contains(h["Access-Control-Allow-Headers"], "Authorization")
    ensures h["Access-Control-Allow-Credentials"] == "true"
  {
    assert OccursAt(AllowedHeaders, "Authorization", |AllowedHeaders| - 13);
    ContainsIffOccurs(AllowedHeaders, "Authorization");
    map[
      "Access-Control-Allow-Origin" := if Outcomes.Truthy(origin) then origin.value else DefaultOrigin,
      "Access-Control-Allow-Methods" := AllowedMethods,
      "Access-Control-Allow-Headers" := AllowedHeaders,
      "Access-Control-Allow-Credentials" := "true"
    ]
  }

  /** Four `setHeader` calls in a row add the same members as one union. */
  lemma FourUpdates(m: Headers, a: string, va: string, b: string, vb: string, c: string, vc: string, d: string, vd: string)
    ensures m[a := va][b := vb][c := vc][d := vd] == m + map[a := va, b := vb, c := vc, d := vd]
  {
  }

  /**
   * The CORS middleware: sets the four headers, then ends an OPTIONS request
   * with 204 without calling `next`; any other request goes on to `next`.
   */
  method Cors(req: Request, res: Response) returns (callNext: bool)
    modifies res
    ensures res.headers == old(res.headers) + CorsHeaders(HeaderValue(req.headers, "origin"))
    ensures callNext <==> req.verb != "OPTIONS"
    ensures callNext ==> res.status == old(res.status) && res.ended == old(res.ended) && res.message == old(res.message)
    ensures !callNext ==> res.status == 204 && res.ended && res.message == old(res.message)
  {
    var originHeader := HeaderValue(req.headers, "origin");
    var origin := if Outcomes.Truthy(originHeader) then originHeader.value else DefaultOrigin;
    res.SetHeader("Access-Control-Allow-Origin", origin);
    res.SetHeader("Access-Control-Allow-Methods", AllowedMethods);
    res.SetHeader("Access-Control-Allow-Headers", AllowedHeaders);
    res.SetHeader("Access-Control-Allow-Credentials", "true");
    FourUpdates(old(res.headers), "Access-Control-Allow-Origin", origin, "Access-Control-Allow-Methods", AllowedMethods,
                "Access-Control-Allow-Headers", AllowedHeaders, "Access-Control-Allow-Credentials", "true");
    if req.verb == "OPTIONS" {
      res.End(204);
      return false;
    }
    return true;
  }
}
