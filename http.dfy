/**
 * The parts of an Express request and response that the guards, the
 * controllers and the gateway's CORS middleware read and write.
 */
module Http {
  import opened Wrappers

  /** Header names as Express stores them (lower case). */
  type Headers = map<string, string>

  /** A JSON object whose members are strings: request bodies, GraphQL inputs, mock records. */
  type Fields = map<string, string>

  /** A JSON member value as the services send it: a string, a Date, or `null`. */
  datatype JsonValue = JStr(s: string) | JTime(ms: int) | JNull

  type JsonObject = map<string, JsonValue>

  /** What `res.json(...)` sends: a `{message}` object, a `{message, error}` object, one document or a list. */
  datatype Body<D> =
    | Message(text: string)
    | ServerError(text: string, error: string)
    | One(doc: D)
    | Many(docs: seq<D>)

  /** The status set with `res.status(...)` and the body sent with `res.json(...)`. */
  datatype Reply<D> = Reply(status: int, body: Body<D>)

  /**
   * What an authentication middleware decides: call `next` with the identity
   * it writes into the request, or answer with a status and a message.
   */
  datatype Decision = Proceed(identity: Option<string>) | Deny(status: int, message: string)

  /**
   * Where a request ends up inside a router: refused by a guard, handed to a
   * handler (with the identity the guard wrote, if a guard ran), or not
   * matched by any route.
   */
  datatype Step<H> = Refused(status: int, message: string) | Dispatched(handler: H, identity: Option<string>) | Unrouted

  function HeaderValue(headers: Headers, name: string): Option<string> {
    if name in headers then Some(headers[name]) else None
  }

  /** HTTP white space: space, tab, carriage return and line feed. */
  predicate HttpSpace(c: char) {
    c == ' ' || c == '\t' || c == '\r' || c == '\n'
  }

  /** A value with no HTTP white space at either end. */
  predicate Unpadded(v: string) {
    v == "" || (!HttpSpace(v[0]) && !HttpSpace(v[|v| - 1]))
  }

  /** The value with its leading HTTP white space dropped, and only that. */
  function StripLeading(v: string): (r: string)
    ensures |r| <= |v| && r == v[|v| - |r|..]
    ensures r == "" || !HttpSpace(r[0])
    ensures forall i :: 0 <= i < |v| - |r| ==> HttpSpace(v[i])
    decreases |v|
  {
    if |v| > 0 && HttpSpace(v[0]) then StripLeading(v[1..]) else v
  }

  /** The value with its trailing HTTP white space dropped, and only that. */
  function StripTrailing(v: string): (r: string)
    ensures |r| <= |v| && r == v[..|r|]
    ensures r == "" || !HttpSpace(r[|r| - 1])
    ensures forall i :: |r| <= i < |v| ==> HttpSpace(v[i])
    decreases |v|
  {
    if |v| > 0 && HttpSpace(v[|v| - 1]) then StripTrailing(v[..|v| - 1]) else v
  }

  /**
   * A header value as the receiving server reads it. The sender's `fetch`
   * normalises every header value by removing its leading and trailing HTTP
   * white space (the Fetch Standard's header-value normalisation), so padding
   * never crosses the wire.
   */
  function Transmitted(v: string): (r: string)
    ensures Unpadded(r)
    ensures |r| <= |v|
  {
    StripTrailing(StripLeading(v))
  }

  /** A value crosses the wire unchanged exactly when it has no padding. */
  lemma TransmittedFixed(v: string)
    ensures Transmitted(v) == v <==> Unpadded(v)
  {
    if Unpadded(v) && v != "" {
      assert StripLeading(v) == v;
      assert StripTrailing(v) == v;
    }
  }

  /** Sending a received value on again changes nothing. */
  lemma TransmittedIdempotent(v: string)
    ensures Transmitted(Transmitted(v)) == Transmitted(v)
  {
    TransmittedFixed(Transmitted(v));
  }

  /**
   * Trailing white space is stripped from a concatenation as from its tail,
   * unless the tail is all white space, when the head is stripped as well.
   */
  lemma {:induction false} StripTrailingConcat(a: string, b: string)
    ensures StripTrailing(a + b) == if StripTrailing(b) == "" then StripTrailing(a) else a + StripTrailing(b)
    decreases |b|
  {
    if |b| == 0 {
      assert a + b == a;
    } else if HttpSpace(b[|b| - 1]) {
      var ab := a + b;
      var b' := b[..|b| - 1];
      assert ab[..|ab| - 1] == a + b';
      assert StripTrailing(ab) == StripTrailing(a + b');
      assert StripTrailing(b) == StripTrailing(b');
      StripTrailingConcat(a, b');
    } else {
      assert StripTrailing(b) == b;
      assert StripTrailing(a + b) == a + b;
    }
  }

  /** Stripping white space adds no character: one absent before is absent after. */
  lemma StripTrailingKeepsOut(v: string, c: char)
    requires c !in v
    ensures c !in StripTrailing(v)
  {
    var r := StripTrailing(v);
    forall i | 0 <= i < |r|
      ensures r[i] != c
    {
      assert r[i] == v[i];
    }
  }

  /**
   * An incoming request. The method (`verb`), path and headers are fixed; `req.body.userId`
   * and the `req.userId` augmentation are written by the guards.
   */
  class Request {
    const verb: string
    const path: string
    const headers: Headers
    var bodyUserId: Option<string>
    var userId: Option<string>

    constructor (verb: string, path: string, headers: Headers, bodyUserId: Option<string>)
      ensures this.verb == verb && this.path == path && this.headers == headers
      ensures this.bodyUserId == bodyUserId && this.userId == None
    {
      this.verb := verb;
      this.path := path;
      this.headers := headers;
      this.bodyUserId := bodyUserId;
      this.userId := None;
    }

    /** `req.headers.authorization`. */
    function Authorization(): Option<string> {
      HeaderValue(headers, "authorization")
    }
  }

  /** An outgoing response: status, headers, the JSON message sent, and whether it has ended. */
  class Response {
    var status: int
    var headers: Headers
    var message: Option<string>
    var ended: bool

    constructor ()
      ensures status == 200 && headers == map[] && message == None && !ended
    {
      status := 200;
      headers := map[];
      message := None;
      ended := false;
    }

    /** `res.setHeader(name, value)`. */
    method SetHeader(name: string, value: string)
      modifies this
      ensures headers == old(headers)[name := value]
      ensures status == old(status) && message == old(message) && ended == old(ended)
    {
      headers := headers[name := value];
    }

    /** `res.status(code).json({ message })`. */
    method SendMessage(code: int, text: string)
      modifies this
      ensures status == code && message == Some(text) && ended
      ensures headers == old(headers)
    {
      status := code;
      message := Some(text);
      ended := true;
    }

    /** `res.status(code).end()`. */
    method End(code: int)
      modifies this
      ensures status == code && ended
      ensures headers == old(headers) && message == old(message)
    {
      status := code;
      ended := true;
    }
  }
}
