/**
 * The `Authorization: Bearer <token>` convention shared by the browser client,
 * the gateway and both service guards: building the header, and taking the
 * token back out of it with `header.split(' ')[1]`.
 */
module Bearer {
  import opened Text

  const Prefix: string := "Bearer "

  /** The header value the client and the gateway's REST source build from a bare token. */
  function Header(token: string): (h: string)
    ensures StartsWith(h, Prefix) && h[|Prefix|..] == token
  {
    StartsWithConcat(Prefix, token);
    Prefix + token
  }

  /** A `Bearer ` header splits into "Bearer" followed by the fields of what comes after the prefix. */
  lemma SplitBearer(header: string)
    requires StartsWith(header, Prefix)
    ensures Split(header, ' ') == ["Bearer"] + Split(header[|Prefix|..], ' ')
  {
    assert header == "Bearer" + [' '] + header[|Prefix|..];
    SplitFirstField("Bearer", ' ', header[|Prefix|..]);
  }

  /**
   * `header.split(' ')[1]` on a header that starts with `Bearer `: the text
   * after the prefix up to the next space. It always exists, so it is never
   * `undefined`, and it never contains a space.
   */
  function SecondField(header: string): (token: string)
    requires StartsWith(header, Prefix)
    ensures token == Split(header[|Prefix|..], ' ')[0]
    ensures ' ' !in token
  {
    SplitBearer(header);
    Split(header, ' ')[1]
  }

  /** The token comes back whole exactly when it has no space in it. */
  lemma {:induction false} SecondFieldOfHeader(token: string)
    ensures SecondField(Header(token)) == token <==> ' ' !in token
  {
    assert Header(token)[|Prefix|..] == token;
    FirstFieldIsWhole(token, ' ');
  }

  /** `"Bearer "` with nothing after it yields the empty token. */
  lemma EmptyAfterPrefix()
    ensures SecondField(Prefix) == ""
  {
    assert Prefix[|Prefix|..] == "";
  }

  /** `"Bearer  x"`: a second space right after the prefix yields the empty token. */
  lemma {:induction false} DoubleSpace(rest: string)
    ensures SecondField(Header(" " + rest)) == ""
  {
    assert Header(" " + rest)[|Prefix|..] == "" + [' '] + rest;
    SplitFirstField("", ' ', rest);
  }

  /** `"Bearer a b"`: only the field after the prefix is kept; the rest is dropped. */
  lemma {:induction false} ExtraFieldsDropped(first: string, rest: string)
    requires ' ' !in first
    ensures SecondField(Header(first + " " + rest)) == first
  {
    assert Header(first + " " + rest)[|Prefix|..] == first + [' '] + rest;
    SplitFirstField(first, ' ', rest);
  }
}
