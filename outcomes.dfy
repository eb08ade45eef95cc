/**
 * What the gateway's resolvers see of a data-source call, and what they hand
 * back to Apollo.
 */
module Outcomes {
  import opened Wrappers
  import Text

  /**
   * A thrown error as the resolvers inspect it: `error.extensions.response.status`
   * (present only for errors raised by the REST layer on an HTTP error status)
   * and `error.message`.
   */
  datatype ApiError = ApiError(status: Option<int>, message: string)

  /** A data-source call: the value it resolves to, or the error it throws. */
  datatype Outcome<T> = Ok(value: T) | Failed(error: ApiError)

  /** The result of a resolver: a value, or one of the three error classes it throws. */
  datatype GqlResult<T> =
    | Resolved(value: T)
    | AuthenticationError(message: string)
    | UserInputError(message: string)
    | InternalError(message: string)

  /**
   * The error the REST layer raises for an HTTP error response: the status in
   * the extensions and the message `"<status>: <statusText>"`.
   */
  function HttpError(status: nat, statusText: string): (e: ApiError)
    ensures e.status == Some(status as int)
    ensures Text.StartsWith(e.message, Text.NatToString(status))
  {
    Text.StartsWithConcat(Text.NatToString(status), ": " + statusText);
    ApiError(Some(status), Text.NatToString(status) + ": " + statusText)
  }

  /** A plain `new Error(message)`: no HTTP status attached. */
  function PlainError(message: string): (e: ApiError)
    ensures e.status.None? && e.message == message
  {
    ApiError(None, message)
  }

  /** JavaScript truthiness of an optional string: present and non-empty. */
  predicate Truthy(s: Option<string>) {
    s.Some? && s.value != ""
  }
}
