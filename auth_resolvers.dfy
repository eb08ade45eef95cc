/**
 * The gateway's account resolvers. `me` is the only one that reads the
 * context token; `register` and `login` take no token at all.
 */
module AuthResolvers {
  import opened Wrappers
  import opened Outcomes

  const DuplicateEmail: string := "User with this email already exists"
  const BadCredentials: string := "Invalid email or password"

  /** Query `me`: `null` without a token (no call made), and `null` for every failure. */
  function Me<T>(token: Option<string>, call: Outcome<Option<T>>): (r: Option<T>)
    ensures !Truthy(token) ==> r == None
    ensures call.Failed? ==> r == None
    ensures r.Some? <==> Truthy(token) && call.Ok? && call.value.Some?
    ensures r.Some? ==> call == Ok(r)
  {
    if !Truthy(token) then None
    else match call
      case Ok(user) => user
      case Failed(_) => None
  }

  /** Mutation `register(input)`: a downstream 400 reads as a duplicate email. */
  function Register<T>(call: Outcome<T>): (r: GqlResult<T>)
    ensures r.Resolved? <==> call.Ok?
    ensures r.Resolved? ==> r.value == call.value
    ensures r.UserInputError? <==> call.Failed? && call.error.status == Some(400)
    ensures r.UserInputError? ==> r.message == DuplicateEmail
    ensures r.InternalError? ==> r.message == "Failed to register user"
    ensures !r.AuthenticationError?
  {
    match call
    case Ok(payload) => Resolved(payload)
    case Failed(e) =>
      if e.status == Some(400) then UserInputError(DuplicateEmail) else InternalError("Failed to register user")
  }

  /** Mutation `login(input)`: a 401 or the service's credential message reads as an authentication error. */
  function Login<T>(call: Outcome<T>): (r: GqlResult<T>)
    ensures r.Resolved? <==> call.Ok?
    ensures r.Resolved? ==> r.value == call.value
    ensures r.AuthenticationError? <==>
      call.Failed? && (call.error.status == Some(401) || call.error.message == BadCredentials)
    ensures r.AuthenticationError? ==> r.message == BadCredentials
    ensures r.InternalError? ==> r.message == "Failed to login: " + call.error.message
    ensures !r.UserInputError?
  {
    match call
    case Ok(payload) => Resolved(payload)
    case Failed(e) =>
      if e.status == Some(401) || e.message == BadCredentials then AuthenticationError(BadCredentials)
      else InternalError("Failed to login: " + e.message)
  }
}
