/**
 * The gateway's job-application resolvers. Each one refuses a falsy context
 * token before it calls the data source, then maps the data source's outcome
 * to a GraphQL result. The payload types are left generic.
 */
module JobResolvers {
  import opened Wrappers
  import opened Http
  import opened Outcomes
  import Text

  const ServiceAuthFailed: string := "Authentication failed when connecting to Job Tracker Service"
  const NotFound: string := "Application not found"

  /** `error.message && error.message.includes('401')`. */
  predicate Mentions401(e: ApiError) {
    e.message != "" && Text.Contains(e.message, "401")
  }

  /** `error.extensions?.response?.status === 404`. */
  predicate Is404(e: ApiError) {
    e.status == Some(404)
  }

  /** Query `applications`. */
  function Applications<T>(token: Option<string>, call: Outcome<T>): (r: GqlResult<T>)
    ensures !Truthy(token) ==> r == AuthenticationError("You must be logged in to view applications")
    ensures r.Resolved? <==> Truthy(token) && call.Ok?
    ensures r.Resolved? ==> r.value == call.value
    ensures r.AuthenticationError? <==> !Truthy(token) || (call.Failed? && Mentions401(call.error))
    ensures r.InternalError? ==> r.message == "Failed to fetch applications"
    ensures !r.UserInputError?
  {
    if !Truthy(token) then AuthenticationError("You must be logged in to view applications")
    else match call
      case Ok(apps) => Resolved(apps)
      case Failed(e) =>
        if Mentions401(e) then AuthenticationError(ServiceAuthFailed)
        else InternalError("Failed to fetch applications")
  }

  /** Query `application(id)`: a downstream 404 reads as `null`. */
  function Application<T>(token: Option<string>, call: Outcome<T>): (r: GqlResult<Option<T>>)
    ensures r.AuthenticationError? <==> !Truthy(token)
    ensures !Truthy(token) ==> r == AuthenticationError("You must be logged in to view an application")
    ensures r == Resolved(None) <==> Truthy(token) && call.Failed? && Is404(call.error)
    ensures call.Ok? && Truthy(token) ==> r == Resolved(Some(call.value))
    ensures r.InternalError? <==> Truthy(token) && call.Failed? && !Is404(call.error)
    ensures r.InternalError? ==> r.message == "Failed to fetch application"
  {
    if !Truthy(token) then AuthenticationError("You must be logged in to view an application")
    else match call
      case Ok(app) => Resolved(Some(app))
      case Failed(e) => if Is404(e) then Resolved(None) else InternalError("Failed to fetch application")
  }

  /** Mutation `createJobApplication(input)`. */
  function CreateJobApplication<T>(token: Option<string>, call: Outcome<T>): (r: GqlResult<T>)
    ensures !Truthy(token) ==> r == AuthenticationError("You must be logged in to create an application")
    ensures r.Resolved? <==> Truthy(token) && call.Ok?
    ensures r.AuthenticationError? <==> !Truthy(token) || (call.Failed? && Mentions401(call.error))
    ensures r.InternalError? ==> r.message == "Failed to create application: " + call.error.message
    ensures !r.UserInputError?
  {
    if !Truthy(token) then AuthenticationError("You must be logged in to create an application")
    else match call
      case Ok(app) => Resolved(app)
      case Failed(e) =>
        if Mentions401(e) then AuthenticationError(ServiceAuthFailed)
        else InternalError("Failed to create application: " + e.message)
  }

  /**
   * `const { id, ...applicationData } = input`: the id to update and the
   * fields forwarded, which are every input field except `id`.
   */
  function UpdateArguments(input: Fields): (args: (Option<string>, Fields))
    ensures args.0 == HeaderValue(input, "id")
    ensures args.1.Keys == input.Keys - {"id"}
    ensures forall k :: k in args.1 ==> args.1[k] == input[k]
  {
    (HeaderValue(input, "id"), input - {"id"})
  }

  /** Mutation `updateJobApplication(input)`: a downstream 404 reads as "Application not found". */
  function UpdateJobApplication<T>(token: Option<string>, call: Outcome<T>): (r: GqlResult<T>)
    ensures !Truthy(token) ==> r == AuthenticationError("You must be logged in to update an application")
    ensures r.AuthenticationError? <==> !Truthy(token)
    ensures r.Resolved? <==> Truthy(token) && call.Ok?
    ensures r.UserInputError? <==> Truthy(token) && call.Failed? && Is404(call.error)
    ensures r.UserInputError? ==> r.message == NotFound
    ensures r.InternalError? ==> r.message == "Failed to update application"
  {
    if !Truthy(token) then AuthenticationError("You must be logged in to update an application")
    else match call
      case Ok(app) => Resolved(app)
      case Failed(e) => if Is404(e) then UserInputError(NotFound) else InternalError("Failed to update application")
  }

  /**
   * Mutation `deleteJobApplication(id)`: `true` on success, "Application not
   * found" on a downstream 404, and `false` (never an error) for any other failure.
   */
  function DeleteJobApplication<T>(token: Option<string>, call: Outcome<T>): (r: GqlResult<bool>)
    ensures !Truthy(token) ==> r == AuthenticationError("You must be logged in to delete an application")
    ensures r.AuthenticationError? <==> !Truthy(token)
    ensures r == Resolved(true) <==> Truthy(token) && call.Ok?
    ensures r.UserInputError? <==> Truthy(token) && call.Failed? && Is404(call.error)
    ensures r == Resolved(false) <==> Truthy(token) && call.Failed? && !Is404(call.error)
    ensures !r.InternalError?
  {
    if !Truthy(token) then AuthenticationError("You must be logged in to delete an application")
    else match call
      case Ok(_) => Resolved(true)
      case Failed(e) => if Is404(e) then UserInputError(NotFound) else Resolved(false)
  }

  /** Whatever the data source would have returned, a falsy token gets the same refusal: no call is consulted. */
  lemma FailFast<T>(token: Option<string>, a: Outcome<T>, b: Outcome<T>)
    requires !Truthy(token)
    ensures Applications(token, a) == Applications(token, b)
    ensures Application(token, a) == Application(token, b)
    ensures CreateJobApplication(token, a) == CreateJobApplication(token, b)
    ensures UpdateJobApplication(token, a) == UpdateJobApplication(token, b)
    ensures DeleteJobApplication(token, a) == DeleteJobApplication(token, b)
  {
  }

  /** A REST 401 (message `"401: ..."`) is recognised by the `includes('401')` test. */
  lemma Http401Recognised(statusText: string)
    ensures Mentions401(HttpError(401, statusText))
  {
    var e := HttpError(401, statusText);
    assert Text.NatToString(401) == "401";
    assert Text.OccursAt(e.message, "401", 0);
    Text.ContainsIffOccurs(e.message, "401");
  }
}
