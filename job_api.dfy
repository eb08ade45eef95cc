/**
 * The gateway's REST data source for job applications: the Authorization
 * header it attaches to outgoing requests, and the in-memory list of mock
 * applications it falls back on when a call to the Job Tracker Service fails.
 * The list is module-global in the source and shared by every request; here
 * it is the `mock` field of one `JobApi` object.
 */
module JobApiSource {
  import opened Wrappers
  import opened Text
  import opened Http
  import opened Outcomes
  import Bearer

  /** `token.startsWith('Bearer ') ? token : `Bearer ${token}``. */
  function BearerValue(token: string): (v: string)
    ensures StartsWith(v, Bearer.Prefix)
    ensures StartsWith(token, Bearer.Prefix) ==> v == token
    ensures !StartsWith(token, Bearer.Prefix) ==> v == Bearer.Header(token)
  {
    if StartsWith(token, Bearer.Prefix) then token else Bearer.Header(token)
  }

  /** Normalising an already normalised value changes nothing. */
  lemma BearerValueIdempotent(token: string)
    ensures BearerValue(BearerValue(token)) == BearerValue(token)
  {
  }

  /** The Authorization header `willSendRequest` sets: only when the context token is truthy. */
  function OutgoingAuthorization(contextToken: Option<string>): (h: Option<string>)
    ensures h.Some? <==> Truthy(contextToken)
    ensures h.Some? ==> h.value == BearerValue(contextToken.value)
  {
    if Truthy(contextToken) then Some(BearerValue(contextToken.value)) else None
  }

  /** The request object `willSendRequest` receives. */
  class OutgoingRequest {
    var headers: Headers

    constructor (headers: Headers)
      ensures this.headers == headers
    {
      this.headers := headers;
    }
  }

  /** The test `app.id === id` used by `find` and `findIndex`; an absent id is `undefined`. */
  predicate HasId(app: Fields, id: Option<string>) {
    if id.None? then "id" !in app else "id" in app && app["id"] == id.value
  }

  /** `findIndex(app => app.id === id)`: the first match, or -1. */
  function FindIndex(apps: seq<Fields>, id: Option<string>): (k: int)
    ensures -1 <= k < |apps|
    ensures k >= 0 ==> HasId(apps[k], id) && forall j :: 0 <= j < k ==> !HasId(apps[j], id)
    ensures k == -1 ==> forall j :: 0 <= j < |apps| ==> !HasId(apps[j], id)
    decreases |apps|
  {
    if |apps| == 0 then -1
    else if HasId(apps[0], id) then 0
    else
      var k := FindIndex(apps[1..], id);
      if k == -1 then -1 else k + 1
  }

  /** `new Error(`Application with ID ${id} not found`)`: a plain error with no HTTP status. */
  function NotFoundError(id: Option<string>): ApiError {
    PlainError("Application with ID " + id.GetOr("undefined") + " not found")
  }

  /**
   * `{ ...app, ...data, updatedAt }`: every key of either, the input's value
   * wherever it has one, and `updatedAt` refreshed.
   */
  function Merge(app: Fields, data: Fields, updatedAt: string): (r: Fields)
    ensures r.Keys == app.Keys + data.Keys + {"updatedAt"}
    ensures r["updatedAt"] == updatedAt
    ensures forall k :: k in data && k != "updatedAt" ==> r[k] == data[k]
    ensures forall k :: k in app && k !in data && k != "updatedAt" ==> r[k] == app[k]
  {
    (app + data)["updatedAt" := updatedAt]
  }

  /** The `{ success: true, id }` acknowledgement of a mock deletion. */
  function DeleteAck(id: string): Fields {
    map["success" := "true", "id" := id]
  }

  const ConnectionRefused: string := "Cannot connect to Job Tracker Service. Please ensure it is running."

  /** One seeded mock application. */
  function SeedApplication(id: string, company: string, position: string, location: string,
                           appliedDate: string, status: string, notes: string, contactName: string,
                           contactEmail: string, nextFollowUp: string, salary: string,
                           createdAt: string, updatedAt: string): Fields
  {
    map["id" := id, "company" := company, "position" := position, "location" := location,
        "appliedDate" := appliedDate, "status" := status, "notes" := notes,
        "contactName" := contactName, "contactEmail" := contactEmail,
        "nextFollowUp" := nextFollowUp, "salary" := salary,
        "createdAt" := createdAt, "updatedAt" := updatedAt]
  }

  /** The three applications the mock list starts with. */
  function Seed(): seq<Fields> {
    [ SeedApplication("app-1", "Tech Innovations Inc.", "Senior Full Stack Developer", "San Francisco, CA",
                      "2025-05-01T00:00:00.000Z", "INTERVIEW",
                      "Had first interview on May 10th. Waiting for second round.",
                      "Jane Smith", "jane.smith@techinnovations.com", "2025-05-20T00:00:00.000Z", "150000",
                      "2025-05-01T00:00:00.000Z", "2025-05-10T00:00:00.000Z"),
      SeedApplication("app-2", "Global Software Solutions", "Frontend Engineer", "Remote",
                      "2025-05-05T00:00:00.000Z", "APPLIED",
                      "Submitted application through their career portal.",
                      "Recruiting Team", "recruiting@globalsoftware.com", "2025-05-19T00:00:00.000Z", "120000",
                      "2025-05-05T00:00:00.000Z", "2025-05-05T00:00:00.000Z"),
      SeedApplication("app-3", "Startup Ventures", "Backend Developer", "New York, NY",
                      "2025-04-25T00:00:00.000Z", "OFFER",
                      "Received offer! Need to negotiate salary.",
                      "Michael Johnson", "michael@startupventures.com", "2025-05-18T00:00:00.000Z", "135000",
                      "2025-04-25T00:00:00.000Z", "2025-05-15T00:00:00.000Z") ]
  }

  /**
   * The data source. Each operation takes the outcome of its REST call as
   * `remote`; a failed outcome (network error or any HTTP error status) selects
   * the mock fallback.
   */
  class JobApi {
    var mock: seq<Fields>

    constructor ()
      ensures mock == Seed()
    {
      mock := Seed();
    }

    /** `willSendRequest`: attaches `Bearer <token>` when the context holds a token, else leaves the headers alone. */
    method WillSendRequest(contextToken: Option<string>, request: OutgoingRequest)
      modifies request
      ensures Truthy(contextToken) ==>
        request.headers == old(request.headers)["Authorization" := BearerValue(contextToken.value)]
      ensures !Truthy(contextToken) ==> request.headers == old(request.headers)
    {
      if Truthy(contextToken) {
        var token := contextToken.value;
        var tokenValue := if StartsWith(token, Bearer.Prefix) then token else Bearer.Header(token);
        request.headers := request.headers["Authorization" := tokenValue];
      }
    }

    /** `getApplications`: never fails; any error yields the whole mock list. */
    method GetApplications(remote: Outcome<seq<Fields>>) returns (r: Outcome<seq<Fields>>)
      ensures r.Ok?
      ensures remote.Ok? ==> r == remote
      ensures remote.Failed? ==> r.value == mock
    {
      match remote {
        case Ok(apps) => r := remote;
        case Failed(_) => r := Ok(mock);
      }
    }

    /** `getApplicationById`: on failure, the first mock record with that id, else a plain not-found error. */
    method GetApplicationById(id: string, remote: Outcome<Fields>) returns (r: Outcome<Fields>)
      ensures remote.Ok? ==> r == remote
      ensures remote.Failed? ==> (r.Ok? <==> FindIndex(mock, Some(id)) >= 0)
      ensures remote.Failed? && r.Ok? ==> r.value == mock[FindIndex(mock, Some(id))]
      ensures remote.Failed? && r.Failed? ==>
        r.error == NotFoundError(Some(id)) && forall app :: app in mock ==> !HasId(app, Some(id))
      ensures r.Failed? ==> r.error.status.None?
    {
      if remote.Ok? {
        return remote;
      }
      var k := FindIndex(mock, Some(id));
      if k == -1 {
        r := Failed(NotFoundError(Some(id)));
      } else {
        r := Ok(mock[k]);
      }
    }

    /**
     * `createApplication`: posts `{ application: appData }` where `appData` is
     * the input with `userId` defaulting to 'default-user'. It never falls back
     * to the mock list; a refused connection is reported with a fixed message
     * and any other error is rethrown as it is.
     */
    method CreateApplication(data: Fields, remote: Outcome<Fields>) returns (posted: Fields, r: Outcome<Fields>)
      ensures posted.Keys == data.Keys + {"userId"}
      ensures forall k :: k in data && k != "userId" ==> posted[k] == data[k]
      ensures posted["userId"] == if Truthy(HeaderValue(data, "userId")) then data["userId"] else "default-user"
      ensures r.Ok? <==> remote.Ok?
      ensures remote.Ok? ==> r == remote
      ensures remote.Failed? && Contains(remote.error.message, "ECONNREFUSED") ==>
        r == Failed(PlainError(ConnectionRefused))
      ensures remote.Failed? && !Contains(remote.error.message, "ECONNREFUSED") ==> r == remote
    {
      var userId := HeaderValue(data, "userId");
      posted := data["userId" := if Truthy(userId) then userId.value else "default-user"];
      match remote {
        case Ok(_) => r := remote;
        case Failed(e) =>
          if e.message != "" && Contains(e.message, "ECONNREFUSED") {
            r := Failed(PlainError(ConnectionRefused));
          } else {
            r := remote;
          }
      }
    }

    /**
     * `updateApplication`: on failure, merges the input into the first mock
     * record with that id, in place, refreshing `updatedAt`; every other
     * record and the length stay as they were. A missing id throws a plain
     * not-found error and changes nothing.
     */
    method UpdateApplication(id: Option<string>, data: Fields, remote: Outcome<Fields>, now: string)
      returns (r: Outcome<Fields>)
      modifies this
      ensures remote.Ok? ==> r == remote && mock == old(mock)
      ensures remote.Failed? && FindIndex(old(mock), id) == -1 ==>
        r == Failed(NotFoundError(id)) && mock == old(mock)
      ensures remote.Failed? && FindIndex(old(mock), id) >= 0 ==>
        var k := FindIndex(old(mock), id);
        && |mock| == |old(mock)|
        && mock[k] == Merge(old(mock)[k], data, now)
        && (forall j :: 0 <= j < |mock| && j != k ==> mock[j] == old(mock)[j])
        && r == Ok(mock[k])
      ensures r.Failed? ==> r.error.status.None?
    {
      if remote.Ok? {
        return remote;
      }
      var index := FindIndex(mock, id);
      if index == -1 {
        return Failed(NotFoundError(id));
      }
      mock := mock[index := (mock[index] + data)["updatedAt" := now]];
      r := Ok(mock[index]);
    }

    /**
     * `deleteApplication`: on failure, splices the first mock record with that
     * id out of the list, keeping the others in order, and acknowledges with
     * `{ success: true, id }`. A missing id throws and changes nothing.
     */
    method DeleteApplication(id: string, remote: Outcome<Fields>) returns (r: Outcome<Fields>)
      modifies this
      ensures remote.Ok? ==> r == remote && mock == old(mock)
      ensures remote.Failed? && FindIndex(old(mock), Some(id)) == -1 ==>
        r == Failed(NotFoundError(Some(id))) && mock == old(mock)
      ensures remote.Failed? && FindIndex(old(mock), Some(id)) >= 0 ==>
        var k := FindIndex(old(mock), Some(id));
        && mock == old(mock)[..k] + old(mock)[k + 1..]
        && multiset(mock) + multiset{old(mock)[k]} == multiset(old(mock))
        && r == Ok(DeleteAck(id))
      ensures r.Failed? ==> r.error.status.None?
    {
      if remote.Ok? {
        return remote;
      }
      var index := FindIndex(mock, Some(id));
      if index == -1 {
        return Failed(NotFoundError(Some(id)));
      }
      assert mock == mock[..index] + [mock[index]] + mock[index + 1..];
      mock := mock[..index] + mock[index + 1..];
      r := Ok(DeleteAck(id));
    }
  }
}
