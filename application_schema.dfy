/**
 * The job-application document of the Job Tracker Service and what its
 * Mongoose schema does to data on the way in and out: the validated create
 * path, the unvalidated update path (casting and trimming only), and the
 * `toJSON` transform.
 */
module ApplicationSchema {
  import opened Wrappers
  import opened Text
  import opened Http

  /** `ApplicationStatus`, the five values the `status` enum allows. */
  datatype ApplicationStatus = Applied | Interview | Offer | Rejected | Accepted

  function StatusName(s: ApplicationStatus): string {
    match s
    case Applied => "APPLIED"
    case Interview => "INTERVIEW"
    case Offer => "OFFER"
    case Rejected => "REJECTED"
    case Accepted => "ACCEPTED"
  }

  /** The enum test: which status, if any, a string names. */
  function ParseStatus(name: string): (s: Option<ApplicationStatus>)
    ensures s.Some? ==> StatusName(s.value) == name
    ensures s.None? ==> forall st: ApplicationStatus :: StatusName(st) != name
  {
    if name == "APPLIED" then Some(Applied)
    else if name == "INTERVIEW" then Some(Interview)
    else if name == "OFFER" then Some(Offer)
    else if name == "REJECTED" then Some(Rejected)
    else if name == "ACCEPTED" then Some(Accepted)
    else None
  }

  lemma StatusRoundTrip(s: ApplicationStatus)
    ensures ParseStatus(StatusName(s)) == Some(s)
  {
  }

  /** The default of `status`. */
  const DefaultStatus: string := "APPLIED"

  /**
   * A stored document. `oid` is `_id`, `version` is `__v`; dates are
   * milliseconds. `status` is kept as text because updates store it
   * unchecked, and `appliedDate` may be `null` after such an update.
   */
  datatype Application = Application(
    oid: string, version: nat, userId: string,
    company: string, position: string, location: string,
    appliedDate: Option<int>, status: string, notes: string,
    contactName: Option<string>, contactEmail: Option<string>,
    nextFollowUp: Option<int>, salary: Option<string>,
    createdAt: int, updatedAt: int)

  /** What the constraints promise of a document that went through validation. */
  predicate SchemaValid(a: Application) {
    && a.userId != ""
    && a.company != "" && Trimmed(a.company)
    && a.position != "" && Trimmed(a.position)
    && a.location != "" && Trimmed(a.location)
    && a.appliedDate.Some?
    && ParseStatus(a.status).Some?
    && Trimmed(a.notes)
    && (a.contactName.Some? ==> Trimmed(a.contactName.value))
    && (a.contactEmail.Some? ==> Trimmed(a.contactEmail.value))
    && (a.salary.Some? ==> Trimmed(a.salary.value))
  }

  /** Date parsing, to milliseconds; `None` for text that is not a date. */
  type DateParser = string -> Option<int>

  /** How a Date path casts text: `''` is `null`, anything else must parse (`None` is a cast error). */
  function CastDate(v: string, parseDate: DateParser): (r: Option<Option<int>>)
    ensures v == "" ==> r == Some(None)
    ensures v != "" ==> (r.Some? <==> parseDate(v).Some?) && (r.Some? ==> r.value == parseDate(v))
  {
    if v == "" then Some(None) else if parseDate(v).Some? then Some(parseDate(v)) else None
  }

  /** The errors a save or an update can raise, by path. */
  datatype SchemaError =
    | Required(path: string)
    | NotInEnum(path: string, value: string)
    | CastFailed(path: string, value: string)

  /** The `error.message` of a rejected save, in Mongoose's wording. */
  function ErrorMessage(e: SchemaError): string {
    "JobApplication validation failed: " + e.path + ": " +
    match e
    case Required(p) => "Path `" + p + "` is required."
    case NotInEnum(p, v) => "`" + v + "` is not a valid enum value for path `" + p + "`."
    case CastFailed(p, v) => "Cast to date failed for value \"" + v + "\" (type string) at path \"" + p + "\""
  }

  /** A required string path is missing or trims to nothing. */
  predicate Blank(data: Fields, key: string) {
    key !in data || Trim(data[key]) == ""
  }

  /** A date path that is absent, or present and castable. */
  predicate DateCasts(data: Fields, key: string, parseDate: DateParser) {
    key !in data || CastDate(data[key], parseDate).Some?
  }

  /** The cast value of a date path: absent and `''` both give `null`. */
  function DateOf(data: Fields, key: string, parseDate: DateParser): Option<int>
    requires DateCasts(data, key, parseDate)
  {
    if key in data then CastDate(data[key], parseDate).value else None
  }

  /** An optional trimmed string path. */
  function TrimmedOf(data: Fields, key: string): (r: Option<string>)
    ensures r.Some? <==> key in data
    ensures r.Some? ==> r.value == Trim(data[key]) && Trimmed(r.value)
  {
    if key in data then Some(Trim(data[key])) else None
  }

  /**
   * `{ ...applicationData, userId }`: the client's fields with `userId`
   * replaced by the caller's identity (the timestamps are set by the store).
   */
  function Stamped(data: Fields, userId: string): (input: Fields)
    ensures input.Keys == data.Keys + {"userId"} && input["userId"] == userId
    ensures forall k :: k in data && k != "userId" ==> input[k] == data[k]
  {
    data["userId" := userId]
  }

  /**
   * `JobApplicationModel.create(input)`: the document saved, or the first
   * path (in schema order) that fails validation. Fields the schema does not
   * know are dropped.
   */
  function NewApplication(oid: string, input: Fields, now: int, parseDate: DateParser)
    : (r: Result<Application, SchemaError>)
    ensures r.Success? <==>
      && "userId" in input && input["userId"] != ""
      && !Blank(input, "company") && !Blank(input, "position") && !Blank(input, "location")
      && DateCasts(input, "appliedDate", parseDate) && DateOf(input, "appliedDate", parseDate).Some?
      && ("status" in input ==> ParseStatus(input["status"]).Some?)
      && DateCasts(input, "nextFollowUp", parseDate)
    ensures r.Success? ==> SchemaValid(r.value)
    ensures r.Success? ==>
      var a := r.value;
      && a.oid == oid && a.version == 0 && a.userId == input["userId"]
      && a.createdAt == now && a.updatedAt == now
      && a.company == Trim(input["company"]) && a.position == Trim(input["position"])
      && a.location == Trim(input["location"])
      && a.appliedDate == DateOf(input, "appliedDate", parseDate)
      && a.status == (if "status" in input then input["status"] else DefaultStatus)
      && a.notes == (if "notes" in input then Trim(input["notes"]) else "")
      && a.nextFollowUp == DateOf(input, "nextFollowUp", parseDate)
  {
    if "userId" !in input || input["userId"] == "" then Failure(Required("userId"))
    else if Blank(input, "company") then Failure(Required("company"))
    else if Blank(input, "position") then Failure(Required("position"))
    else if Blank(input, "location") then Failure(Required("location"))
    else if !DateCasts(input, "appliedDate", parseDate) then Failure(CastFailed("appliedDate", input["appliedDate"]))
    else if DateOf(input, "appliedDate", parseDate).None? then Failure(Required("appliedDate"))
    else if "status" in input && ParseStatus(input["status"]).None? then Failure(NotInEnum("status", input["status"]))
    else if !DateCasts(input, "nextFollowUp", parseDate) then Failure(CastFailed("nextFollowUp", input["nextFollowUp"]))
    else
      var status := if "status" in input then input["status"] else DefaultStatus;
      var notes := if "notes" in input then Trim(input["notes"]) else "";
      Success(Application(oid, 0, input["userId"],
        Trim(input["company"]), Trim(input["position"]), Trim(input["location"]),
        DateOf(input, "appliedDate", parseDate), status, notes,
        TrimmedOf(input, "contactName"), TrimmedOf(input, "contactEmail"),
        DateOf(input, "nextFollowUp", parseDate), TrimmedOf(input, "salary"),
        now, now))
  }

  /**
   * A `userId` in the client's data, such as the gateway's 'default-user',
   * never reaches the document: stamping overrides it, so the save is the
   * same as for data without one, and a saved document belongs to the caller.
   */
  lemma CreateIgnoresClientUserId(oid: string, userId: string, data: Fields, now: int, parseDate: DateParser)
    ensures NewApplication(oid, Stamped(data, userId), now, parseDate) ==
            NewApplication(oid, Stamped(data - {"userId"}, userId), now, parseDate)
    ensures NewApplication(oid, Stamped(data, userId), now, parseDate).Success? ==>
            NewApplication(oid, Stamped(data, userId), now, parseDate).value.userId == userId
  {
    assert Stamped(data, userId) == Stamped(data - {"userId"}, userId);
  }

  /**
   * An update as `findOneAndUpdate` casts it: each schema path the client
   * sent, trimmed where the schema says so; `None` for a path not sent.
   * Nothing is validated, so `status` and `userId` are taken as they are.
   */
  datatype Patch = Patch(
    userId: Option<string>, company: Option<string>, position: Option<string>, location: Option<string>,
    appliedDate: Option<Option<int>>, status: Option<string>, notes: Option<string>,
    contactName: Option<string>, contactEmail: Option<string>,
    nextFollowUp: Option<Option<int>>, salary: Option<string>)

  const EmptyPatch: Patch := Patch(None, None, None, None, None, None, None, None, None, None, None)

  /** Casting an update: only a date that does not parse is an error. */
  function CastPatch(data: Fields, parseDate: DateParser): (r: Result<Patch, SchemaError>)
    ensures r.Success? <==> DateCasts(data, "appliedDate", parseDate) && DateCasts(data, "nextFollowUp", parseDate)
    ensures r.Success? ==>
      var p := r.value;
      && p.userId == HeaderValue(data, "userId")
      && p.status == HeaderValue(data, "status")
      && p.company == TrimmedOf(data, "company")
      && p.position == TrimmedOf(data, "position")
      && p.location == TrimmedOf(data, "location")
      && (p.appliedDate.Some? <==> "appliedDate" in data)
      && (p.appliedDate.Some? ==> p.appliedDate.value == DateOf(data, "appliedDate", parseDate))
      && p.notes == TrimmedOf(data, "notes")
      && p.contactName == TrimmedOf(data, "contactName")
      && p.contactEmail == TrimmedOf(data, "contactEmail")
      && p.salary == TrimmedOf(data, "salary")
      && (p.nextFollowUp.Some? <==> "nextFollowUp" in data)
      && (p.nextFollowUp.Some? ==> p.nextFollowUp.value == DateOf(data, "nextFollowUp", parseDate))
  {
    if !DateCasts(data, "appliedDate", parseDate) then Failure(CastFailed("appliedDate", data["appliedDate"]))
    else if !DateCasts(data, "nextFollowUp", parseDate) then Failure(CastFailed("nextFollowUp", data["nextFollowUp"]))
    else
      Success(Patch(
        HeaderValue(data, "userId"),
        TrimmedOf(data, "company"), TrimmedOf(data, "position"), TrimmedOf(data, "location"),
        if "appliedDate" in data then Some(DateOf(data, "appliedDate", parseDate)) else None,
        HeaderValue(data, "status"),
        TrimmedOf(data, "notes"), TrimmedOf(data, "contactName"), TrimmedOf(data, "contactEmail"),
        if "nextFollowUp" in data then Some(DateOf(data, "nextFollowUp", parseDate)) else None,
        TrimmedOf(data, "salary")))
  }

  /** A path the update sent holds the sent value afterwards; a path it did not send holds what it held. */
  predicate SetOrKept<T(==)>(sent: Option<T>, before: T, after: T) {
    (sent.Some? ==> after == sent.value) && (sent.None? ==> after == before)
  }

  /** The same for an optional path, where the sent value is stored as present. */
  predicate SetOrKeptOpt<T(==)>(sent: Option<T>, before: Option<T>, after: Option<T>) {
    (sent.Some? ==> after == sent) && (sent.None? ==> after == before)
  }

  /** `Some` replaces, `None` keeps. */
  function Override<T>(o: Option<T>, current: T): (r: T)
    ensures o.Some? ==> r == o.value
    ensures o.None? ==> r == current
  {
    if o.Some? then o.value else current
  }

  /**
   * The document after `{ $set: patch }` with timestamps: every path in the
   * patch replaced, `updatedAt` refreshed, the id, version and `createdAt`
   * kept.
   */
  function Apply(a: Application, p: Patch, now: int): (b: Application)
    ensures b.oid == a.oid && b.version == a.version && b.createdAt == a.createdAt
    ensures b.updatedAt == now
    ensures SetOrKept(p.userId, a.userId, b.userId)
    ensures SetOrKept(p.company, a.company, b.company)
    ensures SetOrKept(p.position, a.position, b.position)
    ensures SetOrKept(p.location, a.location, b.location)
    ensures SetOrKept(p.appliedDate, a.appliedDate, b.appliedDate)
    ensures SetOrKept(p.status, a.status, b.status)
    ensures SetOrKept(p.notes, a.notes, b.notes)
    ensures SetOrKeptOpt(p.contactName, a.contactName, b.contactName)
    ensures SetOrKeptOpt(p.contactEmail, a.contactEmail, b.contactEmail)
    ensures SetOrKept(p.nextFollowUp, a.nextFollowUp, b.nextFollowUp)
    ensures SetOrKeptOpt(p.salary, a.salary, b.salary)
  {
    Application(a.oid, a.version, Override(p.userId, a.userId),
      Override(p.company, a.company), Override(p.position, a.position), Override(p.location, a.location),
      Override(p.appliedDate, a.appliedDate), Override(p.status, a.status), Override(p.notes, a.notes),
      if p.contactName.Some? then p.contactName else a.contactName,
      if p.contactEmail.Some? then p.contactEmail else a.contactEmail,
      Override(p.nextFollowUp, a.nextFollowUp),
      if p.salary.Some? then p.salary else a.salary,
      a.createdAt, now)
  }

  /**
   * What an accepted update stores, path by path: a string path the client
   * sent is replaced by its trimmed value (`userId` and `status` as sent), a
   * date path by its cast value, and every path not sent keeps what was stored.
   */
  lemma UpdateStores(a: Application, data: Fields, now: int, parseDate: DateParser)
    ensures CastPatch(data, parseDate).Success? ==>
      var b := Apply(a, CastPatch(data, parseDate).value, now);
      && b.oid == a.oid && b.version == a.version && b.createdAt == a.createdAt && b.updatedAt == now
      && b.userId == (if "userId" in data then data["userId"] else a.userId)
      && b.status == (if "status" in data then data["status"] else a.status)
      && b.company == (if "company" in data then Trim(data["company"]) else a.company)
      && b.position == (if "position" in data then Trim(data["position"]) else a.position)
      && b.location == (if "location" in data then Trim(data["location"]) else a.location)
      && b.notes == (if "notes" in data then Trim(data["notes"]) else a.notes)
      && b.contactName == (if "contactName" in data then Some(Trim(data["contactName"])) else a.contactName)
      && b.contactEmail == (if "contactEmail" in data then Some(Trim(data["contactEmail"])) else a.contactEmail)
      && b.salary == (if "salary" in data then Some(Trim(data["salary"])) else a.salary)
      && b.appliedDate == (if "appliedDate" in data then DateOf(data, "appliedDate", parseDate) else a.appliedDate)
      && b.nextFollowUp == (if "nextFollowUp" in data then DateOf(data, "nextFollowUp", parseDate) else a.nextFollowUp)
  {
  }

  /** An update keeps its owner exactly when it carries no `userId`, or the same one. */
  lemma ApplyKeepsOwnerIff(a: Application, p: Patch, now: int)
    ensures Apply(a, p, now).userId == a.userId <==> p.userId.None? || p.userId.value == a.userId
  {
  }

  /** An update that sends nothing only refreshes `updatedAt`. */
  lemma ApplyEmpty(a: Application, now: int)
    ensures Apply(a, EmptyPatch, now) == a.(updatedAt := now)
  {
  }

  /** Sending the same update twice is sending it once (up to the time stamp). */
  lemma ApplyIdempotent(a: Application, p: Patch, t1: int, t2: int)
    ensures Apply(Apply(a, p, t1), p, t2) == Apply(a, p, t2)
  {
  }

  /**
   * Updates bypass validation: a valid document updated with a status
   * outside the enum, or with a blank company, is stored and is no longer
   * valid.
   */
  lemma UpdateBypassesValidation(a: Application, now: int)
    requires SchemaValid(a)
    ensures !SchemaValid(Apply(a, EmptyPatch.(status := Some("ARCHIVED")), now))
    ensures !SchemaValid(Apply(a, EmptyPatch.(company := Some("")), now))
  {
  }

  /** A JSON member holding an optional string, left out when absent. */
  function OptStr(j: JsonObject, key: string, v: Option<string>): (r: JsonObject)
    ensures r.Keys == if v.Some? then j.Keys + {key} else j.Keys
    ensures v.Some? ==> r[key] == JStr(v.value)
    ensures forall k :: k in j && k != key ==> r[k] == j[k]
  {
    if v.Some? then j[key := JStr(v.value)] else j
  }

  /** A JSON member holding an optional date, left out when absent. */
  function OptTime(j: JsonObject, key: string, v: Option<int>): (r: JsonObject)
    ensures r.Keys == if v.Some? then j.Keys + {key} else j.Keys
    ensures v.Some? ==> r[key] == JTime(v.value)
    ensures forall k :: k in j && k != key ==> r[k] == j[k]
  {
    if v.Some? then j[key := JTime(v.value)] else j
  }

  /** The members `toJSON` always writes, one per required path plus the renamed id and the timestamps. */
  function CoreJson(a: Application): (j: JsonObject)
    ensures "_id" !in j && "__v" !in j
    ensures "contactName" !in j && "contactEmail" !in j && "salary" !in j && "nextFollowUp" !in j
    ensures "id" in j && "userId" in j && "company" in j && "position" in j && "location" in j
    ensures "appliedDate" in j && "status" in j && "notes" in j && "createdAt" in j && "updatedAt" in j
    ensures j["id"] == JStr(a.oid) && j["userId"] == JStr(a.userId)
    ensures j["company"] == JStr(a.company) && j["position"] == JStr(a.position)
    ensures j["location"] == JStr(a.location)
    ensures j["appliedDate"] == if a.appliedDate.Some? then JTime(a.appliedDate.value) else JNull
    ensures j["status"] == JStr(a.status) && j["notes"] == JStr(a.notes)
    ensures j["createdAt"] == JTime(a.createdAt) && j["updatedAt"] == JTime(a.updatedAt)
  {
    map[
      "id" := JStr(a.oid), "userId" := JStr(a.userId),
      "company" := JStr(a.company), "position" := JStr(a.position), "location" := JStr(a.location),
      "appliedDate" := (if a.appliedDate.Some? then JTime(a.appliedDate.value) else JNull),
      "status" := JStr(a.status), "notes" := JStr(a.notes),
      "createdAt" := JTime(a.createdAt), "updatedAt" := JTime(a.updatedAt)]
  }

  /** The members for the optional paths, each present exactly when the document has that path. */
  function OptionalJson(a: Application): (j: JsonObject)
    ensures "_id" !in j && "__v" !in j
    ensures ("contactName" in j <==> a.contactName.Some?) && ("contactEmail" in j <==> a.contactEmail.Some?)
    ensures ("salary" in j <==> a.salary.Some?) && ("nextFollowUp" in j <==> a.nextFollowUp.Some?)
    ensures a.contactName.Some? ==> j["contactName"] == JStr(a.contactName.value)
    ensures a.contactEmail.Some? ==> j["contactEmail"] == JStr(a.contactEmail.value)
    ensures a.salary.Some? ==> j["salary"] == JStr(a.salary.value)
    ensures a.nextFollowUp.Some? ==> j["nextFollowUp"] == JTime(a.nextFollowUp.value)
  {
    var j1 := OptStr(map[], "contactName", a.contactName);
    var j2 := OptStr(j1, "contactEmail", a.contactEmail);
    var j3 := OptStr(j2, "salary", a.salary);
    OptTime(j3, "nextFollowUp", a.nextFollowUp)
  }

  /**
   * `toJSON`: `_id` renamed to `id`, `__v` dropped, an absent optional path
   * left out, a `null` date written as `null`.
   */
  function ToJson(a: Application): (j: JsonObject)
    ensures "_id" !in j && "__v" !in j
    ensures forall k :: k in CoreJson(a) ==> k in j && j[k] == CoreJson(a)[k]
    ensures ("contactName" in j <==> a.contactName.Some?) && ("contactEmail" in j <==> a.contactEmail.Some?)
    ensures ("salary" in j <==> a.salary.Some?) && ("nextFollowUp" in j <==> a.nextFollowUp.Some?)
    ensures a.contactName.Some? ==> j["contactName"] == JStr(a.contactName.value)
    ensures a.contactEmail.Some? ==> j["contactEmail"] == JStr(a.contactEmail.value)
    ensures a.salary.Some? ==> j["salary"] == JStr(a.salary.value)
    ensures a.nextFollowUp.Some? ==> j["nextFollowUp"] == JTime(a.nextFollowUp.value)
  {
    OptionalJson(a) + CoreJson(a)
  }

  function StrAt(j: JsonObject, key: string): Option<string> {
    if key in j && j[key].JStr? then Some(j[key].s) else None
  }

  function TimeAt(j: JsonObject, key: string): Option<int> {
    if key in j && j[key].JTime? then Some(j[key].ms) else None
  }

  /** Reading a serialised document back; the version is not in the JSON, so it is supplied. */
  function FromJson(j: JsonObject, version: nat): Option<Application> {
    if StrAt(j, "id").None? || StrAt(j, "userId").None? || StrAt(j, "company").None?
       || StrAt(j, "position").None? || StrAt(j, "location").None? || StrAt(j, "status").None?
       || StrAt(j, "notes").None? || TimeAt(j, "createdAt").None? || TimeAt(j, "updatedAt").None?
       || "appliedDate" !in j
    then None
    else
      Some(Application(StrAt(j, "id").value, version, StrAt(j, "userId").value,
        StrAt(j, "company").value, StrAt(j, "position").value, StrAt(j, "location").value,
        TimeAt(j, "appliedDate"), StrAt(j, "status").value, StrAt(j, "notes").value,
        StrAt(j, "contactName"), StrAt(j, "contactEmail"), TimeAt(j, "nextFollowUp"), StrAt(j, "salary"),
        TimeAt(j, "createdAt").value, TimeAt(j, "updatedAt").value))
  }

  /** Serialising loses nothing but the version. */
  lemma JsonRoundTrip(a: Application)
    ensures FromJson(ToJson(a), a.version) == Some(a)
  {
  }
}
