# Job tracker: authentication and ownership pipeline

This project models how the job tracker authenticates a request and scopes it
to one owner. The path runs across four tiers:

- **Browser client.** Its Apollo `authLink` turns the token kept in local
  storage into an `Authorization` header.
- **GraphQL gateway.**
  - Its `context` callback extracts a token from that header.
  - Its CORS middleware answers pre-flight requests.
  - Its resolvers refuse a falsy token before any data-source call.
  - Its REST data sources re-prefix the token for the downstream services.
    When a downstream call fails, they fall back to in-memory mock stores
    (a list of applications; a list of users with a token-to-id map).
- **Job Tracker Service.**
  - A guard verifies the bearer token, or lets any `mock-token-…` through as
    the test user.
  - It writes the identity into `req.body.userId`.
  - A router runs the guard before every route.
  - A controller only reaches documents whose `userId` is the caller's.
- **User Service.**
  - A router has two public routes and one guarded route.
  - A guard has no mock bypass.
  - A controller registers users with a hashed password, logs them in with
    one uniform failure message, and serves a profile without the password.
  - A `User` schema normalises the address (trim, then lower-case) and keeps
    it unique.

How each part is written in Dafny:

- **Pure code is written as functions with lemmas about them.** This covers
  header building, token extraction, resolvers, route tables and schema
  validation.
- **Code that mutates state is written as classes.**
  - Request and response objects that the guards and CORS middleware write.
  - The gateway's module-global mock stores, as `JobApi` and `UserApi`.
  - The services' collections, as `ApplicationStore` and `UserStore`.
- **External primitives are function-valued parameters.**
  - Token signing and verification, password hashing and checking, and date
    parsing.
  - The round trip "a token issued for `id` verifies to `id`" is the
    hypothesis `AuthUtils.Agree`. It is never proved.
- **Remote calls, clocks and store failures are inputs.**
  - A REST call's outcome is an `Outcomes.Outcome`.
  - Clock readings are numbers.
  - A driver failure is a `fault` flag.

The `Pipeline` module composes the tiers:

- Every header value loses its leading and trailing HTTP white space (space,
  tab, CR, LF) when it crosses the wire, as `fetch` normalises header values.
  This applies twice: from the browser to the gateway, and from the gateway
  to the Job Tracker Service.
- A non-empty, space-free stored token that does not end in white space
  reaches the service guard unchanged. One that ends in a tab arrives
  without it.
- Tokens with spaces, with a leading space, made only of white space, or
  already carrying `Bearer ` are mangled, in the ways the code and the
  transport mangle them.
- Every mock session the gateway hands out acts as the single test user.
- Because the data sources fall back on every error, the resolvers' mappings
  keyed on an HTTP status (404 → `null` or "Application not found", 400 →
  duplicate email) can never fire through them. A wrong password for a real
  account is reported as "Failed to login: User not found".

Three behaviours of the code shape what the model proves:

- **Token extraction.** The gateway keeps only the second space-separated
  field of a `Bearer ` header (`split(' ')[1]`). It then re-prefixes that
  field for the services.
- **Mock bypass.** The Job Tracker Service guard lets any `mock-token-…`
  token through without verifying it.
- **Rejection messages.** The guards answer a missing token ("No token
  provided") and a refused one ("Invalid token" / "Invalid or expired
  token") differently.

## Model

| member | source | states |
|---|---|---|
| Http.StripLeading | apps/frontend/src/app/lib/apollo-client.ts:5-11 | the value loses exactly its leading HTTP white space: what is dropped is white space and what is left starts with something else |
| Http.StripTrailing | apps/frontend/src/app/lib/apollo-client.ts:5-11 | the value loses exactly its trailing HTTP white space: it keeps a prefix, drops only white space and ends with something else |
| Http.Transmitted | apps/frontend/src/app/lib/apollo-client.ts:5-11 | a header value crosses the wire without padding at either end, and never grows |
| Http.TransmittedFixed | apps/graphql-api/src/app/datasources/job-api.ts:75 | a value crosses the wire unchanged if and only if it has no padding |
| Http.TransmittedIdempotent | apps/graphql-api/src/app/datasources/job-api.ts:75 | forwarding a received value again changes nothing |
| Http.StripTrailingConcat | apps/frontend/src/app/lib/apollo-client.ts:26 | trailing white space of a concatenation is that of its tail, unless the tail is all white space |
| Http.StripTrailingKeepsOut | apps/frontend/src/app/lib/apollo-client.ts:26 | stripping adds no character, so a space-free token stays space-free |
| ClientAuthLink.AuthLink | apps/frontend/src/app/lib/apollo-client.ts:14-29 | every incoming header is kept; `Authorization` is `Bearer <token>` for a non-empty stored token, and present but empty when there is no token or no `window` |
| Bearer.Header | apps/frontend/src/app/lib/apollo-client.ts:26 | the header starts with `Bearer ` and what follows the prefix is exactly the token |
| Bearer.SecondField | apps/graphql-api/src/main.ts:60 | `split(' ')[1]` of a `Bearer ` header is the text after the prefix up to the next space; it always exists and never contains a space |
| Bearer.SecondFieldOfHeader | apps/job-tracker-service/src/app/middleware/auth.middleware.ts:19 | the token comes back whole from its header if and only if it contains no space |
| Bearer.EmptyAfterPrefix | apps/graphql-api/src/main.ts:60 | `"Bearer "` yields the empty token |
| Bearer.DoubleSpace | apps/graphql-api/src/main.ts:60 | `"Bearer  x"` yields the empty token |
| Bearer.ExtraFieldsDropped | apps/graphql-api/src/main.ts:60 | `"Bearer a b"` yields `a` |
| Text.JoinSplit | apps/graphql-api/src/main.ts:60 | the fields of a split, joined with the separator, give back the string |
| Text.SplitJoin | apps/graphql-api/src/main.ts:60 | splitting a join of separator-free fields gives back the fields |
| Text.ContainsIffOccurs | apps/graphql-api/src/app/resolvers/job-application.resolvers.ts:20 | `includes` holds exactly when the substring occurs at some index |
| Text.TrimIdempotent | apps/job-tracker-service/src/app/schemas/job-application.schema.ts:13 | trimming twice is trimming once |
| Text.TrimEmpty | apps/job-tracker-service/src/app/schemas/job-application.schema.ts:10-14 | a string trims to nothing exactly when it is all white space |
| GatewayMain.ContextToken | apps/graphql-api/src/main.ts:53-77 | the context token is never the empty string: an empty extraction becomes `null` |
| GatewayMain.ClientHeaderRoundTrip | apps/graphql-api/src/main.ts:59-61 | the client's header for a non-empty, space-free token gives that token back |
| GatewayMain.UnprefixedPassThrough | apps/graphql-api/src/main.ts:59-61 | a non-empty header without the prefix is taken whole as the token |
| GatewayMain.MissingHeaderNoToken | apps/graphql-api/src/main.ts:55-76 | a missing or empty header gives a `null` token |
| GatewayMain.EmptyFieldNoToken | apps/graphql-api/src/main.ts:59-76 | `"Bearer "` and `"Bearer  x"` give a `null` token |
| GatewayMain.ExtraFieldsDropped | apps/graphql-api/src/main.ts:59-61 | `"Bearer a b"` gives `a` |
| GatewayMain.ContextTokenNeverPrefixed | apps/graphql-api/src/main.ts:59-61 | the context token never itself starts with `Bearer ` |
| GatewayMain.CorsHeaders | apps/graphql-api/src/main.ts:26-32 | exactly four CORS headers: the origin echoed (else `http://localhost:3000`), `Authorization` among the allowed headers, credentials allowed |
| GatewayMain.Cors | apps/graphql-api/src/main.ts:24-40 | the four headers are added to the response; OPTIONS ends with 204 and does not call `next`; any other method calls `next` and leaves status and body alone |
| JobResolvers.Applications | apps/graphql-api/src/app/resolvers/job-application.resolvers.ts:5-25 | a falsy token is an authentication error; a data-source error mentioning 401 is one too; any other error is "Failed to fetch applications" |
| JobResolvers.Application | apps/graphql-api/src/app/resolvers/job-application.resolvers.ts:26-40 | a falsy token is an authentication error; a downstream 404 resolves to `null`; any other error is "Failed to fetch application" |
| JobResolvers.CreateJobApplication | apps/graphql-api/src/app/resolvers/job-application.resolvers.ts:43-67 | a falsy token or a 401 message is an authentication error; any other error is "Failed to create application: " followed by its message |
| JobResolvers.UpdateArguments | apps/graphql-api/src/app/resolvers/job-application.resolvers.ts:73 | the forwarded fields are every input field except `id` |
| JobResolvers.UpdateJobApplication | apps/graphql-api/src/app/resolvers/job-application.resolvers.ts:68-84 | a falsy token is an authentication error; a downstream 404 and only that is "Application not found"; any other error is "Failed to update application" |
| JobResolvers.DeleteJobApplication | apps/graphql-api/src/app/resolvers/job-application.resolvers.ts:85-100 | `true` on success, "Application not found" on a downstream 404, `false` on any other error, never an internal error |
| JobResolvers.FailFast | apps/graphql-api/src/app/resolvers/job-application.resolvers.ts:5-100 | with a falsy token every resolver's result is independent of the data-source call |
| JobResolvers.Http401Recognised | apps/graphql-api/src/app/resolvers/job-application.resolvers.ts:20 | a REST 401 error is recognised by the `includes('401')` test |
| AuthResolvers.Me | apps/graphql-api/src/app/resolvers/auth.resolvers.ts:5-23 | `null` without a token and for every failure; otherwise the data source's user |
| AuthResolvers.Register | apps/graphql-api/src/app/resolvers/auth.resolvers.ts:26-37 | a downstream 400 and only that is the duplicate-email input error; any other error is "Failed to register user"; no token is read |
| AuthResolvers.Login | apps/graphql-api/src/app/resolvers/auth.resolvers.ts:38-54 | a 401 or the credential message is an authentication error; any other error is "Failed to login: " followed by its message; no token is read |
| JobApiSource.BearerValue | apps/graphql-api/src/app/datasources/job-api.ts:74 | the outgoing value always starts with `Bearer `; a prefixed token is kept and any other is prefixed |
| JobApiSource.BearerValueIdempotent | apps/graphql-api/src/app/datasources/job-api.ts:74 | normalising a normalised value changes nothing |
| JobApiSource.OutgoingAuthorization | apps/graphql-api/src/app/datasources/job-api.ts:68-78 | a header is set if and only if the context token is truthy |
| JobApiSource.FindIndex | apps/graphql-api/src/app/datasources/job-api.ts:155 | the first record with that id, or -1 when none has it |
| JobApiSource.Merge | apps/graphql-api/src/app/datasources/job-api.ts:161-165 | every key of either side; the input's value wins; `updatedAt` is refreshed |
| JobApiSource.JobApi.constructor | apps/graphql-api/src/app/datasources/job-api.ts:57 | the mock list starts as the three seeded applications |
| JobApiSource.JobApi.WillSendRequest | apps/graphql-api/src/app/datasources/job-api.ts:66-79 | with a truthy token only `Authorization` is set, to the normalised value; without one the headers are unchanged |
| JobApiSource.JobApi.GetApplications | apps/graphql-api/src/app/datasources/job-api.ts:82-94 | never fails; any error yields the whole mock list |
| JobApiSource.JobApi.GetApplicationById | apps/graphql-api/src/app/datasources/job-api.ts:97-109 | on error, the first mock record with the id (as `find` returns it), or a status-less not-found error exactly when none has it |
| JobApiSource.JobApi.CreateApplication | apps/graphql-api/src/app/datasources/job-api.ts:112-145 | posts the input with `userId` defaulting to 'default-user'; never falls back; a refused connection gets the fixed message and any other error is passed on |
| JobApiSource.JobApi.UpdateApplication | apps/graphql-api/src/app/datasources/job-api.ts:148-169 | on error only the first matching record changes, to the merge; length and all other records are kept; a missing id throws and changes nothing |
| JobApiSource.JobApi.DeleteApplication | apps/graphql-api/src/app/datasources/job-api.ts:172-188 | on error exactly the first matching record is removed and the order of the rest is kept; a missing id throws and changes nothing |
| UserApiSource.ProfileOf | apps/graphql-api/src/app/datasources/user-api.ts:103-112 | the returned user is every field of the record except the password |
| UserApiSource.MockToken | apps/graphql-api/src/app/datasources/user-api.ts:52 | a mock token starts with `mock-token-`, never with "ey", and has no space |
| UserApiSource.MockUserId | apps/graphql-api/src/app/datasources/user-api.ts:91 | a mock user id is never empty |
| UserApiSource.FindByEmail | apps/graphql-api/src/app/datasources/user-api.ts:41 | the first user with exactly that email, or -1 |
| UserApiSource.FindById | apps/graphql-api/src/app/datasources/user-api.ts:173 | the first user with that id, or -1 |
| UserApiSource.LookupProfile | apps/graphql-api/src/app/datasources/user-api.ts:165-187 | a profile exactly when the token maps to a truthy id held by some user, and then that user's profile |
| UserApiSource.TokenResolvesToItsUser | apps/graphql-api/src/app/datasources/user-api.ts:167-187 | with unique ids, a token mapped to a user's id resolves to that user |
| UserApiSource.AppendKeepsEmailsUnique | apps/graphql-api/src/app/datasources/user-api.ts:84-97 | appending a user with a new email keeps emails unique |
| UserApiSource.AppendKeepsIdsUnique | apps/graphql-api/src/app/datasources/user-api.ts:90-97 | appending a user with a new id keeps ids unique |
| UserApiSource.NewMockUser | apps/graphql-api/src/app/datasources/user-api.ts:90-95 | the new record holds the input's fields, the `user-<clock>` id from its own clock reading, and the two timestamps from two further readings |
| UserApiSource.UserApi.constructor | apps/graphql-api/src/app/datasources/user-api.ts:4-15 | the mock store starts with the one test user, whose two timestamps are separate clock readings, and no tokens |
| UserApiSource.UserApi.Login | apps/graphql-api/src/app/datasources/user-api.ts:28-73 | on error: "User not found" and "Invalid password" record no token; success records the token for the user's id and returns the user without the password; users never change |
| UserApiSource.UserApi.Register | apps/graphql-api/src/app/datasources/user-api.ts:75-115 | on error: a known email throws and changes nothing; otherwise exactly one user is appended and the token, built from its own clock reading, maps to the id built from another; unique emails are preserved |
| UserApiSource.UserApi.GetProfile | apps/graphql-api/src/app/datasources/user-api.ts:118-193 | "ey" tokens take the JWT path; every other token is resolved through the token map; every failure is `null`; nothing changes |
| UserApiSource.LoginTokenResolves | apps/graphql-api/src/app/datasources/user-api.ts:52-53 | the token a mock login records resolves to the user who logged in |
| UserApiSource.RegisterTokenResolves | apps/graphql-api/src/app/datasources/user-api.ts:100-101 | the token a mock registration records resolves to the new user, whatever clock readings the id and the token came from |
| TrackerGuard.Decide | apps/job-tracker-service/src/app/middleware/auth.middleware.ts:7-49 | a missing or unprefixed header is "No token provided"; a `mock-token-` token passes as `test-user-1`; any other token passes exactly when it verifies, with its `userId` |
| TrackerGuard.AuthMiddleware | apps/job-tracker-service/src/app/middleware/auth.middleware.ts:7-49 | `next` is called exactly when the decision passes, and then `req.body.userId` holds the guard's identity whatever the client sent; a refusal writes 401 and its message and leaves the request alone |
| TrackerGuard.MockBypassIgnoresVerifier | apps/job-tracker-service/src/app/middleware/auth.middleware.ts:23-30 | a mock token passes as the test user whatever the verifier says |
| TrackerGuard.IssuedTokenPasses | apps/job-tracker-service/src/app/middleware/auth.middleware.ts:33-40 | an issued, space-free, non-mock token passes with the identity it was issued for |
| TrackerGuard.EmptyTokenVerified | apps/job-tracker-service/src/app/middleware/auth.middleware.ts:19-44 | `"Bearer "` and `"Bearer  x"` hand the empty token to the verifier |
| UserGuard.Decide | apps/user-service/src/app/middleware/auth.middleware.ts:12-48 | a missing or unprefixed header is "No token provided"; every token goes to the verifier; a refusal is "Invalid token" |
| UserGuard.AuthMiddleware | apps/user-service/src/app/middleware/auth.middleware.ts:12-48 | on success both `req.userId` and `req.body.userId` hold the identity before `next`; a refusal writes 401 and leaves the request alone |
| UserGuard.GuardsAgreeOffMock | apps/user-service/src/app/middleware/auth.middleware.ts:25-37 | off mock tokens the two guards pass the same requests with the same identity |
| UserGuard.MockTokenNeedsVerifierHere | apps/user-service/src/app/middleware/auth.middleware.ts:28-37 | a mock token passes the tracker guard always, and this one only if it verifies |
| UserGuard.IssuedTokenPasses | apps/user-service/src/app/middleware/auth.middleware.ts:28-43 | an issued, space-free token passes with the identity it was issued for |
| TrackerRoutes.IdParam | apps/job-tracker-service/src/app/routes/job-application.routes.ts:18 | `:id` is one non-empty segment without a slash, with an optional trailing slash |
| TrackerRoutes.IdParamOf | apps/job-tracker-service/src/app/routes/job-application.routes.ts:18 | every such id is captured back from `/id` and `/id/` |
| TrackerRoutes.Route | apps/job-tracker-service/src/app/routes/job-application.routes.ts:17-21 | `/` takes GET (and HEAD) and POST; `/:id` takes GET, PUT and DELETE with the path id; nothing else matches |
| TrackerRoutes.Handle | apps/job-tracker-service/src/app/routes/job-application.routes.ts:14-21 | a request is refused exactly when the guard refuses; a handler is reached only past the guard, with the guard's identity |
| TrackerRoutes.GuardBeforeRouting | apps/job-tracker-service/src/app/routes/job-application.routes.ts:14 | a refused request gets 401 even when no route would take it |
| UserRoutes.Route | apps/user-service/src/app/routes/auth.routes.ts:8-12 | POST /register, POST /login and GET (and HEAD) /profile, and no other route |
| UserRoutes.Handle | apps/user-service/src/app/routes/auth.routes.ts:7-12 | only the profile route runs the guard; the public routes are reached with no identity |
| UserRoutes.PublicRoutesIgnoreHeaders | apps/user-service/src/app/routes/auth.routes.ts:8-9 | registration and login are reached whatever the headers |
| UserRoutes.CaseInsensitive | apps/user-service/src/app/routes/auth.routes.ts:8-12 | routes match paths without regard to case |
| ApplicationSchema.ParseStatus | apps/job-tracker-service/src/app/schemas/job-application.schema.ts:29-33 | a string names a status exactly when it is one of the five enum names |
| ApplicationSchema.StatusRoundTrip | apps/job-tracker-service/src/app/schemas/job-application.schema.ts:29-33 | every status parses back from its name |
| ApplicationSchema.CastDate | apps/job-tracker-service/src/app/schemas/job-application.schema.ts:25-28 | `''` casts to `null`; other text casts exactly when it parses as a date |
| ApplicationSchema.TrimmedOf | apps/job-tracker-service/src/app/schemas/job-application.schema.ts:39-53 | an optional trimmed path is present exactly when sent, and then trimmed |
| ApplicationSchema.Stamped | apps/job-tracker-service/src/app/controllers/job-application.controller.ts:69-74 | the client's fields with `userId` replaced by the caller's identity |
| ApplicationSchema.NewApplication | apps/job-tracker-service/src/app/schemas/job-application.schema.ts:4-55 | a save succeeds exactly when `userId` is given, company, position and location are non-blank, appliedDate casts to a date, status is in the enum and nextFollowUp casts; the saved document is schema-valid, trimmed, defaulted and stamped |
| ApplicationSchema.CreateIgnoresClientUserId | apps/job-tracker-service/src/app/controllers/job-application.controller.ts:69-74 | a client-sent `userId` never reaches the document; a saved one belongs to the caller |
| ApplicationSchema.CastPatch | apps/job-tracker-service/src/app/controllers/job-application.controller.ts:104-108 | an update casts exactly when its dates do; each sent string path except `status` and `userId` is present and trimmed, each sent date path holds its cast value, and `status` and `userId` are taken unchecked |
| ApplicationSchema.Apply | apps/job-tracker-service/src/app/controllers/job-application.controller.ts:104-108 | an update keeps the id, version and `createdAt` and refreshes `updatedAt`; every path the patch carries is replaced by its value and every other path keeps its stored value |
| ApplicationSchema.UpdateStores | apps/job-tracker-service/src/app/controllers/job-application.controller.ts:104-108 | an accepted update stores, path by path, the trimmed or cast value the client sent, and keeps the stored value of every path it did not send |
| ApplicationSchema.ApplyKeepsOwnerIff | apps/job-tracker-service/src/app/controllers/job-application.controller.ts:106 | an update keeps its owner exactly when it carries no `userId` or the same one |
| ApplicationSchema.ApplyEmpty | apps/job-tracker-service/src/app/controllers/job-application.controller.ts:104-108 | an empty update only refreshes `updatedAt` |
| ApplicationSchema.ApplyIdempotent | apps/job-tracker-service/src/app/controllers/job-application.controller.ts:104-108 | applying an update twice is applying it once |
| ApplicationSchema.UpdateBypassesValidation | apps/job-tracker-service/src/app/controllers/job-application.controller.ts:104-108 | an update can store a status outside the enum or a blank company |
| ApplicationSchema.CoreJson | apps/job-tracker-service/src/app/schemas/job-application.schema.ts:56-62 | the always-present members, with `_id` renamed to `id` and no `__v` |
| ApplicationSchema.OptionalJson | apps/job-tracker-service/src/app/schemas/job-application.schema.ts:39-53 | each optional member is present exactly when the document has that path |
| ApplicationSchema.ToJson | apps/job-tracker-service/src/app/schemas/job-application.schema.ts:56-62 | no `_id` or `__v`; every core member; optional members exactly when set |
| ApplicationSchema.JsonRoundTrip | apps/job-tracker-service/src/app/schemas/job-application.schema.ts:56-62 | reading the JSON back gives the document; only the version is lost |
| ApplicationStore.Owned | apps/job-tracker-service/src/app/controllers/job-application.controller.ts:16 | the `{ userId }` filter: never more documents than the collection holds |
| ApplicationStore.OwnedMembers | apps/job-tracker-service/src/app/controllers/job-application.controller.ts:16 | a document is in the caller's view if and only if it is stored and the caller owns it |
| ApplicationStore.OwnedConcat | apps/job-tracker-service/src/app/controllers/job-application.controller.ts:16 | filtering by owner distributes over concatenation, keeping collection order |
| ApplicationStore.OwnedOther | apps/job-tracker-service/src/app/controllers/job-application.controller.ts:16 | a document owned by someone else contributes nothing to a view |
| ApplicationStore.InsertByDate | apps/job-tracker-service/src/app/controllers/job-application.controller.ts:16 | inserting into a date-sorted list keeps it sorted and adds exactly that document |
| ApplicationStore.SortByDate | apps/job-tracker-service/src/app/controllers/job-application.controller.ts:16 | a permutation of the input, latest `appliedDate` first and `null` last |
| ApplicationStore.FindOwned | apps/job-tracker-service/src/app/controllers/job-application.controller.ts:38 | the first document matching both id and owner, or -1 when none does |
| ApplicationStore.RemoveAt | apps/job-tracker-service/src/app/controllers/job-application.controller.ts:133-136 | the list without that one document, the rest in order |
| ApplicationStore.OwnedReplaceOther | apps/job-tracker-service/src/app/controllers/job-application.controller.ts:104-108 | replacing a document owned by neither side leaves another user's view unchanged |
| ApplicationStore.OwnedRemoveOther | apps/job-tracker-service/src/app/controllers/job-application.controller.ts:133-136 | removing another user's document leaves this user's view unchanged |
| ApplicationStore.OwnedAppendOther | apps/job-tracker-service/src/app/controllers/job-application.controller.ts:78 | appending another user's document leaves this user's view unchanged |
| ApplicationStore.ApplicationStore.GetAll | apps/job-tracker-service/src/app/controllers/job-application.controller.ts:6-24 | 401 without an identity, 500 on a store error, otherwise 200 with exactly the caller's documents sorted by date |
| ApplicationStore.ApplicationStore.GetById | apps/job-tracker-service/src/app/controllers/job-application.controller.ts:27-51 | 401 without an identity and 500 on a store error; otherwise 200 with the first document matching id and owner whenever one exists, and 404 exactly when none does; with unique `_id`s the 200 document is the only one carrying that id |
| ApplicationStore.ApplicationStore.Create | apps/job-tracker-service/src/app/controllers/job-application.controller.ts:54-90 | 401 with the store unchanged; a valid save appends one document owned by the caller and answers 201; a rejected save answers 500 with its error and stores nothing; other users' views are unchanged |
| ApplicationStore.ApplicationStore.Update | apps/job-tracker-service/src/app/controllers/job-application.controller.ts:93-120 | only the document matching id and caller changes, to the applied update; no match is 404 with nothing changed; other users' views are unchanged when no `userId` is sent |
| ApplicationStore.ApplicationStore.Delete | apps/job-tracker-service/src/app/controllers/job-application.controller.ts:123-148 | only the document matching id and caller is removed; no match is 404 with nothing changed; other users' views are unchanged |
| UserSchema.NormaliseEmail | apps/user-service/src/app/schemas/user.schema.ts:6-12 | a stored address is trimmed and lower-case |
| UserSchema.NormaliseIdempotent | apps/user-service/src/app/schemas/user.schema.ts:10-11 | normalising a normalised address changes nothing, so storing and looking up agree |
| UserSchema.NormaliseIgnoresCase | apps/user-service/src/app/schemas/user.schema.ts:10-11 | addresses that differ only in case or surrounding white space are one address |
| UserSchema.LowerTrimCommute | apps/user-service/src/app/schemas/user.schema.ts:10-11 | lower-casing and trimming commute |
| UserSchema.NewUser | apps/user-service/src/app/schemas/user.schema.ts:5-26 | a user is saved exactly when every required path is given and non-blank; the saved user is valid, normalised and trimmed |
| UserSchema.UserJson | apps/user-service/src/app/schemas/user.schema.ts:28-36 | no `password`, `_id` or `__v`; `_id` is renamed to `id` |
| UserSchema.UserJsonHidesHash | apps/user-service/src/app/schemas/user.schema.ts:33 | no value in the serialised user is the hash |
| UserSchema.SavedHashAccepts | apps/user-service/src/app/schemas/user.schema.ts:40-42 | a saved user accepts the password it was created with, given the hash/check round trip |
| UserStore.FindAddress | apps/user-service/src/app/controllers/auth.controller.ts:11 | the first user holding exactly that address, or -1 when nobody holds it |
| UserStore.FindByEmail | apps/user-service/src/app/controllers/auth.controller.ts:11 | the first user holding the normalised address, or -1; an absent address matches nobody |
| UserStore.FindById | apps/user-service/src/app/controllers/auth.controller.ts:95 | a user with that id, or -1 when none has it |
| UserStore.ProfileId | apps/user-service/src/app/controllers/auth.controller.ts:85 | `req.userId` when truthy, else `req.body.userId` |
| UserStore.FindByEmailUnique | apps/user-service/src/app/schemas/user.schema.ts:9 | with unique addresses, the lookup lands on the one holder of the address |
| UserStore.FindAppended | apps/user-service/src/app/controllers/auth.controller.ts:21-26 | a user appended with a fresh address is found by any spelling that normalises to it |
| UserStore.AppendKeepsUnique | apps/user-service/src/app/schemas/user.schema.ts:5-26 | a user with a fresh id and a fresh address keeps both the id and the unique email index duplicate-free |
| UserStore.RegisterAppends | apps/user-service/src/app/controllers/auth.controller.ts:21-26 | a registration keeps the collection consistent and its user is found under its address |
| UserStore.UserStore.Register | apps/user-service/src/app/controllers/auth.controller.ts:6-44 | a taken address is 400 with nothing stored; otherwise the hash is stored with the normalised address and the answer is 201 with a token for the new id and no password; a failure stores nothing |
| UserStore.UserStore.Login | apps/user-service/src/app/controllers/auth.controller.ts:46-80 | an unknown address and a wrong password give the identical 401; a 200 carries a token for a user whose address matches and whose password check passes |
| UserStore.UserStore.GetProfile | apps/user-service/src/app/controllers/auth.controller.ts:82-113 | no identity is 401; an unknown one is 404; a known one gets its id, email and names only |
| Pipeline.Forwarded | apps/graphql-api/src/app/datasources/job-api.ts:69-75 | the header the service receives is present exactly when the gateway extracted a token; it then starts with the word "Bearer" and carries no padding |
| Pipeline.ClientHeader | apps/frontend/src/app/lib/apollo-client.ts:5-11 | the header the gateway reads from the browser is always present and unpadded, and empty exactly when no token is stored |
| Pipeline.ClientHeaderOf | apps/frontend/src/app/lib/apollo-client.ts:24-27 | a stored token is sent as `Bearer <token>` and read after transit |
| Pipeline.HeaderInTransit | apps/frontend/src/app/lib/apollo-client.ts:26 | `Bearer <t>` arrives as `Bearer ` followed by `t` without its trailing white space, or as the bare word "Bearer" when `t` is all white space |
| Pipeline.BearerWordArrives | apps/frontend/src/app/lib/apollo-client.ts:26 | whatever the token, the header that arrives starts with "Bearer" |
| Pipeline.ForwardsToken | apps/graphql-api/src/app/datasources/job-api.ts:69-75 | a context token that does not end in white space reaches the service as exactly `Bearer <token>` |
| Pipeline.GatewayReadsStripped | apps/graphql-api/src/main.ts:55-61 | the gateway reads a space-free stored token without its trailing white space |
| Pipeline.TrailingSpaceDropped | apps/graphql-api/src/main.ts:55-61 | a space-free stored token ending in, say, a tab reaches the service without that trailing white space |
| Pipeline.BlankTokenBecomesBearer | apps/graphql-api/src/main.ts:59-61 | a stored token of white space only arrives as "Bearer", which the gateway takes as the token, so the guard is handed "Bearer" |
| Pipeline.DoubleHeaderInTransit | apps/frontend/src/app/lib/apollo-client.ts:26 | re-prefixing commutes with transit for a header that already carries the prefix |
| Pipeline.MangledToken | apps/graphql-api/src/main.ts:59-61 | a doubly prefixed header, after transit, gives the gateway the token "Bearer" |
| Pipeline.StoredTokenReachesGuard | apps/job-tracker-service/src/app/middleware/auth.middleware.ts:13-19 | a non-empty, space-free stored token that does not end in white space reaches the service guard unchanged |
| Pipeline.NoTokenFailsAtGateway | apps/frontend/src/app/lib/apollo-client.ts:16-26 | with no stored token the client sends an empty header, nothing is forwarded and the resolvers refuse or return `null` |
| Pipeline.SpacedTokenTruncated | apps/graphql-api/src/main.ts:60 | a stored token with a space is cut at its first space, whatever follows; the part kept must not end in other white space |
| Pipeline.LeadingSpaceLost | apps/graphql-api/src/main.ts:59-76 | a stored token that is a space followed by something other than white space is lost entirely: nothing is forwarded |
| Pipeline.PrefixedTokenMangled | apps/graphql-api/src/main.ts:59-61 | a stored token that already carries `Bearer ` reaches the guard as the word "Bearer" |
| Pipeline.IssuedTokenIdentity | apps/job-tracker-service/src/app/middleware/auth.middleware.ts:33-40 | a space-free token issued for `id` that does not end in white space brings `id` through the gateway into the service request |
| Pipeline.MockSessionsShareOneOwner | apps/job-tracker-service/src/app/middleware/auth.middleware.ts:23-30 | every mock session token acts as the one test user at the service |
| Pipeline.GatewayCreateOwnedByCaller | apps/graphql-api/src/app/datasources/job-api.ts:120-124 | the gateway's 'default-user' default does not change the document the service saves |
| Pipeline.StatusMappingsUnreachable | apps/graphql-api/src/app/datasources/job-api.ts:101-107 | status-less fallback errors never produce `null`, "Application not found" or the duplicate-email error |
| Pipeline.RealLoginFailureMisreported | apps/graphql-api/src/app/datasources/user-api.ts:37-46 | a failed real login that falls back to the mock store is reported as "Failed to login: User not found" |
| Pipeline.RegisteredTokenReachesProfile | apps/user-service/src/app/routes/auth.routes.ts:12 | a non-empty, space-free token issued at registration that does not end in white space, sent as `Bearer <token>` and read after transit, reaches the profile handler with the new user's id |

## Left out

- Token signing, expiry and salted hashing are not modelled; the primitives are parameters. libs/shared-utils/src/lib/auth.utils.ts collapses every verification error into one failure, and so does the `Verifier` type.
- The real REST calls, the MongoDB driver and its queries are not modelled. Their outcomes are inputs: an `Outcome` for a REST call, a `fault` flag for a store error.
- An `_id` that is not an ObjectId makes a query fail. That failure is folded into `fault`.
- Fresh `_id`s are a precondition of `Create` and `Register`, because the database generates them.
- The unique index's race between two concurrent registrations is not modelled; the store is sequential.
- Concurrent requests interleaving over the gateway's module-global mock stores are not modelled.
- Mock tokens and mock user ids can collide within one millisecond; the clock is a parameter.
- UserApiSource.UserApi.Register: keeps emails unique but does not promise unique ids, because `user-<clock>` can repeat within one millisecond.
- UserApiSource.UserApi.Register: the four clock readings are independent inputs. The model does not promise that they are taken in order (id, createdAt, updatedAt, token).
- Header values containing CR, LF or NUL inside them make `fetch` throw. This is not modelled; the model only strips white space at the ends.
- UserApiSource.UserApi.GetProfile: the JWT path (the REST call and the direct `fetch` fallback at apps/graphql-api/src/app/datasources/user-api.ts:125-163) is one `jwtProfile` input.
- ApplicationSchema.NewApplication: reports only the first failing path in schema order. Mongoose collects every failing path into one message.
- ApplicationSchema.NewApplication: does not distinguish an explicit `null` for an optional date from an absent one. Both are `None`.
- Fields the schema does not know are dropped from a saved document.
- An `_id` inside client update data is not modelled.
- The guards' outer `catch` (401 "Invalid or expired token") is not modelled. With `express.json()` in front, nothing left in the guard body can throw once the token has been split.
- URL decoding of route parameters and Express's other route-matching options are not modelled.
- OPTIONS and HEAD are handled only as far as the CORS middleware and the GET routes do.
- Logging, health-check routes, service start-up, the React client beyond `authLink`, and deployment configuration are not part of this model.
- Full Unicode case mapping is not modelled. `toLowerCase` is modelled on ASCII letters and `trim` on ASCII and Latin-1 white space.
