# Cost manager: users, costs and per-user totals

A model of the core of a small personal-finance HTTP API built on Express
and Mongoose. Users register once under a unique numeric id; costs
(description, category, owning user id, amount, date) are recorded one at a
time; a user's details are served together with the total of all their
costs. The model keeps the two MongoDB collections as a class `Api.Store`
holding `users: seq<User>` and `costs: seq<Cost>`, and models the three
handlers as its methods:

- `GetUser` — `GET /api/users/:id`: a read-only lookup (`findOne`) followed
  by the `$match`/`$group` sum over the costs, both as loops proved against
  the functions `Lookup`, `Match` and `GroupSum`; 404 "User not found" for an
  unknown id, otherwise the stored names and id with a total that defaults
  to 0.
- `Register` — `POST /api/users`: the duplicate check, schema validation and
  the append of one user; 400 "User already exists" for a taken id, 201 with
  the stored user otherwise, 500 with the error when validation or the write
  fails.
- `AddCost` — `POST /api/add`: the date-resolution rule (`ResolveDate`: a
  given `created_at`, else noon UTC of `year`/`month`/`day` when all three are
  truthy, else the clock), schema validation and the append of one cost; 500
  with the error when validation or the write fails. The users are never
  consulted.

Each state-changing method is proved against a function of the old
collection (`UserRoute.Registration`, `CostRoute.Recording`) whose
properties are stated as lemmas. The schemas (`CostSchema`, `UserSchema`)
are validators from a draft document, where any path may be absent, to a
stored record or the list of failing paths. `Api.UserApiScenario` is a
client that replays the user and cost tests: id 123123 registered, the gym
membership recorded, 200 with total 50 for 123123 and 404 for 999999.

Modelling choices:

- Mongoose's `required` on a String path accepts only a non-empty string; on
  a Number path, any number. A path contributes at most one error:
  `required` is checked before `enum`. The error message that the handlers
  echo is kept as the model name and the list of path errors
  (`Http.ValidationFailed`), not as formatted text.
- Dates are abstract: `FromTimestamp(text)` for `new Date(created_at)`,
  `UtcNoon(year, month, day)` with the 1-based month the caller sent (the
  source subtracts 1 only because `Date.UTC` takes a 0-based month), and
  `Now(instant)`, where the clock reading is a parameter `now`.
- The storage's refusal of a valid write is a parameter `fault`.
- Amounts and totals are integers.
- A registration request without an `id` is taken to match no stored user
  in the duplicate check, so it ends in the schema's "id is required" error
  (500). Either way nothing is stored.

What the cost handler does not do: `POST /api/add` never looks up the user
(an unknown `userid` is stored like any other, there is no 404), takes no
`time` field, accepts a full `created_at` timestamp, answers a validation
failure with 500 rather than 400, and maintains no monthly aggregate.

## Model

| member | source | states |
|---|---|---|
| CostSchema.CheckCategory | models/cost.js:22-26 | the category path passes exactly when it is present, non-empty and one of the five enumerated values |
| CostSchema.Errors | models/cost.js:7-50 | the error list is empty exactly when description and category are non-empty text, category is in the enumeration and userid and sum are present; each required path is reported exactly when it is missing, and a foreign category exactly when it is outside the enumeration |
| CostSchema.Validate | models/cost.js:7-50 | validation succeeds exactly when there are no errors; a success is a valid entry carrying the draft's fields, dated by the draft or, when it has none, by the clock (`default: Date.now`); a failure carries the whole error list |
| CostSchema.ValidateDraft | models/cost.js:7-50 | a stored entry passes validation unchanged exactly when it satisfies the schema |
| CostSchema.ForeignCategoryRefused | models/cost.js:22-26 | any category outside the enumeration makes validation fail |
| UserSchema.Errors | models/user.js:7-46 | the error list is empty exactly when id is present and the four text paths are non-empty; each required path is reported exactly when it is missing |
| UserSchema.Validate | models/user.js:7-46 | validation succeeds exactly when there are no errors, and then yields a valid user holding the draft's fields verbatim |
| UserSchema.ValidateDraft | models/user.js:7-46 | a stored user passes validation unchanged exactly when it satisfies the schema |
| CostRoute.ResolveDate | routes/cost.js:23-34 | the date comes from `created_at` exactly when it is given; it is noon UTC of the given year, month and day exactly when `created_at` is not given and all three are non-zero; otherwise it is the clock reading |
| CostRoute.CreatedAtOverridesParts | routes/cost.js:24-26 | with `created_at` given, changing year, month or day does not change the date |
| CostRoute.PartialPartsIgnored | routes/cost.js:27-34 | a partial year/month/day gives the same date as none at all, never a mix with defaults |
| CostRoute.RecordingSuccess | routes/cost.js:37-49 | the call answers 200 exactly when the document passes the schema and the write succeeds; it then appends exactly one valid entry with the request's fields and resolved date, and echoes it |
| CostRoute.RecordingFailure | routes/cost.js:46-53 | any other outcome answers 500 and leaves the costs unchanged; a validation failure reports the schema's errors and a refused write reports the storage's message |
| CostRoute.ForeignCategoryNotStored | routes/cost.js:37-53 | a category outside the enumeration is answered with 500 and nothing is stored |
| CostRoute.RecordingKeepsValid | routes/cost.js:37-46 | every stored cost satisfies the schema after a call if it did before |
| CostRoute.GymMembership | tests/cost.test.js:17-35 | the test's request is answered with 200 echoing "Gym Membership", "sport", 123123 and 50, dated noon UTC on 2025-02-01, and appends that entry |
| UserRoute.Lookup | routes/user.js:18 | the lookup yields a stored user with the requested id, and yields nothing exactly when no stored user has that id |
| UserRoute.LookupUnique | models/user.js:15 | with pairwise distinct ids, the lookup of a stored user's id yields that user |
| UserRoute.Match | routes/user.js:24-25 | a cost is in the match exactly when it is stored and belongs to the requested user |
| UserRoute.MatchCounts | routes/user.js:24-25 | the match holds each of the user's costs as many times as it is stored, and no cost of another user |
| UserRoute.TotalAppend | routes/user.js:24-27 | the total over two parts of the cost collection is the sum of the parts' totals |
| UserRoute.TotalWithoutCosts | routes/user.js:29-30 | a user with no costs has total 0 |
| UserRoute.TotalAfterAppend | routes/user.js:24-27 | appending a cost raises its owner's total by its sum and leaves other users' totals unchanged |
| UserRoute.DetailsOfStoredUser | routes/user.js:33-38 | a stored user's id is answered with 200, the stored first name, last name and id unchanged, and the sum of their costs |
| UserRoute.DetailsOfUnknownId | routes/user.js:18-21 | an id no stored user holds is answered with 404 "User not found" |
| UserRoute.DetailsWithoutCosts | routes/user.js:29-38 | a stored user without costs is answered with total 0, never an absent total |
| UserRoute.RegistrationOfTakenId | routes/user.js:63-67 | an id already stored is answered with 400 "User already exists" and the users are unchanged |
| UserRoute.RegistrationOfFreshId | routes/user.js:69-76 | a fresh id with a complete document and a working store adds exactly one user holding the request's fields and answers 201 with it |
| UserRoute.RegistrationFailure | routes/user.js:59-81 | the call answers 201 exactly when the id is free, the document passes the schema and the write succeeds; otherwise it answers 400 or 500 and stores nothing |
| UserRoute.RegistrationKeepsIdsDistinct | routes/user.js:63-76 | registration keeps the stored ids pairwise distinct and every stored user valid |
| UserRoute.RegisteringTwiceConflicts | routes/user.js:63-67 | registering the same id again after a success is answered with 400 and changes nothing |
| Api.Store.FindUser | routes/user.js:18 | the scan returns the first stored user with the id, and nothing when none has it |
| Api.Store.AggregateTotal | routes/user.js:24-27 | the aggregation yields no row when no cost matches, otherwise one row holding the user's total |
| Api.Store.GetUser | routes/user.js:13-44 | the response is 404 exactly when no stored user has the id; otherwise it is the stored user's details with the total, defaulting to 0; neither collection changes |
| Api.Store.Register | routes/user.js:59-81 | the response and new user collection are those of the registration rule on the old one; ids stay distinct and the costs are untouched |
| Api.Store.AddCost | routes/cost.js:19-54 | the response and new cost collection are those of the recording rule on the old one; the users are untouched |
| Api.RecordingRaisesTotal | routes/cost.js:37-46 | a recorded cost raises its owner's total by its sum, whether or not the owner is registered; a failed call and other users' totals are unaffected |
| Api.TwoCostsTotal | routes/user.js:24-38 | a user with no costs who then records 10 and 20 is answered with total 30 |

## Left out

- Process plumbing: the Express app, body parsing, the MongoDB connection, environment loading and the listening port (app.js).
- The static team endpoint (routes/about.js) and the monthly report schema (models/monthlyReport.js), which no modelled route uses; the report endpoint its test targets has no route.
- `Api.Store.GetUser`: does not model the generic 500 branch for a failing lookup or aggregation, since the in-memory collections cannot fail.
- `Number(req.params.id)` coercion and NaN: the id is taken as an integer.
- Floating-point amounts: `sum` and `total` are integers.
- Parsing of `created_at` and `birthday` text into dates, and an unparseable date's cast error: dates given as text are kept as text.
- `Date.UTC`'s millisecond arithmetic and its carrying of out-of-range months and days into the next unit: `UtcNoon` keeps the given year, month and day.
- Mongoose's casting of request values between types (a numeric string for a Number path, a number for a String path): request fields arrive typed.
- The exact wording of Mongoose's error messages: a validation failure is kept as its model name and list of path errors.
- Concurrent requests and the storage's own serialisation of writes.
