# Disaster-area and volunteer-registration routes, modelled in Dafny

This project models the request-handling layer of the shovel-heroes backend.
It covers two route modules.

- **Disaster areas** (`packages/backend/src/routes/disaster-areas.ts`). The
  create and update payload schemas become explicit predicates over a JSON
  body. The five handlers (list, create, get, update, delete) become pure
  functions. Each takes the request and the outcome the repository gives, and
  returns the repository calls it made plus either a reply (status and body)
  or an error that propagates.
- **Volunteer registrations** (`packages/backend/src/routes/volunteer-registrations.ts`).
  The three handlers become methods of a class `RegistrationTable`. The class
  holds the `volunteer_registrations` table as a map from id to row, and
  `dbReady` says whether the database is attached. Each method takes the
  authentication gate's verdict as a boolean.

Files:

- `js.dfy` (module `Js`): JSON request bodies, `Option`/`Result`, and
  `String.prototype.includes` with a reference definition ("occurs at some
  position").
- `schema.dfy` (module `Schema`): the part of zod the routes use. An object
  shape is a list of field specs. `.partial()` clears the required flags.
  `safeParse` either accepts or returns the offending field names. Unknown
  keys are ignored.
- `http.dfy` (module `Http`): the reply shape.
- `disaster_areas.dfy` (module `DisasterAreas`): schemas, parsing, round
  trips and the five handlers.
- `volunteer_registrations.dfy` (module `VolunteerRegistrations`): the
  registration schema and the `RegistrationTable` class.

Two points about what the code does and does not decide:

- Registration references are accepted whenever they are strings, the empty
  string included: the registration schema
  (`packages/backend/src/routes/volunteer-registrations.ts:6`) declares both
  references as strings with no minimum length.
- The partial-update builder and its field whitelist live in
  `modules/disaster-areas/repo.js`, imported at
  `packages/backend/src/routes/disaster-areas.ts:2`. That file is not part of
  this model, so nothing here says which columns an update changes. The
  route layer sees only the repository's outcome.

## Model

| member | source | states |
|---|---|---|
| `Js.Includes` | packages/backend/src/routes/disaster-areas.ts:50 | `err.message.includes(...)`: scans the start positions of the message from left to right and answers whether the pattern starts at one of them |
| `Js.IncludesIffOccurs` | packages/backend/src/routes/disaster-areas.ts:50 | `includes` is true exactly when the pattern occurs at some position of the message |
| `Schema.Conforms` | packages/backend/src/routes/disaster-areas.ts:26-27 | `safeParse(...).success`: the body is an object, every present field of the shape passes its rule, and every required field is present; other keys are ignored |
| `Schema.Partial` | packages/backend/src/routes/disaster-areas.ts:18 | `.partial()` keeps every field with its key and rule and makes none of them required |
| `Schema.IssuesIn` | packages/backend/src/routes/disaster-areas.ts:28 | a field name is reported exactly when that field is present and breaks its rule, or is required and missing |
| `Schema.Check` | packages/backend/src/routes/disaster-areas.ts:26-27 | the issue list is empty exactly when the body is an object that the shape accepts |
| `Schema.PartialIsWeaker` | packages/backend/src/routes/disaster-areas.ts:18 | whatever the full shape accepts, the partial shape accepts too; the partial shape accepts the empty object |
| `Schema.FullIsPartialPlusRequired` | packages/backend/src/routes/disaster-areas.ts:18 | the full shape accepts exactly what the partial shape accepts that also carries every required key |
| `DisasterAreas.ValidCreate` | packages/backend/src/routes/disaster-areas.ts:6-16 | the create schema accepts the body: the nine fields with their rules, name, center_lat and center_lng required (decided at :26-27) |
| `DisasterAreas.ValidUpdate` | packages/backend/src/routes/disaster-areas.ts:18 | the update schema, `CreateSchema.partial()`, accepts the body: the same nine fields and rules, none required (decided at :43) |
| `DisasterAreas.UpdateShapeIsPartial` | packages/backend/src/routes/disaster-areas.ts:18 | the update schema, written out field by field, is exactly `.partial()` of the create schema: the same nine fields and rules, none required |
| `DisasterAreas.UpdateAcceptance` | packages/backend/src/routes/disaster-areas.ts:5-18 | an update payload is accepted iff every present field keeps its rule: non-empty name, latitude in [-90,90], longitude in [-180,180], four-number bounds with no ordering, whole grid size ≥ 1, text for the rest |
| `DisasterAreas.CreateAcceptance` | packages/backend/src/routes/disaster-areas.ts:5-16 | a create payload is accepted iff it keeps the same field rules and carries name, center_lat and center_lng |
| `DisasterAreas.CreateIsUpdate` | packages/backend/src/routes/disaster-areas.ts:18 | every accepted create payload is an accepted update payload; the empty object is an accepted update |
| `DisasterAreas.CoordinateRange` | packages/backend/src/routes/disaster-areas.ts:10-11 | changing one coordinate of an accepted payload keeps it accepted iff the value stays in [-90,90] or [-180,180]; the limits themselves are accepted |
| `DisasterAreas.ParseCreate` | packages/backend/src/routes/disaster-areas.ts:26 | parsing succeeds iff the create schema accepts the body; the data holds exactly the body's values for the nine schema keys (the four bounds numbers included), nothing for an absent key, and no unknown key; it is well formed and has name and both coordinates; a failure carries exactly the create schema's non-empty issue list |
| `DisasterAreas.ParseUpdate` | packages/backend/src/routes/disaster-areas.ts:43 | parsing succeeds iff the update schema accepts the body; the data holds exactly the body's values for the nine schema keys (the four bounds numbers included), nothing for an absent key, and no unknown key; it is well formed; a failure carries exactly the update schema's non-empty issue list |
| `DisasterAreas.ExtractCarries` | packages/backend/src/routes/disaster-areas.ts:26-30 | reading the schema fields out of a body that keeps the field rules gives back exactly the body's values and drops every other key |
| `DisasterAreas.UpdateRoundTrip` | packages/backend/src/routes/disaster-areas.ts:43 | parsing the JSON form of any well-formed update payload gives that payload back |
| `DisasterAreas.CreateRoundTrip` | packages/backend/src/routes/disaster-areas.ts:26 | parsing the JSON form of any well-formed payload with the required fields gives that payload back |
| `DisasterAreas.HandleList` | packages/backend/src/routes/disaster-areas.ts:21-23 | list calls the repository once and replies 200 with its list, never an error |
| `DisasterAreas.HandleCreate` | packages/backend/src/routes/disaster-areas.ts:25-32 | the repository is called iff the payload is valid, and with the parsed data; invalid gives 400 "Invalid payload" with exactly the create schema's issue list; valid gives 201 with exactly the repository's record |
| `DisasterAreas.HandleGet` | packages/backend/src/routes/disaster-areas.ts:34-39 | 404 "Not found" iff the repository finds nothing; otherwise 200 with the found record |
| `DisasterAreas.Catch` | packages/backend/src/routes/disaster-areas.ts:49-55 | an error is turned into 400 "Invalid field name" iff its message contains that phrase; any other error propagates with its message unchanged |
| `DisasterAreas.HandleUpdate` | packages/backend/src/routes/disaster-areas.ts:41-56 | the repository is called iff the payload is valid; an invalid payload gives 400 "Invalid payload" with exactly the update schema's issue list; a reply is 200 iff the repository updated, 404 iff it found nothing, and 400 otherwise; the handler rethrows iff the repository failed without the invalid-field-name phrase |
| `DisasterAreas.HandleDelete` | packages/backend/src/routes/disaster-areas.ts:58-63 | 204 with no body iff the repository reports a deletion, otherwise 404 "Not found" |
| `DisasterAreas.InvalidPayloadNeverReachesRepository` | packages/backend/src/routes/disaster-areas.ts:25-46 | for a rejected payload, create and update make no repository call, and their reply does not depend on what the repository would have answered |
| `VolunteerRegistrations.ValidRegistration` | packages/backend/src/routes/volunteer-registrations.ts:6 | the registration schema accepts the body: grid_id and user_id both present as strings (decided at :18) |
| `VolunteerRegistrations.RegistrationAcceptance` | packages/backend/src/routes/volunteer-registrations.ts:6 | a registration payload is accepted iff grid_id and user_id are both strings, empty strings included |
| `VolunteerRegistrations.ParseRegistration` | packages/backend/src/routes/volunteer-registrations.ts:18-19 | parsing succeeds iff the payload is accepted and then returns the body's two strings; a failure carries exactly the registration schema's non-empty issue list |
| `VolunteerRegistrations.InsertNewestFirst` | packages/backend/src/routes/volunteer-registrations.ts:12 | placing a row in a newest-first list keeps it newest first and adds exactly that row |
| `VolunteerRegistrations.RegistrationTable.List` | packages/backend/src/routes/volunteer-registrations.ts:10-14 | unauthenticated gives 401; no database gives 200 with the empty list; otherwise 200 with every row exactly once, newest `created_at` first |
| `VolunteerRegistrations.RegistrationTable.Create` | packages/backend/src/routes/volunteer-registrations.ts:17-25 | 401 before anything else; then 400 with the registration schema's issue list for an invalid payload, even without a database; then 503 without a database; otherwise exactly one row is added under the fresh id and returned with 201; existing rows never change |
| `VolunteerRegistrations.RegistrationTable.Delete` | packages/backend/src/routes/volunteer-registrations.ts:27-32 | 401 unauthenticated and 503 without a database, both with no change; otherwise the row with that id is removed if present, all others kept, and the reply is 204 either way |
| `VolunteerRegistrations.DeleteTwice` | packages/backend/src/routes/volunteer-registrations.ts:29-31 | deleting the same id twice replies 204 both times and leaves the table as the first delete did |
| `VolunteerRegistrations.CreateThenList` | packages/backend/src/routes/volunteer-registrations.ts:11-24 | a registration created with the database attached appears in the next listing exactly as the create reply returned it |

## Left out

- `modules/disaster-areas/repo.js` is not part of this model. That covers the partial-update builder, its field whitelist, and how rows are stored, listed, fetched and deleted. Its answers are inputs to the handlers, so which columns an update writes, and that the others keep their values, is not stated.
- Repository faults in list, create, get and delete are not modelled. Those handlers have no `catch`, so such a fault propagates exactly as it would from the update handler's `throw err`.
- Fastify route registration, the `preHandler` hook, `reply.status().send()` and async/await are left out. Handlers are plain functions or methods that return a reply value.
- zod's issue objects are reduced to the names of the offending top-level fields. A body that is not an object is reported as the root path `""`. An error inside `bounds` is reported as `"bounds"`.
- How `requireAuth` decides is not modelled (`lib/auth.js` is not part of this model). Its verdict is a boolean input. Its rejection is a 401 reply with an `Unauthenticated` body tag, because the exact body it sends is not visible.
- `randomUUID` becomes the `newId` parameter, required to be absent from the table. The store's `created_at` default becomes the `now` parameter.
- `app.log.warn` is only logging and is left out.
- JavaScript numbers are exact reals, so only finite numbers are modelled. `JSON.parse` turns a literal such as `1e400` into Infinity, and the bounds rule (`z.number()` with no finiteness check) would accept it; that case is not captured. String lengths count Dafny characters, not UTF-16 code units.
- Concurrency between requests and the store's row-level atomicity are left out.
- The database's sort inside `SELECT … ORDER BY created_at DESC` is modelled by a loop in `RegistrationTable.List` that inserts each row into a newest-first list. Rows with equal `created_at` come back in an order the store does not fix. The contract therefore only promises newest first.
- zod's issue order and messages are not modelled: the issue list is the offending field names in shape order, as `Schema.Check` computes them.
- Volunteer database faults are not modelled. The `app.db.query` calls at `packages/backend/src/routes/volunteer-registrations.ts:12`, `:23` and `:30` have no `catch`, so a failing query propagates; `RegistrationTable.List`, `Create` and `Delete` always reply.
