# Survey Quest server: access control and role transitions

This project models the part of the Survey Quest API server (`index.js`) that
makes decisions. The rest of the server passes requests straight to MongoDB.

- **The request gates.**
  - `verifyToken` needs a `token` cookie that is present, non-empty and verifies.
    Otherwise it answers 401.
  - `verifyAdmin` needs the token's user to be stored with the role `"admin"`.
    Otherwise it answers 403.
  - The four role-check endpoints are `/users/admin/:email`, `/users/proUser/:email`, `/users/surveyor/:email` and `/users/user/:email`.
    Each answers 403 when the route email is not the token's email.
    Otherwise each answers `{ <key>: bool }`.
- **The role transitions.**
  - Posting a survey promotes the owner it names (`surverior`) to `"surveyor"`.
  - Posting a payment promotes the payer to `"pro-user"`.
  - Both promote only a stored user who is not an admin.
  - The operator endpoints `make-pro-user` and `make-user` set a role by id with no guard at all.
- **The other writes.**
  - Registration inserts a user only when the email is new.
  - A survey edit sets five fields.
  - A vote overwrites the tally with the client's value and appends one participation record.
  - Publish and unpublish set the status.

The database is the class `SurveyDb.Store`.
It holds the users, surveys, participation records and payments as sequences.
A document's id is its position in its collection: `insertOne` appends, and `findOne` by email returns the first match.
Its invariant is that no two users share an email.
Each write handler is a method, and its contract gives the whole new state as a function of the old one.
These functions are `Roles.Promoted`, `Roles.Registered`, `Roles.SetRoleById`, `Surveys.Edited`, `Surveys.Voted` and `Surveys.WithStatus`.
The properties of those functions are proved as lemmas beside them.
The gates are pure functions over the users collection.

Token verification is a parameter: a `TokenOracle` maps a token to its claims or to nothing.
It stands for the signature check under the server's secret and the one-hour expiry clock.

Some behaviour of the code is worth stating outright:

- **No authentication on writes.** No write route is behind `verifyToken` or `verifyAdmin`, and `verifyAdmin` guards no route at all.
- **Surveys are stored as posted.** A posted survey is stored with whatever status it carries; there is no draft default.
- **Updating a missing survey.** An update whose id matches no survey replies with `matchedCount` 0 and changes nothing; there is no "not found" reply.
- **Registration.** Registration stores the posted body verbatim, so a client picks its own initial role.
- **The payment comment.** The comment above the payment promotion says "surveyor". The code sets `"pro-user"`, and so does the model.

## Model

| member | source | states |
|---|---|---|
| `Documents.UpdateReport` | index.js:91-95 | `updateOne` by id matches one document exactly when the id exists. It reports a modification exactly when the document's value changed, so writing the existing value counts as matched but not modified. |
| `Documents.FindByEmail` | index.js:116-117 | `findOne({ email })` returns a user with that email and no earlier user has it. It returns nothing exactly when no user has the email. |
| `Documents.FindByEmailUnique` | index.js:163-164 | When emails are unique, the lookup by email returns id `i` exactly when user `i` has that email. |
| `Documents.FindByEmailReadsOnlyEmails` | index.js:247-253 | The lookup depends only on the emails. So a role update does not change which user a later lookup by the same email finds. |
| `Auth.Denial.Status` | index.js:30-55 | An unauthorized request gets status 401 and a forbidden one gets 403. |
| `Auth.Denial.Message` | index.js:30-55 | The reply message is "unauthorized access" exactly for a 401 and "Forbidden access" exactly for a 403. |
| `Auth.VerifyToken` | index.js:30-43 | The gate passes exactly when the cookie is present, non-empty and accepted by the verifier. It then attaches exactly the decoded claims. Every rejection is 401. |
| `Auth.TokenUser` | index.js:47-49 | Looks up the user with the token's email. It finds nothing when the token has no email or no stored user has it. |
| `Auth.VerifyAdmin` | index.js:46-55 | The gate passes exactly when the token's user exists with role exactly `"admin"`, and passes the claims on unchanged. A missing user is rejected with 403. |
| `Auth.VerifyAdminIff` | index.js:46-55 | When emails are unique, `verifyAdmin` passes exactly when some stored user has the token's email and role `"admin"`. |
| `Auth.RoleEndpoint.Role` | index.js:157-216 | Each endpoint compares against its own role: `"admin"`, `"pro-user"`, `"surveyor"`, `"user"`, one role per endpoint and no two alike. |
| `Auth.RoleEndpoint.Key` | index.js:157-216 | Each endpoint names its boolean `admin`, `proUser`, `surveyor` or `user`, one key per endpoint and no two alike. |
| `Auth.RoleCheck` | index.js:157-216 | 403 exactly when the route email differs from the token's. Otherwise the reply carries the endpoint's key and is true exactly when the user found by that email has the endpoint's role. |
| `Auth.RoleRequest` | index.js:157-171 | The whole request answers 401 exactly when `verifyToken` rejects it. It answers 403 exactly when the token verifies but carries another email. |
| `Auth.RoleRequestAnswer` | index.js:163-170 | When emails are unique, the answer past both gates is true exactly when a user with the route email exists and has the endpoint's role. A missing user gives false. |
| `Auth.DenialIgnoresStore` | index.js:157-162 | A 401 or 403 is the same whatever the users collection holds: it is decided before any lookup. |
| `Auth.AtMostOneRoleConfirmed` | index.js:157-216 | At most one of the four endpoints answers true for the same user. |
| `Roles.Event.Target` | index.js:251-256 | A transition's target role is never `"admin"`. |
| `Roles.DecideTransition` | index.js:252 | No transition exactly when no user was found or the user's role is `"admin"`. Otherwise the target is the event's role, which is never `"admin"`. |
| `Roles.PromotedId` | index.js:247-253 | The user to promote has the event's email and is not an admin. There is none exactly when the lookup finds nothing or finds an admin. |
| `Roles.WithRole` | index.js:253-255 | Setting the role keeps the email and name. |
| `Roles.Promoted` | index.js:247-256 | A transition keeps the size of the users collection. What it does to each user is stated by the four `Promoted…` lemmas below. |
| `Roles.PromotedKeepsAdmins` | index.js:251-256 | An admin is left exactly as it was, and no one becomes an admin. The set of admins is the same before and after. |
| `Roles.PromotedOnlyTouchesTarget` | index.js:253-255 | Every user keeps its email and name. Users with another email are unchanged. |
| `Roles.PromotedIff` | index.js:244-259 | When emails are unique, the user with the event's email gets the target role exactly when it is not an admin, and otherwise keeps its role. With no such user, nothing changes. |
| `Roles.PromotedPreservesUnique` | index.js:253-255 | A transition keeps emails unique. |
| `Roles.PromotedIdempotent` | index.js:247-256 | Repeating the same event changes nothing further. |
| `Roles.SetRoleById` | index.js:89-106 | The user with the id gets the role whatever its old role, an admin's included. No other user changes, and an unknown id changes nothing. |
| `Roles.SetRoleByIdPreservesUnique` | index.js:89-106 | The operator endpoints keep emails unique. |
| `Roles.MakeUserDemotesAdmin` | index.js:99-106 | `make-user` turns any admin, at any id, into a `"user"`, keeping its email. |
| `Roles.Registered` | index.js:114-127 | If the email is already stored, the collection is unchanged. Otherwise it is the old collection with the body appended. |
| `Roles.RegisteredPreservesUnique` | index.js:114-127 | Registration keeps at most one user per email. |
| `Roles.RegisteredTwice` | index.js:114-127 | Registering twice equals registering once, and exactly one user then has the email. |
| `Surveys.ApplyEdit` | index.js:224-232 | An edit sets `image`, `title`, `description`, `category` and `deadline` to the body's values and keeps `status`, `voteCount` and the owner. |
| `Surveys.Edited` | index.js:219-235 | Only the survey at the id is edited. An unknown id changes nothing. |
| `Surveys.Voted` | index.js:265-268 | The survey at the id gets the submitted tally and every other field kept. Other surveys are unchanged. |
| `Surveys.WithStatus` | index.js:328-344 | The survey at the id gets the status and every other field kept. Other surveys are unchanged. |
| `Surveys.ParticipationOf` | index.js:269-274 | The participation record holds the body's voter name, voter email, survey id and choice. |
| `Surveys.VoteOverwrites` | index.js:262-268 | The tally after a vote is the submitted value, whatever it was before (not old + 1). Resubmitting the stored tally matches but modifies nothing. |
| `Surveys.EditKeepsTallyAndStatus` | index.js:219-235 | An edit leaves every survey's tally, status and owner unchanged. |
| `Surveys.StatusIdempotent` | index.js:328-335 | A second identical publish or unpublish leaves the collection as it is and reports matched but not modified. |
| `Surveys.LastToggleWins` | index.js:328-344 | Publish then unpublish, or the reverse, ends with the last status. |
| `SurveyDb.Store.constructor` | index.js:81-86 | The collections start empty, and emails are unique. |
| `SurveyDb.Store.SetRole` | index.js:91-94 | Sets the role by id as `Roles.SetRoleById` says and reports it. The other collections are unchanged. |
| `SurveyDb.Store.MakeProUser` | index.js:89-96 | Sets the user at the id to `"pro-user"`, with no guard. Nothing else changes. |
| `SurveyDb.Store.MakeUser` | index.js:99-106 | Sets the user at the id to `"user"`, with no guard. Nothing else changes. |
| `SurveyDb.RegisterReply.Message` | index.js:114-127 | The reply carries the message "User already exist" exactly when the user already existed; an insertion replies with its result and no message. |
| `SurveyDb.Store.RegisterUser` | index.js:114-127 | Replies "already exists" exactly when the email is stored. Otherwise it inserts the body at the next id. The new users collection is `Roles.Registered`, and emails stay unique. |
| `SurveyDb.Store.Transition` | index.js:247-256 | The users collection becomes `Roles.Promoted`. An update result is returned exactly when a user was promoted. That result matches one user and reports a modification exactly when the role changed. |
| `SurveyDb.Store.PostSurvey` | index.js:244-259 | Always appends the survey first. Then it promotes the owner to `"surveyor"` as `Roles.Promoted` says. The role update, when present, matches one user and reports a modification exactly when the role changed. Participations and payments are unchanged. |
| `SurveyDb.Store.PostPayment` | index.js:284-299 | Always appends the payment first. Then it promotes the payer to `"pro-user"` as `Roles.Promoted` says. The role update, when present, matches one user and reports a modification exactly when the role changed. Surveys and participations are unchanged. |
| `SurveyDb.Store.EditSurvey` | index.js:219-235 | The surveys collection becomes `Surveys.Edited` and the update is reported. The other collections are unchanged. |
| `SurveyDb.Store.Vote` | index.js:262-277 | The tally is overwritten as `Surveys.Voted` says. Exactly one record built from the body is appended, even when the path id matches no survey. Users and payments are unchanged. |
| `SurveyDb.Store.SetStatus` | index.js:330-333 | The surveys collection becomes `Surveys.WithStatus` and the update is reported. |
| `SurveyDb.Store.Publish` | index.js:328-335 | Sets the status `"publish"`. Nothing else changes. |
| `SurveyDb.Store.Unpublish` | index.js:337-344 | Sets the status `"unpublish"`. Nothing else changes. |

## Left out

- Express wiring, CORS, the JSON and cookie parsers, the logger, the root route and `app.listen`: these are HTTP plumbing with no decisions in them.
- JWT signing and verification, the one-hour expiry and the `/jwt` and `/clear-jwt` cookie options: these are a cryptographic library and the wall clock. `Auth.TokenOracle` stands in for verification.
- The MongoDB client, connection and ping: this is a foreign library. The collections are sequences.
  - Ids are positions in a collection, and `ObjectId` parsing of malformed ids is not modelled.
  - `updateOne` results keep only `matchedCount` and `modifiedCount`.
  - Store failures (exceptions) are not modelled.
- Documents keep the fields the handlers read or set, plus the user's `name` and the payment's `amount` and `metadata`, which no handler reads and which stand for the rest of the stored body. Any other body field is stored verbatim by the source and dropped here.
- Values that are absent or of another JSON type than the model's field types are not modelled: an undefined email (including a user stored without one, which a `findOne({ email: undefined })` lookup would match), a non-numeric or fractional `voteCount` or payment `amount` (the model's fields are integers), or `$set` with undefined values.
- The GET list endpoints and the comment and report inserts: these pass data through and decide nothing.
- Concurrent requests and last-write-wins races: each handler runs as one atomic step here. The source's findOne and updateOne are two separate store calls, so a user deleted or changed in between is not modelled.
- `Auth.RoleRequest`: "no store access" on a rejected request is stated as independence from the users collection (`Auth.DenialIgnoresStore`), not as a count of store calls.
