# VinoMemo backend: gates, tables and routes

This project models the decision code of the VinoMemo Express backend, a tasting-note
service with JWT-protected user accounts, and proves properties of it in Dafny. It covers:

- **The authentication gates.** The server `authenticate` middleware strips the first
  `"Bearer "` from the `Authorization` header and verifies the token. It compares the
  route's `id` with the token's user unless the token claims admin, then looks the user
  up. The older `authenticate` answers every failure with the same 401. The routes run the
  server gate as written; an environment can select instead the corrected gate of the
  finding below, and the route lemmas hold for both.
- **The user tables of three generations.** Each is a class over a map from id to record,
  and each keeps the invariant "no two stored users share an email". In the newest
  generation, emails are compared under the store's case-insensitive collation key.
- **The oldest note table.** Its lookups and filters throw on a missing note or an empty
  result.
- **The routers.** Each route is an ordered list of stages run left to right, stopping
  at the first answer. The handlers' decisions are modelled too: the token claims, the
  uniform login failure, the search priority and the admin check on `GET /users`.
- **The validation rules.** These are the Yup schemas with their `validateSchema` stage,
  and the express-validator chains.
- **The error middleware.** It maps an error to a status and a JSON envelope.

The collaborators are parameters:

- `jwt.verify` and `jwt.sign`;
- bcrypt's `hash` and `compare`;
- the email-format predicate and the collation key;
- the clock (`now`);
- the three permission stages, whose bodies are not part of this model;
- the note-controller calls behind the note router.

Mongo ids come from a fresh-id lemma. The model follows the code wherever the
repository's tests expect other messages than the code produces.

One behaviour is worth knowing. On `/notes/:id` the gate compares the note's id with the
token's user id, so a non-admin token is refused with 403 for almost every note. This is
shown by `NoteRoutes.NoteIdComparedWithUserId`.

In the middle generation, the records have no role. As a result, `GET /users` answers
403 to every user whose request the permission stage passes on unchanged. This is shown by
`UserRoutes.ListUsersAlwaysForbidden`.

## Model

| member | source | states |
|---|---|---|
| Strings.ReplaceFirst | server/middleware/authMiddleware.ts:12 | `replace` with a string pattern: without an occurrence the string is unchanged, otherwise exactly the first occurrence is replaced |
| ServerAuth.Token | server/middleware/authMiddleware.ts:12 | no header, no token; otherwise the header with its first `Bearer `, wherever it occurs, removed (as `ReplaceFirst` states): a header that starts with `Bearer ` yields the rest, and one without `Bearer ` anywhere is used whole |
| ServerAuth.TokenOfHeader | server/middleware/authMiddleware.ts:12 | `Bearer <t>` yields `t`; a header without `Bearer ` anywhere is used whole |
| ServerAuth.Authenticate | server/middleware/authMiddleware.ts:11-28 | no token: 401 "Unauthorized - No token provided"; verifier error: 401 with its message; claims without `user`: 401; 403 "Forbidden access" exactly on a non-admin claim whose truthy route id differs from its `_id`; lookup rejection: 401 with its message; otherwise next with the lookup's result |
| ServerAuth.NoTokenConsultsNothing | server/middleware/authMiddleware.ts:12-13 | without a token the answer is the same for every verifier and lookup |
| ServerAuth.ForbiddenBeforeLookup | server/middleware/authMiddleware.ts:16-23 | a 403 does not depend on the lookup |
| ServerAuth.AdminOrIdlessNeverForbidden | server/middleware/authMiddleware.ts:17-18 | an admin claim, or a route without id, is never refused with 403 |
| ServerAuth.DeletedUserProceeds | server/middleware/authMiddleware.ts:23-25 | as written, a verified token whose user the lookup resolves to null reaches next with `req.user` null |
| ServerAuth.AuthenticateChecked | server/middleware/authMiddleware.ts:23-25 | corrected gate: next only with a user the lookup found for the token's own `_id`, and always with a user the written gate lets through; every refusal of the written gate kept; a null lookup answered 401 |
| LegacyAuth.Authenticate | src/middlewares/authMiddleware.ts:11-28 | every failure is 401 "Unauthorized"; next exactly when the token verifies, names a user and the lookup finds it, with that user attached |
| LegacyAuth.DeletedUserLikeBadToken | src/middlewares/authMiddleware.ts:18-21 | a user that no longer exists gets the same answer as a token that does not verify |
| LegacyAuth.AgreesWithCheckedGate | src/middlewares/authMiddleware.ts:11-24 | the older gate admits exactly the requests the corrected server gate admits on a route without id, with the same user |
| Errors.ExpressError | server/middleware/errorMiddleware.ts:3-9 | the error carries exactly the message and status it was built with |
| Errors.ErrorHandler | server/middleware/errorMiddleware.ts:19-25 | `success` is false; the status sent, also in the body, is the error's own when truthy and 500 otherwise; the message is the error's own when non-empty and "Internal Server Error" otherwise; the stack is exposed exactly when `NODE_ENV` is "dev" |
| Errors.ExpressErrorReported | server/middleware/errorMiddleware.ts:19-20 | an `ExpressError` is reported with its status unless it is 0 (then 500) and its message unless it is empty (then the default) |
| Errors.PlainErrorDefaults | server/middleware/errorMiddleware.ts:19-20 | a plain error is reported as 500, with its message unless it is empty (then the default) |
| ValidationSchema.EmailRule | server/middleware/validationSchema.ts:3-5 | passes iff a required email is truthy and a truthy email is valid; "Email is required" for a required falsy one, "Email must be valid" for an invalid one |
| ValidationSchema.PasswordRule | server/middleware/validationSchema.ts:6-9 | passes iff a required password is truthy and a present one has 8-20 characters; "Password is required" first, then the too-short and too-long messages |
| ValidationSchema.NameRule | server/middleware/validationSchema.ts:17 | passes iff the name is truthy or not required; the message is "Name is required" |
| ValidationSchema.Failures | server/middleware/validationSchema.ts:3-26 | login passes iff email truthy and valid and password present with 8-20 characters; signup additionally needs a truthy name; update passes iff a truthy email is valid and a present password has 8-20 characters |
| ValidationSchema.SignupImpliesLogin | server/middleware/validationSchema.ts:11-20 | a body passing signup passes login |
| ValidationMiddleware.ValidateSchema | server/middleware/validationMiddleware.ts:6-12 | next exactly when the body passes the schema; otherwise 400 with the message of a failing rule |
| Strings.Trim | src/utils/validators.ts:4-6 | the result is the part of the input between a leading and a trailing run of white space, has no white space at either end, and a trimmed string is left unchanged |
| Validators.LoginErrors | src/utils/validators.ts:3-11 | no error iff the email is non-empty and valid after trimming and the trimmed password has 6-20 characters |
| Validators.SignupErrors | src/utils/validators.ts:13-16 | no error iff the name is non-empty and the login rules pass; with a name, exactly the login errors |
| Validators.UpdateErrors | src/utils/validators.ts:18-27 | no error iff a given email is valid after trimming and a given password has 6-20 characters after trimming |
| Validators.BlankPasswordRejected | src/utils/validators.ts:5-10 | a password of white space alone is rejected at login |
| Unique.StorePreservesUnique | server/api/users/user.controller.ts:16-26 | storing a record whose key (the email, exactly or under the collation) no other id holds keeps keys unique; every table's `Valid()` is kept by create and update through it |
| UsersController.Patched | server/api/users/user.controller.ts:57-69 | a truthy name or email replaces the stored one and a falsy one keeps it; a truthy password is stored hashed, a falsy one keeps the hash; the role is kept; with no truthy field the record is unchanged |
| UsersController.UserTable.CreateUser | server/api/users/user.controller.ts:11-27 | refused with 406 "Email is already used" iff an email matches under the collation, nothing inserted; else exactly one new non-admin record with the hashed password |
| UsersController.UserTable.GetUser | server/api/users/user.controller.ts:29-30 | the whole record of the one user whose email matches under the collation, or null when none does |
| UsersController.UserTable.GetUserById | server/api/users/user.controller.ts:32-33 | a result iff the id is stored, and then that record without its hash |
| UsersController.UserTable.GetUserByEmail | server/api/users/user.controller.ts:35-38 | the one matching record without hash, or null when none matches |
| UsersController.UserTable.GetUsersByName | server/api/users/user.controller.ts:40-43 | exactly the users whose name matches under the collation, without hashes |
| UsersController.UserTable.GetUsers | server/api/users/user.controller.ts:45-46 | exactly the stored users, without hashes |
| UsersController.UserTable.UpdateUser | server/api/users/user.controller.ts:48-75 | unknown id: 400 "Invalid request"; an email another user holds: 406 before any write; otherwise the patched record is stored; no truthy field: null and nothing saved; emails stay unique |
| UsersController.UserTable.DeleteUser | server/api/users/user.controller.ts:77-78 | removes the id and returns the record without hash, or null |
| UserController.Patched | server/api/user/user.controller.ts:43-52 | a truthy name or email replaces the stored one and a falsy one keeps it; a truthy password is stored hashed, a falsy one keeps the hash; with no truthy field the record is unchanged |
| UserController.UserTable.CreateUser | server/api/user/user.controller.ts:10-23 | "Email is already in use" iff a user has exactly that email, nothing inserted; else one new record with the hashed password |
| UserController.UserTable.GetUserById | server/api/user/user.controller.ts:25-26 | a result iff the id is stored, and then that record without its hash |
| UserController.UserTable.GetUserByEmail | server/api/user/user.controller.ts:28-29 | the whole record, hash included, of the user with exactly that email, or null |
| UserController.UserTable.GetUsers | server/api/user/user.controller.ts:31-32 | exactly the stored users, without hashes |
| UserController.UserTable.UpdateUser | server/api/user/user.controller.ts:34-58 | unknown id: "Invalid request"; an email another user holds: "Email is already in use" before saving; otherwise the patched record; no truthy field: null and nothing saved |
| UserController.UserTable.DeleteUser | server/api/user/user.controller.ts:60-61 | removes the id and returns the record without hash, or null |
| LegacyUserController.UserTable.CreateUser | src/controllers/user.ts:4-24 | "User with this email already exists" iff the email is held, nothing inserted; else one new record with `hash(password, 10)` and both timestamps `now` |
| LegacyUserController.UserTable.GetUserById | src/controllers/user.ts:26-35 | "User was not found" iff the id is absent, else that record |
| LegacyUserController.UserTable.GetUserByEmail | src/controllers/user.ts:37-46 | "User was not found" iff nobody has the email, else a record with that email |
| LegacyUserController.UserTable.GetUsers | src/controllers/user.ts:48-57 | "Users were not found" iff the table is empty, else exactly the stored users |
| LegacyUserController.UserTable.UpdateUser | src/controllers/user.ts:59-86 | unknown id: "User was not found"; an email another id holds: refused, nothing changed; otherwise name, email, hash and `updatedAt` overwritten and the record returned |
| LegacyUserController.UserTable.DeleteUser | src/controllers/user.ts:88-97 | "User was not found" iff absent; otherwise removed and returned |
| LegacyNoteController.CreatedBy | src/controllers/note.ts:34 | exactly the notes whose creator is the given user |
| LegacyNoteController.NoteTable.CreateNote | src/controllers/note.ts:3-10 | the given note stored under a new id and returned |
| LegacyNoteController.NoteTable.GetNoteById | src/controllers/note.ts:12-20 | "Note was not found" iff absent, else that note |
| LegacyNoteController.NoteTable.GetNotes | src/controllers/note.ts:22-30 | "Notes were not found" iff the table is empty, else exactly the stored notes |
| LegacyNoteController.NoteTable.GetNotesByUserId | src/controllers/note.ts:32-42 | "Notes were not found" iff the user created no note, else exactly that user's notes |
| LegacyNoteController.NoteTable.UpdateNote | src/controllers/note.ts:44-59 | "Note was not found" iff absent, nothing changed; else the merged note stored and returned |
| LegacyNoteController.NoteTable.DeleteNote | src/controllers/note.ts:61-71 | "Note was not found" iff absent; else returned and no longer in the table |
| Pipeline.Run | server/api/users/user.routes.ts:151-156 | no stages pass the request on unchanged; an answer comes from some stage; a first stage that answers decides; a single stage is that stage |
| Pipeline.RunAppend | server/api/users/user.routes.ts:151-156 | running two stage lists back to back is running the first and, only if it passed the request on, the second |
| Pipeline.StopIgnoresRest | server/api/users/user.routes.ts:151-156 | once a prefix has answered, later stages do not matter |
| Pipeline.StopPoint | server/api/users/user.routes.ts:151-156 | every answer comes from one stage whose predecessors all passed the request on |
| Pipeline.RunThenLast | server/api/users/user.routes.ts:151-165 | a last stage runs exactly when every earlier stage passed the request on, on the request passed; otherwise the earlier answer stands |
| Routing.GateOutcome | server/middleware/authMiddleware.ts:11-28 | as written it is the server gate itself; the corrected version agrees with it everywhere except on a null lookup, which it answers 401 "Unauthorized - User was not found", and proceeds only with a user |
| Routing.AuthStage | server/middleware/authMiddleware.ts:19-27 | a refusal becomes a text response with its status; acceptance passes the request on with `req.user` set to what the lookup resolved, `null` included as written, and nothing else changed |
| Routing.ValidateStage | server/middleware/validationMiddleware.ts:6-12 | passes the request on unchanged iff the body passes, else 400 with a failing rule's message |
| Routing.Interp | server/api/users/user.routes.ts:151-155 | the permission middleware names stand for the environment's stages |
| Routing.InterpStage | server/middleware/validationMiddleware.ts:6-12 | `authenticate` passes a request on iff the gate proceeds, with `req.user` set, else answers with the gate's status and message; a schema stage passes it on unchanged iff the body has no failures, else answers 400 |
| Routing.Stages | server/api/users/user.routes.ts:151-155 | one stage per registered middleware, in the order written |
| Routing.Handle | server/api/users/user.routes.ts:151-165 | the handler runs exactly when every middleware passed the request on, on the request they passed; otherwise the first answer decides |
| Routing.AuthenticateFirst | server/api/users/user.routes.ts:137-140 | behind `authenticate` a refused request gets the gate's answer and nothing else runs; an accepted one continues with `req.user` set to the gate's user |
| Routing.SecondStageDecides | server/api/users/user.routes.ts:151-155 | an accepted request stopped by the second stage gets that stage's answer |
| Routing.NoTokenAnswered | server/middleware/authMiddleware.ts:12-13 | behind `authenticate`, no token means 401 "Unauthorized - No token provided" whatever follows |
| Routing.Answer | server/api/users/user.routes.ts:141-148 | a rejected controller call is forwarded to `next(error)`; a resolved one is answered with the route's status |
| UsersRoutes.Chain | server/api/users/user.routes.ts:30-179 | `authenticate` first exactly on the protected routes and nowhere later; the admin stage exactly on the listing and the search; validation, where present, last |
| UsersRoutes.ProtectedNeedsToken | server/api/users/user.routes.ts:83-179 | every route but signup and login answers a tokenless request with 401, whatever its handler |
| UsersRoutes.PermissionBeforeValidation | server/api/users/user.routes.ts:151-155 | on `PUT /users/:id` a refusal by the permission stage is the answer; validation does not run |
| UsersRoutes.TokenClaims | server/api/users/user.routes.ts:37-41 | the claim has the record's `_id`, `name` and `email`, never a role or a hash |
| UsersRoutes.AdminTokenStillCompared | server/api/users/user.routes.ts:62-66 | as the issued claims never say admin, an admin's token on another user's id is refused with 403, by both gate versions |
| UsersRoutes.SignupReply | server/api/users/user.routes.ts:35-49 | 201 with the token for the new record, or the controller's error forwarded |
| UsersRoutes.SignupHandler | server/api/users/user.routes.ts:33-50 | `createUser` with the fields, then `SignupReply` |
| UsersRoutes.LoginReply | server/api/users/user.routes.ts:57-79 | `UnauthorizedError` (401) exactly for an unknown email or a wrong password; else 200 with the token |
| UsersRoutes.LoginFailuresIndistinguishable | server/api/users/user.routes.ts:59-71 | a wrong password gets the same answer as an unknown email |
| UsersRoutes.LoginHandler | server/api/users/user.routes.ts:58-60 | looks up only a truthy email; compares against the one record matching under the collation |
| UsersRoutes.MeReply | server/api/users/user.routes.ts:88 | 200 with `req.user` |
| UsersRoutes.MeAnswersGateUser | server/api/users/user.routes.ts:83-93 | `GET /users/me` answers an accepted token with exactly what the gate's lookup resolved |
| UsersRoutes.MeDeletedUser | server/api/users/user.routes.ts:83-93 | for a verified token of a deleted user, `GET /users/me` answers 200 with a null user as written, and 401 "Unauthorized - User was not found" with the corrected gate |
| UsersRoutes.SearchKey | server/api/users/user.routes.ts:118-128 | `id` over `name` over `email`, each only when truthy; none when all are falsy |
| UsersRoutes.IdOverridesOthers | server/api/users/user.routes.ts:118-120 | a truthy id decides the search whatever the other parameters are |
| UsersRoutes.SearchHandler | server/api/users/user.routes.ts:113-134 | no parameter: `ExpressError("Invalid search parameters", 400)` forwarded; id: that user or nobody; name: all users of that name; email: the one match or nobody |
| UserRoutes.Chain | server/api/user/user.routes.ts:26-125 | `authenticate` first on every route but signup and login and nowhere later; no admin stage anywhere; the permission stage on every protected route; validation, where present, last |
| UserRoutes.SignedRecord | server/api/user/user.routes.ts:34 | the claim is the whole record, password hash included |
| UserRoutes.SignupReply | server/api/user/user.routes.ts:29-39 | 201 with the record and its token, or the controller's error forwarded |
| UserRoutes.LoginReply | server/api/user/user.routes.ts:47-58 | 401 text "Invalid credentials" exactly for an unknown email or a wrong password; else 200 with record and token |
| UserRoutes.LoginHandler | server/api/user/user.routes.ts:48 | looks up only a truthy email, the record with exactly that email |
| UserRoutes.ListUsersReply | server/api/user/user.routes.ts:71-76 | 403 "Forbidden access" exactly when `req.user` is not an admin; else 200 with the users |
| UserRoutes.ForbiddenWithoutFetching | server/api/user/user.routes.ts:71-75 | a non-admin's answer does not depend on the users |
| UserRoutes.ListUsersGateNeverForbids | server/api/user/user.routes.ts:65-69 | on `/users` the gate refuses only with 401 |
| UserRoutes.StoreLookup | server/api/user/user.controller.ts:25-26 | the lookup built on `getUserById`: never rejects, finds exactly the stored ids, and yields the record's id, name and email with no admin role |
| UserRoutes.ListUsersAlwaysForbidden | server/api/user/user.routes.ts:65-80 | with the lookup backed by this generation's table, every request that passes the gate (either version) and that the permission stage passes on unchanged gets 403 |
| UserRoutes.PermissionBeforeValidation | server/api/user/user.routes.ts:97-101 | on `PUT /user/:id` a refusal by the permission stage is the answer; validation does not run |
| NoteRoutes.Chain | server/api/notes/note.routes.ts:18-99 | `authenticate` first and only first everywhere; no validation; the admin stage exactly on the listing, the user permission stage exactly on a user's notes, the note permission stage exactly on `/notes/:id` |
| NoteRoutes.Handler | server/api/notes/note.routes.ts:18-99 | never passes on; success is 201 on create and 200 elsewhere; create hands the body over unchanged |
| NoteRoutes.CreatorNotFromUser | server/api/notes/note.routes.ts:23 | what is created does not depend on the authenticated user |
| NoteRoutes.NoTokenNoCall | server/api/notes/note.routes.ts:18-99 | every note route answers a tokenless request with 401 and makes no controller call |
| NoteRoutes.CreateAnswers | server/api/notes/note.routes.ts:18-29 | an accepted `POST /notes` is answered 201 with the created note, or the error forwarded |
| NoteRoutes.NoteIdComparedWithUserId | server/api/notes/note.routes.ts:59-63 | a non-admin token on a note id other than its user id gets 403 before any note stage |

## Left out

- jsonwebtoken and bcrypt are function parameters. The token's `expiresIn` and `iat`/`exp` are not modelled.
- The Mongoose query engine is left out. Collation strength 2 is an abstract key function. `.select` is a projection. `findByIdAndUpdate` merges with an abstract `merge`. A malformed id (`CastError`) is not modelled.
- Results come back as sets. The order of `find` results and the order of search results are not captured.
- Each request runs on its own, with no interleaving. Awaiting, and the un-awaited `save()` of the oldest `updateUser`, are not modelled.
- The bodies of `adminOnly`, `checkPermissionsUser` and `checkPermissionsNote` are not part of this model. They are arbitrary stages supplied by the environment.
- The note router calls pass-throughs in `server/api/notes/note.controller.ts`. They are modelled as abstract calls. `getNotesByName` builds a regular expression from user input and is not modelled.
- `escape()`, Yup's type casting and the email-format tests are outside the model. Email format is an abstract predicate.
- Lengths are counted in code points, not in UTF-16 units as JavaScript counts them.
- The stack trace and `NODE_ENV` are parameters of `ErrorHandler`. `server/app.ts` does not install the error middleware. Express's path matching and bootstrap are not modelled.
- Query values that arrive as arrays are not modelled. Neither are claims whose `user` lacks `_id`.
- `ValidationMiddleware.ValidateSchema`: the answer carries one failing rule's message. Which one Yup reports when several fail is not fixed. The serialised error object is not modelled.
- `UsersRoutes.LoginHandler`, `UserRoutes.LoginHandler`: the password is assumed present. The login schema guarantees this. Without it, bcrypt's own error would be forwarded.
- `UsersController.UserTable.UpdateUser`, `UserController.UserTable.UpdateUser`, `LegacyUserController.UserTable.UpdateUser`: the "other holder of this email" test is "owners minus this id". That equals the source's single `findOne` only while emails are unique, which every table's `Valid()` keeps.
- `Validators.UpdateErrors`: JSON `null` and other non-string field values are not modelled; a field is either absent or a string. The source's `optional()` skips only an absent field, and it checks a `null` one as "", so `{"email": null}` and `{"password": null}` are rejected there.
- `Errors.ErrorHandler`: the `next()` that follows `res.json(...)` is not modelled. The handler is the last stage, so that call changes nothing in the response.
- `Validators.LoginErrors`: it states when the login chains pass. It does not state which field each message names.

## Findings

| source | as written | input that shows it | evidently intended | confidence | as-written member | corrected member |
|---|---|---|---|---|---|---|
| server/middleware/authMiddleware.ts:23-25 | the user lookup (`getUserById`) resolves `null` for a missing user, and `next()` runs with `req.user = null` | a verified token whose `user._id` names a deleted user, on a route without `id` | answer 401, as the older gate does at src/middlewares/authMiddleware.ts:18-21 | not executed | ServerAuth.DeletedUserProceeds | ServerAuth.AuthenticateChecked |

The routes run the gate as written; `Routing.Env.gate == Corrected` selects the corrected
gate through `Routing.GateOutcome`. `UsersRoutes.MeDeletedUser` shows the difference on
`GET /users/me`.
