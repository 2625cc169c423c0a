/** The user router of the newest generation (`server/api/users/user.routes.ts`): the stage
    chain of each route, the token issued at signup and login, the uniform login failure,
    and the `/users/search` selection. */
module UsersRoutes {
  import opened Wrappers
  import opened Http
  import opened Errors
  import opened Pipeline
  import opened Routing
  import ServerAuth
  import ValidationSchema
  import opened UsersController

  const UnauthorizedError := ExpressError("Unauthorized - Invalid credentials", 401)
  const InvalidSearch := ExpressError("Invalid search parameters", 400)

  datatype Route = Signup | Login | Me | ListUsers | Search | GetUser | PutUser | DeleteUser

  /** What the handlers of this router send. */
  datatype Payload =
    | TokenPayload(token: string)
    | CurrentUser(user: Option<Principal>)
    | UserSet(users: set<UserView>)

  type UserReply = Reply<UserFields, Payload>

  /** The middleware registered before each handler, in order: `authenticate` first on
      every protected route and nowhere else, the admin stage on the listing and the
      search, and schema validation, where there is one, last. */
  function Chain(route: Route): (r: seq<Middleware>)
    ensures r != []
    ensures r[0] == Authenticate <==> Protected(route)
    ensures forall i :: 1 <= i < |r| ==> r[i] != Authenticate
    ensures forall i :: 0 <= i < |r| && r[i].Validate? ==> i == |r| - 1
    ensures route == ListUsers || route == Search <==> AdminOnly in r
  {
    match route
    case Signup => [Validate(ValidationSchema.SignupSchema)]
    case Login => [Validate(ValidationSchema.LoginSchema)]
    case Me => [Authenticate]
    case ListUsers => [Authenticate, AdminOnly]
    case Search => [Authenticate, AdminOnly]
    case GetUser => [Authenticate, CheckPermissionsUser]
    case PutUser => [Authenticate, CheckPermissionsUser, Validate(ValidationSchema.UpdateUserSchema)]
    case DeleteUser => [Authenticate, CheckPermissionsUser]
  }

  /** Every route except signup and login is behind `authenticate`. */
  predicate Protected(route: Route) {
    route != Signup && route != Login
  }

  /** A protected route answers a request without a usable token with 401 and never
      reaches its handler, whatever that handler is. */
  lemma ProtectedNeedsToken(route: Route, env: Env<UserFields, Payload>, handler: Stage<UserFields, Payload>,
                            req: Request<UserFields>)
    requires Protected(route)
    requires !Truthy(ServerAuth.Token(req.authorization))
    ensures Handle(Chain(route), env, handler, req) ==
              Respond(401, Text(ServerAuth.UnauthorizedPrefix + ServerAuth.NoTokenMessage))
  {
    NoTokenAnswered(Chain(route), env, handler, req);
  }

  /** On `PUT /users/:id` the permission stage runs before the body is validated: when it
      stops an authenticated request, its answer is the route's answer. */
  lemma PermissionBeforeValidation(env: Env<UserFields, Payload>, handler: Stage<UserFields, Payload>,
                                   req: Request<UserFields>)
    requires GateOutcome(env, req).Proceed?
    requires !env.checkPermissionsUser(req.(user := GateOutcome(env, req).user)).Next?
    ensures Handle(Chain(PutUser), env, handler, req) == env.checkPermissionsUser(req.(user := GateOutcome(env, req).user))
  {
    SecondStageDecides(Chain(PutUser), env, handler, req);
  }

  /** The `user` claim signed at signup and login: `_id`, `name` and `email` of the record,
      never its role or its hash. */
  function TokenClaims(d: UserDoc): (c: Claims)
    ensures c.user.Some?
    ensures c.user.value.id == d.id && c.user.value.name == d.user.name && c.user.value.email == d.user.email
    ensures !c.user.value.isAdmin && c.user.value.passwordHash.None?
  {
    Claims(Some(ClaimUser(d.id, d.user.name, d.user.email, false, None)))
  }

  /** Because the issued claims never say admin, the gate compares the route's `id` with
      the token's user even when that user is an administrator. */
  lemma AdminTokenStillCompared(d: UserDoc, header: Option<string>, routeId: Option<string>,
                                verify: ServerAuth.Verifier, lookup: ServerAuth.Lookup)
    requires Truthy(ServerAuth.Token(header))
    requires verify(ServerAuth.Token(header).value) == Success(TokenClaims(d))
    requires Truthy(routeId) && routeId.value != d.id
    ensures ServerAuth.Authenticate(header, routeId, verify, lookup) ==
              ServerAuth.Deny(403, ServerAuth.ForbiddenMessage)
    ensures ServerAuth.AuthenticateChecked(header, routeId, verify, lookup) ==
              ServerAuth.Deny(403, ServerAuth.ForbiddenMessage)
  {
  }

  /** The signup handler after `createUser`: 201 with a token for the new record, or the
      controller's error forwarded. */
  function SignupReply(created: Result<UserDoc, Error>, sign: Claims -> string): (s: UserReply)
    ensures created.Failure? ==> s == Raise(created.error)
    ensures created.Success? ==> s == Respond(201, Json(TokenPayload(sign(TokenClaims(created.value)))))
  {
    match created
    case Failure(e) => Raise(e)
    case Success(d) => Respond(201, Json(TokenPayload(sign(TokenClaims(d)))))
  }

  /** `POST /signup` on the table: `createUser` with the validated fields, then
      `SignupReply`; `created` is what the controller returned. */
  method SignupHandler(table: UserTable, body: UserFields, sign: Claims -> string)
    returns (created: Result<UserDoc, Error>, s: UserReply)
    requires table.Valid()
    requires body.name.Some? && body.email.Some? && body.password.Some?
    modifies table
    ensures table.Valid()
    ensures created.Failure? <==> EmailOwners(old(table.users), table.collate, body.email.value) != {}
    ensures created.Failure? ==> created.error == UsedEmailError && table.users == old(table.users)
    ensures created.Success? ==>
              created.value.id !in old(table.users) &&
              created.value.user == User(body.name.value, body.email.value,
                                         table.hash(body.password.value, SaltRounds), false) &&
              table.users == old(table.users)[created.value.id := created.value.user]
    ensures s == SignupReply(created, sign)
  {
    created := table.CreateUser(body.name.value, body.email.value, body.password.value);
    s := SignupReply(created, sign);
  }

  /** The login handler after `getUser`: the same `UnauthorizedError` for an unknown email
      and for a wrong password; otherwise 200 with a token for the record found. */
  function LoginReply(found: Option<UserDoc>, password: string, compare: (string, string) -> bool,
                      sign: Claims -> string): (s: UserReply)
    ensures s.Raise? <==> found.None? || !compare(password, found.value.user.passwordHash)
    ensures s.Raise? ==> s.error == UnauthorizedError
    ensures !s.Raise? ==> s == Respond(200, Json(TokenPayload(sign(TokenClaims(found.value)))))
  {
    if found.None? then Raise(UnauthorizedError)
    else if !compare(password, found.value.user.passwordHash) then Raise(UnauthorizedError)
    else Respond(200, Json(TokenPayload(sign(TokenClaims(found.value)))))
  }

  /** A wrong password cannot be told apart from an unknown email. */
  lemma LoginFailuresIndistinguishable(d: UserDoc, password: string, compare: (string, string) -> bool,
                                       sign: Claims -> string)
    requires !compare(password, d.user.passwordHash)
    ensures LoginReply(Some(d), password, compare, sign) == LoginReply(None, password, compare, sign)
  {
  }

  /** `POST /login` on the table: `email && getUser(email)`, then `LoginReply`; `found` is
      the record the handler compared the password against. */
  method LoginHandler(table: UserTable, body: UserFields, compare: (string, string) -> bool, sign: Claims -> string)
    returns (found: Option<UserDoc>, s: UserReply)
    requires table.Valid()
    requires body.password.Some?
    ensures found.None? <==> !Truthy(body.email) || EmailOwners(table.users, table.collate, body.email.value) == {}
    ensures found.Some? ==>
              found.value.id in table.users && table.users[found.value.id] == found.value.user &&
              EmailOwners(table.users, table.collate, body.email.value) == {found.value.id}
    ensures s == LoginReply(found, body.password.value, compare, sign)
  {
    if Truthy(body.email) {
      found := table.GetUser(body.email.value);
    } else {
      found := None;
    }
    s := LoginReply(found, body.password.value, compare, sign);
  }

  /** `GET /users/me`: 200 with `req.user`. */
  function MeReply(req: Request<UserFields>): (s: UserReply)
    ensures s.Respond? && s.status == 200 && s.body == Json(CurrentUser(req.user))
  {
    Respond(200, Json(CurrentUser(req.user)))
  }

  /** `GET /users/me` answers an accepted token with exactly what the gate's lookup
      resolved. */
  lemma MeAnswersGateUser(env: Env<UserFields, Payload>, req: Request<UserFields>)
    requires GateOutcome(env, req).Proceed?
    ensures Handle(Chain(Me), env, MeReply, req) == Respond(200, Json(CurrentUser(GateOutcome(env, req).user)))
  {
    AuthenticateFirst(Chain(Me), env, MeReply, req);
  }

  /** `GET /users/me` for a verified token whose user was deleted: as written it answers
      200 with a `null` user; with the corrected gate it answers 401. */
  lemma MeDeletedUser(env: Env<UserFields, Payload>, req: Request<UserFields>)
    requires ServerAuth.HasUserClaim(req.authorization, env.verify)
    requires !ServerAuth.IdMismatch(req.authorization, req.id, env.verify)
    requires env.lookup(ServerAuth.ClaimedUser(req.authorization, env.verify).id) == Success(None)
    ensures env.gate == AsWritten ==>
              Handle(Chain(Me), env, MeReply, req) == Respond(200, Json(CurrentUser(None)))
    ensures env.gate == Corrected ==>
              Handle(Chain(Me), env, MeReply, req) ==
                Respond(401, Text(ServerAuth.UnauthorizedPrefix + ServerAuth.NotFoundMessage))
  {
    ServerAuth.DeletedUserProceeds(req.authorization, req.id, env.verify, env.lookup);
    AuthenticateFirst(Chain(Me), env, MeReply, req);
  }

  /** Which lookup `/users/search` performs. */
  datatype SearchBy = ById(id: string) | ByName(name: string) | ByEmail(email: string)

  /** The search parameter in force: `id` over `name` over `email`, each only when truthy. */
  function SearchKey(q: Query): (k: Option<SearchBy>)
    ensures Truthy(q.id) ==> k == Some(ById(q.id.value))
    ensures !Truthy(q.id) && Truthy(q.name) ==> k == Some(ByName(q.name.value))
    ensures !Truthy(q.id) && !Truthy(q.name) && Truthy(q.email) ==> k == Some(ByEmail(q.email.value))
    ensures k.None? <==> !Truthy(q.id) && !Truthy(q.name) && !Truthy(q.email)
  {
    if Truthy(q.id) then Some(ById(q.id.value))
    else if Truthy(q.name) then Some(ByName(q.name.value))
    else if Truthy(q.email) then Some(ByEmail(q.email.value))
    else None
  }

  /** A truthy `id` decides the search alone: the other parameters are never looked at. */
  lemma IdOverridesOthers(q1: Query, q2: Query)
    requires Truthy(q1.id) && q1.id == q2.id
    ensures SearchKey(q1) == SearchKey(q2)
  {
  }

  /** `GET /users/search` on the table. Without any truthy parameter it forwards
      `ExpressError("Invalid search parameters", 400)`. Otherwise it answers 200 with: for
      an `id`, that user or nobody; for a `name`, every user of that name under the
      collation; for an `email`, the one user whose email matches, or nobody. */
  method SearchHandler(table: UserTable, q: Query) returns (s: UserReply)
    requires table.Valid()
    ensures SearchKey(q).None? ==> s == Raise(InvalidSearch)
    ensures SearchKey(q).Some? ==> s.Respond? && s.status == 200 && s.body.Json? && s.body.value.UserSet?
    ensures SearchKey(q).Some? && SearchKey(q).value.ById? ==>
              var id := SearchKey(q).value.id;
              s.body.value.users == (if id in table.users then {Hide(id, table.users[id])} else {})
    ensures SearchKey(q).Some? && SearchKey(q).value.ByName? ==>
              s.body.value.users == table.GetUsersByName(SearchKey(q).value.name)
    ensures SearchKey(q).Some? && SearchKey(q).value.ByEmail? ==>
              var owners := EmailOwners(table.users, table.collate, SearchKey(q).value.email);
              (s.body.value.users == {} <==> owners == {}) &&
              forall v :: v in s.body.value.users ==> owners == {v.id} && v == Hide(v.id, table.users[v.id])
  {
    var users: set<UserView> := {};
    var key := SearchKey(q);
    if key.None? {
      return Raise(InvalidSearch);
    }
    match key.value {
      case ById(id) =>
        var user := table.GetUserById(id);
        users := if user.Some? then {user.value} else {};
      case ByName(name) =>
        users := table.GetUsersByName(name);
      case ByEmail(email) =>
        var user := table.GetUserByEmail(email);
        users := if user.Some? then {user.value} else {};
    }
    s := Respond(200, Json(UserSet(users)));
  }
}
