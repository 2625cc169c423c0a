/** The user router of the middle generation (`server/api/user/user.routes.ts`): signup and
    login sign the whole stored record, login failures are answered in place, and
    `GET /users` checks the role of the user the gate attached. */
module UserRoutes {
  import opened Wrappers
  import opened Http
  import opened Errors
  import opened Pipeline
  import opened Routing
  import ServerAuth
  import ValidationSchema
  import opened UserController

  const InvalidCredentials := "Invalid credentials"
  const ForbiddenAccess := "Forbidden access"

  datatype Route = Signup | Login | ListUsers | GetUser | PutUser | DeleteUser

  /** What the handlers of this router send as JSON. */
  datatype Payload =
    | Session(user: UserDoc, token: string)
    | UserSet(users: set<UserView>)

  type UserReply = Reply<UserFields, Payload>

  /** The middleware registered before each handler, in order: `authenticate` first on
      every route but signup and login and nowhere else, no admin stage anywhere (the
      listing is guarded by the permission stage), and schema validation, where there is
      one, last. `/users` has no `:id`. */
  function Chain(route: Route): (r: seq<Middleware>)
    ensures r != []
    ensures r[0] == Authenticate <==> route != Signup && route != Login
    ensures forall i :: 1 <= i < |r| ==> r[i] != Authenticate
    ensures forall i :: 0 <= i < |r| && r[i].Validate? ==> i == |r| - 1
    ensures AdminOnly !in r
    ensures route != Signup && route != Login ==> CheckPermissionsUser in r
  {
    match route
    case Signup => [Validate(ValidationSchema.SignupSchema)]
    case Login => [Validate(ValidationSchema.LoginSchema)]
    case ListUsers => [Authenticate, CheckPermissionsUser]
    case GetUser => [Authenticate, CheckPermissionsUser]
    case PutUser => [Authenticate, CheckPermissionsUser, Validate(ValidationSchema.UpdateUserSchema)]
    case DeleteUser => [Authenticate, CheckPermissionsUser]
  }

  /** The `user` claim this generation signs: the entire stored record, password hash
      included; the record has no role, so the claim reads as not admin. */
  function SignedRecord(d: UserDoc): (c: Claims)
    ensures c.user.Some?
    ensures c.user.value.id == d.id && c.user.value.name == d.user.name && c.user.value.email == d.user.email
    ensures c.user.value.passwordHash == Some(d.user.passwordHash)
    ensures !c.user.value.isAdmin
  {
    Claims(Some(ClaimUser(d.id, d.user.name, d.user.email, false, Some(d.user.passwordHash))))
  }

  /** The signup handler after `createUser`: 201 with the record and its token, or the
      controller's error forwarded. */
  function SignupReply(created: Result<UserDoc, Error>, sign: Claims -> string): (s: UserReply)
    ensures created.Failure? ==> s == Raise(created.error)
    ensures created.Success? ==>
              s == Respond(201, Json(Session(created.value, sign(SignedRecord(created.value)))))
  {
    match created
    case Failure(e) => Raise(e)
    case Success(d) => Respond(201, Json(Session(d, sign(SignedRecord(d)))))
  }

  /** The login handler after `getUserByEmail`: 401 "Invalid credentials" as text, answered
      in place, for an unknown email and for a wrong password alike; otherwise 200 with the
      record and its token. */
  function LoginReply(found: Option<UserDoc>, password: string, compare: (string, string) -> bool,
                      sign: Claims -> string): (s: UserReply)
    ensures s.Respond?
    ensures s.status == 401 <==> found.None? || !compare(password, found.value.user.passwordHash)
    ensures s.status == 401 ==> s.body == Text(InvalidCredentials)
    ensures s.status != 401 ==>
              s == Respond(200, Json(Session(found.value, sign(SignedRecord(found.value)))))
  {
    if found.None? || !compare(password, found.value.user.passwordHash) then
      Respond(401, Text(InvalidCredentials))
    else
      Respond(200, Json(Session(found.value, sign(SignedRecord(found.value)))))
  }

  /** `POST /login` on the table: `email && getUserByEmail(email)`, then `LoginReply`. */
  method LoginHandler(table: UserTable, body: UserFields, compare: (string, string) -> bool, sign: Claims -> string)
    returns (found: Option<UserDoc>, s: UserReply)
    requires table.Valid()
    requires body.password.Some?
    ensures found.None? <==> !Truthy(body.email) || EmailOwners(table.users, body.email.value) == {}
    ensures found.Some? ==>
              found.value.id in table.users && table.users[found.value.id] == found.value.user &&
              found.value.user.email == body.email.value
    ensures s == LoginReply(found, body.password.value, compare, sign)
  {
    if Truthy(body.email) {
      found := table.GetUserByEmail(body.email.value);
    } else {
      found := None;
    }
    s := LoginReply(found, body.password.value, compare, sign);
  }

  /** The `GET /users` handler: 403 "Forbidden access" unless the attached user is an
      admin, else 200 with `users`, the result of `getUsers`. */
  function ListUsersReply(req: Request<UserFields>, users: set<UserView>): (s: UserReply)
    ensures s.Respond?
    ensures s.status == 403 <==> !(req.user.Some? && req.user.value.isAdmin)
    ensures s.status == 403 ==> s.body == Text(ForbiddenAccess)
    ensures s.status != 403 ==> s == Respond(200, Json(UserSet(users)))
  {
    if !(req.user.Some? && req.user.value.isAdmin) then Respond(403, Text(ForbiddenAccess))
    else Respond(200, Json(UserSet(users)))
  }

  /** A non-admin's answer does not depend on the users: they are not fetched for it. */
  lemma ForbiddenWithoutFetching(req: Request<UserFields>, a: set<UserView>, b: set<UserView>)
    requires !(req.user.Some? && req.user.value.isAdmin)
    ensures ListUsersReply(req, a) == ListUsersReply(req, b)
  {
  }

  /** `/users` carries no `id`, so the gate's identity comparison never answers 403 there. */
  lemma ListUsersGateNeverForbids(env: Env<UserFields, Payload>, req: Request<UserFields>)
    requires req.id.None?
    ensures GateOutcome(env, req).Deny? ==> GateOutcome(env, req).status == 401
  {
  }

  /** The lookup `authenticate` performs in this generation: `getUserById` of the table.
      It never rejects, finds exactly the stored ids, and the record has no role, so the
      user it yields is never an admin. */
  function StoreLookup(users: map<string, User>): (lookup: ServerAuth.Lookup)
    ensures forall id :: lookup(id).Success? && (lookup(id).value.Some? <==> id in users)
    ensures forall id :: id in users ==>
              lookup(id).value == Some(Principal(id, users[id].name, users[id].email, false))
  {
    id => Success(match ViewById(users, id)
                  case Some(v) => Some(Principal(v.id, v.name, v.email, false))
                  case None => None)
  }

  /** With the gate backed by this generation's table, `GET /users` answers every request
      that passes the permission stage with 403: no stored user counts as admin. */
  lemma ListUsersAlwaysForbidden(users: map<string, User>, env: Env<UserFields, Payload>, all: set<UserView>,
                                 req: Request<UserFields>)
    requires env.lookup == StoreLookup(users)
    requires GateOutcome(env, req).Proceed?
    requires
      var r1 := req.(user := GateOutcome(env, req).user);
      env.checkPermissionsUser(r1) == Next(r1)
    ensures Handle(Chain(ListUsers), env, r => ListUsersReply(r, all), req) == Respond(403, Text(ForbiddenAccess))
  {
    var r1 := req.(user := GateOutcome(env, req).user);
    var handler: Stage<UserFields, Payload> := r => ListUsersReply(r, all);
    AuthenticateFirst(Chain(ListUsers), env, handler, req);
    var rest: seq<Middleware> := [CheckPermissionsUser];
    assert Chain(ListUsers)[1..] == rest;
    assert Stages(rest, env) == [env.checkPermissionsUser];
    assert r1.user.None? || !r1.user.value.isAdmin;
  }

  /** On `PUT /user/:id` the permission stage runs before the body is validated. */
  lemma PermissionBeforeValidation(env: Env<UserFields, Payload>, handler: Stage<UserFields, Payload>,
                                   req: Request<UserFields>)
    requires GateOutcome(env, req).Proceed?
    requires !env.checkPermissionsUser(req.(user := GateOutcome(env, req).user)).Next?
    ensures Handle(Chain(PutUser), env, handler, req) == env.checkPermissionsUser(req.(user := GateOutcome(env, req).user))
  {
    SecondStageDecides(Chain(PutUser), env, handler, req);
  }
}
