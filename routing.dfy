/** The middleware the server's routers chain, as pipeline stages over one request.
    `authenticate` is the server gate, as written or with the corrected treatment of a
    deleted user, and `validateSchema` the Yup stage; the bodies of `adminOnly`,
    `checkPermissionsUser` and `checkPermissionsNote` are not part of this model, so they
    are stages supplied by the environment. */
module Routing {
  import opened Wrappers
  import opened Http
  import opened Errors
  import opened Pipeline
  import ServerAuth
  import ValidationSchema
  import ValidationMiddleware

  /** What one stage, or a whole route, does with a request carrying a body of type `B`
      when its responses carry JSON values of type `P`. */
  type Reply<B, P> = Step<Request<B>, Body<P>, Error>

  type Stage<!B, P> = Request<B> -> Reply<B, P>

  /** A middleware as it is named in a route registration. */
  datatype Middleware =
    | Authenticate
    | AdminOnly
    | CheckPermissionsUser
    | CheckPermissionsNote
    | Validate(schema: ValidationSchema.Schema)

  /** Which `authenticate` the routes run: the gate as written, which lets a deleted user
      through with `req.user` set to `null`, or the corrected gate, which answers 401. */
  datatype GateVersion = AsWritten | Corrected

  /** The collaborators of the stages: `jwt.verify`, the user lookup behind
      `authenticate`, the three permission stages, the email predicate the schemas use,
      how the user fields are read from a body, and the gate version. */
  datatype Env<!B, P> = Env(verify: ServerAuth.Verifier, lookup: ServerAuth.Lookup,
                           adminOnly: Stage<B, P>, checkPermissionsUser: Stage<B, P>,
                           checkPermissionsNote: Stage<B, P>,
                           isEmail: string -> bool, fields: B -> UserFields,
                           gate: GateVersion)

  /** What `authenticate` decides for a request. The two versions differ only where the
      gate as written passes on a `null` user: the corrected one answers 401 there. */
  function GateOutcome<B, P>(env: Env<B, P>, req: Request<B>): (o: ServerAuth.AuthOutcome<Option<Principal>>)
    ensures env.gate == AsWritten ==>
              o == ServerAuth.Authenticate(req.authorization, req.id, env.verify, env.lookup)
    ensures env.gate == Corrected &&
            ServerAuth.Authenticate(req.authorization, req.id, env.verify, env.lookup) != ServerAuth.Proceed(None) ==>
              o == ServerAuth.Authenticate(req.authorization, req.id, env.verify, env.lookup)
    ensures env.gate == Corrected &&
            ServerAuth.Authenticate(req.authorization, req.id, env.verify, env.lookup) == ServerAuth.Proceed(None) ==>
              o == ServerAuth.Deny(401, ServerAuth.UnauthorizedPrefix + ServerAuth.NotFoundMessage)
    ensures env.gate == Corrected && o.Proceed? ==> o.user.Some?
  {
    match env.gate
    case AsWritten => ServerAuth.Authenticate(req.authorization, req.id, env.verify, env.lookup)
    case Corrected =>
      match ServerAuth.AuthenticateChecked(req.authorization, req.id, env.verify, env.lookup)
      case Proceed(u) => ServerAuth.Proceed(Some(u))
      case Deny(status, message) => ServerAuth.Deny(status, message)
  }

  /** `authenticate`: a refusal is written as a text response with its status; success
      passes the request on with `req.user` set to what the lookup resolved, and nothing
      else. */
  function AuthStage<B, P>(env: Env<B, P>, req: Request<B>): (s: Reply<B, P>)
    ensures s.Next? <==> GateOutcome(env, req).Proceed?
    ensures s.Next? ==> s.req == req.(user := GateOutcome(env, req).user)
    ensures !s.Next? ==>
              var o := GateOutcome(env, req);
              s == Respond(o.status, Text(o.message))
  {
    match GateOutcome(env, req)
    case Proceed(u) => Next(req.(user := u))
    case Deny(status, message) => Respond(status, Text(message))
  }

  /** `validateSchema(schema)`: the request passes on unchanged, or 400 with the error. */
  function ValidateStage<B, P>(schema: ValidationSchema.Schema, env: Env<B, P>, req: Request<B>): (s: Reply<B, P>)
    ensures s.Next? <==> ValidationSchema.Failures(schema, env.fields(req.body), env.isEmail) == []
    ensures s.Next? ==> s.req == req
    ensures !s.Next? ==>
              s.Respond? && s.status == 400 && s.body.Invalid? &&
              s.body.error in ValidationSchema.Failures(schema, env.fields(req.body), env.isEmail)
  {
    match ValidationMiddleware.ValidateSchema(schema, env.fields(req.body), env.isEmail)
    case CallNext => Next(req)
    case Reject(status, error) => Respond(status, Invalid(error))
  }

  /** The stage a middleware name stands for; the permission stages are those of the
      environment. */
  function Interp<B, P>(m: Middleware, env: Env<B, P>): (st: Stage<B, P>)
    ensures m == AdminOnly ==> st == env.adminOnly
    ensures m == CheckPermissionsUser ==> st == env.checkPermissionsUser
    ensures m == CheckPermissionsNote ==> st == env.checkPermissionsNote
  {
    match m
    case Authenticate => req => AuthStage(env, req)
    case AdminOnly => env.adminOnly
    case CheckPermissionsUser => env.checkPermissionsUser
    case CheckPermissionsNote => env.checkPermissionsNote
    case Validate(schema) => req => ValidateStage(schema, env, req)
  }

  /** What a named stage does with one request: `authenticate` passes it on exactly when
      the gate proceeds, with `req.user` set, and otherwise answers with the gate's status;
      a schema stage passes it on unchanged exactly when the body has no failures, and
      otherwise answers 400. */
  lemma InterpStage<B, P>(m: Middleware, env: Env<B, P>, req: Request<B>)
    ensures m == Authenticate ==>
              (Interp(m, env)(req).Next? <==> GateOutcome(env, req).Proceed?) &&
              (Interp(m, env)(req).Next? ==> Interp(m, env)(req).req == req.(user := GateOutcome(env, req).user)) &&
              (!Interp(m, env)(req).Next? ==> Interp(m, env)(req) == Respond(GateOutcome(env, req).status, Text(GateOutcome(env, req).message)))
    ensures m.Validate? ==>
              (Interp(m, env)(req).Next? <==>
                 ValidationSchema.Failures(m.schema, env.fields(req.body), env.isEmail) == []) &&
              (Interp(m, env)(req).Next? ==> Interp(m, env)(req).req == req) &&
              (!Interp(m, env)(req).Next? ==> Interp(m, env)(req).Respond? && Interp(m, env)(req).status == 400)
  {
  }

  /** The stages of a registration, in the order written. */
  function Stages<B, P>(ms: seq<Middleware>, env: Env<B, P>): (r: seq<Stage<B, P>>)
    ensures |r| == |ms|
    ensures forall i :: 0 <= i < |ms| ==> r[i] == Interp(ms[i], env)
  {
    if ms == [] then [] else [Interp(ms[0], env)] + Stages(ms[1..], env)
  }

  /** A route: its middleware, then the handler. The handler runs exactly when every
      middleware passed the request on, and then on the request the middleware passed;
      otherwise the first middleware to answer decides. */
  function Handle<B, P>(ms: seq<Middleware>, env: Env<B, P>, handler: Stage<B, P>, req: Request<B>): (s: Reply<B, P>)
    ensures Run(Stages(ms, env), req).Next? ==> s == handler(Run(Stages(ms, env), req).req)
    ensures !Run(Stages(ms, env), req).Next? ==> s == Run(Stages(ms, env), req)
  {
    RunThenLast(Stages(ms, env), handler, req);
    Run(Stages(ms, env) + [handler], req)
  }

  /** A route that starts with `authenticate`: a refused request is answered by the gate
      and reaches nothing after it; an accepted one continues with `req.user` set. */
  lemma AuthenticateFirst<B, P>(ms: seq<Middleware>, env: Env<B, P>, handler: Stage<B, P>, req: Request<B>)
    requires |ms| > 0 && ms[0] == Authenticate
    ensures GateOutcome(env, req).Deny? ==>
              var o := GateOutcome(env, req);
              Handle(ms, env, handler, req) == Respond(o.status, Text(o.message))
    ensures GateOutcome(env, req).Proceed? ==>
              Handle(ms, env, handler, req) == Handle(ms[1..], env, handler, req.(user := GateOutcome(env, req).user))
  {
    var all := Stages(ms, env) + [handler];
    assert all[0] == Interp(Authenticate, env);
    assert all[1..] == Stages(ms[1..], env) + [handler];
  }

  /** On a route `authenticate, m, ...`, an accepted request that `m` stops is answered by
      `m`: nothing after the second stage runs. */
  lemma SecondStageDecides<B, P>(ms: seq<Middleware>, env: Env<B, P>, handler: Stage<B, P>, req: Request<B>)
    requires |ms| >= 2 && ms[0] == Authenticate
    requires GateOutcome(env, req).Proceed?
    requires !Interp(ms[1], env)(req.(user := GateOutcome(env, req).user)).Next?
    ensures Handle(ms, env, handler, req) == Interp(ms[1], env)(req.(user := GateOutcome(env, req).user))
  {
    AuthenticateFirst(ms, env, handler, req);
    var rest := Stages(ms[1..], env) + [handler];
    assert rest[0] == Interp(ms[1], env);
  }

  /** On a route that starts with `authenticate`, a request without a usable token gets
      401 "Unauthorized - No token provided", whatever the rest of the route is. */
  lemma NoTokenAnswered<B, P>(ms: seq<Middleware>, env: Env<B, P>, handler: Stage<B, P>, req: Request<B>)
    requires |ms| > 0 && ms[0] == Authenticate
    requires !Truthy(ServerAuth.Token(req.authorization))
    ensures Handle(ms, env, handler, req) ==
              Respond(401, Text(ServerAuth.UnauthorizedPrefix + ServerAuth.NoTokenMessage))
  {
    AuthenticateFirst(ms, env, handler, req);
  }

  /** A handler that makes one controller call and answers with `status` and its result;
      a rejected call is forwarded with `next(error)` rather than answered in place. */
  function Answer<B, P>(status: int, r: Result<P, Error>): (s: Reply<B, P>)
    ensures r.Failure? <==> s.Raise?
    ensures r.Failure? ==> s.error == r.error
    ensures r.Success? ==> s == Respond(status, Json(r.value))
  {
    match r
    case Success(v) => Respond(status, Json(v))
    case Failure(e) => Raise(e)
  }
}
