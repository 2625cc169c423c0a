/** The note router (`server/api/notes/note.routes.ts`): each route is `authenticate`, at
    most one permission stage, and a handler making one note-controller call. The calls
    are the `NoteCalls` supplied by the caller; each takes the route's `id` and the
    request body as they arrive. */
module NoteRoutes {
  import opened Wrappers
  import opened Http
  import opened Errors
  import opened Pipeline
  import opened Routing
  import ServerAuth

  datatype Route = CreateNote | ListNotes | UserNotes | GetNote | PutNote | DeleteNote

  /** The note-controller calls behind the handlers, each resolving to a JSON value or
      rejecting with an error. */
  datatype NoteCalls<!B, P> = NoteCalls(create: B -> Result<P, Error>, list: Result<P, Error>,
                                        byUser: Option<string> -> Result<P, Error>,
                                        byId: Option<string> -> Result<P, Error>,
                                        update: (Option<string>, B) -> Result<P, Error>,
                                        delete: Option<string> -> Result<P, Error>)

  /** The middleware registered before each handler, in order: `authenticate` first and
      only first on every route, no schema validation, the admin stage on the listing, the
      user permission stage on a user's notes and the note permission stage on `/notes/:id`. */
  function Chain(route: Route): (r: seq<Middleware>)
    ensures |r| >= 1 && r[0] == Authenticate
    ensures forall i :: 1 <= i < |r| ==> r[i] != Authenticate
    ensures forall i :: 0 <= i < |r| ==> !r[i].Validate?
    ensures route == ListNotes <==> AdminOnly in r
    ensures route == UserNotes <==> CheckPermissionsUser in r
    ensures route == GetNote || route == PutNote || route == DeleteNote <==> CheckPermissionsNote in r
  {
    match route
    case CreateNote => [Authenticate]
    case ListNotes => [Authenticate, AdminOnly]
    case UserNotes => [Authenticate, CheckPermissionsUser]
    case GetNote => [Authenticate, CheckPermissionsNote]
    case PutNote => [Authenticate, CheckPermissionsNote]
    case DeleteNote => [Authenticate, CheckPermissionsNote]
  }

  /** The status a handler answers with on success. */
  function SuccessStatus(route: Route): int {
    if route == CreateNote then 201 else 200
  }

  /** The handler of `route`: one controller call, answered with the route's status, or its
      rejection forwarded. `POST /notes` hands the body over exactly as received. */
  function Handler<B, P>(route: Route, calls: NoteCalls<B, P>, req: Request<B>): (s: Reply<B, P>)
    ensures !s.Next?
    ensures s.Respond? ==> s.status == SuccessStatus(route)
    ensures route == CreateNote ==> s == Answer(201, calls.create(req.body))
  {
    match route
    case CreateNote => Answer(201, calls.create(req.body))
    case ListNotes => Answer(200, calls.list)
    case UserNotes => Answer(200, calls.byUser(req.id))
    case GetNote => Answer(200, calls.byId(req.id))
    case PutNote => Answer(200, calls.update(req.id, req.body))
    case DeleteNote => Answer(200, calls.delete(req.id))
  }

  function Serve<B, P>(route: Route, env: Env<B, P>, calls: NoteCalls<B, P>, req: Request<B>): Reply<B, P> {
    Handle(Chain(route), env, r => Handler(route, calls, r), req)
  }

  /** The authenticated user plays no part in what `POST /notes` stores: the `creator` is
      whatever the body says. */
  lemma CreatorNotFromUser<B, P>(calls: NoteCalls<B, P>, req: Request<B>, u: Option<Principal>)
    ensures Handler(CreateNote, calls, req.(user := u)) == Handler(CreateNote, calls, req)
  {
  }

  /** Every note route answers a request without a usable token with 401 and makes no
      controller call. */
  lemma NoTokenNoCall<B, P>(route: Route, env: Env<B, P>, calls: NoteCalls<B, P>, req: Request<B>)
    requires !Truthy(ServerAuth.Token(req.authorization))
    ensures Serve(route, env, calls, req) ==
              Respond(401, Text(ServerAuth.UnauthorizedPrefix + ServerAuth.NoTokenMessage))
  {
    NoTokenAnswered(Chain(route), env, r => Handler(route, calls, r), req);
  }

  /** `POST /notes` with an accepted token: 201 with the created note, or the controller's
      error forwarded. */
  lemma CreateAnswers<B, P>(env: Env<B, P>, calls: NoteCalls<B, P>, req: Request<B>)
    requires GateOutcome(env, req).Proceed?
    ensures Serve(CreateNote, env, calls, req) == Answer(201, calls.create(req.body))
  {
    var handler: Stage<B, P> := r => Handler(CreateNote, calls, r);
    AuthenticateFirst(Chain(CreateNote), env, handler, req);
  }

  /** On `/notes/:id` the gate compares the NOTE's id with the token's user id: a
      non-admin token is refused with 403 for every note whose id is not its user's id,
      before the note's own permission stage or the controller is reached. */
  lemma NoteIdComparedWithUserId<B, P>(route: Route, env: Env<B, P>, calls: NoteCalls<B, P>, req: Request<B>)
    requires route == GetNote || route == PutNote || route == DeleteNote
    requires ServerAuth.HasUserClaim(req.authorization, env.verify)
    requires !ServerAuth.ClaimedUser(req.authorization, env.verify).isAdmin
    requires Truthy(req.id) && req.id.value != ServerAuth.ClaimedUser(req.authorization, env.verify).id
    ensures Serve(route, env, calls, req) == Respond(403, Text(ServerAuth.ForbiddenMessage))
  {
    AuthenticateFirst(Chain(route), env, r => Handler(route, calls, r), req);
  }
}
