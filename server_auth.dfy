/** The `authenticate` middleware of the server generation: extracts the bearer token,
    verifies it, compares the route's `id` with the token's user unless the token claims an
    admin, looks the user up, and attaches it as `req.user`. Every thrown error is answered
    with 401; the identity mismatch is answered with 403. */
module ServerAuth {
  import opened Wrappers
  import opened Strings
  import opened Http

  const BearerPrefix := "Bearer "
  const UnauthorizedPrefix := "Unauthorized - "
  const NoTokenMessage := "No token provided"
  const ForbiddenMessage := "Forbidden access"
  /** The runtime's message when `decoded.user._id` is read from claims without `user`. */
  const MissingUserMessage := "Cannot read properties of undefined (reading '_id')"
  /** The message the corrected gate reports for a token whose user no longer exists. */
  const NotFoundMessage := "User was not found"

  /** What the middleware does with the request: call `next()` with `req.user` set, or
      answer with `res.status(status).send(message)` and stop. */
  datatype AuthOutcome<U> = Proceed(user: U) | Deny(status: int, message: string)

  /** `jwt.verify` with the process's secret: the claims, or the verifier's error message. */
  type Verifier = string -> Result<Claims, string>

  /** The user lookup by id: a user, `null`, or a rejection with a message. */
  type Lookup = string -> Result<Option<Principal>, string>

  /** `req.header("Authorization")?.replace("Bearer ", "")`. */
  function Token(header: Option<string>): (t: Option<string>)
    ensures t.None? <==> header.None?
    ensures header.Some? ==> t == Some(ReplaceFirst(header.value, BearerPrefix, ""))
    ensures header.Some? && (forall j :: !OccursAt(header.value, BearerPrefix, j)) ==> t == header
    ensures header.Some? && |BearerPrefix| <= |header.value| && header.value[..|BearerPrefix|] == BearerPrefix ==>
              t == Some(header.value[|BearerPrefix|..])
  {
    match header
    case None => None
    case Some(h) =>
      if |BearerPrefix| <= |h| && h[..|BearerPrefix|] == BearerPrefix then
        assert h == BearerPrefix + h[|BearerPrefix|..];
        ReplaceLeading(BearerPrefix, h[|BearerPrefix|..]);
        Some(ReplaceFirst(h, BearerPrefix, ""))
      else Some(ReplaceFirst(h, BearerPrefix, ""))
  }

  /** `Bearer <t>` yields `t`; a header without `Bearer ` anywhere is used whole. */
  lemma TokenOfHeader(t: string, h: string)
    ensures Token(Some(BearerPrefix + t)) == Some(t)
    ensures (forall j :: !OccursAt(h, BearerPrefix, j)) ==> Token(Some(h)) == Some(h)
  {
    ReplaceLeading(BearerPrefix, t);
  }

  /** The token is present and its verification succeeded. */
  predicate Verified(header: Option<string>, verify: Verifier) {
    Truthy(Token(header)) && verify(Token(header).value).Success?
  }

  /** The verified claims carry a `user`. */
  predicate HasUserClaim(header: Option<string>, verify: Verifier) {
    Verified(header, verify) && verify(Token(header).value).value.user.Some?
  }

  /** The `user` claim of a verified token. */
  function ClaimedUser(header: Option<string>, verify: Verifier): ClaimUser
    requires HasUserClaim(header, verify)
  {
    verify(Token(header).value).value.user.value
  }

  /** The identity comparison fails: the claim is not admin, the route has a truthy `id`,
      and it differs from the claimed `_id`. */
  predicate IdMismatch(header: Option<string>, routeId: Option<string>, verify: Verifier)
    requires HasUserClaim(header, verify)
  {
    !ClaimedUser(header, verify).isAdmin && Truthy(routeId) && routeId.value != ClaimedUser(header, verify).id
  }

  /** The middleware as written. A missing or empty token is answered before `verify` runs;
      a verifier error, a token without `user`, and a lookup rejection are answered with 401;
      an identity mismatch is answered with 403 before the lookup; otherwise `next()` runs
      with whatever the lookup resolved to, `null` included. */
  function Authenticate(header: Option<string>, routeId: Option<string>, verify: Verifier, lookup: Lookup)
    : (o: AuthOutcome<Option<Principal>>)
    ensures !Truthy(Token(header)) ==> o == Deny(401, UnauthorizedPrefix + NoTokenMessage)
    ensures Truthy(Token(header)) && verify(Token(header).value).Failure? ==>
              o == Deny(401, UnauthorizedPrefix + verify(Token(header).value).error)
    ensures Verified(header, verify) && !HasUserClaim(header, verify) ==>
              o == Deny(401, UnauthorizedPrefix + MissingUserMessage)
    ensures (o.Deny? && o.status == 403) <==> HasUserClaim(header, verify) && IdMismatch(header, routeId, verify)
    ensures o.Deny? ==> o.status == 401 || o.message == ForbiddenMessage
    ensures o.Proceed? <==>
              HasUserClaim(header, verify) && !IdMismatch(header, routeId, verify) &&
              lookup(ClaimedUser(header, verify).id).Success?
    ensures o.Proceed? ==> o.user == lookup(ClaimedUser(header, verify).id).value
    ensures HasUserClaim(header, verify) && !IdMismatch(header, routeId, verify) &&
            lookup(ClaimedUser(header, verify).id).Failure? ==>
              o == Deny(401, UnauthorizedPrefix + lookup(ClaimedUser(header, verify).id).error)
  {
    var token := Token(header);
    if !Truthy(token) then Deny(401, UnauthorizedPrefix + NoTokenMessage)
    else
      match verify(token.value)
      case Failure(msg) => Deny(401, UnauthorizedPrefix + msg)
      case Success(claims) =>
        if claims.user.None? then Deny(401, UnauthorizedPrefix + MissingUserMessage)
        else if !claims.user.value.isAdmin && Truthy(routeId) && routeId.value != claims.user.value.id
        then Deny(403, ForbiddenMessage)
        else
          match lookup(claims.user.value.id)
          case Failure(msg) => Deny(401, UnauthorizedPrefix + msg)
          case Success(u) => Proceed(u)
  }

  /** Without a token neither the verifier nor the lookup is consulted: any two of them
      give the same answer. */
  lemma NoTokenConsultsNothing(header: Option<string>, routeId: Option<string>,
                               verify1: Verifier, verify2: Verifier, lookup1: Lookup, lookup2: Lookup)
    requires !Truthy(Token(header))
    ensures Authenticate(header, routeId, verify1, lookup1) == Authenticate(header, routeId, verify2, lookup2)
  {
  }

  /** A 403 is decided before the lookup: it does not depend on the lookup at all. */
  lemma ForbiddenBeforeLookup(header: Option<string>, routeId: Option<string>, verify: Verifier,
                              lookup1: Lookup, lookup2: Lookup)
    requires Authenticate(header, routeId, verify, lookup1).Deny?
    requires Authenticate(header, routeId, verify, lookup1).status == 403
    ensures Authenticate(header, routeId, verify, lookup2) == Authenticate(header, routeId, verify, lookup1)
  {
  }

  /** An admin claim, taken from the token and not from the store, or a route without an
      `id`, never draws a 403. */
  lemma AdminOrIdlessNeverForbidden(header: Option<string>, routeId: Option<string>, verify: Verifier, lookup: Lookup)
    requires HasUserClaim(header, verify)
    requires ClaimedUser(header, verify).isAdmin || !Truthy(routeId)
    ensures Authenticate(header, routeId, verify, lookup).Deny? ==> Authenticate(header, routeId, verify, lookup).status == 401
  {
  }

  /** As written, a verified token whose user is gone (the lookup resolves `null`) still
      reaches `next()`, with `req.user` set to `null`. */
  lemma DeletedUserProceeds(header: Option<string>, routeId: Option<string>, verify: Verifier, lookup: Lookup)
    requires HasUserClaim(header, verify) && !IdMismatch(header, routeId, verify)
    requires lookup(ClaimedUser(header, verify).id) == Success(None)
    ensures Authenticate(header, routeId, verify, lookup) == Proceed(None)
  {
  }

  /** The gate with the evidently intended treatment of a user that no longer exists: a
      lookup resolving `null` is answered with 401 too. Every other answer is the one of
      `Authenticate`, and `next()` is reached only with a user the lookup found for the
      token's own `_id`. */
  function AuthenticateChecked(header: Option<string>, routeId: Option<string>, verify: Verifier, lookup: Lookup)
    : (o: AuthOutcome<Principal>)
    ensures o.Proceed? ==>
              HasUserClaim(header, verify) && !IdMismatch(header, routeId, verify) &&
              lookup(ClaimedUser(header, verify).id) == Success(Some(o.user))
    ensures Authenticate(header, routeId, verify, lookup).Deny? ==>
              o == Deny(Authenticate(header, routeId, verify, lookup).status,
                        Authenticate(header, routeId, verify, lookup).message)
    ensures Authenticate(header, routeId, verify, lookup) == Proceed(None) ==>
              o == Deny(401, UnauthorizedPrefix + NotFoundMessage)
    ensures Authenticate(header, routeId, verify, lookup).Proceed? &&
            Authenticate(header, routeId, verify, lookup).user.Some? ==>
              o == Proceed(Authenticate(header, routeId, verify, lookup).user.value)
  {
    match Authenticate(header, routeId, verify, lookup)
    case Proceed(Some(u)) => Proceed(u)
    case Proceed(None) => Deny(401, UnauthorizedPrefix + NotFoundMessage)
    case Deny(status, message) => Deny(status, message)
  }
}
