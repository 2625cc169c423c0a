/** The `authenticate` middleware of the older generation: every failure, including a user
    that no longer exists, is answered with the same 401 `"Unauthorized"`; there is no
    route-id comparison. */
module LegacyAuth {
  import opened Wrappers
  import opened Http
  import ServerAuth

  const UnauthorizedMessage := "Unauthorized"

  /** The middleware: the token rule is the same first-occurrence `Bearer ` removal; `next()`
      runs exactly when the token verifies, names a user, and the lookup finds that user. */
  function Authenticate(header: Option<string>, verify: ServerAuth.Verifier, lookup: ServerAuth.Lookup)
    : (o: ServerAuth.AuthOutcome<Principal>)
    ensures o.Deny? ==> o == ServerAuth.Deny(401, UnauthorizedMessage)
    ensures o.Proceed? <==>
              ServerAuth.HasUserClaim(header, verify) &&
              lookup(ServerAuth.ClaimedUser(header, verify).id).Success? &&
              lookup(ServerAuth.ClaimedUser(header, verify).id).value.Some?
    ensures o.Proceed? ==> lookup(ServerAuth.ClaimedUser(header, verify).id) == Success(Some(o.user))
  {
    var token := ServerAuth.Token(header);
    if !Truthy(token) then ServerAuth.Deny(401, UnauthorizedMessage)
    else
      match verify(token.value)
      case Failure(_) => ServerAuth.Deny(401, UnauthorizedMessage)
      case Success(claims) =>
        if claims.user.None? then ServerAuth.Deny(401, UnauthorizedMessage)
        else
          match lookup(claims.user.value.id)
          case Success(Some(user)) => ServerAuth.Proceed(user)
          case _ => ServerAuth.Deny(401, UnauthorizedMessage)
  }

  /** A deleted user is indistinguishable from a bad token: both get the same answer. */
  lemma DeletedUserLikeBadToken(header: Option<string>, verify: ServerAuth.Verifier, lookup: ServerAuth.Lookup,
                                badVerify: ServerAuth.Verifier)
    requires ServerAuth.HasUserClaim(header, verify)
    requires lookup(ServerAuth.ClaimedUser(header, verify).id) == Success(None)
    requires Truthy(ServerAuth.Token(header)) && badVerify(ServerAuth.Token(header).value).Failure?
    ensures Authenticate(header, verify, lookup) == Authenticate(header, badVerify, lookup)
  {
  }

  /** On a route without `id` the older gate lets through exactly the requests the corrected
      server gate lets through, with the same user; only the wording of refusals differs. */
  lemma AgreesWithCheckedGate(header: Option<string>, verify: ServerAuth.Verifier, lookup: ServerAuth.Lookup)
    ensures Authenticate(header, verify, lookup).Proceed? <==>
            ServerAuth.AuthenticateChecked(header, None, verify, lookup).Proceed?
    ensures Authenticate(header, verify, lookup).Proceed? ==>
            Authenticate(header, verify, lookup).user == ServerAuth.AuthenticateChecked(header, None, verify, lookup).user
  {
  }
}
