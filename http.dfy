/** The request-side values the middleware and handlers read: the token claims, the
    resolved principal, request bodies and queries, and response bodies. */
module Http {
  import opened Wrappers

  /** JavaScript truthiness of an optional string: present and non-empty. */
  predicate Truthy(f: Option<string>) {
    f.Some? && f.value != ""
  }

  /** The `user` object inside a token's payload. An absent `isAdmin` reads as false; the
      hash is present only when a whole stored record was signed. */
  datatype ClaimUser = ClaimUser(id: string, name: string, email: string, isAdmin: bool,
                                 passwordHash: Option<string>)

  /** A verified token payload; `user` may be missing from a token signed elsewhere. */
  datatype Claims = Claims(user: Option<ClaimUser>)

  /** The user record the authentication lookup yields and attaches as `req.user`. */
  datatype Principal = Principal(id: string, name: string, email: string, isAdmin: bool)

  /** `req.body` on the user routes: every field may be missing. */
  datatype UserFields = UserFields(name: Option<string>, email: Option<string>, password: Option<string>)

  /** `req.query` on `/users/search`. */
  datatype Query = Query(id: Option<string>, name: Option<string>, email: Option<string>)

  /** What a response carries: plain text (`res.send(string)`), a JSON value, or the
      validation error sent by the schema stage. */
  datatype Body<P> = Text(text: string) | Json(value: P) | Invalid(error: string)

  /** One request travelling through a route: the `Authorization` header, the route's `id`
      parameter (absent on routes without `:id`), the query, the body, and `req.user`. */
  datatype Request<B> = Request(authorization: Option<string>, id: Option<string>, query: Query,
                                body: B, user: Option<Principal>)
}
