/**
 * The shape of `verifyToken`'s answer.  Signature and expiry checking is
 * delegated to the JOSE library and the signing secret; here it is an oracle
 * `jwtVerify` that yields the decoded payload of a valid token or nothing.
 */
module Auth {

  import opened Wrappers

  /** The claims the token was signed with (each may be missing from a payload). */
  datatype JwtClaims = JwtClaims(id: Option<int>, email: Option<string>, role: Option<string>, libraryId: Option<int>)

  /**
   * The decoded user as the gate reads it.  `library` is the field the gate
   * copies into `x-user-library-id`; `libraryId` is the field `verifyToken`
   * fills.  They are distinct properties of the same JavaScript object.
   */
  datatype Payload = Payload(id: Option<int>, email: Option<string>, role: Option<string>,
                             libraryId: Option<int>, library: Option<int>)

  /**
   * `verifyToken(token)`: null when verification fails, otherwise an object
   * with exactly `id`, `email`, `role` and `libraryId` copied from the claims.
   */
  function VerifyToken(jwtVerify: string -> Option<JwtClaims>, token: string): (r: Option<Payload>)
    ensures r.None? <==> jwtVerify(token).None?
    ensures r.Some? ==> r.value.library.None?
  {
    match jwtVerify(token)
    case None => None
    case Some(c) => Some(Payload(c.id, c.email, c.role, c.libraryId, None))
  }

  /** `verifyToken` as the oracle the gate calls. */
  function VerifyTokenOracle(jwtVerify: string -> Option<JwtClaims>): string -> Option<Payload> {
    token => VerifyToken(jwtVerify, token)
  }
}
