/** Caller identification in the TypeScript handler: the checks `verifyJwt` makes around
    the signature verification, which is the oracle `jwtVerify`. */
module Identity {
  import opened JsRuntime

  /** What `jwtVerify` does with a token: reject it (bad signature, issuer, audience or
      expiry) or hand back the payload's `role` and `sub` claims. */
  datatype JwtVerdict = JwtRejected(message: string) | JwtClaims(role: Option<string>, sub: Option<string>)

  const BearerPrefix := "Bearer "
  const AuthenticatedRole := "authenticated"
  const MalformedHeaderMessage := "Missing or malformed Authorization header"
  const InvalidRoleMessage := "Invalid token role"
  const MissingSubMessage := "Token missing sub claim"

  /** A present header that starts with `Bearer ` (an empty header fails both tests). */
  predicate WellFormedHeader(header: Option<string>)
  {
    header.Some? && StartsWith(header.value, BearerPrefix)
  }

  /** Claims that name the authenticated role and a non-empty subject. */
  predicate Admits(v: JwtVerdict)
  {
    v.JwtClaims? && v.role == Some(AuthenticatedRole) && v.sub.Some? && v.sub.value != []
  }

  /** `verifyJwt(authHeader)`: the subject of a verified token, or the exception it
      throws. Only the library's own rejection is not an `AuthError`. */
  function VerifyJwt(header: Option<string>, jwtVerify: string -> JwtVerdict): (r: Result<string, Exception>)
    ensures r.Ok? <==> WellFormedHeader(header) && Admits(jwtVerify(header.value[7..]))
    ensures r.Ok? ==> r.value != [] && jwtVerify(header.value[7..]).sub == Some(r.value)
    ensures !WellFormedHeader(header) ==> r == Err(Exception(AuthError, MalformedHeaderMessage))
    ensures r.Err? && r.error.cls != AuthError ==>
              WellFormedHeader(header) && jwtVerify(header.value[7..]).JwtRejected?
    ensures WellFormedHeader(header) && jwtVerify(header.value[7..]).JwtRejected? ==>
              r == Err(Exception(GenericError, jwtVerify(header.value[7..]).message))
    ensures WellFormedHeader(header) ==>
              var v := jwtVerify(header.value[7..]);
              v.JwtClaims? && v.role != Some(AuthenticatedRole) ==>
                r == Err(Exception(AuthError, InvalidRoleMessage))
    ensures WellFormedHeader(header) ==>
              var v := jwtVerify(header.value[7..]);
              v.JwtClaims? && v.role == Some(AuthenticatedRole) && (v.sub.None? || v.sub.value == []) ==>
                r == Err(Exception(AuthError, MissingSubMessage))
  {
    if !WellFormedHeader(header) then Err(Exception(AuthError, MalformedHeaderMessage))
    else
      match jwtVerify(header.value[|BearerPrefix|..])
      case JwtRejected(m) => Err(Exception(GenericError, m))
      case JwtClaims(role, sub) =>
        if role != Some(AuthenticatedRole) then Err(Exception(AuthError, InvalidRoleMessage))
        else if sub.None? || sub.value == [] then Err(Exception(AuthError, MissingSubMessage))
        else Ok(sub.value)
  }
}
