/** The authentication gate (middlewares/auth.js): takes a bearer token from
    the Authorization header and admits the request when the token verifier
    accepts it. The verifier (JWT signature and expiry checks) is a parameter. */
module Auth {
  import opened Wrappers
  import opened Json
  import opened Domain

  const Prefix: string := "Bearer "

  /** The outcome of the gate: a 401 answer, or the verifier's payload as
      `req.user` followed by a single call to the next handler. */
  datatype AuthOutcome = Unauthorized(response: Response) | Admitted(user: Principal)

  /** The token: the header without its first seven characters when it starts
      with `Bearer ` (case-sensitive). An absent header counts as empty, and an
      empty token as none. */
  function BearerToken(header: Option<string>): (r: Option<string>)
    ensures r.Some? <==> header.Some? && Prefix <= header.value && |header.value| > |Prefix|
    ensures r.Some? ==> header.value == Prefix + r.value && r.value != ""
  {
    var h := header.GetOr("");
    if Prefix <= h && h[7..] != "" then
      assert h == Prefix + h[7..];
      Some(h[7..])
    else None
  }

  /** requireAuth with the verifier `verify`, which yields the payload of a
      valid token and nothing for an invalid one. */
  function RequireAuth(header: Option<string>, verify: string -> Option<Principal>): (r: AuthOutcome)
    ensures BearerToken(header).None? ==> r == Unauthorized(Response(401, ErrorBody("Missing token")))
    ensures BearerToken(header).Some? && verify(BearerToken(header).value).None? ==>
              r == Unauthorized(Response(401, ErrorBody("Invalid token")))
    ensures r.Admitted? <==> BearerToken(header).Some? && verify(BearerToken(header).value).Some?
    ensures r.Admitted? ==> r.user == verify(BearerToken(header).value).value
  {
    match BearerToken(header)
    case None => Unauthorized(Response(401, ErrorBody("Missing token")))
    case Some(token) =>
      match verify(token)
      case None => Unauthorized(Response(401, ErrorBody("Invalid token")))
      case Some(payload) => Admitted(payload)
  }

  /** The token written after `Bearer ` is the one handed to the verifier. */
  lemma TokenRoundTrip(token: string)
    requires token != ""
    ensures BearerToken(Some(Prefix + token)) == Some(token)
  {
    assert Prefix <= Prefix + token;
    assert (Prefix + token)[7..] == token;
  }

  /** A lower-case scheme, a bare `Bearer ` and a missing header all count as
      a missing token, whatever the verifier would say. */
  lemma MissingTokenCases(verify: string -> Option<Principal>)
    ensures RequireAuth(None, verify) == Unauthorized(Response(401, ErrorBody("Missing token")))
    ensures RequireAuth(Some("Bearer "), verify) == Unauthorized(Response(401, ErrorBody("Missing token")))
    ensures RequireAuth(Some("bearer abc"), verify) == Unauthorized(Response(401, ErrorBody("Missing token")))
  {
    assert !(Prefix <= "bearer abc") by { assert "bearer abc"[0] != Prefix[0]; }
    assert "Bearer "[7..] == "";
  }
}
