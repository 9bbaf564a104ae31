/** The role gate (middlewares/rbac.js): admits an authenticated caller whose
    role is among the allowed ones and answers 403 otherwise. */
module Rbac {
  import opened Wrappers
  import opened Json
  import opened Domain

  /** Exactly one of the two happens: a 403 answer or the next handler. */
  datatype Gate = Forbidden(response: Response) | Next

  /** requireRole(...roles) applied to the caller `user` (`req.user`). */
  function RequireRole(user: Option<Principal>, roles: seq<string>): (g: Gate)
    ensures g.Next? <==> user.Some? && user.value.role in roles
    ensures g.Forbidden? ==> g.response == Response(403, ErrorBody("Forbidden"))
  {
    if user.None? || user.value.role !in roles then Forbidden(Response(403, ErrorBody("Forbidden")))
    else Next
  }

  /** An empty role list forbids everyone, and no list admits a request without
      a caller. */
  lemma NobodyWithoutRoles(user: Option<Principal>, roles: seq<string>)
    ensures RequireRole(user, []).Forbidden?
    ensures RequireRole(None, roles).Forbidden?
  {
  }

  /** Allowing more roles never forbids a caller that was admitted. */
  lemma MoreRolesAdmitMore(user: Option<Principal>, roles: seq<string>, more: seq<string>)
    requires RequireRole(user, roles).Next?
    ensures RequireRole(user, roles + more).Next?
  {
  }
}
