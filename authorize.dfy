/**
 * `authorize(roles)`: a one-element middleware chain that lets a request through only when the
 * role on `req.user` is one of the allowed roles.
 */
module Authorize {
  import opened Wrappers
  import opened Text
  import opened AuthMiddleware

  /** The argument: one role name, or a list of them (absent means the empty list). */
  datatype Roles = OneRole(name: string) | RoleList(names: seq<string>)

  /** The role check the returned middleware performs. */
  datatype Guard = Guard(allowed: seq<string>)

  const InsufficientRole := Refuse(403, "Forbidden: insufficient role")

  /** A single string becomes a one-element list. */
  function Normalize(roles: Option<Roles>): (r: seq<string>)
    ensures roles.Some? && roles.value.OneRole? ==> r == [roles.value.name]
    ensures roles.Some? && roles.value.RoleList? ==> r == roles.value.names
    ensures roles.None? ==> r == []
  {
    match roles
    case None => []
    case Some(OneRole(n)) => [n]
    case Some(RoleList(ns)) => ns
  }

  function Chain(roles: Option<Roles>): (chain: seq<Guard>)
    ensures |chain| == 1 && chain[0].allowed == Normalize(roles)
  {
    [Guard(Normalize(roles))]
  }

  /** `!userRole || !roles.includes(userRole)` refuses. */
  function Check(g: Guard, user: Option<Payload>): (d: Decision)
    ensures d == Proceed <==> user.Some? && Given(user.value.role) && user.value.role.value in g.allowed
    ensures d != Proceed ==> d == InsufficientRole
  {
    if user.None? || !Given(user.value.role) || user.value.role.value !in g.allowed then InsufficientRole
    else Proceed
  }

  /** An empty list (the default) refuses everyone. */
  lemma EmptyListRefusesAll(user: Option<Payload>)
    ensures Check(Chain(None)[0], user) == InsufficientRole
    ensures Check(Chain(Some(RoleList([])))[0], user) == InsufficientRole
  {
  }

  /** The tokens this server signs carry no role, so every guarded route refuses them. */
  lemma SignedPayloadRefused(roles: Option<Roles>, id: string)
    ensures Check(Chain(roles)[0], Some(Payload(Some(id), None))) == InsufficientRole
  {
  }

  /** A role string and the one-element list with that string guard alike. */
  lemma OneRoleIsList(name: string, user: Option<Payload>)
    ensures Check(Chain(Some(OneRole(name)))[0], user) == Check(Chain(Some(RoleList([name])))[0], user)
  {
  }

  /** An empty role string is falsy: it is refused even when "" is an allowed role. */
  lemma EmptyRoleRefused(names: seq<string>, id: Option<string>)
    requires "" in names
    ensures Check(Chain(Some(RoleList(names)))[0], Some(Payload(id, Some("")))) == InsufficientRole
  {
  }
}
