/**
  The `commercantAuth` middleware: a request continues to the handler
  (`next()`) only when the caller is a merchant or an admin; anybody else is
  answered 403. It reads only the caller's role and keeps no state.
*/
module RoleGate {
  import opened Schemas

  /** What the middleware does with the request. */
  datatype Decision = Next | Refuse403

  function CommercantAuth(user: Actor): (d: Decision)
    ensures d.Next? <==> (user.role.Commercant? || user.role.Admin?)
    ensures d.Refuse403? <==> user.role.Client?
  {
    if user.role != Commercant && user.role != Admin then Refuse403 else Next
  }

  /** The decision is a function of `typeUtilisateur` alone: the user id plays no part. */
  lemma DecisionDependsOnlyOnRole(a: Actor, b: Actor)
    requires a.role == b.role
    ensures CommercantAuth(a) == CommercantAuth(b)
  {
  }
}
