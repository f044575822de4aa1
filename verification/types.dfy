/** The access-control records shared by the evaluator, the navigation
    filter and the route guard. */
module Types {
  import opened Wrappers

  /** The three roles a signed-in user can hold. */
  datatype Role = Superadmin | Agence | Agent

  /** Account state of a user; only an agency's `EnAttente` is acted upon. */
  datatype UserStatut = Actif | Suspendu | EnAttente

  /** A grant: one module and the actions allowed on it, in the order they
      were ticked (`module` is a reserved word here, hence `moduleId`). */
  datatype Permission = Permission(moduleId: string, actions: seq<string>)

  /** The signed-in user as the authentication context supplies it. Agents
      carry an ordered grant list; the other roles normally carry none. */
  datatype User = User(
    id: string,
    email: string,
    nom: string,
    prenom: string,
    role: Role,
    agenceId: Option<string>,
    permissions: Option<seq<Permission>>,
    statut: Option<UserStatut>)

  /** The role of the current user, absent when nobody is signed in. */
  function RoleOf(user: Option<User>): (r: Option<Role>)
    ensures r.Some? <==> user.Some?
    ensures user.Some? ==> r.value == user.value.role
  {
    match user
    case None => None
    case Some(u) => Some(u.role)
  }
}
