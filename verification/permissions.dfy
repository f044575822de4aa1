/** The permission evaluator: whether the current user may perform an action
    on a module, and which modules the user can reach. The user is an
    explicit parameter in place of the ambient authentication context. */
module Permissions {
  import opened Wrappers
  import opened Types
  import Seqs

  /** Position of the first grant for module `m`, as `Array.prototype.find`
      locates it; absent when no grant names `m`. */
  function FirstGrantIndex(grants: seq<Permission>, m: string): (r: Option<nat>)
    ensures r.Some? ==> r.value < |grants| && grants[r.value].moduleId == m
    ensures r.Some? ==> forall j :: 0 <= j < r.value ==> grants[j].moduleId != m
    ensures r.None? ==> forall j :: 0 <= j < |grants| ==> grants[j].moduleId != m
  {
    if grants == [] then None
    else if grants[0].moduleId == m then Some(0)
    else match FirstGrantIndex(grants[1..], m)
      case None => None
      case Some(k) => Some(k + 1)
  }

  /** `find` stops at `i` exactly when grant `i` is for `m` and no earlier
      grant is. */
  lemma FirstGrantIndexAt(grants: seq<Permission>, m: string, i: nat)
    ensures FirstGrantIndex(grants, m) == Some(i) <==>
      i < |grants| && grants[i].moduleId == m && forall j :: 0 <= j < i ==> grants[j].moduleId != m
  {
  }

  /** Two grant lists naming the same modules in the same order are searched
      alike. */
  lemma FirstGrantIndexSameModules(grants: seq<Permission>, other: seq<Permission>, m: string)
    requires |grants| == |other|
    requires forall j :: 0 <= j < |grants| ==> grants[j].moduleId == other[j].moduleId
    ensures FirstGrantIndex(grants, m) == FirstGrantIndex(other, m)
  {
  }

  /** The agent check: the first grant for `m` exists and lists `a`. */
  predicate GrantAllows(grants: seq<Permission>, m: string, a: string)
  {
    match FirstGrantIndex(grants, m)
    case None => false
    case Some(i) => a in grants[i].actions
  }

  /** `hasPermission(module, action)`: no user, then superadmin, then agency,
      then agent with a grant list; everything else is refused. */
  predicate HasPermission(user: Option<User>, m: string, a: string)
  {
    match user
    case None => false
    case Some(u) =>
      if u.role == Superadmin then true
      else if u.role == Agence then true
      else if u.role == Agent && u.permissions.Some? then GrantAllows(u.permissions.value, m, a)
      else false
  }

  /** The fixed module list of a superadmin. */
  const SuperadminModules: seq<string> := ["agences", "tickets", "parametres"]

  /** The fixed module list of an agency. */
  const AgenceModules: seq<string> := [
    "dashboard", "clients", "fournisseurs", "bons-commande",
    "factures", "creances", "caisse", "situation", "billets",
    "packages", "vitrine", "agents", "parametres"
  ]

  /** The module of every grant, in grant order (`permissions.map(p => p.module)`). */
  function GrantModules(grants: seq<Permission>): (r: seq<string>)
    ensures |r| == |grants|
    ensures forall i :: 0 <= i < |grants| ==> r[i] == grants[i].moduleId
  {
    Seqs.Map(grants, (p: Permission) => p.moduleId)
  }

  /** `getAccessibleModules()`. */
  function AccessibleModules(user: Option<User>): seq<string>
  {
    match user
    case None => []
    case Some(u) =>
      if u.role == Superadmin then SuperadminModules
      else if u.role == Agence then AgenceModules
      else if u.role == Agent && u.permissions.Some? then GrantModules(u.permissions.value)
      else []
  }

  /** Without a signed-in user nothing is allowed and nothing is reachable. */
  lemma NoUserNoAccess(m: string, a: string)
    ensures !HasPermission(None, m, a)
    ensures AccessibleModules(None) == []
  {
  }

  /** Superadmin and agency are allowed everything, whatever their grant list
      holds (it is never consulted). */
  lemma SuperRolesAllowAll(u: User, m: string, a: string, grants: Option<seq<Permission>>)
    requires u.role == Superadmin || u.role == Agence
    ensures HasPermission(Some(u), m, a)
    ensures HasPermission(Some(u.(permissions := grants)), m, a)
  {
  }

  /** The agent check, stated without `find`: `a` is allowed on `m` exactly
      when some grant for `m` lists `a` and no earlier grant names `m`. */
  lemma GrantAllowsIff(grants: seq<Permission>, m: string, a: string)
    ensures GrantAllows(grants, m, a) <==>
      exists i :: 0 <= i < |grants| && grants[i].moduleId == m && a in grants[i].actions
        && forall j :: 0 <= j < i ==> grants[j].moduleId != m
  {
  }

  /** `hasPermission` for an agent: true exactly when the agent has a grant
      list whose first grant for `m` lists `a`. */
  lemma AgentPermissionIff(u: User, m: string, a: string)
    requires u.role == Agent
    ensures HasPermission(Some(u), m, a) <==>
      u.permissions.Some? &&
      exists i :: 0 <= i < |u.permissions.value| && u.permissions.value[i].moduleId == m
        && a in u.permissions.value[i].actions
        && forall j :: 0 <= j < i ==> u.permissions.value[j].moduleId != m
  {
  }

  /** With no grant for `m` an agent is refused every action on `m`. */
  lemma NoGrantNoPermission(u: User, m: string, a: string)
    requires u.role == Agent && u.permissions.Some?
    requires forall p :: p in u.permissions.value ==> p.moduleId != m
    ensures !HasPermission(Some(u), m, a)
  {
  }

  /** An agent whose grant list is absent is refused everything and reaches
      nothing. */
  lemma AgentWithoutGrants(u: User, m: string, a: string)
    requires u.role == Agent && u.permissions.None?
    ensures !HasPermission(Some(u), m, a)
    ensures AccessibleModules(Some(u)) == []
  {
  }

  /** The fixed lists: three modules for a superadmin; thirteen for an agency,
      beginning with the dashboard and holding neither `todos` nor `logs`. */
  lemma FixedModuleLists(u: User)
    ensures u.role == Superadmin ==>
      AccessibleModules(Some(u)) == ["agences", "tickets", "parametres"]
    ensures u.role == Agence ==>
      var r := AccessibleModules(Some(u));
      |r| == 13 && r[0] == "dashboard" && "todos" !in r && "logs" !in r
  {
  }

  /** For an agent the reachable modules are the grant modules, one per
      grant and in grant order. */
  lemma AgentModulesFollowGrants(u: User)
    requires u.role == Agent && u.permissions.Some?
    ensures var r := AccessibleModules(Some(u));
      |r| == |u.permissions.value| &&
      forall i :: 0 <= i < |r| ==> r[i] == u.permissions.value[i].moduleId
  {
  }

  /** Duplicated grants are not merged: two grants for `clients` give
      `clients` twice. */
  lemma AgentModulesKeepDuplicates(u: User)
    requires u.role == Agent
    requires u.permissions == Some([Permission("clients", ["lire"]), Permission("clients", ["creer"])])
    ensures AccessibleModules(Some(u)) == ["clients", "clients"]
  {
  }

  /** An agent allowed some action on `m` can reach `m`. */
  lemma AgentPermissionImpliesAccessible(u: User, m: string, a: string)
    requires u.role == Agent
    requires HasPermission(Some(u), m, a)
    ensures m in AccessibleModules(Some(u))
  {
  }

  /** The implication fails for an agency: it may act on `todos`, which its
      fixed list leaves out. */
  lemma AgencyAllowedBeyondItsList(u: User, a: string)
    requires u.role == Agence
    ensures HasPermission(Some(u), "todos", a) && "todos" !in AccessibleModules(Some(u))
  {
  }

  /** An agent granted only `lire` on `clients` may read clients but not
      create them, and reaches `clients` alone. */
  lemma ReadOnlyClientsAgent(u: User)
    requires u.role == Agent && u.permissions == Some([Permission("clients", ["lire"])])
    ensures !HasPermission(Some(u), "clients", "creer")
    ensures HasPermission(Some(u), "clients", "lire")
    ensures AccessibleModules(Some(u)) == ["clients"]
  {
  }
}
