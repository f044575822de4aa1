/** The agents page of an agency: the list of its agents, the form used to
    create an agent or edit its grants, and the search box. */
module Agents {
  import opened Wrappers
  import Types
  import Seqs
  import Text
  import Permissions

  type Permission = Types.Permission

  /** The account state of an agent. */
  datatype AgentStatut = Actif | Suspendu

  /** An agent account as the agency manages it. */
  datatype Agent = Agent(
    id: string,
    nom: string,
    prenom: string,
    email: string,
    telephone: string,
    permissions: seq<Permission>,
    statut: AgentStatut,
    dateCreation: string)

  /** The shared add/edit form. */
  datatype AgentForm = AgentForm(
    nom: string,
    prenom: string,
    email: string,
    telephone: string,
    permissions: seq<Permission>)

  /** The form as `resetForm` leaves it. */
  const EmptyForm: AgentForm := AgentForm("", "", "", "", [])

  // ---------------------------------------------------------------------
  // Operations on the agent list

  /** The other account state. */
  function Flipped(s: AgentStatut): (r: AgentStatut)
    ensures r != s
  {
    if s == Actif then Suspendu else Actif
  }

  /** The list after toggling the account state of the agents with id `id`. */
  function Toggled(agents: seq<Agent>, id: string): (r: seq<Agent>)
    ensures |r| == |agents|
    ensures forall i :: 0 <= i < |agents| && agents[i].id != id ==> r[i] == agents[i]
    ensures forall i :: 0 <= i < |agents| && agents[i].id == id ==>
      r[i] == agents[i].(statut := Flipped(agents[i].statut))
  {
    Seqs.Map(agents, (ag: Agent) => if ag.id == id then ag.(statut := Flipped(ag.statut)) else ag)
  }

  /** The list after giving the agents with id `id` the grant list `grants`. */
  function WithGrants(agents: seq<Agent>, id: string, grants: seq<Permission>): (r: seq<Agent>)
    ensures |r| == |agents|
    ensures forall i :: 0 <= i < |agents| && agents[i].id != id ==> r[i] == agents[i]
    ensures forall i :: 0 <= i < |agents| && agents[i].id == id ==>
      r[i] == agents[i].(permissions := grants)
  {
    Seqs.Map(agents, (ag: Agent) => if ag.id == id then ag.(permissions := grants) else ag)
  }

  /** The list without the agents whose id is `id`. */
  function Without(agents: seq<Agent>, id: string): seq<Agent>
  {
    Seqs.Filter(agents, (ag: Agent) => ag.id != id)
  }

  /** `id` names none of the agents. */
  predicate FreshId(agents: seq<Agent>, id: string)
  {
    forall ag :: ag in agents ==> ag.id != id
  }

  // ---------------------------------------------------------------------
  // The grant editor

  /** `Array.prototype.findIndex` over the grant list: the position of the
      first grant for `m`, or -1. */
  method FindGrantIndex(grants: seq<Permission>, m: string) returns (idx: int)
    ensures -1 <= idx < |grants|
    ensures idx == -1 ==> forall j :: 0 <= j < |grants| ==> grants[j].moduleId != m
    ensures idx >= 0 ==> grants[idx].moduleId == m
    ensures idx >= 0 ==> forall j :: 0 <= j < idx ==> grants[j].moduleId != m
    ensures idx == -1 <==> Permissions.FirstGrantIndex(grants, m).None?
    ensures idx >= 0 ==> Permissions.FirstGrantIndex(grants, m) == Some(idx as nat)
  {
    var i := 0;
    while i < |grants|
      invariant 0 <= i <= |grants|
      invariant forall j :: 0 <= j < i ==> grants[j].moduleId != m
    {
      if grants[i].moduleId == m {
        Permissions.FirstGrantIndexAt(grants, m, i);
        return i;
      }
      i := i + 1;
    }
    return -1;
  }

  /** `actions.filter(x => x !== a)`. */
  function WithoutAction(actions: seq<string>, a: string): seq<string>
  {
    Seqs.Filter(actions, (x: string) => x != a)
  }

  /** The grant list after ticking (`checked`) or unticking action `a` of
      module `m`: ticking adds `a` to the first grant for `m` when it is not
      there yet, or appends a new grant `{m, [a]}`; unticking removes every
      `a` from the first grant for `m` and drops that grant once it is
      empty; unticking a module without a grant changes nothing. */
  function Changed(grants: seq<Permission>, m: string, a: string, checked: bool): seq<Permission>
  {
    match Permissions.FirstGrantIndex(grants, m)
    case Some(i) =>
      if checked then
        if a in grants[i].actions then grants
        else grants[i := grants[i].(actions := grants[i].actions + [a])]
      else
        var rest := WithoutAction(grants[i].actions, a);
        if rest == [] then grants[..i] + grants[i + 1..]
        else grants[i := grants[i].(actions := rest)]
    case None =>
      if checked then grants + [Types.Permission(m, [a])] else grants
  }

  /** At most one grant per module. */
  ghost predicate UniqueModules(grants: seq<Permission>)
  {
    forall i, j :: 0 <= i < j < |grants| ==> grants[i].moduleId != grants[j].moduleId
  }

  /** The shape the editor keeps: at most one grant per module and no grant
      without an action. */
  ghost predicate WellFormed(grants: seq<Permission>)
  {
    UniqueModules(grants) && forall i :: 0 <= i < |grants| ==> grants[i].actions != []
  }

  /** The form-local `hasPermission`: the check box of `(m, a)` is ticked
      when the first grant for `m` in the form lists `a` -- the same test the
      permission evaluator applies to a signed-in agent. */
  predicate FormHasPermission(form: AgentForm, m: string, a: string)
  {
    Permissions.GrantAllows(form.permissions, m, a)
  }

  // ---------------------------------------------------------------------
  // The search box

  /** One agent matches the search term when its lower-cased last name,
      first name or e-mail contains the lower-cased term. */
  predicate MatchesSearch(ag: Agent, term: string)
  {
    var t := Text.Lower(term);
    Text.Includes(Text.Lower(ag.nom), t) || Text.Includes(Text.Lower(ag.prenom), t)
      || Text.Includes(Text.Lower(ag.email), t)
  }

  /** `filteredAgents`: the agents matching the search term, in list order. */
  function Filtered(agents: seq<Agent>, term: string): seq<Agent>
  {
    Seqs.Filter(agents, (ag: Agent) => MatchesSearch(ag, term))
  }

  // ---------------------------------------------------------------------
  // The page state

  /** The state of the agents page: the agent list, the form and the agent
      picked for a grant edit or a deletion. */
  class AgentStore {
    var agents: seq<Agent>
    var form: AgentForm
    var selected: Option<Agent>

    constructor(initial: seq<Agent>)
      ensures agents == initial && form == EmptyForm && selected == None
    {
      agents := initial;
      form := EmptyForm;
      selected := None;
    }

    /** `handleAddAgent`: with a last name, a first name and an e-mail in the
        form, prepend a new active agent carrying the form's grants and reset
        the form; otherwise change nothing. The id and the creation date are
        supplied by the caller (a clock reading in the original). */
    method AddAgent(newId: string, now: string)
      modifies this
      ensures old(form.nom) == "" || old(form.prenom) == "" || old(form.email) == "" ==>
        agents == old(agents) && form == old(form)
      ensures old(form.nom) != "" && old(form.prenom) != "" && old(form.email) != "" ==>
        agents == [Agent(newId, old(form.nom), old(form.prenom), old(form.email),
                         old(form.telephone), old(form.permissions), Actif, now)] + old(agents)
        && form == EmptyForm
      ensures selected == old(selected)
    {
      if form.nom == "" || form.prenom == "" || form.email == "" {
        return;
      }
      var ag := Agent(newId, form.nom, form.prenom, form.email, form.telephone, form.permissions, Actif, now);
      agents := [ag] + agents;
      form := EmptyForm;
    }

    /** `handleToggleStatus`. */
    method ToggleStatus(id: string)
      modifies this
      ensures agents == Toggled(old(agents), id)
      ensures form == old(form) && selected == old(selected)
    {
      agents := Toggled(agents, id);
    }

    /** `openPermissionsModal`: pick the agent and load its fields and grants
        into the form. */
    method OpenPermissions(ag: Agent)
      modifies this
      ensures selected == Some(ag)
      ensures form == AgentForm(ag.nom, ag.prenom, ag.email, ag.telephone, ag.permissions)
      ensures agents == old(agents)
    {
      selected := Some(ag);
      form := AgentForm(ag.nom, ag.prenom, ag.email, ag.telephone, ag.permissions);
    }

    /** Picking an agent for the deletion dialog. */
    method Select(ag: Agent)
      modifies this
      ensures selected == Some(ag)
      ensures agents == old(agents) && form == old(form)
    {
      selected := Some(ag);
    }

    /** `handlePermissionChange`: one check box of the grant editor. */
    method ChangePermission(m: string, a: string, checked: bool)
      modifies this
      ensures form == old(form).(permissions := Changed(old(form.permissions), m, a, checked))
      ensures agents == old(agents) && selected == old(selected)
    {
      var grants := form.permissions;
      var i := FindGrantIndex(grants, m);
      if i >= 0 {
        if checked {
          if a !in grants[i].actions {
            grants := grants[i := grants[i].(actions := grants[i].actions + [a])];
          }
        } else {
          var rest := WithoutAction(grants[i].actions, a);
          grants := grants[i := grants[i].(actions := rest)];
          if |rest| == 0 {
            grants := grants[..i] + grants[i + 1..];
          }
        }
      } else if checked {
        grants := grants + [Types.Permission(m, [a])];
      }
      form := form.(permissions := grants);
    }

    /** `handleUpdatePermissions`: without a picked agent nothing happens;
        otherwise the agents with its id get the form's grants, the pick is
        cleared and the form reset. */
    method UpdatePermissions()
      modifies this
      ensures old(selected).None? ==>
        agents == old(agents) && form == old(form) && selected == old(selected)
      ensures old(selected).Some? ==>
        agents == WithGrants(old(agents), old(selected).value.id, old(form.permissions))
        && form == EmptyForm && selected == None
    {
      if selected.None? {
        return;
      }
      agents := WithGrants(agents, selected.value.id, form.permissions);
      selected := None;
      form := EmptyForm;
    }

    /** Closing the grant editor without saving: the pick is cleared and the
        form reset; the stored agents keep their grants. */
    method CancelPermissions()
      modifies this
      ensures selected == None && form == EmptyForm
      ensures agents == old(agents)
    {
      selected := None;
      form := EmptyForm;
    }

    /** Closing the add dialog without adding: the form is reset. */
    method CancelAdd()
      modifies this
      ensures form == EmptyForm
      ensures agents == old(agents) && selected == old(selected)
    {
      form := EmptyForm;
    }

    /** Closing the deletion dialog without deleting. */
    method CancelDelete()
      modifies this
      ensures selected == None
      ensures agents == old(agents) && form == old(form)
    {
      selected := None;
    }

    /** `handleDeleteAgent`: without a picked agent nothing happens; otherwise
        the agents with its id are removed and the pick is cleared. */
    method DeleteAgent()
      modifies this
      ensures old(selected).None? ==> agents == old(agents) && selected == old(selected)
      ensures old(selected).Some? ==>
        agents == Without(old(agents), old(selected).value.id) && selected == None
      ensures form == old(form)
    {
      if selected.None? {
        return;
      }
      agents := Without(agents, selected.value.id);
      selected := None;
    }
  }

  // ---------------------------------------------------------------------
  // Properties of the list operations

  /** Toggling twice gives the list back. */
  lemma ToggleTwice(agents: seq<Agent>, id: string)
    ensures Toggled(Toggled(agents, id), id) == agents
  {
  }

  /** A toggle on an id nobody has changes nothing. */
  lemma ToggleAbsent(agents: seq<Agent>, id: string)
    requires FreshId(agents, id)
    ensures Toggled(agents, id) == agents
  {
  }

  /** Deleting keeps, in order, exactly the agents with another id, each as
      many times as before. */
  lemma WithoutMembers(agents: seq<Agent>, id: string)
    ensures forall ag :: ag in Without(agents, id) <==> ag in agents && ag.id != id
    ensures forall ag :: multiset(Without(agents, id))[ag] == if ag.id != id then multiset(agents)[ag] else 0
    ensures Seqs.IsSubsequence(Without(agents, id), agents)
    ensures |Without(agents, id)| <= |agents|
  {
    Seqs.FilterMembers(agents, (ag: Agent) => ag.id != id);
    Seqs.FilterCounts(agents, (ag: Agent) => ag.id != id);
    Seqs.FilterIsSubsequence(agents, (ag: Agent) => ag.id != id);
  }

  /** Deleting an id nobody has changes nothing. */
  lemma WithoutAbsent(agents: seq<Agent>, id: string)
    requires FreshId(agents, id)
    ensures Without(agents, id) == agents
  {
    Seqs.FilterKeepsAll(agents, (ag: Agent) => ag.id != id);
  }

  /** Deleting a freshly added agent gives the list back. */
  lemma AddThenDelete(agents: seq<Agent>, ag: Agent)
    requires FreshId(agents, ag.id)
    ensures Without([ag] + agents, ag.id) == agents
  {
    Seqs.FilterCons(ag, agents, (x: Agent) => x.id != ag.id);
    WithoutAbsent(agents, ag.id);
  }

  /** Replacing the grants of an id nobody has changes nothing. */
  lemma WithGrantsAbsent(agents: seq<Agent>, id: string, grants: seq<Permission>)
    requires FreshId(agents, id)
    ensures WithGrants(agents, id, grants) == agents
  {
  }

  // ---------------------------------------------------------------------
  // Properties of the grant editor

  lemma WithoutActionMembers(actions: seq<string>, a: string)
    ensures forall x :: x in WithoutAction(actions, a) <==> x in actions && x != a
  {
    Seqs.FilterMembers(actions, (x: string) => x != a);
  }

  /** Every edit keeps the grant list well formed. */
  lemma ChangedWellFormed(grants: seq<Permission>, m: string, a: string, checked: bool)
    requires WellFormed(grants)
    ensures WellFormed(Changed(grants, m, a, checked))
  {
  }

  /** Unticking an action of a module without a grant changes nothing. */
  lemma UncheckWithoutGrant(grants: seq<Permission>, m: string, a: string)
    requires forall p :: p in grants ==> p.moduleId != m
    ensures Changed(grants, m, a, false) == grants
  {
  }

  /** After ticking `(m, a)` the check box reads ticked, whatever the list. */
  lemma CheckedIsAllowed(grants: seq<Permission>, m: string, a: string)
    ensures Permissions.GrantAllows(Changed(grants, m, a, true), m, a)
  {
    var r := Changed(grants, m, a, true);
    match Permissions.FirstGrantIndex(grants, m)
    case Some(i) =>
      Permissions.FirstGrantIndexSameModules(grants, r, m);
    case None =>
      Permissions.FirstGrantIndexAt(r, m, |grants|);
  }

  /** Replacing the actions of grant `i` only affects the module of that
      grant, and only when `i` is its first grant. */
  lemma ReplacedGrantEffect(grants: seq<Permission>, i: nat, q: Permission, m': string, a': string)
    requires i < |grants| && q.moduleId == grants[i].moduleId
    ensures Permissions.GrantAllows(grants[i := q], m', a') ==
      if Permissions.FirstGrantIndex(grants, m') == Some(i) then a' in q.actions
      else Permissions.GrantAllows(grants, m', a')
  {
    Permissions.FirstGrantIndexSameModules(grants, grants[i := q], m');
  }

  /** Removing grant `i` from a list with one grant per module withdraws its
      module and leaves every other module as it was. */
  lemma RemovedGrantEffect(grants: seq<Permission>, i: nat, m': string, a': string)
    requires UniqueModules(grants) && i < |grants|
    ensures Permissions.GrantAllows(grants[..i] + grants[i + 1..], m', a') ==
      (m' != grants[i].moduleId && Permissions.GrantAllows(grants, m', a'))
  {
    var r := grants[..i] + grants[i + 1..];
    if m' == grants[i].moduleId {
      assert Permissions.FirstGrantIndex(r, m').None?;
    } else {
      match Permissions.FirstGrantIndex(grants, m')
      case Some(j) =>
        Permissions.FirstGrantIndexAt(r, m', if j < i then j else j - 1);
      case None =>
    }
  }

  /** Appending a grant for a module without one adds that module and leaves
      every other module as it was. */
  lemma AppendedGrantEffect(grants: seq<Permission>, q: Permission, m': string, a': string)
    requires Permissions.FirstGrantIndex(grants, q.moduleId).None?
    ensures Permissions.GrantAllows(grants + [q], m', a') ==
      if m' == q.moduleId then a' in q.actions else Permissions.GrantAllows(grants, m', a')
  {
    var r := grants + [q];
    if m' == q.moduleId {
      Permissions.FirstGrantIndexAt(r, m', |grants|);
    } else {
      match Permissions.FirstGrantIndex(grants, m')
      case Some(j) => Permissions.FirstGrantIndexAt(r, m', j);
      case None =>
    }
  }

  /** On a well-formed list an edit flips exactly one check box: `(m, a)`
      afterwards reads `checked`, every other box reads as before. */
  lemma ChangedEffect(grants: seq<Permission>, m: string, a: string, checked: bool, m': string, a': string)
    requires WellFormed(grants)
    ensures Permissions.GrantAllows(Changed(grants, m, a, checked), m', a') ==
      if m' == m && a' == a then checked else Permissions.GrantAllows(grants, m', a')
  {
    match Permissions.FirstGrantIndex(grants, m)
    case Some(i) =>
      var acts := grants[i].actions;
      var rest := WithoutAction(acts, a);
      WithoutActionMembers(acts, a);
      if checked {
        if a !in acts {
          ReplacedGrantEffect(grants, i, grants[i].(actions := acts + [a]), m', a');
        }
      } else if rest == [] {
        RemovedGrantEffect(grants, i, m', a');
        if m' == m && a' != a {
          assert a' !in rest;
        }
      } else {
        ReplacedGrantEffect(grants, i, grants[i].(actions := rest), m', a');
      }
    case None =>
      if checked {
        AppendedGrantEffect(grants, Types.Permission(m, [a]), m', a');
      }
  }

  /** The grant editor shows an agent exactly what the permission evaluator
      grants that agent once signed in with the same grants. */
  lemma EditorMatchesEvaluator(ag: Agent, u: Types.User, m: string, a: string)
    requires u.role == Types.Agent && u.permissions == Some(ag.permissions)
    ensures FormHasPermission(AgentForm(ag.nom, ag.prenom, ag.email, ag.telephone, ag.permissions), m, a)
      == Permissions.HasPermission(Some(u), m, a)
  {
  }

  // ---------------------------------------------------------------------
  // Properties of the search box

  /** The search keeps, in order, exactly the matching agents, each as many
      times as before. */
  lemma FilteredMembers(agents: seq<Agent>, term: string)
    ensures forall ag :: ag in Filtered(agents, term) <==> ag in agents && MatchesSearch(ag, term)
    ensures forall ag :: multiset(Filtered(agents, term))[ag] ==
                         if MatchesSearch(ag, term) then multiset(agents)[ag] else 0
    ensures Seqs.IsSubsequence(Filtered(agents, term), agents)
  {
    Seqs.FilterMembers(agents, (ag: Agent) => MatchesSearch(ag, term));
    Seqs.FilterCounts(agents, (ag: Agent) => MatchesSearch(ag, term));
    Seqs.FilterIsSubsequence(agents, (ag: Agent) => MatchesSearch(ag, term));
  }

  /** An empty search box lists every agent. */
  lemma EmptySearchKeepsAll(agents: seq<Agent>)
    ensures Filtered(agents, "") == agents
  {
    forall ag | ag in agents
      ensures MatchesSearch(ag, "")
    {
      Text.LowerIncludesEmpty(ag.nom);
    }
    Seqs.FilterKeepsAll(agents, (ag: Agent) => MatchesSearch(ag, ""));
  }
}
