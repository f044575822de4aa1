/** The navigation menu: a constant catalogue, the rule chain that decides
    which entries a user sees, and the active/pending status of an entry. */
module Sidebar {
  import opened Wrappers
  import opened Types
  import Seqs
  import Permissions

  /** The ids of the catalogue entries. */
  datatype MenuId =
    | Dashboard | Profile | Agences | Tickets | Clients | Fournisseurs | BonsCommande
    | Factures | Creances | Caisse | Situation | Billets | Packages | Vitrine | Todos
    | Agents | Logs | Parametres

  /** The module string of an entry id, as compared against the accessible
      module list. */
  function Name(id: MenuId): string
  {
    match id
    case Dashboard => "dashboard"
    case Profile => "profile"
    case Agences => "agences"
    case Tickets => "tickets"
    case Clients => "clients"
    case Fournisseurs => "fournisseurs"
    case BonsCommande => "bons-commande"
    case Factures => "factures"
    case Creances => "creances"
    case Caisse => "caisse"
    case Situation => "situation"
    case Billets => "billets"
    case Packages => "packages"
    case Vitrine => "vitrine"
    case Todos => "todos"
    case Agents => "agents"
    case Logs => "logs"
    case Parametres => "parametres"
  }

  /** One menu entry. `roles`, when present, lists the only roles allowed to
      see it. */
  datatype MenuItem = MenuItem(id: MenuId, roles: Option<seq<Role>>)

  datatype ModuleStatus = Active | Pending

  /** The catalogue, in display order. */
  const MenuItems: seq<MenuItem> := [
    MenuItem(Dashboard, None),
    MenuItem(Profile, Some([Agence])),
    MenuItem(Agences, Some([Superadmin])),
    MenuItem(Tickets, Some([Superadmin])),
    MenuItem(Clients, None),
    MenuItem(Fournisseurs, None),
    MenuItem(BonsCommande, None),
    MenuItem(Factures, None),
    MenuItem(Creances, None),
    MenuItem(Caisse, None),
    MenuItem(Situation, None),
    MenuItem(Billets, None),
    MenuItem(Packages, None),
    MenuItem(Vitrine, None),
    MenuItem(Todos, None),
    MenuItem(Agents, Some([Agence])),
    MenuItem(Logs, None),
    MenuItem(Parametres, None)
  ]

  /** The catalogue holds eighteen entries, one per id. Only the profile and
      agents entries are tagged, for an agency, and only the agences and
      tickets entries, for a superadmin. */
  lemma Catalogue()
    ensures |MenuItems| == 18
    ensures forall i, j :: 0 <= i < j < |MenuItems| ==> MenuItems[i].id != MenuItems[j].id
    ensures forall i :: 0 <= i < |MenuItems| && MenuItems[i].roles.Some? ==>
      MenuItems[i].roles.value == if i == 1 || i == 15 then [Agence] else [Superadmin]
    ensures forall i :: 0 <= i < |MenuItems| ==>
      (MenuItems[i].roles.Some? <==> i == 1 || i == 2 || i == 3 || i == 15)
  {
  }

  /** The role tag of `item` admits `role` (an absent user has no role). */
  predicate RoleAdmits(item: MenuItem, role: Option<Role>)
  {
    item.roles.None? || (role.Some? && role.value in item.roles.value)
  }

  /** The filter predicate of the menu, rule by rule in source order. */
  predicate IsVisible(item: MenuItem, role: Option<Role>, accessible: seq<string>)
  {
    if !RoleAdmits(item, role) then false
    else if item.id == Dashboard then true
    else if item.id == Profile then role == Some(Agence)
    else if item.roles.Some? && Superadmin in item.roles.value then role == Some(Superadmin)
    else Name(item.id) in accessible
  }

  /** The entries shown for a role and an accessible-module list. */
  function VisibleItems(role: Option<Role>, accessible: seq<string>): seq<MenuItem>
  {
    Seqs.Filter(MenuItems, (item: MenuItem) => IsVisible(item, role, accessible))
  }

  /** The entries the sidebar shows to `user`, fed by the permission evaluator. */
  function VisibleFor(user: Option<User>): seq<MenuItem>
  {
    VisibleItems(RoleOf(user), Permissions.AccessibleModules(user))
  }

  /** `getModuleStatus`: an entry is pending exactly when it is neither the
      dashboard nor the profile, the user is neither superadmin nor agency,
      and its module is not accessible. */
  function ModuleStatusOf(id: MenuId, role: Option<Role>, accessible: seq<string>): (r: ModuleStatus)
    ensures r == Pending <==>
      id != Dashboard && id != Profile && role != Some(Superadmin) && role != Some(Agence)
      && Name(id) !in accessible
  {
    if id == Dashboard || id == Profile then Active
    else if role == Some(Superadmin) then Active
    else if role == Some(Agence) then Active
    else if Name(id) in accessible then Active
    else Pending
  }

  /** The ids of a list of entries. */
  function Ids(items: seq<MenuItem>): (r: seq<MenuId>)
    ensures |r| == |items|
    ensures forall i :: 0 <= i < |items| ==> r[i] == items[i].id
  {
    Seqs.Map(items, (item: MenuItem) => item.id)
  }

  /** An entry is shown exactly when it is in the catalogue and passes the
      rule chain. */
  lemma VisibleMembers(role: Option<Role>, accessible: seq<string>)
    ensures forall item :: item in VisibleItems(role, accessible) ==>
      item in MenuItems && IsVisible(item, role, accessible)
    ensures forall item :: item in MenuItems && IsVisible(item, role, accessible) ==>
      item in VisibleItems(role, accessible)
  {
    Seqs.FilterMembers(MenuItems, (item: MenuItem) => IsVisible(item, role, accessible));
  }

  /** The visible entries are catalogue entries, in catalogue order. */
  lemma VisibleInCatalogueOrder(role: Option<Role>, accessible: seq<string>)
    ensures Seqs.IsSubsequence(VisibleItems(role, accessible), MenuItems)
    ensures |VisibleItems(role, accessible)| <= |MenuItems|
  {
    Seqs.FilterIsSubsequence(MenuItems, (item: MenuItem) => IsVisible(item, role, accessible));
    Seqs.FilterMembers(MenuItems, (item: MenuItem) => IsVisible(item, role, accessible));
  }

  /** An entry whose role tag does not admit the role is hidden; with no user
      every role-tagged entry is hidden. */
  lemma RoleTaggedHidden(item: MenuItem, role: Option<Role>, accessible: seq<string>)
    requires item.roles.Some?
    requires role.None? || role.value !in item.roles.value
    ensures item !in VisibleItems(role, accessible)
  {
    VisibleMembers(role, accessible);
  }

  /** The dashboard entry is always shown, even with no user. */
  lemma DashboardAlwaysVisible(role: Option<Role>, accessible: seq<string>)
    ensures MenuItem(Dashboard, None) in VisibleItems(role, accessible)
  {
    VisibleMembers(role, accessible);
    assert MenuItems[0] == MenuItem(Dashboard, None);
  }

  /** The profile entry is shown exactly to an agency. */
  lemma ProfileVisibleIff(role: Option<Role>, accessible: seq<string>)
    ensures MenuItem(Profile, Some([Agence])) in VisibleItems(role, accessible) <==> role == Some(Agence)
  {
    VisibleMembers(role, accessible);
    assert MenuItems[1] == MenuItem(Profile, Some([Agence]));
  }

  /** The agences and tickets entries are shown exactly to a superadmin. */
  lemma SuperadminEntriesVisibleIff(role: Option<Role>, accessible: seq<string>)
    ensures MenuItem(Agences, Some([Superadmin])) in VisibleItems(role, accessible) <==> role == Some(Superadmin)
    ensures MenuItem(Tickets, Some([Superadmin])) in VisibleItems(role, accessible) <==> role == Some(Superadmin)
  {
    VisibleMembers(role, accessible);
    assert MenuItems[2] == MenuItem(Agences, Some([Superadmin]));
    assert MenuItems[3] == MenuItem(Tickets, Some([Superadmin]));
  }

  /** The agents entry needs both the agency role and `agents` among the
      accessible modules. */
  lemma AgentsEntryVisibleIff(role: Option<Role>, accessible: seq<string>)
    ensures MenuItem(Agents, Some([Agence])) in VisibleItems(role, accessible) <==>
      role == Some(Agence) && "agents" in accessible
  {
    VisibleMembers(role, accessible);
    assert MenuItems[15] == MenuItem(Agents, Some([Agence]));
  }

  /** Every untagged entry other than the dashboard is shown exactly when its
      module is accessible, whatever the role. */
  lemma UntaggedVisibleIff(role: Option<Role>, accessible: seq<string>)
    ensures forall item :: item in MenuItems && item.roles.None? && item.id != Dashboard ==>
      (item in VisibleItems(role, accessible) <==> Name(item.id) in accessible)
  {
    VisibleMembers(role, accessible);
    forall item | item in MenuItems && item.roles.None? && item.id != Dashboard
      ensures item.id != Profile
    {
    }
  }

  /** No entry that passes the filter is rendered as pending. */
  lemma NoVisibleItemPending(role: Option<Role>, accessible: seq<string>)
    ensures forall item :: item in VisibleItems(role, accessible) ==>
      ModuleStatusOf(item.id, role, accessible) == Active
  {
    VisibleMembers(role, accessible);
    forall item | item in MenuItems
      ensures item.roles.Some? ==> Agent !in item.roles.value
    {
    }
  }

  /** Which entries pass the rule chain for a superadmin. */
  lemma SuperadminVisibility()
    ensures forall i :: 0 <= i < |MenuItems| ==>
      (IsVisible(MenuItems[i], Some(Superadmin), Permissions.SuperadminModules) <==>
       i == 0 || i == 2 || i == 3 || i == 17)
  {
  }

  /** The first nine entries of the superadmin menu filter. */
  lemma SuperadminItemsHead()
    ensures Seqs.FilterPrefix(MenuItems, (item: MenuItem) => IsVisible(item, Some(Superadmin), Permissions.SuperadminModules), 9) ==
      [MenuItems[0], MenuItems[2], MenuItems[3]]
  {
    // The prefix steps keep this proof within the resource limit.
    var p := (item: MenuItem) => IsVisible(item, Some(Superadmin), Permissions.SuperadminModules);
    var s := MenuItems;
    SuperadminVisibility();
    assert Seqs.FilterPrefix(s, p, 1) == [s[0]];
    assert Seqs.FilterPrefix(s, p, 2) == [s[0]];
    assert Seqs.FilterPrefix(s, p, 3) == [s[0], s[2]];
    assert Seqs.FilterPrefix(s, p, 4) == [s[0], s[2], s[3]];
    assert Seqs.FilterPrefix(s, p, 5) == [s[0], s[2], s[3]];
    assert Seqs.FilterPrefix(s, p, 6) == [s[0], s[2], s[3]];
    assert Seqs.FilterPrefix(s, p, 7) == [s[0], s[2], s[3]];
    assert Seqs.FilterPrefix(s, p, 8) == [s[0], s[2], s[3]];
    assert Seqs.FilterPrefix(s, p, 9) == [s[0], s[2], s[3]];
  }

  /** The entries a superadmin sees: the dashboard, agences, tickets and
      parametres, in catalogue order. */
  lemma SuperadminItems()
    ensures VisibleItems(Some(Superadmin), Permissions.SuperadminModules) ==
      [MenuItems[0], MenuItems[2], MenuItems[3], MenuItems[17]]
  {
    var p := (item: MenuItem) => IsVisible(item, Some(Superadmin), Permissions.SuperadminModules);
    var s := MenuItems;
    SuperadminVisibility();
    SuperadminItemsHead();
    assert Seqs.FilterPrefix(s, p, 10) == [s[0], s[2], s[3]];
    assert Seqs.FilterPrefix(s, p, 11) == [s[0], s[2], s[3]];
    assert Seqs.FilterPrefix(s, p, 12) == [s[0], s[2], s[3]];
    assert Seqs.FilterPrefix(s, p, 13) == [s[0], s[2], s[3]];
    assert Seqs.FilterPrefix(s, p, 14) == [s[0], s[2], s[3]];
    assert Seqs.FilterPrefix(s, p, 15) == [s[0], s[2], s[3]];
    assert Seqs.FilterPrefix(s, p, 16) == [s[0], s[2], s[3]];
    assert Seqs.FilterPrefix(s, p, 17) == [s[0], s[2], s[3]];
    assert Seqs.FilterPrefix(s, p, 18) == [s[0], s[2], s[3], s[17]];
  }

  /** A superadmin sees exactly the dashboard, agences, tickets and
      parametres, in that order. */
  lemma SuperadminMenu(u: User)
    requires u.role == Superadmin
    ensures Ids(VisibleFor(Some(u))) == [Dashboard, Agences, Tickets, Parametres]
  {
    assert RoleOf(Some(u)) == Some(Superadmin);
    assert Permissions.AccessibleModules(Some(u)) == Permissions.SuperadminModules;
    SuperadminItems();
  }

  /** Which entries pass the rule chain for an agency: all but agences,
      tickets, todos and logs (checked in three slices of the catalogue). */
  lemma AgenceVisibilityLow()
    ensures forall i :: 0 <= i < 6 ==>
      (IsVisible(MenuItems[i], Some(Agence), Permissions.AgenceModules) <==> i != 2 && i != 3)
  {
  }

  lemma AgenceVisibilityMid()
    ensures forall i :: 6 <= i < 12 ==>
      IsVisible(MenuItems[i], Some(Agence), Permissions.AgenceModules)
  {
  }

  lemma AgenceVisibilityHigh()
    ensures forall i :: 12 <= i < 18 ==>
      (IsVisible(MenuItems[i], Some(Agence), Permissions.AgenceModules) <==> i != 14 && i != 16)
  {
  }

  /** The agency menu filter over the first six entries, for any module
      list that passes the same entries as the agency list. */
  lemma AgenceItemsLow(acc: seq<string>)
    requires forall i :: 0 <= i < |MenuItems| ==>
      (IsVisible(MenuItems[i], Some(Agence), acc) <==> i != 2 && i != 3 && i != 14 && i != 16)
    ensures Seqs.FilterPrefix(MenuItems, (item: MenuItem) => IsVisible(item, Some(Agence), acc), 6) == [MenuItems[0], MenuItems[1], MenuItems[4], MenuItems[5]]
  {
  }

  /** The same filter over the first twelve entries. */
  lemma AgenceItemsMid(acc: seq<string>)
    requires forall i :: 0 <= i < |MenuItems| ==>
      (IsVisible(MenuItems[i], Some(Agence), acc) <==> i != 2 && i != 3 && i != 14 && i != 16)
    ensures Seqs.FilterPrefix(MenuItems, (item: MenuItem) => IsVisible(item, Some(Agence), acc), 12) == [MenuItems[0], MenuItems[1], MenuItems[4], MenuItems[5], MenuItems[6], MenuItems[7], MenuItems[8], MenuItems[9], MenuItems[10], MenuItems[11]]
  {
  }

  /** The same filter over the first fifteen entries. */
  lemma AgenceItemsHigh(acc: seq<string>)
    requires forall i :: 0 <= i < |MenuItems| ==>
      (IsVisible(MenuItems[i], Some(Agence), acc) <==> i != 2 && i != 3 && i != 14 && i != 16)
    ensures Seqs.FilterPrefix(MenuItems, (item: MenuItem) => IsVisible(item, Some(Agence), acc), 15) == [MenuItems[0], MenuItems[1], MenuItems[4], MenuItems[5], MenuItems[6], MenuItems[7], MenuItems[8], MenuItems[9], MenuItems[10], MenuItems[11], MenuItems[12], MenuItems[13]]
  {
    var p := (item: MenuItem) => IsVisible(item, Some(Agence), acc);
    var s := MenuItems;
    AgenceItemsMid(acc);
    assert Seqs.FilterPrefix(s, p, 13) == [s[0], s[1], s[4], s[5], s[6], s[7], s[8], s[9], s[10], s[11], s[12]];
    assert Seqs.FilterPrefix(s, p, 14) == [s[0], s[1], s[4], s[5], s[6], s[7], s[8], s[9], s[10], s[11], s[12], s[13]];
    assert Seqs.FilterPrefix(s, p, 15) == [s[0], s[1], s[4], s[5], s[6], s[7], s[8], s[9], s[10], s[11], s[12], s[13]];
  }

  /** The same filter over the first sixteen entries. */
  lemma AgenceItemsAgents(acc: seq<string>)
    requires forall i :: 0 <= i < |MenuItems| ==>
      (IsVisible(MenuItems[i], Some(Agence), acc) <==> i != 2 && i != 3 && i != 14 && i != 16)
    ensures Seqs.FilterPrefix(MenuItems, (item: MenuItem) => IsVisible(item, Some(Agence), acc), 16) == [MenuItems[0], MenuItems[1], MenuItems[4], MenuItems[5], MenuItems[6], MenuItems[7], MenuItems[8], MenuItems[9], MenuItems[10], MenuItems[11], MenuItems[12], MenuItems[13], MenuItems[15]]
  {
    var p := (item: MenuItem) => IsVisible(item, Some(Agence), acc);
    var s := MenuItems;
    AgenceItemsHigh(acc);
    assert Seqs.FilterPrefix(s, p, 16) == [s[0], s[1], s[4], s[5], s[6], s[7], s[8], s[9], s[10], s[11], s[12], s[13], s[15]];
  }

  /** The same filter over the whole catalogue. */
  lemma AgenceItemsFor(acc: seq<string>)
    requires forall i :: 0 <= i < |MenuItems| ==>
      (IsVisible(MenuItems[i], Some(Agence), acc) <==> i != 2 && i != 3 && i != 14 && i != 16)
    ensures VisibleItems(Some(Agence), acc) == [MenuItems[0], MenuItems[1], MenuItems[4], MenuItems[5], MenuItems[6], MenuItems[7], MenuItems[8], MenuItems[9], MenuItems[10], MenuItems[11], MenuItems[12], MenuItems[13], MenuItems[15], MenuItems[17]]
  {
    var p := (item: MenuItem) => IsVisible(item, Some(Agence), acc);
    var s := MenuItems;
    AgenceItemsAgents(acc);
    assert Seqs.FilterPrefix(s, p, 17) == [s[0], s[1], s[4], s[5], s[6], s[7], s[8], s[9], s[10], s[11], s[12], s[13], s[15]];
    assert Seqs.FilterPrefix(s, p, 18) == [s[0], s[1], s[4], s[5], s[6], s[7], s[8], s[9], s[10], s[11], s[12], s[13], s[15], s[17]];
  }

  /** The entries an agency sees: every entry but agences, tickets, todos and
      logs, in catalogue order. */
  lemma AgenceItems()
    ensures VisibleItems(Some(Agence), Permissions.AgenceModules) == [MenuItems[0], MenuItems[1], MenuItems[4], MenuItems[5], MenuItems[6], MenuItems[7], MenuItems[8], MenuItems[9], MenuItems[10], MenuItems[11], MenuItems[12], MenuItems[13], MenuItems[15], MenuItems[17]]
  {
    AgenceVisibilityLow();
    AgenceVisibilityMid();
    AgenceVisibilityHigh();
    AgenceItemsFor(Permissions.AgenceModules);
  }

  /** The ids of the agency's entries. */
  lemma AgenceItemIds()
    ensures Ids([MenuItems[0], MenuItems[1], MenuItems[4], MenuItems[5], MenuItems[6], MenuItems[7], MenuItems[8], MenuItems[9], MenuItems[10], MenuItems[11], MenuItems[12], MenuItems[13], MenuItems[15], MenuItems[17]]) == [
      Dashboard, Profile, Clients, Fournisseurs, BonsCommande, Factures, Creances,
      Caisse, Situation, Billets, Packages, Vitrine, Agents, Parametres]
  {
  }

  /** An agency sees fourteen entries: its profile and agents pages among
      them, but neither its todos (although `hasPermission` allows them) nor
      the logs. */
  lemma AgenceMenu(u: User)
    requires u.role == Agence
    ensures Ids(VisibleFor(Some(u))) == [
      Dashboard, Profile, Clients, Fournisseurs, BonsCommande, Factures, Creances,
      Caisse, Situation, Billets, Packages, Vitrine, Agents, Parametres]
  {
    assert RoleOf(Some(u)) == Some(Agence);
    assert Permissions.AccessibleModules(Some(u)) == Permissions.AgenceModules;
    AgenceItems();
    AgenceItemIds();
  }
}
