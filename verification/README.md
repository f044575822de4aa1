# Access control and back-office stores of a travel-agency platform, in Dafny

This project models the core of a multi-tenant back office for travel
agencies. Three roles use it: the platform's superadmin, an agency (`agence`)
and the agents an agency creates. The model covers five parts.

- **Permission evaluator** (`permissions.dfy`, module `Permissions`).
  `hasPermission(module, action)` and `getAccessibleModules()`, with the
  signed-in user as an explicit parameter. Superadmin and agency are allowed
  everything. An agent is allowed an action when the first grant for the
  module lists it. The reachable modules are a fixed list per role, or the
  grant modules for an agent.
- **Navigation menu** (`sidebar.dfy`, module `Sidebar`). The constant catalogue
  of eighteen entries, the rule chain that decides which entries a user sees,
  and the active/pending status of an entry. The exact menus of a superadmin
  and of an agency are proved.
- **Route guard** (`route_guard.dfy`, module `RouteGuard`). `ProtectedRoute`
  as a four-outcome decision over the loading flag and the current user.
- **Agents page** (`agents.dfy`, module `Agents`). A class holding the agent
  list, the form and the picked agent, with one method per handler. It also
  holds the grant editor: a `findIndex` loop and the tick/untick rules. The
  editor is proved to keep "one grant per module, none empty" and to flip
  exactly one check box per click. The search box is modelled as well.
- **Tasks page** (`todos.dfy`, module `Todos`). A class holding the task list,
  the form and the picked task. It has the three-state progress cycle, the
  combined search/status/priority filter, the overdue flag and the badge
  colours.

`types.dfy` (module `Types`) holds the shared records: user, role, grant.
`common.dfy` holds an `Option` type (`Wrappers`), `filter`/`map` over
sequences with their properties (`Seqs`), and `toLowerCase`/`includes`
(`Text`).

Conventions used throughout:
- Timestamps are integers.
- Ids, creation dates and the current instant are parameters.
- `module` and `type` are reserved words in Dafny. The grant field is
  therefore `moduleId`, and the task kind is `todoType`.

For an agent, `getAccessibleModules` returns `permissions.map(p => p.module)`
(`src/hooks/usePermissions.ts:41`): it keeps one module per grant and does
not merge duplicates. Two grants for one module therefore make that module
appear twice, which `Permissions.AgentModulesKeepDuplicates` states.

## Model

| member | source | states |
|---|---|---|
| Types.RoleOf | src/components/layout/Sidebar.tsx:68-75 | `user?.role`: a role exactly when a user is signed in, and then the user's role |
| Permissions.FirstGrantIndex | src/hooks/usePermissions.ts:18 | `permissions.find(p => p.module === m)`: the index of a grant for `m` with no earlier grant for `m`; absent exactly when no grant names `m` |
| Permissions.FirstGrantIndexAt | src/hooks/usePermissions.ts:18 | the search stops at `i` iff grant `i` is for `m` and no earlier grant is |
| Permissions.FirstGrantIndexSameModules | src/hooks/usePermissions.ts:18 | lists naming the same modules in the same order are searched alike |
| Permissions.GrantAllows | src/hooks/usePermissions.ts:18-19 | the agent check: the first grant for `m` exists and lists `a`; stated without `find` by `GrantAllowsIff` |
| Permissions.HasPermission | src/hooks/usePermissions.ts:7-23 | `hasPermission`: characterised by `NoUserNoAccess`, `SuperRolesAllowAll`, `AgentPermissionIff`, `NoGrantNoPermission` and `AgentWithoutGrants` |
| Permissions.AccessibleModules | src/hooks/usePermissions.ts:25-45 | `getAccessibleModules`: characterised by `NoUserNoAccess`, `FixedModuleLists`, `AgentModulesFollowGrants` and `AgentWithoutGrants` |
| Permissions.GrantModules | src/hooks/usePermissions.ts:41 | `permissions.map(p => p.module)`: one module per grant, in grant order |
| Permissions.NoUserNoAccess | src/hooks/usePermissions.ts:7-26 | with no user, every check is false and the reachable list is empty |
| Permissions.SuperRolesAllowAll | src/hooks/usePermissions.ts:11-14 | superadmin and agency are allowed every action on every module, whatever their grant list holds |
| Permissions.GrantAllowsIff | src/hooks/usePermissions.ts:18-19 | the agent check holds iff some grant for `m` lists `a` and no earlier grant names `m` |
| Permissions.AgentPermissionIff | src/hooks/usePermissions.ts:17-22 | for an agent, `hasPermission(m, a)` iff it has a grant list whose first grant for `m` lists `a` |
| Permissions.NoGrantNoPermission | src/hooks/usePermissions.ts:17-19 | an agent with no grant for `m` is refused every action on `m` |
| Permissions.AgentWithoutGrants | src/hooks/usePermissions.ts:17-44 | an agent without a grant list is refused everything and reaches nothing |
| Permissions.FixedModuleLists | src/hooks/usePermissions.ts:28-37 | superadmin reaches exactly agences, tickets, parametres; agency reaches 13 modules starting with dashboard, without todos or logs |
| Permissions.AgentModulesFollowGrants | src/hooks/usePermissions.ts:40-41 | an agent reaches one module per grant, in grant order |
| Permissions.AgentModulesKeepDuplicates | src/hooks/usePermissions.ts:41 | two grants for `clients` make `clients` reachable twice |
| Permissions.AgentPermissionImpliesAccessible | src/hooks/usePermissions.ts:17-41 | an agent allowed any action on `m` can reach `m` |
| Permissions.AgencyAllowedBeyondItsList | src/hooks/usePermissions.ts:14-37 | the same does not hold for an agency: it is allowed on `todos`, which it cannot reach |
| Permissions.ReadOnlyClientsAgent | src/hooks/usePermissions.ts:17-41 | an agent granted `lire` on `clients` may read but not create clients, and reaches `clients` only |
| Sidebar.Catalogue | src/components/layout/Sidebar.tsx:41-64 | `menuItems` (the constant `MenuItems`): eighteen entries with pairwise distinct ids; profile and agents are tagged `agence`, agences and tickets `superadmin`, and no other entry is tagged |
| Sidebar.IsVisible | src/components/layout/Sidebar.tsx:66-78 | the filter callback, rule by rule in source order; characterised by `RoleTaggedHidden`, `DashboardAlwaysVisible`, `ProfileVisibleIff`, `SuperadminEntriesVisibleIff`, `AgentsEntryVisibleIff` and `UntaggedVisibleIff` |
| Sidebar.VisibleItems | src/components/layout/Sidebar.tsx:66-78 | `visibleItems` for a role and a module list; characterised by `VisibleMembers`, `VisibleInCatalogueOrder` and `NoVisibleItemPending` |
| Sidebar.VisibleFor | src/components/layout/Sidebar.tsx:41-78 | `visibleItems` fed by `getAccessibleModules` for the signed-in user; worked out in `SuperadminMenu` and `AgenceMenu` |
| Sidebar.ModuleStatusOf | src/components/layout/Sidebar.tsx:80-86 | `getModuleStatus`: pending iff the entry is neither dashboard nor profile, the role is neither superadmin nor agency, and the module is not reachable |
| Sidebar.Ids | src/components/layout/Sidebar.tsx:41-64 | the ids of a list of entries, position by position |
| Sidebar.VisibleMembers | src/components/layout/Sidebar.tsx:66-78 | an entry is shown iff it is in the catalogue and passes the rule chain |
| Sidebar.VisibleInCatalogueOrder | src/components/layout/Sidebar.tsx:41-78 | the shown entries are a subsequence of the catalogue, in catalogue order |
| Sidebar.RoleTaggedHidden | src/components/layout/Sidebar.tsx:68-70 | an entry whose role tag excludes the role is hidden; with no user every role-tagged entry is hidden |
| Sidebar.DashboardAlwaysVisible | src/components/layout/Sidebar.tsx:73 | the dashboard is shown for every role and with no user |
| Sidebar.ProfileVisibleIff | src/components/layout/Sidebar.tsx:74 | the profile is shown iff the role is agency |
| Sidebar.SuperadminEntriesVisibleIff | src/components/layout/Sidebar.tsx:75 | agences and tickets are shown iff the role is superadmin |
| Sidebar.AgentsEntryVisibleIff | src/components/layout/Sidebar.tsx:61-77 | the agents entry is shown iff the role is agency and `agents` is reachable |
| Sidebar.UntaggedVisibleIff | src/components/layout/Sidebar.tsx:77 | every untagged entry other than the dashboard is shown iff its module is reachable, for any role |
| Sidebar.NoVisibleItemPending | src/components/layout/Sidebar.tsx:66-86 | no shown entry has status pending |
| Sidebar.SuperadminVisibility | src/components/layout/Sidebar.tsx:41-78 | for a superadmin, entry `i` passes the rules iff it is dashboard, agences, tickets or parametres |
| Sidebar.SuperadminItemsHead | src/components/layout/Sidebar.tsx:41-78 | proof step of `Sidebar.SuperadminItems`, split off to keep each proof small: the superadmin filter over the first nine entries keeps dashboard, agences, tickets |
| Sidebar.SuperadminItems | src/components/layout/Sidebar.tsx:41-78 | the superadmin filter keeps dashboard, agences, tickets, parametres, in that order |
| Sidebar.SuperadminMenu | src/components/layout/Sidebar.tsx:41-78 | a signed-in superadmin sees exactly dashboard, agences, tickets, parametres, in that order |
| Sidebar.AgenceVisibilityLow | src/components/layout/Sidebar.tsx:41-78 | proof step of `Sidebar.AgenceItems`, split off to keep each proof small: for an agency, of the first six entries all but agences and tickets pass |
| Sidebar.AgenceVisibilityMid | src/components/layout/Sidebar.tsx:41-78 | proof step of `Sidebar.AgenceItems`, split off to keep each proof small: for an agency, entries six to eleven all pass |
| Sidebar.AgenceVisibilityHigh | src/components/layout/Sidebar.tsx:41-78 | proof step of `Sidebar.AgenceItems`, split off to keep each proof small: for an agency, of the last six entries all but todos and logs pass |
| Sidebar.AgenceItemsLow | src/components/layout/Sidebar.tsx:41-78 | proof step of `Sidebar.AgenceItems`, split off to keep each proof small: with agency visibility, the filter over six entries keeps dashboard, profile, clients, fournisseurs |
| Sidebar.AgenceItemsMid | src/components/layout/Sidebar.tsx:41-78 | proof step of `Sidebar.AgenceItems`, split off to keep each proof small: with agency visibility, the filter over twelve entries keeps the ten visible ones in order |
| Sidebar.AgenceItemsHigh | src/components/layout/Sidebar.tsx:41-78 | proof step of `Sidebar.AgenceItems`, split off to keep each proof small: with agency visibility, the filter over fifteen entries keeps the twelve visible ones in order |
| Sidebar.AgenceItemsAgents | src/components/layout/Sidebar.tsx:41-78 | proof step of `Sidebar.AgenceItems`, split off to keep each proof small: with agency visibility, the filter over sixteen entries adds the agents entry |
| Sidebar.AgenceItemsFor | src/components/layout/Sidebar.tsx:41-78 | with agency visibility, the whole filter keeps the fourteen visible entries in catalogue order |
| Sidebar.AgenceItems | src/components/layout/Sidebar.tsx:41-78 | the agency filter keeps every entry but agences, tickets, todos and logs, in catalogue order |
| Sidebar.AgenceItemIds | src/components/layout/Sidebar.tsx:41-64 | the ids of those fourteen entries |
| Sidebar.AgenceMenu | src/components/layout/Sidebar.tsx:41-78 | a signed-in agency sees exactly those fourteen entries: its profile and agents pages, not its todos |
| RouteGuard.Guard | src/App.tsx:30-54 | `ProtectedRoute`: each of the four outcomes exactly under its condition. Loading wins; then no user redirects to login; then a pending agency gets the approval page; otherwise the page |
| RouteGuard.GuardIgnoresGrants | src/App.tsx:30-54 | the outcome does not depend on the user's grant list |
| RouteGuard.OnlyPendingAgencyHeld | src/App.tsx:49-53 | a signed-in user who is not a pending agency always passes: a pending agent or superadmin, and any suspended user |
| RouteGuard.GuardIndependentOfPermissions | src/App.tsx:30-54 | an agent refused every action by the evaluator still passes the guard |
| Agents.Flipped | src/pages/agents/AgentsPage.tsx:139 | `actif` and `suspendu` swap: the result always differs |
| Agents.Toggled | src/pages/agents/AgentsPage.tsx:136-140 | same length; only the agents with the id change, and only in their state |
| Agents.WithGrants | src/pages/agents/AgentsPage.tsx:150-154 | same length; only the agents with the id change, and only in their grants |
| Agents.FindGrantIndex | src/pages/agents/AgentsPage.tsx:200 | `findIndex`: -1 iff no grant for `m`; otherwise a grant for `m` with none before it. The loop finds the same index as the `find` of the evaluator (`Permissions.FirstGrantIndex`) |
| Agents.Without | src/pages/agents/AgentsPage.tsx:167 | the deletion `filter`; characterised by `WithoutMembers`, `WithoutAbsent` and `AddThenDelete` |
| Agents.Changed | src/pages/agents/AgentsPage.tsx:197-219 | `handlePermissionChange` on the grant list; characterised by `ChangedWellFormed`, `UncheckWithoutGrant`, `CheckedIsAllowed` and `ChangedEffect`, and computed by `AgentStore.ChangePermission` with `FindGrantIndex` |
| Agents.FormHasPermission | src/pages/agents/AgentsPage.tsx:221-224 | the form-local `hasPermission`; the same test as the evaluator's agent check (`EditorMatchesEvaluator`), read after a click by `CheckedIsAllowed` and `ChangedEffect` |
| Agents.MatchesSearch | src/pages/agents/AgentsPage.tsx:227-232 | the lower-cased term occurs in the lower-cased last name, first name or e-mail; used by `FilteredMembers` and `EmptySearchKeepsAll` |
| Agents.Filtered | src/pages/agents/AgentsPage.tsx:226-233 | `filteredAgents`; characterised by `FilteredMembers` and `EmptySearchKeepsAll` |
| Agents.AgentStore.constructor | src/pages/agents/AgentsPage.tsx:21-36 | initial list, empty form, no pick |
| Agents.AgentStore.AddAgent | src/pages/agents/AgentsPage.tsx:111-132 | no change when last name, first name or e-mail is empty. Otherwise the new active agent with the form's grants comes first, the old list follows and the form is reset |
| Agents.AgentStore.ToggleStatus | src/pages/agents/AgentsPage.tsx:134-144 | the list becomes `Toggled`; form and pick untouched |
| Agents.AgentStore.OpenPermissions | src/pages/agents/AgentsPage.tsx:185-195 | the agent is picked and its fields and grants are loaded into the form; list untouched |
| Agents.AgentStore.Select | src/pages/agents/AgentsPage.tsx:422-426 | the agent is picked; list and form untouched |
| Agents.AgentStore.ChangePermission | src/pages/agents/AgentsPage.tsx:197-219 | the form's grants become `Changed(old grants, m, a, checked)`; nothing else changes |
| Agents.AgentStore.UpdatePermissions | src/pages/agents/AgentsPage.tsx:146-161 | no change without a pick. Otherwise the picked id gets the form's grants, the pick is cleared and the form reset |
| Agents.AgentStore.CancelPermissions | src/pages/agents/AgentsPage.tsx:582-590 | closing the grant editor clears the pick and the form and leaves the list as it was |
| Agents.AgentStore.CancelAdd | src/pages/agents/AgentsPage.tsx:447-452 | closing the add dialog resets the form and leaves the list and the pick as they were |
| Agents.AgentStore.CancelDelete | src/pages/agents/AgentsPage.tsx:694-700 | closing the deletion dialog clears the pick only |
| Agents.AgentStore.DeleteAgent | src/pages/agents/AgentsPage.tsx:163-173 | no change without a pick. Otherwise the list becomes `Without(old list, picked id)` and the pick is cleared |
| Agents.ToggleTwice | src/pages/agents/AgentsPage.tsx:136-140 | toggling the same id twice gives the list back |
| Agents.ToggleAbsent | src/pages/agents/AgentsPage.tsx:136-140 | toggling an id nobody has changes nothing |
| Agents.WithoutMembers | src/pages/agents/AgentsPage.tsx:167 | deletion keeps exactly the agents with another id, each as many times as before, in order, and never lengthens the list |
| Agents.WithoutAbsent | src/pages/agents/AgentsPage.tsx:167 | deleting an id nobody has changes nothing |
| Agents.AddThenDelete | src/pages/agents/AgentsPage.tsx:126-167 | deleting a freshly prepended agent gives the old list back |
| Agents.WithGrantsAbsent | src/pages/agents/AgentsPage.tsx:150-154 | replacing the grants of an id nobody has changes nothing |
| Agents.WithoutActionMembers | src/pages/agents/AgentsPage.tsx:208 | `actions.filter(x => x !== a)` keeps exactly the actions other than `a` |
| Agents.ChangedWellFormed | src/pages/agents/AgentsPage.tsx:197-219 | every click keeps "at most one grant per module, no empty grant" |
| Agents.UncheckWithoutGrant | src/pages/agents/AgentsPage.tsx:199-216 | unticking on a module without a grant changes nothing |
| Agents.CheckedIsAllowed | src/pages/agents/AgentsPage.tsx:203-224 | after ticking `(m, a)` the form-local `hasPermission(m, a)` holds, for any list |
| Agents.ReplacedGrantEffect | src/pages/agents/AgentsPage.tsx:205-208 | changing the actions of grant `i` only affects the module whose first grant is `i` |
| Agents.RemovedGrantEffect | src/pages/agents/AgentsPage.tsx:209-211 | splicing out grant `i` of a one-grant-per-module list withdraws its module and nothing else |
| Agents.AppendedGrantEffect | src/pages/agents/AgentsPage.tsx:213-214 | appending a grant for a module without one adds that module and nothing else |
| Agents.ChangedEffect | src/pages/agents/AgentsPage.tsx:197-224 | on a well-formed list, after a click `(m, a)` reads `checked` and every other check box reads as before |
| Agents.EditorMatchesEvaluator | src/pages/agents/AgentsPage.tsx:221-224 | the editor's check box for an agent's grants equals what the evaluator grants that agent once signed in |
| Agents.FilteredMembers | src/pages/agents/AgentsPage.tsx:226-233 | the search keeps, in order and with their multiplicity, exactly the agents whose lower-cased last name, first name or e-mail contains the lower-cased term |
| Agents.EmptySearchKeepsAll | src/pages/agents/AgentsPage.tsx:226-233 | an empty term lists every agent |
| Todos.OrAbsent | src/pages/todos/TodosPage.tsx:118 | `s \|\| undefined`: absent iff `s` is empty, else `s` |
| Todos.NewTodo | src/pages/todos/TodosPage.tsx:114-126 | the new task has the given id, due date and creation instant and the form's title, description, priority and type, and it is waiting. An empty client id or assignee becomes absent, and any other is kept. It has a client name iff a client id was given, and the name is then "Client sélectionné" |
| Todos.Toggled | src/pages/todos/TodosPage.tsx:136-149 | same length; only the tasks with the id change, and only by one progress step |
| Todos.NextStatus | src/pages/todos/TodosPage.tsx:140-141 | one click on the progress; characterised by `StatusCycle` |
| Todos.Without | src/pages/todos/TodosPage.tsx:155 | the deletion `filter`; characterised by `WithoutMembers`, `WithoutAbsent` and `AddThenDelete` |
| Todos.MatchesSearch | src/pages/todos/TodosPage.tsx:190-192 | the lower-cased term occurs in the title, the description or a non-empty client name; used by `FilteredMembers` and `NoFilterKeepsAll` |
| Todos.Listed | src/pages/todos/TodosPage.tsx:190-195 | search, status box and priority box all accept the task; used by `FilteredMembers` |
| Todos.Filtered | src/pages/todos/TodosPage.tsx:189-196 | `filteredTodos`; characterised by `FilteredMembers` and `NoFilterKeepsAll` |
| Todos.IsOverdue | src/pages/todos/TodosPage.tsx:223-225 | `isOverdue` as written, keyed by due date; characterised by `OverdueOnFirstOfItsDate` and `OverdueWithDistinctDates`, and shown to miss a late task by `DoneTaskMasksLateTwin` |
| Todos.OverdueCount | src/pages/todos/TodosPage.tsx:302 | the overdue counter as written; `DoneTaskMasksLateTwin` shows it reading 0 for one late task |
| Todos.PriorityColor | src/pages/todos/TodosPage.tsx:198-205 | `getPriorityColor`; characterised by `ColoursDistinguish` |
| Todos.StatusColor | src/pages/todos/TodosPage.tsx:207-213 | `getStatusColor`; characterised by `ColoursDistinguish` |
| Todos.FirstDueAt | src/pages/todos/TodosPage.tsx:224 | `todos.find(t => t.dateEcheance === d)`: the first task due at `d`, absent iff none is |
| Todos.TodoStore.constructor | src/pages/todos/TodosPage.tsx:36-54 | initial list, empty form, no pick |
| Todos.TodoStore.AddTodo | src/pages/todos/TodosPage.tsx:110-134 | no change without a title or a due date, or when the due date does not parse. Otherwise `NewTodo` comes first, the old list follows and the form is reset |
| Todos.TodoStore.ToggleStatus | src/pages/todos/TodosPage.tsx:136-149 | the list becomes `Toggled`; form and pick untouched |
| Todos.TodoStore.Select | src/pages/todos/TodosPage.tsx:443-447 | the task is picked; list and form untouched |
| Todos.TodoStore.CancelAdd | src/pages/todos/TodosPage.tsx:469-474 | closing the add dialog resets the form and leaves the list and the pick as they were |
| Todos.TodoStore.CancelDelete | src/pages/todos/TodosPage.tsx:585-590 | closing the deletion dialog clears the pick only |
| Todos.TodoStore.DeleteTodo | src/pages/todos/TodosPage.tsx:151-161 | no change without a pick. Otherwise the list becomes `Without(old list, picked id)` and the pick is cleared |
| Todos.StatusCycle | src/pages/todos/TodosPage.tsx:140-141 | every click changes the progress, and three clicks give it back |
| Todos.ToggleThrice | src/pages/todos/TodosPage.tsx:138-145 | three clicks on the same id give the list back |
| Todos.WithoutMembers | src/pages/todos/TodosPage.tsx:155 | deletion keeps exactly the tasks with another id, each as many times as before, in order |
| Todos.WithoutAbsent | src/pages/todos/TodosPage.tsx:155 | deleting an id nobody has changes nothing |
| Todos.AddThenDelete | src/pages/todos/TodosPage.tsx:128-155 | deleting a freshly prepended task gives the old list back |
| Todos.FilteredMembers | src/pages/todos/TodosPage.tsx:189-196 | the filter keeps, in order and with their multiplicity, exactly the tasks matching the term (title, description or non-empty client name), the status box and the priority box |
| Todos.NoFilterKeepsAll | src/pages/todos/TodosPage.tsx:189-196 | an empty term with both boxes on `tous` lists every task |
| Todos.OverdueOnFirstOfItsDate | src/pages/todos/TodosPage.tsx:223-225 | on the first task due at its date, `isOverdue` is "past due and not done" |
| Todos.OverdueWithDistinctDates | src/pages/todos/TodosPage.tsx:223-225 | with pairwise distinct due dates, `isOverdue` is "past due and not done" for every task |
| Todos.DoneTaskMasksLateTwin | src/pages/todos/TodosPage.tsx:223-225 | two tasks share a due date, the first done and the second late: the second is not flagged and the counter reads 0 instead of 1 |
| Todos.LateTaskFlagsDoneTwin | src/pages/todos/TodosPage.tsx:223-225 | the reverse case: two tasks share a due date, the first late and the second done: the done task is flagged overdue and the counter reads 2 instead of 1 |
| Todos.PastDueOpenCountMembers | src/pages/todos/TodosPage.tsx:302 | the corrected counter keeps exactly the late, unfinished tasks, each as many times as it occurs, so its value is their number |
| Text.Lower | src/pages/agents/AgentsPage.tsx:227-231 | `toLowerCase` on ASCII letters: same length, each character lowered |
| Text.Includes | src/pages/agents/AgentsPage.tsx:229-231 | `includes`: the term is a prefix of some suffix of the text; with the empty term it always holds (`LowerIncludesEmpty`) |
| Todos.ColoursDistinguish | src/pages/todos/TodosPage.tsx:198-213 | distinct priorities get distinct colours, and so do distinct states; `success` means done |

## Findings

| source | as written | input that shows it | evidently intended | confidence | as-written member | corrected member |
|---|---|---|---|---|---|---|
| src/pages/todos/TodosPage.tsx:223-225 | `isOverdue(d)` looks up the first task whose due date equals `d` and tests that task's state. Every row and the overdue counter (:302) call it with their own task's date | two tasks due at the same past instant, the first done and the second waiting: the second row is not flagged and the counter shows 0. In the other order (`Todos.LateTaskFlagsDoneTwin`) the done task is flagged and the counter shows 2 for one late task | a task is overdue when its own due date is past and it is not done | medium (not executed) | Todos.DoneTaskMasksLateTwin | Todos.PastDueOpenCountMembers |

## Left out

- Rendering is not modelled: JSX, modals, badges, icons, styles, and the detail dialog of an agent. Display strings are left out too: menu captions, paths and icons, and the texts of the pages.
- The authentication context is not part of this model. The user and the loading flag are parameters.
- The mock fetches are left out: their delays, their seed records and the loading flag of each page. The stores start from a given list.
- The `try/catch` around each handler models no error path, with one exception in `handleAddTodo`. There `new Date(text)` gives an invalid date for a due-date text that does not parse, and `.toISOString()` (`src/pages/todos/TodosPage.tsx:120`) then throws; the catch leaves the list unchanged. This is modelled through the `due: Option<int>` parameter of `AddTodo`. From the page the path is unreachable, because the due date comes from a `datetime-local` input (:543) and the button is disabled while it is empty (:575). The parameter over-approximates it.
- Clock readings are parameters: `Date.now()` ids, `toISOString()` timestamps and the current instant. A due date is an integer instant; the text form and its formatting are left out. The lookup in `isOverdue` (`src/pages/todos/TodosPage.tsx:224`) compares due-date texts: a seeded `…T10:00:00Z` and a `toISOString()` text with milliseconds name the same instant but are different keys there, while the model treats them as one.
- `Agents.AgentStore.AddAgent` and `Todos.TodoStore.AddTodo` do not promise a fresh id. The id is whatever the caller passes, as `Date.now()` is in the original. The lemmas that need freshness require it.
- Object sharing in the grant editor is not modelled. `openPermissionsModal` copies only the array of grants, and ticking or unticking then mutates the grant objects that the stored agent shares. A cancelled edit of an existing grant can therefore still change that agent's actions. The model gives grants value semantics, so `Agents.AgentStore.CancelPermissions` leaves the list as it was.
- Editing a task is left out: `openEditModal` fills the form, but no save handler exists.
- The status and priority select boxes hold `tous` or one of the listed values (`Todos.Choice`). Other strings cannot reach them from the page.
- `getModuleStatus` and the visibility filter take catalogue ids (`Sidebar.MenuId`). Module strings outside the catalogue are not modelled.
- `toLowerCase` lower-cases ASCII letters only; other characters are kept as they are.
- The route table and its redirects are not part of this model.
- The record types other than user, grant and agent are not part of this model.
