/** The task list of an agency: reminders, tasks and follow-ups with a due
    date, a priority and a three-state progress, plus the filters, the
    overdue flag and the badge colours of the page. Dates are instants on an
    integer time line; the current instant is a parameter. */
module Todos {
  import opened Wrappers
  import Seqs
  import Text

  datatype Priority = Faible | Normale | Haute | Urgente

  datatype TodoStatus = EnAttente | EnCours | Termine

  datatype TodoType = Rappel | Tache | Suivi

  /** One task (`type` is a reserved word here, hence `todoType`). */
  datatype Todo = Todo(
    id: string,
    titre: string,
    description: string,
    clientId: Option<string>,
    clientNom: Option<string>,
    dateEcheance: int,
    priorite: Priority,
    statut: TodoStatus,
    todoType: TodoType,
    dateCreation: int,
    assigneA: Option<string>)

  /** The add form; the due date is still the text of the date input. */
  datatype TodoForm = TodoForm(
    titre: string,
    description: string,
    clientId: string,
    dateEcheance: string,
    priorite: Priority,
    todoType: TodoType,
    assigneA: string)

  /** The form as `resetForm` leaves it. */
  const EmptyForm: TodoForm := TodoForm("", "", "", "", Normale, Tache, "")

  /** The client name a new task linked to a client receives. */
  const SelectedClientName: string := "Client sélectionné"

  /** `s || undefined`: the empty string becomes absent. */
  function OrAbsent(s: string): (r: Option<string>)
    ensures r.None? <==> s == ""
    ensures r.Some? ==> r.value == s
  {
    if s == "" then None else Some(s)
  }

  /** The task `handleAddTodo` builds from the form, given its id, the
      parsed due date and the creation instant. */
  function NewTodo(form: TodoForm, id: string, due: int, now: int): (t: Todo)
    ensures t.id == id && t.dateEcheance == due && t.dateCreation == now
    ensures t.titre == form.titre && t.description == form.description
    ensures t.priorite == form.priorite && t.todoType == form.todoType
    ensures t.statut == EnAttente
    ensures t.clientId.None? <==> form.clientId == ""
    ensures t.clientId.Some? ==> t.clientId.value == form.clientId
    ensures t.assigneA.None? <==> form.assigneA == ""
    ensures t.assigneA.Some? ==> t.assigneA.value == form.assigneA
    ensures t.clientNom.Some? <==> form.clientId != ""
    ensures t.clientNom.Some? ==> t.clientNom.value == SelectedClientName
  {
    Todo(id, form.titre, form.description, OrAbsent(form.clientId),
         if form.clientId != "" then Some(SelectedClientName) else None,
         due, form.priorite, EnAttente, form.todoType, now, OrAbsent(form.assigneA))
  }

  // ---------------------------------------------------------------------
  // Operations on the task list

  /** The progress after one click: waiting, then in progress, then done,
      then waiting again. */
  function NextStatus(s: TodoStatus): TodoStatus
  {
    match s
    case Termine => EnAttente
    case EnAttente => EnCours
    case EnCours => Termine
  }

  /** The list after one click on the progress of the tasks with id `id`. */
  function Toggled(todos: seq<Todo>, id: string): (r: seq<Todo>)
    ensures |r| == |todos|
    ensures forall i :: 0 <= i < |todos| && todos[i].id != id ==> r[i] == todos[i]
    ensures forall i :: 0 <= i < |todos| && todos[i].id == id ==>
      r[i] == todos[i].(statut := NextStatus(todos[i].statut))
  {
    Seqs.Map(todos, (t: Todo) => if t.id == id then t.(statut := NextStatus(t.statut)) else t)
  }

  /** The list without the tasks whose id is `id`. */
  function Without(todos: seq<Todo>, id: string): seq<Todo>
  {
    Seqs.Filter(todos, (t: Todo) => t.id != id)
  }

  /** `id` names none of the tasks. */
  predicate FreshId(todos: seq<Todo>, id: string)
  {
    forall t :: t in todos ==> t.id != id
  }

  // ---------------------------------------------------------------------
  // Filters

  /** A select box with the `tous` entry or one value. */
  datatype Choice<T> = Tous | Only(value: T)

  predicate Accepts<T(==)>(c: Choice<T>, x: T)
  {
    c.Tous? || c.value == x
  }

  /** The search term occurs, case-insensitively, in the title, the
      description or a non-empty client name. */
  predicate MatchesSearch(t: Todo, term: string)
  {
    var s := Text.Lower(term);
    Text.Includes(Text.Lower(t.titre), s) || Text.Includes(Text.Lower(t.description), s)
      || (t.clientNom.Some? && t.clientNom.value != "" && Text.Includes(Text.Lower(t.clientNom.value), s))
  }

  /** A task is listed when it matches the search term and both select boxes. */
  predicate Listed(t: Todo, term: string, status: Choice<TodoStatus>, priority: Choice<Priority>)
  {
    MatchesSearch(t, term) && Accepts(status, t.statut) && Accepts(priority, t.priorite)
  }

  /** `filteredTodos`. */
  function Filtered(todos: seq<Todo>, term: string, status: Choice<TodoStatus>, priority: Choice<Priority>): seq<Todo>
  {
    Seqs.Filter(todos, (t: Todo) => Listed(t, term, status, priority))
  }

  // ---------------------------------------------------------------------
  // The overdue flag

  /** Position of the first task due at `d` (`todos.find` by due date). */
  function FirstDueAt(todos: seq<Todo>, d: int): (r: Option<nat>)
    ensures r.Some? ==> r.value < |todos| && todos[r.value].dateEcheance == d
    ensures r.Some? ==> forall j :: 0 <= j < r.value ==> todos[j].dateEcheance != d
    ensures r.None? ==> forall j :: 0 <= j < |todos| ==> todos[j].dateEcheance != d
  {
    if todos == [] then None
    else if todos[0].dateEcheance == d then Some(0)
    else match FirstDueAt(todos[1..], d)
      case None => None
      case Some(k) => Some(k + 1)
  }

  /** `isOverdue(d)` as written: `d` is past and the first task due at `d`
      is not done (no task due at `d` counts as not done). */
  predicate IsOverdue(todos: seq<Todo>, d: int, now: int)
  {
    d < now &&
    match FirstDueAt(todos, d)
    case None => true
    case Some(i) => todos[i].statut != Termine
  }

  /** The number in the overdue counter as written: the tasks whose due date
      `isOverdue` flags. */
  function OverdueCount(todos: seq<Todo>, now: int): nat
  {
    |Seqs.Filter(todos, (t: Todo) => IsOverdue(todos, t.dateEcheance, now))|
  }

  /** The evident intent: a task is overdue when its own due date is past and
      it is not done. */
  predicate PastDueOpen(t: Todo, now: int)
  {
    t.dateEcheance < now && t.statut != Termine
  }

  /** The counter with the evident intent. */
  function PastDueOpenCount(todos: seq<Todo>, now: int): nat
  {
    |Seqs.Filter(todos, (t: Todo) => PastDueOpen(t, now))|
  }

  // ---------------------------------------------------------------------
  // Badge colours

  datatype Variant = Danger | Warning | Info | Default | Success

  /** `getPriorityColor`. */
  function PriorityColor(p: Priority): Variant
  {
    match p
    case Urgente => Danger
    case Haute => Warning
    case Normale => Info
    case Faible => Default
  }

  /** `getStatusColor`. */
  function StatusColor(s: TodoStatus): Variant
  {
    match s
    case Termine => Success
    case EnCours => Info
    case EnAttente => Warning
  }

  // ---------------------------------------------------------------------
  // The page state

  /** The state of the task page: the list, the add form and the task
      picked for deletion. */
  class TodoStore {
    var todos: seq<Todo>
    var form: TodoForm
    var selected: Option<Todo>

    constructor(initial: seq<Todo>)
      ensures todos == initial && form == EmptyForm && selected == None
    {
      todos := initial;
      form := EmptyForm;
      selected := None;
    }

    /** `handleAddTodo`. Without a title or a due date nothing happens. `due`
        is the due-date text read as an instant, absent when it does not
        read as a date: building the task then fails and the failure is
        swallowed, so nothing happens either. Otherwise the new task is
        prepended and the form reset. */
    method AddTodo(newId: string, due: Option<int>, now: int)
      modifies this
      ensures old(form.titre) == "" || old(form.dateEcheance) == "" || due.None? ==>
        todos == old(todos) && form == old(form)
      ensures old(form.titre) != "" && old(form.dateEcheance) != "" && due.Some? ==>
        todos == [NewTodo(old(form), newId, due.value, now)] + old(todos) && form == EmptyForm
      ensures selected == old(selected)
    {
      if form.titre == "" || form.dateEcheance == "" {
        return;
      }
      if due.None? {
        return;
      }
      todos := [NewTodo(form, newId, due.value, now)] + todos;
      form := EmptyForm;
    }

    /** `handleToggleStatus`. */
    method ToggleStatus(id: string)
      modifies this
      ensures todos == Toggled(old(todos), id)
      ensures form == old(form) && selected == old(selected)
    {
      todos := Toggled(todos, id);
    }

    /** Picking a task for the deletion dialog. */
    method Select(t: Todo)
      modifies this
      ensures selected == Some(t)
      ensures todos == old(todos) && form == old(form)
    {
      selected := Some(t);
    }

    /** Closing the add dialog without adding: the form is reset. */
    method CancelAdd()
      modifies this
      ensures form == EmptyForm
      ensures todos == old(todos) && selected == old(selected)
    {
      form := EmptyForm;
    }

    /** Closing the deletion dialog without deleting. */
    method CancelDelete()
      modifies this
      ensures selected == None
      ensures todos == old(todos) && form == old(form)
    {
      selected := None;
    }

    /** `handleDeleteTodo`: without a picked task nothing happens; otherwise
        the tasks with its id are removed and the pick is cleared. */
    method DeleteTodo()
      modifies this
      ensures old(selected).None? ==> todos == old(todos) && selected == old(selected)
      ensures old(selected).Some? ==>
        todos == Without(old(todos), old(selected).value.id) && selected == None
      ensures form == old(form)
    {
      if selected.None? {
        return;
      }
      todos := Without(todos, selected.value.id);
      selected := None;
    }
  }

  // ---------------------------------------------------------------------
  // Properties

  /** The progress is a three-cycle: every click changes it and three clicks
      give it back. */
  lemma StatusCycle(s: TodoStatus)
    ensures NextStatus(s) != s && NextStatus(NextStatus(s)) != s
    ensures NextStatus(NextStatus(NextStatus(s))) == s
  {
  }

  /** Three clicks on the same id give the list back. */
  lemma ToggleThrice(todos: seq<Todo>, id: string)
    ensures Toggled(Toggled(Toggled(todos, id), id), id) == todos
  {
  }

  /** Deleting keeps, in order, exactly the tasks with another id, each as
      many times as before. */
  lemma WithoutMembers(todos: seq<Todo>, id: string)
    ensures forall t :: t in Without(todos, id) <==> t in todos && t.id != id
    ensures forall t :: multiset(Without(todos, id))[t] == if t.id != id then multiset(todos)[t] else 0
    ensures Seqs.IsSubsequence(Without(todos, id), todos)
  {
    Seqs.FilterMembers(todos, (t: Todo) => t.id != id);
    Seqs.FilterCounts(todos, (t: Todo) => t.id != id);
    Seqs.FilterIsSubsequence(todos, (t: Todo) => t.id != id);
  }

  /** Deleting an id nobody has changes nothing. */
  lemma WithoutAbsent(todos: seq<Todo>, id: string)
    requires FreshId(todos, id)
    ensures Without(todos, id) == todos
  {
    Seqs.FilterKeepsAll(todos, (t: Todo) => t.id != id);
  }

  /** Deleting a freshly added task gives the list back. */
  lemma AddThenDelete(todos: seq<Todo>, t: Todo)
    requires FreshId(todos, t.id)
    ensures Without([t] + todos, t.id) == todos
  {
    Seqs.FilterCons(t, todos, (x: Todo) => x.id != t.id);
    WithoutAbsent(todos, t.id);
  }

  /** The filter keeps, in order, exactly the listed tasks, each as many
      times as before. */
  lemma FilteredMembers(todos: seq<Todo>, term: string, status: Choice<TodoStatus>, priority: Choice<Priority>)
    ensures forall t :: t in Filtered(todos, term, status, priority) <==>
      t in todos && MatchesSearch(t, term) && Accepts(status, t.statut) && Accepts(priority, t.priorite)
    ensures forall t :: multiset(Filtered(todos, term, status, priority))[t] ==
                        if Listed(t, term, status, priority) then multiset(todos)[t] else 0
    ensures Seqs.IsSubsequence(Filtered(todos, term, status, priority), todos)
  {
    Seqs.FilterMembers(todos, (t: Todo) => Listed(t, term, status, priority));
    Seqs.FilterCounts(todos, (t: Todo) => Listed(t, term, status, priority));
    Seqs.FilterIsSubsequence(todos, (t: Todo) => Listed(t, term, status, priority));
  }

  /** With an empty search box and both select boxes on `tous` every task is
      listed. */
  lemma NoFilterKeepsAll(todos: seq<Todo>)
    ensures Filtered(todos, "", Tous, Tous) == todos
  {
    forall t | t in todos
      ensures Listed(t, "", Tous, Tous)
    {
      Text.LowerIncludesEmpty(t.titre);
    }
    Seqs.FilterKeepsAll(todos, (t: Todo) => Listed(t, "", Tous, Tous));
  }

  /** `isOverdue` looks the task up by its due date: it agrees with the
      intended per-task flag on the first task due at that date. */
  lemma OverdueOnFirstOfItsDate(todos: seq<Todo>, i: nat, now: int)
    requires i < |todos|
    requires forall j :: 0 <= j < i ==> todos[j].dateEcheance != todos[i].dateEcheance
    ensures IsOverdue(todos, todos[i].dateEcheance, now) == PastDueOpen(todos[i], now)
  {
  }

  /** Hence with pairwise distinct due dates the two flags agree everywhere. */
  lemma OverdueWithDistinctDates(todos: seq<Todo>, now: int)
    requires forall i, j :: 0 <= i < j < |todos| ==> todos[i].dateEcheance != todos[j].dateEcheance
    ensures forall i :: 0 <= i < |todos| ==>
      IsOverdue(todos, todos[i].dateEcheance, now) == PastDueOpen(todos[i], now)
  {
  }

  /** Two tasks due at the same instant share one overdue flag: a finished
      task hides a late one due at the same instant behind it, and the
      counter misses it. */
  lemma DoneTaskMasksLateTwin()
    ensures var done := Todo("1", "Rappel", "", None, None, 10, Normale, Termine, Rappel, 0, None);
      var late := done.(id := "2", statut := EnAttente);
      var todos := [done, late];
      PastDueOpen(late, 20) && !IsOverdue(todos, late.dateEcheance, 20)
      && OverdueCount(todos, 20) == 0 && PastDueOpenCount(todos, 20) == 1
  {
    var done := Todo("1", "Rappel", "", None, None, 10, Normale, Termine, Rappel, 0, None);
    var late := done.(id := "2", statut := EnAttente);
    var todos := [done, late];
    assert FirstDueAt(todos, 10) == Some(0);
    assert Seqs.Filter(todos, (t: Todo) => IsOverdue(todos, t.dateEcheance, 20)) == [] by {
      assert Seqs.FilterPrefix(todos, (t: Todo) => IsOverdue(todos, t.dateEcheance, 20), 1) == [];
    }
    assert Seqs.Filter(todos, (t: Todo) => PastDueOpen(t, 20)) == [late] by {
      assert Seqs.FilterPrefix(todos, (t: Todo) => PastDueOpen(t, 20), 1) == [];
    }
  }

  /** The reverse case: a late task first at an instant flags a finished
      task due at the same instant, and the counter counts that finished
      task too. */
  lemma LateTaskFlagsDoneTwin()
    ensures var late := Todo("1", "Rappel", "", None, None, 10, Normale, EnAttente, Rappel, 0, None);
      var done := late.(id := "2", statut := Termine);
      var todos := [late, done];
      !PastDueOpen(done, 20) && IsOverdue(todos, done.dateEcheance, 20)
      && OverdueCount(todos, 20) == 2 && PastDueOpenCount(todos, 20) == 1
  {
    var late := Todo("1", "Rappel", "", None, None, 10, Normale, EnAttente, Rappel, 0, None);
    var done := late.(id := "2", statut := Termine);
    var todos := [late, done];
    assert FirstDueAt(todos, 10) == Some(0);
    assert Seqs.Filter(todos, (t: Todo) => IsOverdue(todos, t.dateEcheance, 20)) == [late, done] by {
      assert Seqs.FilterPrefix(todos, (t: Todo) => IsOverdue(todos, t.dateEcheance, 20), 1) == [late];
    }
    assert Seqs.Filter(todos, (t: Todo) => PastDueOpen(t, 20)) == [late] by {
      assert Seqs.FilterPrefix(todos, (t: Todo) => PastDueOpen(t, 20), 1) == [late];
    }
  }

  /** The intended counter counts exactly the late, unfinished tasks, each
      as many times as it occurs. */
  lemma PastDueOpenCountMembers(todos: seq<Todo>, now: int)
    ensures PastDueOpenCount(todos, now) <= |todos|
    ensures forall t :: t in Seqs.Filter(todos, (x: Todo) => PastDueOpen(x, now)) <==>
      t in todos && t.dateEcheance < now && t.statut != Termine
    ensures forall t :: multiset(Seqs.Filter(todos, (x: Todo) => PastDueOpen(x, now)))[t] ==
                        if PastDueOpen(t, now) then multiset(todos)[t] else 0
  {
    Seqs.FilterMembers(todos, (x: Todo) => PastDueOpen(x, now));
    Seqs.FilterCounts(todos, (x: Todo) => PastDueOpen(x, now));
  }

  /** Each badge colour names one priority, and one progress state. */
  lemma ColoursDistinguish(p: Priority, q: Priority, s: TodoStatus, s': TodoStatus)
    ensures PriorityColor(p) == PriorityColor(q) ==> p == q
    ensures StatusColor(s) == StatusColor(s') ==> s == s'
    ensures StatusColor(s) == Success <==> s == Termine
  {
  }
}
