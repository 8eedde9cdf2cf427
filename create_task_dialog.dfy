/** The task-creation dialog: its form, the record it builds on submit, the
    append to the stored task list, the callback and the form reset. */
module CreateTask {
  import opened Records
  import opened Dates

  /** The form's fields; `assignedTo` holds the id of the selected member,
      or the empty string when none is selected. */
  datatype TaskForm = TaskForm(title: string, description: string, priority: string, status: string, assignedTo: string)

  const EmptyForm: TaskForm := TaskForm("", "", "", ToDo, "")

  /** The members offered by the assignee selector, as (id, name). */
  const Roster: seq<(string, string)> := [
    ("1", "John Doe"), ("2", "Jane Smith"), ("3", "Mike Johnson"), ("4", "Sarah Williams")
  ]

  /** `roster.find((m) => m.id === id)?.name`: the name of the first member
      with that id, or nothing when no member has it. */
  function FindName(roster: seq<(string, string)>, id: string): (r: Option<string>)
    ensures r.None? <==> forall m :: m in roster ==> m.0 != id
    ensures r.Some? ==> exists i :: 0 <= i < |roster| && roster[i] == (id, r.value) &&
                          forall j :: 0 <= j < i ==> roster[j].0 != id
  {
    if roster == [] then None
    else if roster[0].0 == id then Some(roster[0].1)
    else FindName(roster[1..], id)
  }

  /** Selecting any member of the roster assigns the task to that member. */
  lemma RosterAssignees(creator: string)
    ensures forall i :: 0 <= i < |Roster| ==> Assignee(Roster[i].0, creator) == Some(Roster[i].1)
  {
  }

  /** The `currentUser` property, defaulting to "User" when not passed. */
  function Creator(currentUser: Option<string>): string {
    match currentUser
    case Some(name) => name
    case None => "User"
  }

  /** The assignee: the creator when no member is selected, otherwise the
      selected member's name (nothing for an unknown id). */
  function Assignee(selectedId: string, creator: string): Option<string> {
    if selectedId == "" then Some(creator) else FindName(Roster, selectedId)
  }

  /** The record built on submit. `dueIso` is `date.toISOString()` for the
      picked due date and `nowIso` the same for the current instant. */
  function NewTask(id: string, form: TaskForm, dueIso: string, nowIso: string, currentUser: Option<string>): Task {
    var creator := Creator(currentUser);
    Task(id, form.title, form.description, DatePart(dueIso), form.priority, form.status,
         Assignee(form.assignedTo, creator), Some(creator), Some(DatePart(nowIso)))
  }

  /** What the new record holds: the form's text, priority and status as
      typed; the creator is the current user or "User"; the assignee is the
      creator when nobody is selected and the selected roster member's name
      otherwise; both dates are the part of their timestamp before the `T`. */
  lemma NewTaskFields(id: string, form: TaskForm, dueIso: string, nowIso: string, currentUser: Option<string>)
    ensures var t := NewTask(id, form, dueIso, nowIso, currentUser);
      && t.id == id && t.title == form.title && t.description == form.description
      && t.priority == form.priority && t.status == form.status
      && t.createdBy == Some(if currentUser.Some? then currentUser.value else "User")
      && (form.assignedTo == "" ==> t.assignedTo == t.createdBy)
      && (form.assignedTo != "" ==> t.assignedTo == FindName(Roster, form.assignedTo))
      && (form.assignedTo != "" && (forall m :: m in Roster ==> m.0 != form.assignedTo) ==> t.assignedTo == None)
      && t.dueDate + dueIso[|t.dueDate|..] == dueIso && 'T' !in t.dueDate
      && (|t.dueDate| < |dueIso| ==> dueIso[|t.dueDate|] == 'T')
      && t.createdDate.Some? && nowIso[..|t.createdDate.value|] == t.createdDate.value && 'T' !in t.createdDate.value
      && (|t.createdDate.value| < |nowIso| ==> nowIso[|t.createdDate.value|] == 'T')
  {
    var t := NewTask(id, form, dueIso, nowIso, currentUser);
    assert dueIso == dueIso[..|t.dueDate|] + dueIso[|t.dueDate|..];
  }

  datatype Outcome = MissingDueDate | Failed | Created(task: Task)

  class CreateTaskDialog {
    const store: Store
    var isLoading: bool
    /** `date.toISOString()` for the picked due date, if one is picked. */
    var date: Option<string>
    var formData: TaskForm
    var open: bool

    constructor (store: Store, open: bool)
      ensures this.store == store && this.open == open
      ensures !isLoading && date == None && formData == EmptyForm
    {
      this.store := store;
      this.open := open;
      isLoading := false;
      date := None;
      formData := EmptyForm;
    }

    /** `handleChange` / `handleSelectChange`: set one form field by name. */
    method SetField(name: string, value: string)
      modifies this
      ensures formData == match name
        case "title" => old(formData).(title := value)
        case "description" => old(formData).(description := value)
        case "priority" => old(formData).(priority := value)
        case "status" => old(formData).(status := value)
        case "assignedTo" => old(formData).(assignedTo := value)
        case _ => old(formData)
      ensures date == old(date) && open == old(open) && isLoading == old(isLoading)
    {
      match name {
        case "title" => formData := formData.(title := value);
        case "description" => formData := formData.(description := value);
        case "priority" => formData := formData.(priority := value);
        case "status" => formData := formData.(status := value);
        case "assignedTo" => formData := formData.(assignedTo := value);
        case _ =>
      }
    }

    /** `handleSubmit`. `id` stands for `Date.now().toString()`, `nowIso` for
        `new Date().toISOString()`, `currentUser` and `hasCallback` for the
        dialog's properties. The returned option is the argument the
        `onTaskCreated` callback receives, if it is called.

        Without a due date nothing changes. When the stored list does not
        parse, the error is caught: nothing is stored, the form stays, and
        loading ends. Otherwise the new record is appended to the stored
        list, handed to the callback, and the form is reset and closed. */
    method HandleSubmit(id: string, nowIso: string, currentUser: Option<string>, hasCallback: bool)
      returns (outcome: Outcome, callbackArg: Option<Task>)
      modifies this, store
      ensures old(date).None? ==>
                && outcome == MissingDueDate && callbackArg == None
                && store.entries == old(store.entries)
                && formData == old(formData) && date == old(date) && open == old(open)
                && isLoading == old(isLoading)
      ensures old(date).Some? && ReadTasks(old(store.entries)).Unparsable? ==>
                && outcome == Failed && callbackArg == None
                && store.entries == old(store.entries)
                && formData == old(formData) && date == old(date) && open == old(open)
                && !isLoading
      ensures old(date).Some? && !ReadTasks(old(store.entries)).Unparsable? ==>
                && outcome == Created(NewTask(id, old(formData), old(date).value, nowIso, currentUser))
                && store.entries == WithTaskAppended(old(store.entries), outcome.task)
                && callbackArg == (if hasCallback then Some(outcome.task) else None)
                && formData == EmptyForm && date == None && !open && !isLoading
    {
      if date.None? {
        return MissingDueDate, None;
      }
      isLoading := true;
      var newTask := NewTask(id, formData, date.value, nowIso, currentUser);
      if ReadTasks(store.entries).Unparsable? {
        isLoading := false;
        return Failed, None;
      }
      var existingTasks := StoredTasks(store.entries);
      store.SetItem(TasksKey, TaskList(existingTasks + [newTask]));
      callbackArg := if hasCallback then Some(newTask) else None;
      formData := EmptyForm;
      date := None;
      open := false;
      isLoading := false;
      outcome := Created(newTask);
    }
  }
}
