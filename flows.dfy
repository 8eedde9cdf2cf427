/** What happens when a dialog is used from the page that hosts it: the
    creation dialog on the dashboard and on the task list, the member dialog
    on the team page. The dashboard's wiring stores every created task twice;
    this module states that, and the corrected wiring that stores it once. */
module Flows {
  import opened Records
  import opened CreateTask
  import opened AddMember
  import Dashboard
  import Tasks
  import Team

  /** The store after a creation on the dashboard as written: the dialog
      appends the task, then the dashboard's callback re-reads the list and
      appends it again. */
  function DashboardCreateAsWritten(entries: map<string, Value>, t: Task): map<string, Value> {
    WithTaskAppended(WithTaskAppended(entries, t), t)
  }

  /** The store after a creation as evidently intended: one append. */
  function DashboardCreateCorrected(entries: map<string, Value>, t: Task): map<string, Value> {
    WithTaskAppended(entries, t)
  }

  /** As written, the stored list grows by two copies of the new task. */
  lemma DashboardStoresTwice(entries: map<string, Value>, t: Task)
    ensures StoredTasks(DashboardCreateAsWritten(entries, t)) == StoredTasks(entries) + [t, t]
    ensures multiset(StoredTasks(DashboardCreateAsWritten(entries, t)))[t] == multiset(StoredTasks(entries))[t] + 2
  {
    AppendAddsOneCopy(WithTaskAppended(entries, t), t);
    AppendAddsOneCopy(entries, t);
    assert StoredTasks(entries) + [t] + [t] == StoredTasks(entries) + [t, t];
  }

  /** Corrected, the stored list grows by exactly one copy, and every other
      stored entry is kept. */
  lemma DashboardStoresOnce(entries: map<string, Value>, t: Task)
    ensures StoredTasks(DashboardCreateCorrected(entries, t)) == StoredTasks(entries) + [t]
    ensures multiset(StoredTasks(DashboardCreateCorrected(entries, t)))[t] == multiset(StoredTasks(entries))[t] + 1
    ensures forall k :: k != TasksKey && k in entries ==> DashboardCreateCorrected(entries, t)[k] == entries[k]
  {
    AppendAddsOneCopy(entries, t);
  }

  /** The smallest case: from an empty store, one creation on the dashboard
      leaves two identical tasks stored where one was meant. */
  lemma DoubleStoreExample()
    ensures var t := Task("1", "Write report", "", "2025-06-01", "high", ToDo, Some("John Doe"), Some("John Doe"), Some("2025-05-01"));
            && StoredTasks(DashboardCreateAsWritten(map[], t)) == [t, t]
            && StoredTasks(DashboardCreateCorrected(map[], t)) == [t]
  {
    var t := Task("1", "Write report", "", "2025-06-01", "high", ToDo, Some("John Doe"), Some("John Doe"), Some("2025-05-01"));
    DashboardStoresTwice(map[], t);
    DashboardStoresOnce(map[], t);
  }

  /** Submitting the creation dialog on the dashboard, wired as written: the
      dialog gets the dashboard user's name and the `addTask` callback. With a
      picked date and a stored list that parses, the new task joins "my tasks"
      once and the stored list twice, and the dialog is reset and closed;
      otherwise nothing is stored, no callback is made and the form stays. */
  method CreateFromDashboard(page: Dashboard.DashboardPage, dialog: CreateTaskDialog, id: string, nowIso: string)
    returns (outcome: Outcome)
    requires dialog.store == page.store
    modifies page, dialog, page.store
    ensures old(dialog.date).None? ==> outcome == MissingDueDate
    ensures old(dialog.date).Some? && ReadTasks(old(page.store.entries)).Unparsable? ==> outcome == Failed
    ensures old(dialog.date).Some? && !ReadTasks(old(page.store.entries)).Unparsable? ==>
              && outcome == Created(NewTask(id, old(dialog.formData), old(dialog.date).value, nowIso, Some(old(page.user).name)))
              && page.myTasks == old(page.myTasks) + [outcome.task]
              && page.store.entries == DashboardCreateAsWritten(old(page.store.entries), outcome.task)
              && StoredTasks(page.store.entries) == old(StoredTasks(page.store.entries)) + [outcome.task, outcome.task]
              && dialog.formData == EmptyForm && dialog.date == None && !dialog.open && !dialog.isLoading
    ensures !outcome.Created? ==>
              && page.myTasks == old(page.myTasks) && page.store.entries == old(page.store.entries)
              && dialog.formData == old(dialog.formData) && dialog.date == old(dialog.date) && dialog.open == old(dialog.open)
    ensures page.user == old(page.user) && page.assignedTasks == old(page.assignedTasks)
    ensures page.overdueTasks == old(page.overdueTasks)
  {
    var callbackArg;
    outcome, callbackArg := dialog.HandleSubmit(id, nowIso, Some(page.user.name), true);
    if outcome.Created? {
      var ok := page.AddTask(callbackArg.value);
      DashboardStoresTwice(old(page.store.entries), outcome.task);
    }
  }

  /** The same submission with the corrected callback: the dialog stores the
      task and the dashboard only shows it. */
  method CreateFromDashboardCorrected(page: Dashboard.DashboardPage, dialog: CreateTaskDialog, id: string, nowIso: string)
    returns (outcome: Outcome)
    requires dialog.store == page.store
    modifies page, dialog, page.store
    ensures old(dialog.date).None? ==> outcome == MissingDueDate
    ensures old(dialog.date).Some? && ReadTasks(old(page.store.entries)).Unparsable? ==> outcome == Failed
    ensures old(dialog.date).Some? && !ReadTasks(old(page.store.entries)).Unparsable? ==>
              && outcome == Created(NewTask(id, old(dialog.formData), old(dialog.date).value, nowIso, Some(old(page.user).name)))
              && page.myTasks == old(page.myTasks) + [outcome.task]
              && page.store.entries == DashboardCreateCorrected(old(page.store.entries), outcome.task)
              && StoredTasks(page.store.entries) == old(StoredTasks(page.store.entries)) + [outcome.task]
              && dialog.formData == EmptyForm && dialog.date == None && !dialog.open && !dialog.isLoading
    ensures !outcome.Created? ==>
              && page.myTasks == old(page.myTasks) && page.store.entries == old(page.store.entries)
              && dialog.formData == old(dialog.formData) && dialog.date == old(dialog.date) && dialog.open == old(dialog.open)
    ensures page.user == old(page.user) && page.assignedTasks == old(page.assignedTasks)
    ensures page.overdueTasks == old(page.overdueTasks)
  {
    var callbackArg;
    outcome, callbackArg := dialog.HandleSubmit(id, nowIso, Some(page.user.name), true);
    if outcome.Created? {
      page.ShowCreatedTask(callbackArg.value);
      DashboardStoresOnce(old(page.store.entries), outcome.task);
    }
  }

  /** Submitting the creation dialog on the task list, which passes the page
      user's name and its `addTask` callback. With a picked date and a stored
      list that parses, the new task is stored once, appended to the page's
      list, and the dialog is reset and closed; otherwise the page's list and
      the store stay as they were. When the page showed the stored list
      before, it shows it after. The query and the tag filters are kept. */
  method CreateFromTasksPage(page: Tasks.TasksPage, dialog: CreateTaskDialog, id: string, nowIso: string)
    returns (outcome: Outcome)
    requires dialog.store == page.store
    modifies page, dialog, page.store
    ensures old(dialog.date).None? ==> outcome == MissingDueDate
    ensures old(dialog.date).Some? && ReadTasks(old(page.store.entries)).Unparsable? ==> outcome == Failed
    ensures old(dialog.date).Some? && !ReadTasks(old(page.store.entries)).Unparsable? ==>
              && outcome == Created(NewTask(id, old(dialog.formData), old(dialog.date).value, nowIso, Some(old(page.user).name)))
              && page.allTasks == old(page.allTasks) + [outcome.task]
              && page.store.entries == WithTaskAppended(old(page.store.entries), outcome.task)
              && dialog.formData == EmptyForm && dialog.date == None && !dialog.open && !dialog.isLoading
    ensures !outcome.Created? ==>
              && page.allTasks == old(page.allTasks) && page.store.entries == old(page.store.entries)
              && dialog.formData == old(dialog.formData) && dialog.date == old(dialog.date) && dialog.open == old(dialog.open)
    ensures old(page.allTasks) == StoredTasks(old(page.store.entries)) ==> page.allTasks == StoredTasks(page.store.entries)
    ensures page.searchQuery == old(page.searchQuery) && page.statusFilter == old(page.statusFilter)
    ensures page.priorityFilter == old(page.priorityFilter) && page.user == old(page.user)
  {
    var callbackArg;
    outcome, callbackArg := dialog.HandleSubmit(id, nowIso, Some(page.user.name), true);
    if outcome.Created? {
      page.AddTask(callbackArg.value);
    }
  }

  /** Submitting the member dialog on the team page: the new member, with no
      tasks yet, joins the page's roster and the stored roster is the page's. */
  method AddMemberFromTeamPage(page: Team.TeamPage, dialog: AddTeamMemberDialog, id: string, avatar: string)
    returns (m: Member)
    modifies page, dialog, page.store
    ensures m == NewMember(id, old(dialog.formData), avatar)
    ensures m.tasksAssigned == 0 && m.tasksCompleted == 0
    ensures page.teamMembers == old(page.teamMembers) + [m]
    ensures page.store.entries == old(page.store.entries)[MembersKey := MemberList(page.teamMembers)]
    ensures ReadMembers(page.store.entries) == Parsed(page.teamMembers)
    ensures page.searchQuery == old(page.searchQuery) && page.currentUser == old(page.currentUser)
    ensures dialog.formData == EmptyMemberForm && !dialog.open && !dialog.isLoading
  {
    var callbackArg;
    m, callbackArg := dialog.HandleSubmit(id, avatar, true);
    page.AddTeamMember(callbackArg.value);
  }
}
