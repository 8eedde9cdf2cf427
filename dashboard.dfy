/** The dashboard page: three views of the stored task list for the signed-in
    user ("my tasks", "assigned to me", "overdue"), the counts shown on its
    summary cards, and the callback that records a newly created task. */
module Dashboard {
  import opened Records
  import opened Seqs
  import opened Dates

  /** A fixture task; the fixtures carry no creator and no creation date. */
  function Fixture(id: string, title: string, description: string, dueDate: string,
                   priority: string, status: string, assignedTo: Option<string>): Task
  {
    Task(id, title, description, dueDate, priority, status, assignedTo, None, None)
  }

  const InitialTasks: seq<Task> := [
    Fixture("1", "Update user dashboard", "Implement new analytics widgets on the user dashboard",
            "2025-05-10", "High", InProgress, Some("John Doe")),
    Fixture("2", "Fix login bug", "Users are experiencing issues with social login",
            "2025-05-07", "High", ToDo, Some("John Doe")),
    Fixture("3", "Update documentation", "Update API documentation with new endpoints",
            "2025-05-15", "Medium", ToDo, Some("John Doe"))
  ]

  const InitialAssignedTasks: seq<Task> := [
    Fixture("4", "Design new logo", "Create a new logo for the rebrand",
            "2025-05-12", "Medium", ToDo, None),
    Fixture("5", "Implement dark mode", "Add dark mode support to the application",
            "2025-05-20", "Low", ToDo, None)
  ]

  const InitialOverdueTasks: seq<Task> := [
    Fixture("6", "Security audit", "Perform security audit on authentication system",
            "2025-05-01", "High", ToDo, None)
  ]

  /** Created by or assigned to the user. */
  predicate IsMine(t: Task, name: string) {
    t.createdBy == Some(name) || t.assignedTo == Some(name)
  }

  /** Assigned to the user by someone else. */
  predicate IsAssignedToMe(t: Task, name: string) {
    t.assignedTo == Some(name) && t.createdBy != Some(name)
  }

  /** Due before the current instant, not done, and the user's own. */
  predicate IsOverdue(t: Task, name: string, now: Instant) {
    DueBefore(t.dueDate, now) && t.status != Done &&
    (t.assignedTo == Some(name) || t.createdBy == Some(name))
  }

  function Mine(name: string): Task -> bool {
    t => IsMine(t, name)
  }

  function AssignedToMe(name: string): Task -> bool {
    t => IsAssignedToMe(t, name)
  }

  function OverdueFor(name: string, now: Instant): Task -> bool {
    t => IsOverdue(t, name, now)
  }

  function HasStatus(status: string): Task -> bool {
    (t: Task) => t.status == status
  }

  function MyTasks(all: seq<Task>, name: string): seq<Task> {
    Filter(all, Mine(name))
  }

  function AssignedTasks(all: seq<Task>, name: string): seq<Task> {
    Filter(all, AssignedToMe(name))
  }

  function OverdueTasks(all: seq<Task>, name: string, now: Instant): seq<Task> {
    Filter(all, OverdueFor(name, now))
  }

  /** The "N in progress" / "N to do" figures on the summary cards: never more
      than the tasks on the card. */
  function CountWithStatus(ts: seq<Task>, status: string): (n: nat)
    ensures n <= |ts|
  {
    |Filter(ts, HasStatus(status))|
  }

  /** The figure reaches the number of tasks on the card exactly when every
      one of them has the status, and is zero exactly when none has. */
  lemma CountWithStatusExtremes(ts: seq<Task>, status: string)
    ensures CountWithStatus(ts, status) == |ts| <==> forall t :: t in ts ==> t.status == status
    ensures CountWithStatus(ts, status) == 0 <==> forall t :: t in ts ==> t.status != status
  {
    var yes, no := Filter(ts, HasStatus(status)), Filter(ts, Not(HasStatus(status)));
    FilterPartition(ts, HasStatus(status));
    assert |yes| + |no| == |ts|;
    if no != [] {
      assert no[0] in ts && no[0].status != status;
    }
    if yes != [] {
      assert yes[0] in ts && yes[0].status == status;
    }
    if t :| t in ts && t.status != status {
      assert t in no;
    }
    if t :| t in ts && t.status == status {
      assert t in yes;
    }
  }

  /** `JSON.parse(userData || '{"name":""}').name`: the stored user's name,
      or the empty name when there is no user entry. */
  function CurrentUserName(entries: map<string, Value>): (r: string)
    ensures ReadUser(entries).Parsed? ==> r == entries[UserKey].user.name
    ensures !ReadUser(entries).Parsed? ==> r == ""
  {
    match ReadUser(entries)
    case Parsed(u) => u.name
    case _ => ""
  }

  /** "My tasks" are exactly the stored tasks the user created or was assigned,
      each as often as stored, in stored order. */
  lemma MyTasksSpec(all: seq<Task>, name: string)
    ensures forall t :: t in MyTasks(all, name) <==> t in all && IsMine(t, name)
    ensures forall t :: multiset(MyTasks(all, name))[t] == if IsMine(t, name) then multiset(all)[t] else 0
    ensures IsSubsequence(MyTasks(all, name), all)
  {
    FilterIsSubsequence(all, Mine(name));
    FilterMultiplicity(all, Mine(name));
  }

  /** The tasks that are not "mine" and the tasks that are split the stored
      list: every stored task is in exactly one of the two. */
  lemma MyTasksPartition(all: seq<Task>, name: string)
    ensures |MyTasks(all, name)| + |Filter(all, Not(Mine(name)))| == |all|
    ensures multiset(MyTasks(all, name)) + multiset(Filter(all, Not(Mine(name)))) == multiset(all)
    ensures forall t :: t in Filter(all, Not(Mine(name))) <==> t in all && !IsMine(t, name)
  {
    FilterPartition(all, Mine(name));
  }

  /** "Assigned to me" holds the tasks assigned to the user and created by
      someone else, each as often as stored; it is an order-preserving part of
      "my tasks". */
  lemma AssignedWithinMine(all: seq<Task>, name: string)
    ensures forall t :: t in AssignedTasks(all, name) <==>
              t in all && t.assignedTo == Some(name) && t.createdBy != Some(name)
    ensures forall t :: multiset(AssignedTasks(all, name))[t] ==
              if t.assignedTo == Some(name) && t.createdBy != Some(name) then multiset(all)[t] else 0
    ensures IsSubsequence(AssignedTasks(all, name), MyTasks(all, name))
    ensures |AssignedTasks(all, name)| <= |MyTasks(all, name)|
  {
    FilterStronger(all, AssignedToMe(name), Mine(name));
    SubsequenceBounds(AssignedTasks(all, name), MyTasks(all, name));
    FilterMultiplicity(all, AssignedToMe(name));
  }

  /** No overdue task is done, each is the user's own, and none is due later
      than the current day; every open task of the user's due on an earlier
      day is listed, each as often as stored. The overdue view is an
      order-preserving part of "my tasks". */
  lemma OverdueSpec(all: seq<Task>, name: string, now: Instant)
    requires ValidInstant(now)
    ensures forall t :: t in OverdueTasks(all, name, now) ==>
              t in all && t.status != Done && IsMine(t, name) &&
              IsIsoDate(t.dueDate) && !LexLess(now.day, t.dueDate)
    ensures forall t :: (t in all && IsMine(t, name) && t.status != Done &&
                         IsIsoDate(t.dueDate) && LexLess(t.dueDate, now.day)) ==>
              t in OverdueTasks(all, name, now)
    ensures forall t :: multiset(OverdueTasks(all, name, now))[t] ==
              if IsOverdue(t, name, now) then multiset(all)[t] else 0
    ensures IsSubsequence(OverdueTasks(all, name, now), MyTasks(all, name))
  {
    forall t | t in all
      ensures IsOverdue(t, name, now) ==> !LexLess(now.day, t.dueDate)
      ensures IsIsoDate(t.dueDate) && LexLess(t.dueDate, now.day) ==> DueBefore(t.dueDate, now)
    {
      DueBeforeDays(t.dueDate, now);
    }
    FilterStronger(all, OverdueFor(name, now), Mine(name));
    FilterMultiplicity(all, OverdueFor(name, now));
  }

  /** Appending a task extends "my tasks" by that task exactly when it is the
      user's own, and leaves it alone otherwise. */
  lemma {:induction false} AppendedTaskJoinsMine(all: seq<Task>, name: string, t: Task)
    ensures MyTasks(all + [t], name) == MyTasks(all, name) + (if IsMine(t, name) then [t] else [])
  {
    FilterAppend(all, [t], Mine(name));
    assert Filter([t], Mine(name)) == (if IsMine(t, name) then [t] else []) + Filter([], Mine(name));
  }

  class DashboardPage {
    const store: Store
    var user: User
    var myTasks: seq<Task>
    var assignedTasks: seq<Task>
    var overdueTasks: seq<Task>

    constructor (store: Store)
      ensures this.store == store && user == User("", "")
      ensures myTasks == InitialTasks && assignedTasks == InitialAssignedTasks
      ensures overdueTasks == InitialOverdueTasks
    {
      this.store := store;
      user := User("", "");
      myTasks := InitialTasks;
      assignedTasks := InitialAssignedTasks;
      overdueTasks := InitialOverdueTasks;
    }

    /** The mount effect. Returns false where `JSON.parse` throws, which ends
        the effect (what the page then shows is not modelled): a user entry that does not parse leaves everything as it
        was, a task entry that does not parse leaves the three lists. Without
        a task entry the lists keep their fixture values; without a user entry
        the filters use the empty name. */
    method Mount(now: Instant) returns (ok: bool)
      requires ValidInstant(now)
      modifies this
      ensures ok <==> !ReadUser(store.entries).Unparsable? && !ReadTasks(store.entries).Unparsable?
      ensures user == if ReadUser(store.entries).Parsed? then ReadUser(store.entries).value else old(user)
      ensures ok && ReadTasks(store.entries).Parsed? ==>
                var all, name := ReadTasks(store.entries).value, CurrentUserName(store.entries);
                && myTasks == MyTasks(all, name)
                && assignedTasks == AssignedTasks(all, name)
                && overdueTasks == OverdueTasks(all, name, now)
      ensures !(ok && ReadTasks(store.entries).Parsed?) ==>
                myTasks == old(myTasks) && assignedTasks == old(assignedTasks) &&
                overdueTasks == old(overdueTasks)
    {
      var userData := ReadUser(store.entries);
      if userData.Unparsable? {
        return false;
      }
      if userData.Parsed? {
        user := userData.value;
      }
      var tasksData := ReadTasks(store.entries);
      if tasksData.Unparsable? {
        return false;
      }
      if tasksData.Parsed? {
        var allTasks := tasksData.value;
        var currentUserName := CurrentUserName(store.entries);
        myTasks := MyTasks(allTasks, currentUserName);
        assignedTasks := AssignedTasks(allTasks, currentUserName);
        overdueTasks := OverdueTasks(allTasks, currentUserName, now);
      }
      return true;
    }

    /** `addTask`, the callback the creation dialog invokes: it appends the task
        to "my tasks", then re-reads the stored list, appends the task to it and
        writes it back. Returns false where re-reading throws, after "my tasks"
        has already grown. */
    method AddTask(newTask: Task) returns (ok: bool)
      modifies this, store
      ensures myTasks == old(myTasks) + [newTask]
      ensures user == old(user) && assignedTasks == old(assignedTasks) && overdueTasks == old(overdueTasks)
      ensures ok <==> !ReadTasks(old(store.entries)).Unparsable?
      ensures store.entries == if ok then WithTaskAppended(old(store.entries), newTask) else old(store.entries)
    {
      myTasks := myTasks + [newTask];
      if ReadTasks(store.entries).Unparsable? {
        return false;
      }
      var allTasks := StoredTasks(store.entries);
      store.SetItem(TasksKey, TaskList(allTasks + [newTask]));
      return true;
    }

    /** The callback as evidently intended: the dialog has already stored the
        task, so only "my tasks" is extended and the store is left alone. */
    method ShowCreatedTask(newTask: Task)
      modifies this
      ensures myTasks == old(myTasks) + [newTask]
      ensures user == old(user) && assignedTasks == old(assignedTasks) && overdueTasks == old(overdueTasks)
    {
      myTasks := myTasks + [newTask];
    }

    /** The "in progress" figure on the "My Tasks" card. */
    function InProgressCount(): (n: nat)
      reads this
      ensures n <= |myTasks|
    {
      CountWithStatus(myTasks, InProgress)
    }

    /** The "to do" figure on the "Assigned to Me" card. */
    function ToDoCount(): (n: nat)
      reads this
      ensures n <= |assignedTasks|
    {
      CountWithStatus(assignedTasks, ToDo)
    }
  }

  /** The worked example: a task of Jane's assigned to John, due 2025-01-01
      and still to do, is overdue for John on 2025-06-01 and not for Mike. */
  lemma OverdueExample()
    ensures var t := Task("1", "", "", "2025-01-01", "", ToDo, Some("John"), Some("Jane"), None);
            var now := Instant("2025-06-01", 0);
            OverdueTasks([t], "John", now) == [t] && OverdueTasks([t], "Mike", now) == []
  {
    var t := Task("1", "", "", "2025-01-01", "", ToDo, Some("John"), Some("Jane"), None);
    var now := Instant("2025-06-01", 0);
    assert LexLess("2025-01-01", "2025-06-01") by {
      assert "2025-01-01"[..6] == "2025-06-01"[..6];
      assert LexLess("1-01", "6-01");
    }
    assert IsOverdue(t, "John", now);
  }

  /** The overdue test by calendar date alone: due on a day strictly before
      the current one, not done, and the user's own. */
  predicate IsOverdueByDate(t: Task, name: string, today: string) {
    IsIsoDate(t.dueDate) && LexLess(t.dueDate, today) && t.status != Done &&
    (t.assignedTo == Some(name) || t.createdBy == Some(name))
  }

  function OverdueByDate(name: string, today: string): Task -> bool {
    t => IsOverdueByDate(t, name, today)
  }

  /** The overdue view as evidently intended. */
  function OverdueTasksByDate(all: seq<Task>, name: string, today: string): seq<Task> {
    Filter(all, OverdueByDate(name, today))
  }

  /** The intended view lists exactly the user's open tasks due on an earlier
      day, each as often as stored: none is done, none is due today or later,
      and it is an order-preserving part of "my tasks". */
  lemma OverdueByDateSpec(all: seq<Task>, name: string, today: string)
    ensures forall t :: t in OverdueTasksByDate(all, name, today) <==> t in all && IsOverdueByDate(t, name, today)
    ensures forall t :: multiset(OverdueTasksByDate(all, name, today))[t] ==
              if IsOverdueByDate(t, name, today) then multiset(all)[t] else 0
    ensures forall t :: t in OverdueTasksByDate(all, name, today) ==>
              t.status != Done && t.dueDate != today && !LexLess(today, t.dueDate)
    ensures IsSubsequence(OverdueTasksByDate(all, name, today), MyTasks(all, name))
  {
    forall t | t in OverdueTasksByDate(all, name, today)
      ensures t.dueDate != today && !LexLess(today, t.dueDate)
    {
      LexLessIrreflexive(t.dueDate);
      if LexLess(today, t.dueDate) {
        LexLessTransitive(t.dueDate, today, t.dueDate);
      }
    }
    FilterStronger(all, OverdueByDate(name, today), Mine(name));
    FilterMultiplicity(all, OverdueByDate(name, today));
  }

  /** The view as written keeps everything the intended view lists, in order,
      and adds only tasks due on the current day. */
  lemma OverdueAsWrittenAddsToday(all: seq<Task>, name: string, now: Instant)
    requires ValidInstant(now)
    ensures IsSubsequence(OverdueTasksByDate(all, name, now.day), OverdueTasks(all, name, now))
    ensures forall t :: t in OverdueTasks(all, name, now) && t !in OverdueTasksByDate(all, name, now.day) ==>
              t.dueDate == now.day
  {
    forall t | t in all
      ensures IsOverdueByDate(t, name, now.day) ==> IsOverdue(t, name, now)
    {
      DueBeforeDays(t.dueDate, now);
    }
    FilterStronger(all, OverdueByDate(name, now.day), OverdueFor(name, now));
  }

  /** A task due today, one millisecond after midnight (UTC), is already in
      the overdue view as written, and not in the intended one. */
  lemma DueTodayIsOverdue()
    ensures var t := Task("1", "", "", "2025-06-01", "", ToDo, Some("John"), None, None);
            var now := Instant("2025-06-01", 1);
            ValidInstant(now) && OverdueTasks([t], "John", now) == [t] &&
            OverdueTasksByDate([t], "John", now.day) == []
  {
    var t := Task("1", "", "", "2025-06-01", "", ToDo, Some("John"), None, None);
    var now := Instant("2025-06-01", 1);
    assert IsOverdue(t, "John", now);
    LexLessIrreflexive(t.dueDate);
    assert !IsOverdueByDate(t, "John", now.day);
  }
}
