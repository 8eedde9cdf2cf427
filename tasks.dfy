/** The task-list page: a case-insensitive text search combined with status
    and priority tag filters over the loaded tasks, the checkbox handlers that
    edit the tag lists, and the callback that shows a newly created task. */
module Tasks {
  import opened Records
  import opened Seqs
  import opened Text

  /** An empty query matches everything; otherwise the lower-cased query
      must occur in the lower-cased title or description. */
  predicate MatchesSearch(t: Task, query: string) {
    query == "" ||
    Contains(Lower(t.title), Lower(query)) ||
    Contains(Lower(t.description), Lower(query))
  }

  /** An empty tag list accepts every value; otherwise the value must be listed. */
  predicate MatchesTags(value: string, tags: seq<string>) {
    |tags| == 0 || value in tags
  }

  predicate Matches(t: Task, query: string, statuses: seq<string>, priorities: seq<string>) {
    MatchesSearch(t, query) && MatchesTags(t.status, statuses) && MatchesTags(t.priority, priorities)
  }

  function Matcher(query: string, statuses: seq<string>, priorities: seq<string>): Task -> bool {
    t => Matches(t, query, statuses, priorities)
  }

  /** `filteredTasks`. */
  function FilterTasks(all: seq<Task>, query: string, statuses: seq<string>, priorities: seq<string>): seq<Task> {
    Filter(all, Matcher(query, statuses, priorities))
  }

  /** Every listed task passes the search and both tag filters at once (a
      non-empty tag list admits only listed values), every stored task that
      passes them is listed as often as stored, and the stored order is
      kept. */
  lemma FilterTasksSpec(all: seq<Task>, query: string, statuses: seq<string>, priorities: seq<string>)
    ensures forall t :: t in FilterTasks(all, query, statuses, priorities) <==>
              t in all && MatchesSearch(t, query) &&
              (|statuses| == 0 || t.status in statuses) &&
              (|priorities| == 0 || t.priority in priorities)
    ensures forall t :: multiset(FilterTasks(all, query, statuses, priorities))[t] ==
              if Matches(t, query, statuses, priorities) then multiset(all)[t] else 0
    ensures IsSubsequence(FilterTasks(all, query, statuses, priorities), all)
  {
    FilterIsSubsequence(all, Matcher(query, statuses, priorities));
    FilterMultiplicity(all, Matcher(query, statuses, priorities));
  }

  /** With no query and no tags the whole list is shown. */
  lemma NoFiltersShowAll(all: seq<Task>)
    ensures FilterTasks(all, "", [], []) == all
  {
    FilterKeepsAll(all, Matcher("", [], []));
  }

  /** The search ignores case: a query and its lower-cased form select the
      same tasks. */
  lemma SearchIgnoresCase(all: seq<Task>, query: string, statuses: seq<string>, priorities: seq<string>)
    ensures FilterTasks(all, query, statuses, priorities) == FilterTasks(all, Lower(query), statuses, priorities)
  {
    LowerIsNormal(query);
    FilterCongruent(all, Matcher(query, statuses, priorities), Matcher(Lower(query), statuses, priorities));
  }

  /** Adding a tag to a non-empty tag list can only add tasks to the view. */
  lemma MoreTagsShowMore(all: seq<Task>, query: string, statuses: seq<string>, priorities: seq<string>, extra: string)
    requires |statuses| > 0
    ensures IsSubsequence(FilterTasks(all, query, statuses, priorities),
                          FilterTasks(all, query, statuses + [extra], priorities))
  {
    FilterStronger(all, Matcher(query, statuses, priorities), Matcher(query, statuses + [extra], priorities));
  }

  function Differs(value: string): string -> bool {
    x => x != value
  }

  /** `onCheckedChange` of a tag checkbox: checking appends the tag,
      unchecking keeps every other entry. */
  function WithChecked(tags: seq<string>, value: string, checked: bool): seq<string> {
    if checked then tags + [value] else Filter(tags, Differs(value))
  }

  /** Unchecking removes every occurrence of the tag and keeps the other
      entries, with their multiplicities, in their order. */
  lemma UncheckRemovesAll(tags: seq<string>, value: string)
    ensures value !in WithChecked(tags, value, false)
    ensures forall x :: x != value ==> multiset(WithChecked(tags, value, false))[x] == multiset(tags)[x]
    ensures IsSubsequence(WithChecked(tags, value, false), tags)
  {
    FilterMultiplicity(tags, Differs(value));
    FilterIsSubsequence(tags, Differs(value));
  }

  /** Checking then unchecking a tag that was not selected restores the list. */
  lemma {:induction false} CheckThenUncheck(tags: seq<string>, value: string)
    requires value !in tags
    ensures WithChecked(WithChecked(tags, value, true), value, false) == tags
  {
    FilterAppend(tags, [value], Differs(value));
    FilterKeepsAll(tags, Differs(value));
    assert Filter([value], Differs(value)) == [];
  }

  class TasksPage {
    const store: Store
    var searchQuery: string
    var statusFilter: seq<string>
    var priorityFilter: seq<string>
    var allTasks: seq<Task>
    var user: User

    constructor (store: Store)
      ensures this.store == store && searchQuery == "" && statusFilter == [] && priorityFilter == []
      ensures allTasks == [] && user == User("", "")
    {
      this.store := store;
      searchQuery := "";
      statusFilter := [];
      priorityFilter := [];
      allTasks := [];
      user := User("", "");
    }

    /** The mount effect: load the user and the tasks when stored. Returns
        false where `JSON.parse` throws, which ends the effect. */
    method Mount() returns (ok: bool)
      modifies this
      ensures ok <==> !ReadUser(store.entries).Unparsable? && !ReadTasks(store.entries).Unparsable?
      ensures user == if ReadUser(store.entries).Parsed? then ReadUser(store.entries).value else old(user)
      ensures allTasks == if ok && ReadTasks(store.entries).Parsed? then ReadTasks(store.entries).value else old(allTasks)
      ensures searchQuery == old(searchQuery) && statusFilter == old(statusFilter) && priorityFilter == old(priorityFilter)
    {
      var userData := ReadUser(store.entries);
      if userData.Unparsable? {
        return false;
      }
      if userData.Parsed? {
        user := userData.value;
      }
      var tasksData := ReadTasks(store.entries);
      if tasksData.Unparsable? {
        return false;
      }
      if tasksData.Parsed? {
        allTasks := tasksData.value;
      }
      return true;
    }

    /** `addTask`: the new task is appended to the page's list only; the store
        is left to the dialog. */
    method AddTask(newTask: Task)
      modifies this
      ensures allTasks == old(allTasks) + [newTask]
      ensures searchQuery == old(searchQuery) && statusFilter == old(statusFilter)
      ensures priorityFilter == old(priorityFilter) && user == old(user)
    {
      allTasks := allTasks + [newTask];
    }

    method OnStatusCheckedChange(status: string, checked: bool)
      modifies this
      ensures statusFilter == WithChecked(old(statusFilter), status, checked)
      ensures searchQuery == old(searchQuery) && priorityFilter == old(priorityFilter)
      ensures allTasks == old(allTasks) && user == old(user)
    {
      if checked {
        statusFilter := statusFilter + [status];
      } else {
        statusFilter := Filter(statusFilter, Differs(status));
      }
    }

    method OnPriorityCheckedChange(priority: string, checked: bool)
      modifies this
      ensures priorityFilter == WithChecked(old(priorityFilter), priority, checked)
      ensures searchQuery == old(searchQuery) && statusFilter == old(statusFilter)
      ensures allTasks == old(allTasks) && user == old(user)
    {
      if checked {
        priorityFilter := priorityFilter + [priority];
      } else {
        priorityFilter := Filter(priorityFilter, Differs(priority));
      }
    }

    /** The rows the table shows: exactly the loaded tasks that pass the
        search and both tag filters, each as often as loaded, in loaded
        order. */
    function FilteredTasks(): (r: seq<Task>)
      reads this
      ensures forall t :: t in r <==> t in allTasks && Matches(t, searchQuery, statusFilter, priorityFilter)
      ensures forall t :: multiset(r)[t] ==
                if Matches(t, searchQuery, statusFilter, priorityFilter) then multiset(allTasks)[t] else 0
      ensures IsSubsequence(r, allTasks)
    {
      FilterTasksSpec(allTasks, searchQuery, statusFilter, priorityFilter);
      FilterTasks(allTasks, searchQuery, statusFilter, priorityFilter)
    }
  }
}
