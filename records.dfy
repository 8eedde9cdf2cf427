/** The records the application keeps and the browser key-value store that
    holds them. The store maps a key to one typed value: the task list under
    "tasks", the roster under "teamMembers", the signed-in user under "user".
    A value that would not parse as the JSON the reader expects is kept as
    `Malformed`. */
module Records {

  datatype Option<+T> = None | Some(value: T)

  /** A task record. `assignedTo`, `createdBy` and `createdDate` may be
      missing: the fixture tasks lack the last two, and the creation dialog
      stores no assignee when the selected member id is unknown. */
  datatype Task = Task(
    id: string,
    title: string,
    description: string,
    dueDate: string,
    priority: string,
    status: string,
    assignedTo: Option<string>,
    createdBy: Option<string>,
    createdDate: Option<string>)

  /** A team-member record; the two counters are kept independently of the tasks. */
  datatype Member = Member(
    id: string,
    name: string,
    email: string,
    role: string,
    avatar: string,
    tasksAssigned: int,
    tasksCompleted: int)

  /** The signed-in user as stored: both fields present as strings. A stored
      user with a missing field is not modelled. */
  datatype User = User(name: string, email: string)

  datatype Value =
    | TaskList(tasks: seq<Task>)
    | MemberList(members: seq<Member>)
    | UserEntry(user: User)
    | Malformed

  const UserKey: string := "user"
  const TasksKey: string := "tasks"
  const MembersKey: string := "teamMembers"

  const ToDo: string := "To Do"
  const InProgress: string := "In Progress"
  const Done: string := "Done"

  /** The outcome of `JSON.parse(localStorage.getItem(key))` guarded by
      `if (data)`: no entry, a value of the expected kind, or a parse failure. */
  datatype Read<+T> = Absent | Parsed(value: T) | Unparsable

  function ReadTasks(entries: map<string, Value>): (r: Read<seq<Task>>)
    ensures r.Absent? <==> TasksKey !in entries
    ensures r.Parsed? <==> TasksKey in entries && entries[TasksKey].TaskList?
    ensures r.Parsed? ==> r.value == entries[TasksKey].tasks
  {
    if TasksKey !in entries then Absent
    else match entries[TasksKey]
      case TaskList(ts) => Parsed(ts)
      case _ => Unparsable
  }

  function ReadMembers(entries: map<string, Value>): (r: Read<seq<Member>>)
    ensures r.Absent? <==> MembersKey !in entries
    ensures r.Parsed? <==> MembersKey in entries && entries[MembersKey].MemberList?
    ensures r.Parsed? ==> r.value == entries[MembersKey].members
  {
    if MembersKey !in entries then Absent
    else match entries[MembersKey]
      case MemberList(ms) => Parsed(ms)
      case _ => Unparsable
  }

  function ReadUser(entries: map<string, Value>): (r: Read<User>)
    ensures r.Absent? <==> UserKey !in entries
    ensures r.Parsed? <==> UserKey in entries && entries[UserKey].UserEntry?
    ensures r.Parsed? ==> r.value == entries[UserKey].user
  {
    if UserKey !in entries then Absent
    else match entries[UserKey]
      case UserEntry(u) => Parsed(u)
      case _ => Unparsable
  }

  /** `JSON.parse(localStorage.getItem("tasks") || "[]")` when it does not throw:
      the stored list, or the empty list when there is no task entry. */
  function StoredTasks(entries: map<string, Value>): (r: seq<Task>)
    ensures ReadTasks(entries).Parsed? ==> r == entries[TasksKey].tasks
    ensures TasksKey !in entries ==> r == []
  {
    match ReadTasks(entries)
    case Parsed(ts) => ts
    case _ => []
  }

  /** The store after `setItem("tasks", JSON.stringify([...stored, t]))`. */
  function WithTaskAppended(entries: map<string, Value>, t: Task): (e: map<string, Value>)
    ensures ReadTasks(e) == Parsed(StoredTasks(entries) + [t])
    ensures forall k :: k != TasksKey ==> (k in e <==> k in entries)
    ensures forall k :: k != TasksKey && k in entries ==> e[k] == entries[k]
  {
    entries[TasksKey := TaskList(StoredTasks(entries) + [t])]
  }

  /** Each append adds exactly one copy of the task to the stored list. */
  lemma AppendAddsOneCopy(entries: map<string, Value>, t: Task)
    ensures |StoredTasks(WithTaskAppended(entries, t))| == |StoredTasks(entries)| + 1
    ensures multiset(StoredTasks(WithTaskAppended(entries, t)))[t] == multiset(StoredTasks(entries))[t] + 1
  {
  }

  /** The browser's local storage. */
  class Store {
    var entries: map<string, Value>

    constructor (initial: map<string, Value>)
      ensures entries == initial
    {
      entries := initial;
    }

    /** `localStorage.setItem(key, v)`. */
    method SetItem(key: string, v: Value)
      modifies this
      ensures entries == old(entries)[key := v]
    {
      entries := entries[key := v];
    }

    /** `localStorage.removeItem(key)`: an absent key is a no-op. */
    method RemoveItem(key: string)
      modifies this
      ensures entries == old(entries) - {key}
    {
      entries := entries - {key};
    }
  }
}
