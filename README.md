# Task manager front end: record logic

This project models the record logic inside the pages of a small React
task-management front end and proves properties of it in Dafny. The logic
covers:

- the dashboard's three views of the stored tasks ("my tasks", "assigned to me", "overdue") and its summary counts;
- the task list's search and status/priority tag filters, with the checkbox handlers that edit the tag lists;
- the team roster's search, first-visit seeding, appending a member, and the avatar initials;
- the two form dialogs that build new task and member records;
- the sidebar's user defaults, initials, active-link test and logout;
- the settings page's form-state rules.

Browser local storage is a `Store` object holding a map from key to typed
value (`Records`). A value of the wrong kind, or the `Malformed` value, stands
for text that `JSON.parse` rejects. Each page is a class whose fields are its
React state. Each handler is a method that assigns those fields, and its
contract states the new state. The filters are `Seqs.Filter`, a model of
`Array.prototype.filter`. Lemmas prove membership, order (subsequence),
multiplicity and partition facts about them.

Modules:

| module | file | models |
|---|---|---|
| `Seqs` | seqs.dfy | `Array.prototype.filter` and its general laws |
| `Text` | text.dfy | ASCII `toLowerCase`/`toUpperCase`, `includes`, `split(" ")`/`join("")`, initials |
| `Dates` | dates.dfy | `toISOString().split("T")[0]`; ISO date order; `new Date(due) < now` |
| `Records` | records.dfy | task, member and user records; the store; reading and appending |
| `Dashboard` | dashboard.dfy | app/dashboard/page.tsx |
| `Tasks` | tasks.dfy | app/tasks/page.tsx |
| `Team` | team.dfy | app/team/page.tsx |
| `CreateTask` | create_task_dialog.dfy | components/create-task-dialog.tsx |
| `AddMember` | add_team_member_dialog.dfy | components/add-team-member-dialog.tsx |
| `Sidebar` | app_sidebar.dfy | components/app-sidebar.tsx |
| `Settings` | settings.dfy | app/settings/page.tsx |
| `Flows` | flows.dfy | the dialogs as wired into the pages that host them |

## Model

| member | source | states |
|---|---|---|
| Records.ReadTasks | app/dashboard/page.tsx:94-96 | reading the task key gives "absent" exactly when the key is missing, and a parsed list exactly when a task list is stored, that list being the stored one; anything else is a parse failure |
| Records.ReadUser | app/dashboard/page.tsx:88-91 | reading the user key gives "absent" exactly when the key is missing, and a parsed user exactly when a user record is stored, that record being the stored one; anything else is a parse failure |
| Records.ReadMembers | app/team/page.tsx:68-70 | reading the roster key gives "absent" exactly when the key is missing, and a parsed roster exactly when a member list is stored, that list being the stored one; anything else is a parse failure |
| Records.StoredTasks | components/create-task-dialog.tsx:92 | the list read for an append is the stored task list when one parses, and the empty list when there is no task entry |
| Records.WithTaskAppended | components/create-task-dialog.tsx:92-98 | after the append, the stored list parses to the previous list (or `[]` when none) with the task at the end, and every other key is kept with its value |
| Records.AppendAddsOneCopy | components/create-task-dialog.tsx:92-98 | one append lengthens the stored list by one and adds exactly one copy of the task |
| Records.Store.SetItem | app/team/page.tsx:83 | `setItem` replaces the value of one key and keeps all others |
| Records.Store.RemoveItem | components/app-sidebar.tsx:51 | `removeItem` deletes one key (a no-op when it is absent) and keeps all others |
| Text.LowerIsNormal | app/tasks/page.tsx:78-79 | lower-casing keeps the length, leaves no upper-case letter, is idempotent, and gives the empty string only for the empty string |
| Text.ContainsAt | app/tasks/page.tsx:78 | `includes` holds exactly when the needle occurs at some position of the haystack |
| Text.JoinSplit | components/app-sidebar.tsx:60-62 | splitting on spaces and joining the parts back with spaces returns the original string |
| Text.InitialsSpec | components/app-sidebar.tsx:59-63 | the initials are the upper-cased characters that start a word (follow a space or the start), at most one per space-separated part, and contain no lower-case letter |
| Dates.DatePart | components/create-task-dialog.tsx:83 | `split("T")[0]` is a prefix of the timestamp, holds no `T`, and stops either at the end or just before the first `T` |
| Dates.DueBeforeDays | app/dashboard/page.tsx:114 | a date due before the current instant is never later than the current day, and an ISO date on an earlier day always counts as due before it |
| Dashboard.CountWithStatus | app/dashboard/page.tsx:224-226 | a status count never exceeds the number of tasks on the card |
| Dashboard.CountWithStatusExtremes | app/dashboard/page.tsx:226 | the count equals the number of tasks exactly when all have the status, and is zero exactly when none has |
| Dashboard.CurrentUserName | app/dashboard/page.tsx:99 | the name the filters use is the stored user's name, and the empty name when no user record is stored |
| Dashboard.MyTasksSpec | app/dashboard/page.tsx:101-103 | "my tasks" holds exactly the stored tasks created by or assigned to the user, each as often as stored, in stored order |
| Dashboard.MyTasksPartition | app/dashboard/page.tsx:101-103 | "my tasks" and the remaining tasks split the stored list, both in length and as multisets |
| Dashboard.AssignedWithinMine | app/dashboard/page.tsx:105-107 | "assigned to me" holds exactly the tasks assigned to the user and created by someone else, each as often as stored, and is an order-preserving part of "my tasks" |
| Dashboard.OverdueSpec | app/dashboard/page.tsx:110-118 | no overdue task is done; each is the user's own and not due after the current day; every open task of the user's due on an earlier day is listed; each listed task appears as often as stored; the view is an order-preserving part of "my tasks" |
| Dashboard.OverdueExample | app/dashboard/page.tsx:110-118 | a to-do task of Jane's assigned to John, due 2025-01-01, is overdue for John on 2025-06-01 and not for Mike |
| Dashboard.AppendedTaskJoinsMine | app/dashboard/page.tsx:102 | appending a task to the stored list extends "my tasks" by that task exactly when it is the user's own |
| Dashboard.OverdueByDateSpec | app/dashboard/page.tsx:110-118 | the calendar-date overdue view holds exactly the user's open tasks due on an earlier day, each as often as stored; none is due today or later |
| Dashboard.OverdueAsWrittenAddsToday | app/dashboard/page.tsx:114 | the view as written contains the calendar-date view in order and adds only tasks due on the current day |
| Dashboard.DueTodayIsOverdue | app/dashboard/page.tsx:114 | a task due today is overdue one millisecond after midnight UTC as written, and not by calendar date |
| Dashboard.DashboardPage.constructor | app/dashboard/page.tsx:81-84 | the page starts with the empty user and the three fixture lists |
| Dashboard.DashboardPage.Mount | app/dashboard/page.tsx:86-120 | a stored user is loaded; with a stored task list, the three views are computed for the stored user's name (or the empty name); without one, the fixture lists stay; a parse failure ends the effect at that point |
| Dashboard.DashboardPage.AddTask | app/dashboard/page.tsx:123-130 | "my tasks" grows by exactly the new task at the end; the stored list becomes the re-read list plus the task; a failed re-read leaves the store alone |
| Dashboard.DashboardPage.ShowCreatedTask | app/dashboard/page.tsx:123-125 | corrected callback: "my tasks" grows by the task and the store is not touched |
| Dashboard.DashboardPage.InProgressCount | app/dashboard/page.tsx:226 | the "in progress" figure never exceeds the number of "my tasks" |
| Dashboard.DashboardPage.ToDoCount | app/dashboard/page.tsx:237 | the "to do" figure never exceeds the number of assigned tasks |
| Tasks.FilterTasksSpec | app/tasks/page.tsx:74-88 | a task is shown exactly when it is stored and passes the search, the status filter and the priority filter together (a non-empty tag list admits only listed values); each shown task appears as often as stored; stored order is kept |
| Tasks.NoFiltersShowAll | app/tasks/page.tsx:74-88 | with no query and no tags every task is shown, in order |
| Tasks.SearchIgnoresCase | app/tasks/page.tsx:76-79 | a query and its lower-cased form select the same tasks |
| Tasks.MoreTagsShowMore | app/tasks/page.tsx:82 | adding a tag to a non-empty status filter only adds tasks to the view |
| Tasks.UncheckRemovesAll | app/tasks/page.tsx:126-131 | unchecking removes every occurrence of the tag and keeps every other entry, as often as before, in order |
| Tasks.CheckThenUncheck | app/tasks/page.tsx:126-131 | checking then unchecking a tag that was not selected restores the tag list |
| Tasks.TasksPage.constructor | app/tasks/page.tsx:20-25 | the page starts with no query, no tags, no tasks and the empty user |
| Tasks.TasksPage.Mount | app/tasks/page.tsx:27-39 | a stored user and a stored task list are loaded; a parse failure ends the effect; absent entries leave the state |
| Tasks.TasksPage.AddTask | app/tasks/page.tsx:42-45 | the page's list grows by exactly the new task at the end; nothing else changes |
| Tasks.TasksPage.OnStatusCheckedChange | app/tasks/page.tsx:126-131 | checking appends the status to the filter; unchecking removes it; the other state is kept |
| Tasks.TasksPage.OnPriorityCheckedChange | app/tasks/page.tsx:152-157 | the same for the priority filter |
| Tasks.TasksPage.FilteredTasks | app/tasks/page.tsx:74-88 | the table shows exactly the loaded tasks that pass the search and both tag filters, each as often as loaded, in loaded order |
| Team.EmptyQueryShowsAll | app/team/page.tsx:89 | an empty query lists the whole roster |
| Team.FilterMembersSpec | app/team/page.tsx:87-93 | a member is listed exactly when the lower-cased query occurs in the lower-cased name or address (or the query is empty), as often as it occurs in the roster; roster order is kept |
| Team.MemberSearchIgnoresCase | app/team/page.tsx:90-91 | a query and its lower-cased form select the same members |
| Team.AvatarFallback | app/team/page.tsx:145-149 | the fallback is the upper-cased characters that start a word of the name, at most one per space-separated part |
| Team.TeamPage.constructor | app/team/page.tsx:56-58 | the page starts with no query, the fixture roster and the empty user |
| Team.TeamPage.Mount | app/team/page.tsx:60-75 | without a stored roster the store is seeded with the fixture roster and the page's roster is unchanged; with one, the page shows it; a parse failure ends the effect |
| Team.TeamPage.AddTeamMember | app/team/page.tsx:78-84 | the roster grows by exactly the new member, and afterwards the stored roster equals the page's |
| Team.TeamPage.FilteredMembers | app/team/page.tsx:87-93 | the page shows exactly the members the query matches (by lower-cased name or address, or an empty query), each as often as in the roster, in roster order |
| CreateTask.FindName | components/create-task-dialog.tsx:86 | the lookup finds nothing exactly when no roster member has the id, and otherwise the name of the first member listed with that id |
| CreateTask.RosterAssignees | components/create-task-dialog.tsx:27-31 | selecting any roster member assigns the task to that member's name |
| CreateTask.NewTaskFields | components/create-task-dialog.tsx:79-89 | the new task carries the form's text, priority and status; the creator is the current user or "User"; the assignee is the creator when nobody is selected, the selected member otherwise, nothing for an unknown id; both dates are the timestamp part before the first `T` (all of it when there is none) |
| CreateTask.CreateTaskDialog.constructor | components/create-task-dialog.tsx:43-52 | the dialog starts not loading, with no date and the empty form whose status is "To Do" |
| CreateTask.CreateTaskDialog.SetField | components/create-task-dialog.tsx:54-61 | a change replaces exactly the named form field |
| CreateTask.CreateTaskDialog.HandleSubmit | components/create-task-dialog.tsx:63-125 | without a due date nothing changes and no callback is made; if the stored list does not parse, nothing is stored and loading ends; otherwise the stored list gains exactly the new task, the callback gets that same task, the form is reset, the date cleared, the dialog closed and loading ended |
| AddMember.NewMemberFields | components/add-team-member-dialog.tsx:53-61 | a new member has no tasks assigned or completed and carries the form's name, address and role |
| AddMember.AddTeamMemberDialog.constructor | components/add-team-member-dialog.tsx:29-35 | the dialog starts not loading, with the empty form |
| AddMember.AddTeamMemberDialog.SetField | components/add-team-member-dialog.tsx:37-44 | a change replaces exactly the named form field |
| AddMember.AddTeamMemberDialog.HandleSubmit | components/add-team-member-dialog.tsx:46-90 | the new member is built from the form, the callback (if present) receives it once, the form is emptied, the dialog closed and loading ended |
| Sidebar.GetInitialsSpec | components/app-sidebar.tsx:57-64 | the empty name gives "U"; any other name gives its upper-cased word-start characters, at most one per part |
| Sidebar.AtMostOneActive | components/app-sidebar.tsx:45-47 | a menu entry is active exactly when the path is its destination, so at most one entry is active |
| Sidebar.LoadedUser | components/app-sidebar.tsx:28-43 | without a user entry the state is kept; a stored user's empty name or address becomes "Guest User" or "guest@example.com"; a parse failure gives both defaults; after loading, neither is empty |
| Sidebar.AppSidebar.constructor | components/app-sidebar.tsx:24-26 | the sidebar starts with the current path and the empty user |
| Sidebar.AppSidebar.Mount | components/app-sidebar.tsx:28-43 | the shown user is the loaded user of the store |
| Sidebar.AppSidebar.HandleLogout | components/app-sidebar.tsx:49-54 | only the user key leaves the store; every other key keeps its value |
| Settings.Toggled | app/settings/page.tsx:53-58 | the named setting takes the negation of its previous value and every other setting is kept |
| Settings.ToggleTwice | app/settings/page.tsx:53-58 | toggling a present setting twice restores the preferences |
| Settings.ToggleShownSwitch | app/settings/page.tsx:34-58 | on the six shown switches a toggle changes exactly the named one and keeps the set of switches |
| Settings.WithProfileField | app/settings/page.tsx:43-46 | a profile change replaces exactly the named field |
| Settings.WithPasswordField | app/settings/page.tsx:48-51 | a password change replaces exactly the named field |
| Settings.TypedPasswordsMatch | app/settings/page.tsx:86 | after typing a new password and its confirmation, the check passes exactly when the two texts are equal |
| Settings.LoadedProfile | app/settings/page.tsx:149-155 | the loaded name is the stored name or "User", the address the stored address or "user@example.com", and the biography the initial one |
| Settings.SettingsPage.constructor | app/settings/page.tsx:20-41 | the page starts with the initial profile, empty passwords and the initial preferences |
| Settings.SettingsPage.Mount | app/settings/page.tsx:146-157 | a stored user replaces the profile by the loaded profile; a parse failure ends the effect; nothing else changes |
| Settings.SettingsPage.HandleProfileChange | app/settings/page.tsx:43-46 | only the named profile field changes |
| Settings.SettingsPage.HandlePasswordChange | app/settings/page.tsx:48-51 | only the named password field changes |
| Settings.SettingsPage.HandleNotificationToggle | app/settings/page.tsx:53-58 | only the named preference flips |
| Settings.SettingsPage.HandleProfileSubmit | app/settings/page.tsx:60-81 | the submit ends with loading off and the forms kept |
| Settings.SettingsPage.HandlePasswordSubmit | app/settings/page.tsx:83-120 | a mismatch is rejected before loading starts and changes nothing; a match clears all three fields and ends with loading off |
| Settings.SettingsPage.HandleNotificationSubmit | app/settings/page.tsx:122-143 | the submit ends with loading off and the forms kept |
| Flows.DashboardStoresTwice | app/dashboard/page.tsx:128-130 | as written, a creation from the dashboard leaves the stored list with two copies of the new task at the end |
| Flows.DashboardStoresOnce | components/create-task-dialog.tsx:92-98 | corrected, the stored list gains exactly one copy and every other key is kept |
| Flows.DoubleStoreExample | app/dashboard/page.tsx:307-311 | from an empty store one creation on the dashboard stores `[t, t]` as written and `[t]` corrected |
| Flows.CreateFromDashboard | app/dashboard/page.tsx:307-311 | the dialog on the dashboard, as wired: no picked date gives "missing due date" and an unparsable stored list gives "failed", and in both "my tasks", the store and the form are kept; otherwise the task built from the form, the dashboard user's name and the picked date joins "my tasks" once and the stored list twice, and the dialog is reset, closed and not loading; the user and the other two views are always kept |
| Flows.CreateFromDashboardCorrected | app/dashboard/page.tsx:307-311 | with the corrected callback, the same three outcomes; on success "my tasks" and the stored list each gain the task once and the other keys are kept |
| Flows.CreateFromTasksPage | app/tasks/page.tsx:237-241 | the dialog on the task list: no picked date gives "missing due date", an unparsable stored list gives "failed", and in both the list, the store and the form are kept; otherwise the task built from the form and the page user's name is stored once and appended to the page's list, and the dialog is reset and closed; a page showing the stored list still shows it; the query, tag filters and user are kept |
| Flows.AddMemberFromTeamPage | app/team/page.tsx:199 | the member dialog on the team page: the new member, with no tasks, is appended to the roster; the store changes only in the roster key, which then holds the page's roster; the query and user are kept; the dialog is emptied, closed and not loading |

## Left out

- Local storage holds typed values rather than JSON text. A value of the wrong kind, or `Malformed`, stands for text that `JSON.parse` rejects. A parsed value with a missing or wrongly typed field, and the literal `null`, are not modelled.
- The current instant, `Date.now()` and `toISOString()` are parameters: the record id, the ISO timestamp strings and the current instant (its UTC day and the milliseconds since its midnight).
- Date parsing is modelled only for date-only `YYYY-MM-DD` strings (month 1-12, day 1-31). Calendar validity such as 30 February, and date-time strings (which the engine reads in local time), are not modelled. Any other string counts as an invalid date, which is never overdue.
- `toLowerCase` and `toUpperCase` are ASCII-only. Unicode case mapping is library behaviour.
- Strings are sequences of characters, not of UTF-16 code units. So `n[0]` on a name part that starts with a character outside the Basic Multilingual Plane (an emoji, say) is not modelled: the source takes a lone high surrogate, and `Initials`, `GetInitials` and `AvatarFallback` take the whole character. `includes` and the ASCII case mapping give the same result either way.
- The avatar image URL and `encodeURIComponent` are left out: the member dialog takes the avatar address as a parameter.
- A `JSON.parse` that throws inside a page's mount effect ends the effect; the mount methods return false there and keep the state reached so far. In the running application the error reaches React's error handling, which replaces the page, so what the page shows afterwards is not modelled.
- Toasts, the simulated one-second delays, `async`/`await`, `router.push` and React's batching and re-rendering are not modelled. Each state setter is an immediate field assignment. Each submit is one atomic step, so `isLoading` is seen true only inside it.
- `open` is a field of each dialog. `onOpenChange(false)` sets it false.
- The colour-class helpers, the markup, the analytics page (fixture constants only), the layout and the chart re-export are presentation, not logic.
- A stored user record with a missing `name` is not modelled. On the dashboard its name would be `undefined`, which matches every task with no assignee or creator.
- The fixture field `assignedBy` of the dashboard's assigned and overdue fixtures is display-only and is not modelled.
- CreateTask.CreateTaskDialog.SetField, AddMember.AddTeamMemberDialog.SetField, Settings.WithProfileField and Settings.WithPasswordField: an input name other than the form's fields is a no-op in the model. The spread in the source would add a key that nothing reads.
- Dashboard.DashboardPage.Mount: overdue is decided for the instant passed in; the page reads the clock once, as the source does.
- The task-detail page is not part of this model.

## Findings

The dashboard's overdue card is captioned "Tasks past their due date" (app/dashboard/page.tsx:248), and due dates are stored as calendar days without a time (components/create-task-dialog.tsx:83). A task due today is therefore not yet past its due date. The code instead compares the due date's UTC midnight with the current instant. The model follows the code, and the second row below records the difference.

| source | as written | input that shows it | evidently intended | confidence | as-written member | corrected member |
|---|---|---|---|---|---|---|
| app/dashboard/page.tsx:128-130 | the dashboard's `addTask` callback re-reads the stored tasks and appends the new task, after the creation dialog has already appended it (components/create-task-dialog.tsx:92-98) | an empty store and one task created from the dashboard: the store then holds `[t, t]` | the task is stored once; the callback only shows it | high, not executed | Flows.DoubleStoreExample | Flows.CreateFromDashboardCorrected |
| app/dashboard/page.tsx:114 | `new Date(task.dueDate) < today` compares the due date's UTC midnight with the current instant | a to-do task due 2025-06-01, one millisecond after midnight UTC on 2025-06-01: listed as overdue | a task is overdue only when due on an earlier calendar day | medium, not executed | Dashboard.DueTodayIsOverdue | Dashboard.OverdueByDateSpec |
