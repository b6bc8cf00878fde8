# Tenant-scoped route handlers of a company task manager, in Dafny

The system is a Next.js application. Companies sign up and create admins.
Admins manage employees, teams and tasks, and everyone in a company chats.
Its API is a set of route handlers under `app/api/**`. Each handler follows
the same pattern:

- it resolves a session principal;
- it checks the role;
- it validates the JSON body;
- it checks that the rows it references belong to the caller's company or admin;
- it then inserts, updates or deletes rows in a relational store, or returns a filtered read.

The Kanban board component adds one client-side operation: dropping a card
onto another list.

This project models those decisions over an in-memory store.

- `common.dfy` holds generic sequence tools: Prisma-style first-match lookup,
  order-preserving filters, counting, a stable insertion sort that stands for
  `orderBy`, `trim`/`toLowerCase`, and unique columns.
- `store.dfy` holds the seven tables (`Company`, `Admin`, `Employee`, `Team`,
  `TeamMember`, `Task`, `Chat`). It declares them as the fields of a `Db`
  class whose invariant `Valid` is the schema's unique constraints plus the
  required team of a membership. It also holds the session principal and the
  abstract password hash.
- Each GET handler is a function that `reads db` and returns a `Reply`: a
  status with a value, or a status with an error message.
- Each handler that writes has two parts:
  - a pure function computes the outcome;
  - a method applies it with `modifies db`.

  Every such method keeps `Valid`, and changes exactly the rows the outcome
  names. On every error path it leaves the store unchanged.
- The board is a class `BoardView` whose `HandleDragEnd` runs the two search
  loops of the component and then applies the pure list update.

Sessions are a record with one optional principal per session getter:

- the next-auth session;
- the admin, employee and company cookie sessions;
- `getAnySession`.

An id or role that JavaScript would treat as falsy is the empty string. A
Prisma `where` condition whose value is `undefined` is dropped, and the model
does the same (`InCompany`, `IdFilter`). A `findUnique` whose id is
`undefined` throws, so the model answers 500 there.

## Model

| member | source | states |
|---|---|---|
| Store.FirstSession | app/api/chat/route.ts:11-22 | the first present session of generic, admin, employee, company, in that order; none only when all four are absent |
| Board.ActiveOf | components/board-view.tsx:186-197 | the card found in the first list that stops the scan (`ActiveIndex`) yields that card and that list; when that first list holds no such card it is the dragged list; not on the board exactly when no list stops the scan |
| Board.ActiveIndex | components/board-view.tsx:186-197 | the first list holding a card with the dragged id or having that id, or the number of lists; no list before it stops the scan |
| Board.ActiveOfDraggingList | components/board-view.tsx:186-197 | a list is taken as dragged exactly when some list has the dragged id and neither it nor any list before it holds a card with that id |
| Board.FindActive | components/board-view.tsx:186-197 | the first search loop returns exactly `ActiveOf` |
| Board.TargetOf | components/board-view.tsx:200-210 | the target is the id of the first list named `overId`, or the `listId` of the first card `overId` when its list comes first; none when neither exists |
| Board.FindTarget | components/board-view.tsx:200-210 | the second search loop returns exactly `TargetOf` |
| Board.MoveCard | components/board-view.tsx:227-243 | the list count, each list's id and title, and every list that is neither source nor target are kept |
| Board.MoveBetweenLists | components/board-view.tsx:228-240 | with different lists the source keeps exactly its other cards (the `filter`, each card as often as before), and the target gains the card last with `listId` set to the target |
| Board.MoveWithinList | components/board-view.tsx:229-234 | when source and target are the same list, the first branch wins: the list keeps exactly its other cards, each as often as before, and the card is not re-added |
| Board.MoveCardBalance | components/board-view.tsx:228-243 | the total card count after a move is the count before, minus the copies removed from source lists, plus one per target list that is not the source |
| Board.MoveConservesCards | components/board-view.tsx:228-243 | between two different lists, each named once, with one copy of the card, the number of cards is kept |
| Board.MoveWithinListLosesCard | components/board-view.tsx:229-240 | dropping a card on its own list lowers the card count by its copies in that list |
| Board.DragEnd | components/board-view.tsx:176-243 | a valid drop (a target, a card found in a list with a truthy id, a truthy target list, the PATCH accepted) gives exactly `MoveCard` of the source, the target and that card; the board is unchanged without a drop target, for a dragged list, for a card not on the board, for an unresolved or falsy target or source, and when the PATCH fails |
| Board.DragEndConservesCards | components/board-view.tsx:200-243 | a successful drop between two different lists, with one copy of the card in its list and one list with the target id, keeps the number of cards |
| Board.BoardView.HandleDragStart | components/board-view.tsx:168-170 | the active id becomes the dragged id; the board is unchanged |
| Board.BoardView.HandleDragEnd | components/board-view.tsx:172-248 | clears the active id and sets the board to `DragEnd` of the old board |
| Tasks.ResolveTaskCaller | app/api/tasks/route.ts:10-38 | the admin session is tried first, the employee session only when it yields no admin; none when neither resolves |
| Tasks.TaskFilter | app/api/tasks/route.ts:45-63 | an admin's filter pins company (session value, else the admin record's) and admin, and `assignedToId` pins the employee; an employee's filter pins the employee and ignores `assignedToId`; status and priority are pinned when given |
| Tasks.GetTasks | app/api/tasks/route.ts:10-89 | 401 when no caller resolves; otherwise exactly the tasks matching the filter, newest first |
| Tasks.AdminSessionFirst | app/api/tasks/route.ts:10-38 | once the admin session yields an admin, the employee session does not change the answer |
| Tasks.EmployeeIgnoresAssignee | app/api/tasks/route.ts:55-63 | an employee's `assignedToId` parameter does not change the answer |
| Tasks.TrimmedOrNull | app/api/tasks/route.ts:185-196 | a trimmed description, or null when absent or blank |
| Tasks.NewTask | app/api/tasks/route.ts:106-196 | 401 without an ADMIN session, 401 without an id in it, 403 for a missing admin; with the admin found, exactly the outcome of `AdminTask`; every success is a 201 row with the new id under the session's admin |
| Tasks.AdminTask | app/api/tasks/route.ts:127-196 | 400 without a company, 400 without a non-blank title, 400 for an employee or team not of this admin and company, in that order; when all pass exactly `TaskRow`, 201 |
| Tasks.TaskRow | app/api/tasks/route.ts:185-196 | the trimmed title and description, status and priority defaulting to "pending" and "medium", the admin and its company, the employee and team or null |
| Tasks.PostTask | app/api/tasks/route.ts:136-228 | the task is appended exactly when `NewTask` succeeds; otherwise the store is unchanged; `Valid` is kept |
| Tasks.InsertTask | app/api/tasks/route.ts:185-196 | appending a task with a new id keeps `Valid`; no other table changes |
| Tasks.GetCompanyTasks | app/api/cmp/tasks/route.ts:9-38 | 401 without an id and role (checked before the role), 403 for other roles; a COMPANY caller always gets 200 with exactly the company's tasks, each as often as stored, newest first |
| Chats.ChatVisible | app/api/chat/route.ts:38-71 | the company filter always; personal views keep the caller's conversations (or the one with `receiverId`); team, task and group views filter on type and id |
| Chats.Conversation | app/api/chat/route.ts:38-77 | exactly the visible chats, oldest first |
| Chats.GetChats | app/api/chat/route.ts:11-77 | 401 without a session id and role, 400 without a company; otherwise exactly `Take` of the caller's conversation: its first 100 messages, oldest first |
| Chats.GetChatsDropsNewest | app/api/chat/route.ts:73-77 | beyond 100 messages, the ones dropped are the newest |
| Chats.ChatOccursOnce | app/api/chat/route.ts:73-77 | with unique ids a chat row occurs once in the table |
| Chats.GetChatsMissesLatest | app/api/chat/route.ts:73-77 | with 101 visible messages, the newest is not returned |
| Chats.GetLatestChats | app/api/chat/route.ts:73-77 | the corrected read: for an identified caller with a company exactly `Last` of the conversation, its last 100 messages, oldest first |
| Chats.LatestChatsKeepNewest | app/api/chat/route.ts:73-77 | the corrected read returns the newest visible chat and never drops a chat newer than one it returns |
| Chats.DefaultViewShowsCompanyChats | app/api/chat/route.ts:33-40 | the default view keeps any chat of the company, including personal chats between two other users |
| Chats.ReceiverCompany | app/api/chat/route.ts:122-131 | the company of an admin with the id, else of an employee with it, else none |
| Chats.ReceiverType | app/api/chat/route.ts:149-164 | "admin" when an admin has the id, else "employee" when an employee has it, else null |
| Chats.NewChat | app/api/chat/route.ts:91-164 | 401 without an identified session, 400 without a company, 400 without message or type, 403 for a personal, team or task target outside the company, and 201 whenever all four pass; the row has the sender type the lowercased role, receiver type admin/employee/null, and a target of the sender's company |
| Chats.PostChat | app/api/chat/route.ts:91-165 | the chat is appended exactly when `NewChat` succeeds; otherwise the store is unchanged |
| Chats.SentMessageIsVisible | app/api/chat/route.ts:43-58 | a sent personal message is visible to its sender in the personal view |
| Chats.Unread | app/api/chat/unread/route.ts:21-33 | unread for a user means in its company, not read, addressed to it or of type team, task or group, and not its own |
| Chats.UnreadCount | app/api/chat/unread/route.ts:9-39 | 401 without an id and role; 0 without a company; otherwise exactly `UnreadIn` of the chats for the caller and its company, positive exactly when some chat is unread for the caller |
| Chats.UnreadIn | app/api/chat/unread/route.ts:21-33 | at most the number of chats; positive exactly when some chat is unread for the caller |
| Chats.UnreadAfterAppend | app/api/chat/unread/route.ts:21-33 | a new chat raises `UnreadIn` by one exactly when it is unread for the caller |
| Chats.EmployeeContacts | app/api/chat/contacts/route.ts:63-75 | one contact per row of `ContactRows`, in that order: the employees of the filtered company other than the caller, by name, each once per stored row |
| Chats.ContactRows | app/api/chat/contacts/route.ts:63-75 | the employees of the filtered company other than the caller, each as often as stored, by name |
| Chats.AdminContacts | app/api/chat/contacts/route.ts:37-41 | one contact (id, name, e-mail, no role) per row of `AdminContactRows`, in that order: the admins of the filtered company other than the caller, by name |
| Chats.AdminContactRows | app/api/chat/contacts/route.ts:37-41 | the admins of the filtered company other than the caller, each as often as stored, by name |
| Chats.ManagerContact | app/api/chat/contacts/route.ts:77-86 | the employee's admin, tagged "ADMIN", exactly when `admin_id` is set and names an admin |
| Chats.GetContacts | app/api/chat/contacts/route.ts:11-90 | 401; an ADMIN caller gets exactly the employees and other admins of `CallerCompany` (all companies when the admin row is missing); an EMPLOYEE caller with a row gets its coworkers and its manager; 404 for a missing employee; 403 for other roles |
| Chats.AdminContactsInCompany | app/api/chat/contacts/route.ts:28-36 | when the admin row exists, every employee of its company is listed |
| Chats.ContactsLeakWithoutAdmin | app/api/chat/contacts/route.ts:29-33 | an ADMIN session without an admin row lists the employees of every company |
| Chats.GetScopedContacts | app/api/chat/contacts/route.ts:28-61 | the corrected handler: 404 for a missing admin row; an admin with a row gets the contacts of its own company; an employee's reply is the one written |
| Chats.CompanyContacts | app/api/chat/contacts/route.ts:31-47 | the admin view scoped to the admin's company: every employee of that company and only those; only fellow admins of that company, never the admin itself |
| Employees.StatusCountsOf | app/api/employees/route.ts:52-62 | total is the number of tasks; each counter counts its status; the three sum to at most the total |
| Employees.TasksOf | app/api/employees/route.ts:42-47 | exactly the tasks assigned to the employee |
| Employees.StatusCountsAfterAppend | app/api/employees/route.ts:52-62 | one more task raises the total by one and exactly its status counter by one |
| Employees.StaffManager | app/api/employees/route.ts:10-30 | 401 without an id and role, 403 for roles other than ADMIN and SUPERADMIN, 403 for a missing admin or company; otherwise Ok with the admin that has the session id |
| Employees.GetStaff | app/api/employees/route.ts:10-62 | the manager's error when it fails; otherwise always 200 with one statistics row per employee of `StaffOf`, in that order: exactly the caller's employees, newest first |
| Employees.StaffOf | app/api/employees/route.ts:32-50 | exactly the employees the admin manages, each as often as stored, newest first |
| Employees.NewStaff | app/api/employees/route.ts:77-136 | the manager's error, 400 without name, email or password, 400 for an existing email; when all pass, exactly the row under the caller and its company, 201 |
| Employees.AddEmployeeKeepsValid | app/api/employees/route.ts:122-130 | appending the new employee keeps the store's unique columns |
| Employees.PostStaff | app/api/employees/route.ts:77-136 | the employee is appended exactly when `NewStaff` succeeds |
| Employees.DeleteTarget | app/api/employees/route.ts:149-185 | 401, 403 for another role or a missing admin, 400 without an id, 404 for a missing employee or one of another admin; 200 with the id when the first employee with it is the caller's |
| Employees.WithoutEmployee | app/api/employees/route.ts:188-190 | exactly the other employees, in order |
| Employees.DeleteStaff | app/api/employees/route.ts:149-190 | removes exactly that employee when `DeleteTarget` succeeds; otherwise the store is unchanged |
| Employees.GetManaged | app/api/admin/employees/route.ts:9-57 | 401 for non-ADMIN, 500 without an id, 404 for a missing admin; with the admin found always 200 with one statistics row per employee of `ManagedOf`: exactly its employees within the session's company, newest first |
| Employees.ManagedOf | app/api/admin/employees/route.ts:26-45 | exactly the admin's employees within the filtered company, each as often as stored, newest first |
| Employees.NewManaged | app/api/admin/employees/route.ts:72-144 | 401 for non-ADMIN, 500 without an id, 403 for a missing admin; with the admin found, exactly the outcome of `ManagedFor` |
| Employees.ManagedFor | app/api/admin/employees/route.ts:84-137 | 403 for a missing company, 400 for missing fields, 400 for a work id used in the company, 400 for an existing email, in that order; when all pass exactly the row with work id or null under the admin and its company, 201 |
| Employees.WorkIdsUnique | app/api/admin/employees/route.ts:97-111 | within a company, no two employees share a work id |
| Employees.NewManagedKeepsWorkIds | app/api/admin/employees/route.ts:97-137 | appending a created employee keeps work ids unique per company |
| Employees.PostManaged | app/api/admin/employees/route.ts:72-144 | the employee is appended exactly when `NewManaged` succeeds |
| Employees.GetCompanyStaff | app/api/cmp/employees/route.ts:8-40 | 401 for non-COMPANY; a COMPANY caller always gets 200 with one row per employee of `CompanyEmployees`: exactly the company's employees, newest first, with admin and task count |
| Employees.CompanyEmployees | app/api/cmp/employees/route.ts:14-31 | exactly the employees of the filtered company, each as often as stored, newest first |
| Employees.CompanyStaff | app/api/cmp/employees/route.ts:14-40 | one row per employee of `CompanyEmployees`, in that order, with its admin and task count; with a company filter every row is an employee of that company |
| Teams.MembersOf | app/api/admin/teams/route.ts:27-45 | exactly the memberships of the team, each as often as stored |
| Teams.TeamViewOf | app/api/admin/teams/route.ts:27-53 | the team; its members are the views of `MembersOf` in table order, with their admin and employee summaries; its task count and member count |
| Teams.MemberViews | app/api/admin/teams/route.ts:27-45 | one view per membership of `MembersOf`, in table order, with the membership's admin and employee summaries |
| Teams.TeamAdmin | app/api/admin/teams/route.ts:8-21 | 401 for non-ADMIN, 500 with the handler's own failure message without an id, 404 for a missing admin; otherwise Ok with the admin that has the session id |
| Teams.GetTeams | app/api/admin/teams/route.ts:8-63 | 401, 500 "Failed to fetch teams" without an id, 404; otherwise always 200 with one view per team of `CompanyTeams`: exactly the teams of the admin's company, newest first |
| Teams.CompanyTeams | app/api/admin/teams/route.ts:23-54 | exactly the teams of the company, each as often as stored, newest first |
| Teams.StringIds | app/api/admin/teams/route.ts:94-97 | exactly the non-blank string ids; `StringIdsAppend` and `StringIdsSingle` give their order |
| Teams.StringIdsAppend | app/api/admin/teams/route.ts:94-97 | the ids of a concatenation are those of each part, in turn |
| Teams.StringIdsSingle | app/api/admin/teams/route.ts:94-97 | one element is kept exactly when it is a non-blank string |
| Teams.Dedup | app/api/admin/teams/route.ts:98 | no duplicates, the same ids, in first-occurrence order |
| Teams.SanitizeIds | app/api/admin/teams/route.ts:94-98 | the non-blank string ids without duplicates, in first-occurrence order |
| Teams.DedupDistinct | app/api/admin/teams/route.ts:98 | de-duplicating an already distinct list changes nothing |
| Teams.OwnedIds | app/api/admin/teams/route.ts:99-109 | exactly the ids of the admin's employees among the given ones; none without a lookup for an empty list |
| Teams.Memberships | app/api/admin/teams/route.ts:118-130 | the admin membership exists iff it is included, and comes first; one membership per employee id |
| Teams.NewTeam | app/api/admin/teams/route.ts:68-161 | 401, 500 "Failed to create team" without an id, 404, 400 without a name, and 201 whenever these pass: the team under the admin's company and admin, with the admin's membership when `includeAdmin` is absent or truthy and one membership per owned sanitised id |
| Teams.IncludeAdminDefaults | app/api/admin/teams/route.ts:84-126 | the admin is included when the field is absent or truthy: `null`, `false`, `0` and `""` leave it out |
| Teams.FalsyIncludeAdminOmitsAdmin | app/api/admin/teams/route.ts:84-126 | a present but falsy `includeAdmin` gives a team without the admin's membership |
| Teams.NewTeamMembersOwned | app/api/admin/teams/route.ts:99-130 | every employee membership of a new team names an employee of the caller |
| Teams.PostTeam | app/api/admin/teams/route.ts:68-155 | the team and its memberships are appended exactly when `NewTeam` succeeds |
| Teams.InsertTeam | app/api/admin/teams/route.ts:111-133 | storing a team with a fresh id and memberships of that team keeps every table valid and every membership's team present |
| Teams.TeamsOf | app/api/employee/teams/route.ts:14-34 | one team per membership, in membership order |
| Teams.GetEmployeeTeams | app/api/employee/teams/route.ts:8-34 | 401 for non-EMPLOYEE; an EMPLOYEE caller always gets 200 with, in membership order, the team of each membership matched by its id, with the team's members and no counters; with an id, every such membership is the caller's |
| Teams.MembershipTeams | app/api/employee/teams/route.ts:14-34 | one team per membership, in membership order: the membership's team with its members |
| Analytics.Summary | app/api/analytics/route.ts:39-53 | the seven counters; unassigned is the total minus the assigned, and is never negative |
| Analytics.EmployeeSummary | app/api/analytics/route.ts:73-86 | every task assigned, no employees, none unassigned |
| Analytics.GetAnalytics | app/api/analytics/route.ts:8-129 | 401 without a session; 500 for an ADMIN or EMPLOYEE session without an id; per role ADMIN, EMPLOYEE and COMPANY the scoped counters or 404; zeros for any other role |
| Analytics.EmployeeSummaryIsSummary | app/api/analytics/route.ts:67-86 | the employee counters equal the general ones over its tasks |
| Analytics.AdminWithinCompany | app/api/analytics/route.ts:26-53 | an admin's task counters never exceed its company's |
| Analytics.AdminTasksInCompany | app/api/analytics/route.ts:26-37 | an admin's tasks are a sub-selection of its company's |
| Analytics.GetDashboard | app/api/cmp/dashboard/route.ts:8-35 | 401 for non-COMPANY, 500 without an id, 404 for a missing company; an existing company always gets 200 with its admin, employee and task counts and the global task count, company tasks at most the total |
| Profiles.Patched | app/api/user/profile/route.ts:100-106 | the given value when truthy, else the stored one |
| Profiles.CompanyProfileOf | app/api/cmp/profile/route.ts:12-27 | 500 without an id, 404 for a missing company; an existing id gives 200 with the profile of the first company with that id |
| Profiles.AdminProfileOf | app/api/admin/profile/route.ts:12-29 | 500 without an id, 404 for a missing admin; an existing id gives 200 with the profile of the first admin with that id, with its company |
| Profiles.EmployeeProfileOf | app/api/employee/profile/route.ts:12-30 | 500 without an id, 404 for a missing employee; an existing id gives 200 with the profile of the first employee with that id, with company and admin |
| Profiles.GetCompanyProfile | app/api/cmp/profile/route.ts:8-27 | 401 for non-COMPANY; otherwise the company's profile |
| Profiles.GetAdminProfile | app/api/admin/profile/route.ts:8-29 | 401 for non-ADMIN; otherwise the admin's profile |
| Profiles.GetEmployeeProfile | app/api/employee/profile/route.ts:8-30 | 401 for non-EMPLOYEE; otherwise the employee's profile |
| Profiles.GetUserProfile | app/api/user/profile/route.ts:8-69 | 401 without a session; 500 without an id; 404 "User not found" for a missing company, admin or employee record and for any other role; otherwise the record of the session's role |
| Profiles.PatchCompany | app/api/cmp/profile/route.ts:51-61 | 500 without an id, 404 for a missing company, 500 for an email another company has; an existing row with a free or absent email gives 200 with only name and email patched |
| Profiles.PatchAdmin | app/api/admin/profile/route.ts:53-63 | as for companies, on the admin table |
| Profiles.PatchEmployee | app/api/employee/profile/route.ts:54-64 | as for companies, on the employee table |
| Profiles.PatchTouchesOnlyGivenFields | app/api/user/profile/route.ts:100-106 | a PATCH keeps id, password and creation time, and changes name and email only when given |
| Profiles.PatchCompanyKeepsUnique | app/api/user/profile/route.ts:100-106 | the patched company table keeps unique ids and emails |
| Profiles.PatchAdminKeepsUnique | app/api/user/profile/route.ts:124-130 | the patched admin table keeps unique ids and emails |
| Profiles.PatchEmployeeKeepsUnique | app/api/user/profile/route.ts:148-154 | the patched employee table keeps unique ids and emails |
| Profiles.PatchThenGetCompany | app/api/cmp/profile/route.ts:55-67 | after a PATCH the GET of the same id shows the patched row |
| Profiles.PatchThenGetAdmin | app/api/admin/profile/route.ts:57-69 | after a PATCH the GET of the same id shows the patched row |
| Profiles.PatchThenGetEmployee | app/api/employee/profile/route.ts:58-70 | after a PATCH the GET of the same id shows the patched row |
| Profiles.UpdateCompany | app/api/cmp/profile/route.ts:55-61 | replaces exactly the company's row by the patched one; nothing changes on error |
| Profiles.UpdateAdmin | app/api/admin/profile/route.ts:57-63 | replaces exactly the admin's row by the patched one; nothing changes on error |
| Profiles.UpdateEmployee | app/api/employee/profile/route.ts:58-64 | replaces exactly the employee's row by the patched one; nothing changes on error |
| Profiles.PatchCompanyProfile | app/api/cmp/profile/route.ts:40-67 | 401 for non-COMPANY; otherwise the update and the echo of name, email and role |
| Profiles.PatchAdminProfile | app/api/admin/profile/route.ts:42-69 | 401 for non-ADMIN; otherwise the update and the echo |
| Profiles.PatchEmployeeProfile | app/api/employee/profile/route.ts:43-70 | 401 for non-EMPLOYEE; otherwise the update and the echo |
| Profiles.PatchUserProfile | app/api/user/profile/route.ts:82-163 | 401 without a session; dispatch on the role; 404 for another role |
| Accounts.SetPassword | app/api/user/change-password/route.ts:46-51 | overwrites the hash of one row; every other row and column is unchanged |
| Accounts.ChangeTarget | app/api/user/change-password/route.ts:10-102 | 401, 400 for missing passwords, 400 for a new password under 8 characters (all before any lookup), 404 when `SessionAccount` finds no record, 400 for a wrong current password, and 200 with the caller's own row for the right one |
| Accounts.SessionAccount | app/api/user/change-password/route.ts:30-97 | the first row with the session id in the table of its role; none for a missing row or another role |
| Accounts.ChangePassword | app/api/user/change-password/route.ts:10-102 | the caller's hash becomes the hash of the new password exactly when `ChangeTarget` succeeds; otherwise nothing changes |
| Accounts.ResetTarget | app/api/auth/forgot-password/route.ts:9-58 | 400 without email and password; 200 with the first company with the email, else the first admin, else the first employee; 404 exactly when none has it |
| Accounts.ForgotPassword | app/api/auth/forgot-password/route.ts:17-58 | only the first matching row gets the new hash; nothing changes on 400 or 404 |
| Accounts.ResetSkipsLengthCheck | app/api/auth/forgot-password/route.ts:21-25 | a reset accepts a password the change refuses as too short |
| Accounts.NewCompany | app/api/auth/signup/route.ts:9-43 | 400 for missing fields, 400 for a password under 8, 400 for an existing email; otherwise the company with the hashed password, 201 |
| Accounts.Signup | app/api/auth/signup/route.ts:9-49 | the company is appended exactly when `NewCompany` succeeds; the answer is id, name and email only |
| Accounts.SignupThenFind | app/api/auth/signup/route.ts:37-43 | a signed-up company is found by its email and its hash matches the chosen password |
| Admins.CompanyAdmins | app/api/admins/route.ts:23-31 | exactly the admins of the company, newest first |
| Admins.AdminRowOf | app/api/cmp/admins/route.ts:32-39 | the admin with its number of managed employees and created tasks |
| Admins.GetCompanyAdmins | app/api/cmp/admins/route.ts:9-41 | 401 for non-COMPANY; one row per admin of the company, newest first |
| Admins.NewAdmin | app/api/cmp/admins/route.ts:53-115 | 401, 400 for missing fields, 400 for an existing normalised email; then 500 when the session's company cannot be connected; then 409 on a unique violation at insert, 500 on any other failure, and 201 with the new admin (normalised email, the session's company) when inserted |
| Admins.PostCompanyAdmin | app/api/cmp/admins/route.ts:85-115 | the admin is appended exactly when `NewAdmin` succeeds; the answer is id, name and email |
| Admins.NewAdminEmailNormalized | app/api/cmp/admins/route.ts:71-93 | the stored email is a fixed point of normalisation |
| Admins.NormalizedDuplicateRejected | app/api/cmp/admins/route.ts:71-83 | any spelling that normalises to an existing admin's email is refused with 400 |
| Admins.GetAdmins | app/api/admins/route.ts:9-33 | 401 without an id and role, 403 for non-COMPANY; exactly the company's admins, each as often as stored, newest first |
| Admins.SameAdminsBothRoutes | app/api/cmp/admins/route.ts:17-39 | both admin lists of a company hold the same admins in the same order |
| Common.NormalizeEmail | app/api/cmp/admins/route.ts:71 | the input less the white space at both ends, each character lower-cased; trimmed and free of capital letters |
| Common.NormalizeEmailIdempotent | app/api/cmp/admins/route.ts:71 | normalising twice is normalising once |
| Auth.SessionCookieName | app/api/auth/employee/signin/route.ts:8-11 | the portal's suffix, with the `__Secure-` prefix exactly in production |
| Auth.CookieNamesDiffer | app/api/auth/admin/signin/route.ts:8-11 | two portals never share a cookie name |
| Auth.SessionCookie | app/api/auth/employee/signin/route.ts:59-66 | httpOnly, secure exactly in production, lax, path "/", thirty days |
| Auth.AuthenticateEmployee | app/api/auth/employee/signin/route.ts:17-56 | 400 without email and password; 401 with one message for an unknown email and a wrong password; success iff the first employee with the email matches; claims with role EMPLOYEE, company and admin |
| Auth.AuthenticateAdmin | app/api/auth/admin/signin/route.ts:17-55 | as for employees; claims with role ADMIN and the admin's company |
| Auth.AuthenticateCompany | app/api/auth/cmp/signin/route.ts:17-54 | as for employees; claims with role COMPANY and no company id |
| Auth.RejectionsIndistinguishable | app/api/auth/employee/signin/route.ts:29-42 | an unknown email and a wrong password get the same reply |
| Auth.SignInEmployee | app/api/auth/employee/signin/route.ts:17-78 | sets the employee cookie with the claims exactly on success; the jar is unchanged on any failure |
| Auth.SignInAdmin | app/api/auth/admin/signin/route.ts:17-76 | as for employees, with the admin cookie |
| Auth.SignInCompany | app/api/auth/cmp/signin/route.ts:17-74 | as for employees, with the company cookie |
| Auth.SignupThenSignIn | app/api/auth/cmp/signin/route.ts:25-54 | a company that just signed up can sign in with its email and password |

## Left out

- The database, HTTP, JSON parsing and logging. Prisma errors that the code
  catches as a generic 500 are modelled only where the model can name them:
  - a `findUnique` with an `undefined` id;
  - the unique email constraint on a profile PATCH;
  - the insert outcome of POST /api/cmp/admins.
- Concurrency. `Promise.all` and check-then-insert races are not modelled. The
  P2002 race of POST /api/cmp/admins is an explicit `InsertOutcome` parameter.
- Password hashing. bcrypt is an injective, deterministic `HashOf`. Salts, the
  cost factor and bcrypt's 72-byte input limit are not modelled.
- Token encoding. The JWT is its claims record and lifetime. Signing and the
  next-auth secret are not modelled.
- `lib/get-session` and next-auth's `getServerSession` are not part of this
  model. Each is one optional principal per session slot.
- `toLowerCase` and `trim`. They are ASCII-only lower-casing and a fixed set of
  white-space characters. Unicode case mapping is not modelled.
- String lengths count Dafny characters, not UTF-16 code units.
- Ordering. `orderBy: { name: "asc" }` is code-unit order, not the database
  collation. Ties in `createdAt` are kept in table order, and `findMany`
  without `orderBy` is taken as table order.
- Dates. `deadline` is an opaque optional string, and `createdAt` is an integer
  timestamp supplied by the caller, as are fresh ids.
- Relation includes and projections. Nested `select`s are shown only where a
  contract speaks of them: persons, counts and team members. The `company`
  include of GET /api/admins is not returned. The `admin` and `employee`
  includes of GET /api/cmp/tasks are not returned.
- Cascading deletes and other foreign-key actions of the schema. DELETE
  /api/employees removes only the employee row.
- `TeamMember` rows have no id of their own.
- JSON `null` and an absent field are both `None`, except for `includeAdmin`,
  whose default applies only to an absent field. Every other field is tested
  for truthiness, where the two agree.
- An id that is the empty string stands for `undefined`, so a `findUnique` on
  it answers 500. Prisma would look the empty id up and find no row, so those
  handlers would answer 404 instead (or go on without the row).
- Auth.AuthenticateEmployee: the response's `adminId` is the token's
  `admin_id \|\| undefined`. The raw `admin_id` the response carries differs
  only for an empty-string id, which the model does not tell apart.
- The board:
  - the network PATCH of `handleDragEnd` is the `patchOk` flag;
  - `setBoard(prev => …)` is applied to the board the loops searched;
  - the later re-render and toasts are not modelled.
- Profiles.PatchTouchesOnlyGivenFields, Accounts.ResetSkipsLengthCheck and
  Admins.SameAdminsBothRoutes follow from their members' own contracts.
  They restate those consequences for the reader and add no proof.
- Forgot-password resets any account by email alone, without a token. The
  model reproduces this and states it (Accounts.ResetSkipsLengthCheck). It does
  not treat it as a finding, because it is how the code is designed, not a
  slip.
- The dynamic routes `app/api/cmp/admins/[adminId]` and others outside the
  modelled handlers are not part of this model.

## Findings

| source | as written | input that shows it | evidently intended | confidence | as-written member | corrected member |
|---|---|---|---|---|---|---|
| app/api/chat/route.ts:73-77 | `orderBy: { createdAt: "asc" }, take: 100` returns the 100 oldest messages | a conversation with 101 visible messages: the newest, the one just sent, is not returned | the comment "last 100 messages": the newest 100, shown oldest first | not executed; high | Chats.GetChatsMissesLatest | Chats.LatestChatsKeepNewest |
| app/api/chat/contacts/route.ts:29-38 | `company_id: admin?.company_id` is `undefined` when the admin row is missing, and Prisma drops that condition | an ADMIN session whose id names no admin: the employees of every company are listed | a missing admin answers 404, as the EMPLOYEE branch does | not executed; medium | Chats.ContactsLeakWithoutAdmin | Chats.GetScopedContacts |
