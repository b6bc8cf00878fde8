/**
 * `app/api/tasks/route.ts` (an admin's or an employee's task list, and task
 * creation by an admin) and `app/api/cmp/tasks/route.ts` (a company's tasks).
 */
module Tasks {
  import opened Common
  import opened Store

  // ---------------------------------------------------------------------------
  // GET /api/tasks

  /** The admin record behind an admin cookie session with role ADMIN and an id. */
  function SessionAdmin(db: Db, p: Option<Principal>): (r: Option<Admin>)
    reads db
    ensures r.Some? ==> HasRole(p, ADMIN) && Truthy(p.value.id) && r.value in db.admins && r.value.id == p.value.id
    ensures r.None? && HasRole(p, ADMIN) && Truthy(p.value.id) ==> forall a :: a in db.admins ==> a.id != p.value.id
  {
    if HasRole(p, ADMIN) && Truthy(p.value.id) then AdminById(db.admins, p.value.id) else None
  }

  /** The employee record behind an employee cookie session with role EMPLOYEE and an id. */
  function SessionEmployee(db: Db, p: Option<Principal>): (r: Option<Employee>)
    reads db
    ensures r.Some? ==> HasRole(p, EMPLOYEE) && Truthy(p.value.id) && r.value in db.employees && r.value.id == p.value.id
    ensures r.None? && HasRole(p, EMPLOYEE) && Truthy(p.value.id) ==> forall e :: e in db.employees ==> e.id != p.value.id
  {
    if HasRole(p, EMPLOYEE) && Truthy(p.value.id) then EmployeeById(db.employees, p.value.id) else None
  }

  datatype TaskCaller = AsAdmin(session: Principal, admin: Admin) | AsEmployee(employee: Employee) | NoCaller

  /** The admin session is tried first; the employee session only when it yields no admin. */
  function ResolveTaskCaller(db: Db, s: Sessions): (r: TaskCaller)
    reads db
    ensures r.AsAdmin? <==> SessionAdmin(db, s.admin).Some?
    ensures r.AsAdmin? ==> Some(r.session) == s.admin && Some(r.admin) == SessionAdmin(db, s.admin)
    ensures r.AsEmployee? ==> Some(r.employee) == SessionEmployee(db, s.employee)
    ensures r.NoCaller? <==> SessionAdmin(db, s.admin).None? && SessionEmployee(db, s.employee).None?
  {
    match SessionAdmin(db, s.admin)
    case Some(a) => AsAdmin(s.admin.value, a)
    case None =>
      match SessionEmployee(db, s.employee)
      case Some(e) => AsEmployee(e)
      case None => NoCaller
  }

  /** The `status`, `assignedToId` and `priority` search parameters (absent is `None`). */
  datatype TaskQuery = TaskQuery(status: Option<string>, assignedToId: Option<string>, priority: Option<string>)

  /** The Prisma `where` object: a field that is `None` is not part of the filter. */
  datatype TaskWhere = TaskWhere(
    companyId: Option<Id>, adminId: Option<Id>, employeeId: Option<Id>,
    status: Option<string>, priority: Option<string>)

  /** The `where` object, built field by field as the handler does. */
  function TaskFilter(caller: TaskCaller, q: TaskQuery): (w: TaskWhere)
    ensures caller.AsAdmin? ==>
      && w.companyId == Some(OrElse(caller.session.companyId, caller.admin.companyId))
      && w.adminId == Some(caller.admin.id)
      && w.employeeId == OrNull(q.assignedToId)
    ensures caller.AsEmployee? ==>
      w.companyId == None && w.adminId == None && w.employeeId == Some(caller.employee.id)
    ensures w.status == OrNull(q.status) && w.priority == OrNull(q.priority)
  {
    var base :=
      match caller
      case AsAdmin(p, a) => TaskWhere(Some(OrElse(p.companyId, a.companyId)), Some(a.id), None, None, None)
      case AsEmployee(e) => TaskWhere(None, None, Some(e.id), None, None)
      case NoCaller => TaskWhere(None, None, None, None, None);
    var withStatus := if Given(q.status) then base.(status := q.status) else base;
    var withAssignee :=
      if Given(q.assignedToId) && caller.AsAdmin? then withStatus.(employeeId := q.assignedToId) else withStatus;
    if Given(q.priority) then withAssignee.(priority := q.priority) else withAssignee
  }

  /** A task satisfies every field the filter sets. */
  predicate TaskMatches(w: TaskWhere, t: Task) {
    && (w.companyId.None? || t.companyId == w.companyId.value)
    && (w.adminId.None? || t.adminId == w.adminId.value)
    && (w.employeeId.None? || t.employeeId == w.employeeId)
    && (w.status.None? || t.status == w.status.value)
    && (w.priority.None? || t.priority == w.priority.value)
  }

  /**
   * The caller's tasks, newest first. An admin sees the tasks it created in
   * its company, an employee those assigned to it; status, priority and (for
   * admins) assignee narrow the list.
   */
  function GetTasks(db: Db, s: Sessions, q: TaskQuery): (r: Reply<seq<Task>>)
    reads db
    ensures r.Err? <==> ResolveTaskCaller(db, s).NoCaller?
    ensures r.Err? ==> r.status == 401
    ensures r.Ok? ==> r.status == 200 && Sorted(r.value, Descending(TaskCreated))
    ensures r.Ok? ==> var w := TaskFilter(ResolveTaskCaller(db, s), q);
      forall t :: multiset(r.value)[t] == if TaskMatches(w, t) then multiset(db.tasks)[t] else 0
    ensures r.Ok? && ResolveTaskCaller(db, s).AsAdmin? ==>
      var c := ResolveTaskCaller(db, s);
      forall t :: t in r.value ==>
        t.adminId == c.admin.id && t.companyId == OrElse(c.session.companyId, c.admin.companyId)
        && (Given(q.assignedToId) ==> t.employeeId == q.assignedToId)
    ensures r.Ok? && ResolveTaskCaller(db, s).AsEmployee? ==>
      forall t :: t in r.value ==> t.employeeId == Some(ResolveTaskCaller(db, s).employee.id)
    ensures r.Ok? ==> forall t :: t in r.value ==>
      t in db.tasks && (Given(q.status) ==> t.status == q.status.value)
      && (Given(q.priority) ==> t.priority == q.priority.value)
  {
    var caller := ResolveTaskCaller(db, s);
    if caller.NoCaller? then Err(401, "Unauthorized: Please login")
    else
      var w := TaskFilter(caller, q);
      Ok(200, NewestFirst(db.tasks, (t: Task) => TaskMatches(w, t), TaskCreated))
  }

  /** Once the admin session yields an admin, the employee session plays no part. */
  lemma AdminSessionFirst(db: Db, s: Sessions, q: TaskQuery, other: Option<Principal>)
    requires SessionAdmin(db, s.admin).Some?
    ensures GetTasks(db, s.(employee := other), q) == GetTasks(db, s, q)
  {
  }

  /** An employee's `assignedToId` parameter is ignored: it cannot see other employees' tasks. */
  lemma EmployeeIgnoresAssignee(db: Db, s: Sessions, q: TaskQuery, assignee: Option<string>)
    requires ResolveTaskCaller(db, s).AsEmployee?
    ensures GetTasks(db, s, q.(assignedToId := assignee)) == GetTasks(db, s, q)
  {
  }

  // ---------------------------------------------------------------------------
  // POST /api/tasks

  /** The JSON body; an absent field is `None`. */
  datatype TaskBody = TaskBody(
    title: Option<string>, description: Option<string>, status: Option<string>, priority: Option<string>,
    deadline: Option<string>, employeeId: Option<string>, teamId: Option<string>)

  /** `findFirst({ where: { id, company_id, admin_id } })` on employees. */
  predicate OwnsEmployee(db: Db, id: Id, companyId: Id, adminId: Id)
    reads db
  {
    exists e :: e in db.employees && e.id == id && e.companyId == companyId && e.adminId == Some(adminId)
  }

  /** `findFirst({ where: { id, company_id, admin_id } })` on teams. */
  predicate OwnsTeam(db: Db, id: Id, companyId: Id, adminId: Id)
    reads db
  {
    exists t :: t in db.teams && t.id == id && t.companyId == companyId && t.adminId == adminId
  }

  /** A title that is present and not blank after trimming. */
  predicate TitleGiven(body: TaskBody) {
    Given(body.title) && Truthy(Trim(body.title.value))
  }

  /** `description?.trim() || null`. */
  function TrimmedOrNull(o: Option<string>): (r: Option<string>)
    ensures r.Some? <==> o.Some? && Trim(o.value) != ""
    ensures r.Some? ==> r.value == Trim(o.value)
  {
    if o.Some? && Trim(o.value) != "" then Some(Trim(o.value)) else None
  }

  /**
   * The outcome of a task creation: the error reply of the first failing
   * check, or the row to insert. Checks in order: ADMIN session (401), an id
   * in it (401), the admin exists (403), it has a company (400), a non-blank
   * title (400), the employee and the team, when given, belong to this
   * admin in this company (400).
   */
  function NewTask(db: Db, s: Sessions, body: TaskBody, newId: Id, now: int): (r: Reply<Task>)
    reads db
    ensures !HasRole(s.admin, ADMIN) ==> r == Err(401, "Unauthorized: Please login as admin")
    ensures HasRole(s.admin, ADMIN) && !Truthy(s.admin.value.id) ==> r == Err(401, "Unauthorized: Invalid session")
    ensures HasRole(s.admin, ADMIN) && Truthy(s.admin.value.id) && AdminById(db.admins, s.admin.value.id).None? ==>
      r == Err(403, "Unauthorized: Admin not found")
    ensures HasRole(s.admin, ADMIN) && Truthy(s.admin.value.id) && AdminById(db.admins, s.admin.value.id).Some? ==>
      r == AdminTask(db, AdminById(db.admins, s.admin.value.id).value, body, newId, now)
    ensures r.Err? ==> r.status in {400, 401, 403}
    ensures r.Ok? ==> r.status == 201 && r.value.id == newId && HasRole(s.admin, ADMIN) && r.value.adminId == s.admin.value.id
  {
    if !HasRole(s.admin, ADMIN) then Err(401, "Unauthorized: Please login as admin")
    else if !Truthy(s.admin.value.id) then Err(401, "Unauthorized: Invalid session")
    else
      match AdminById(db.admins, s.admin.value.id)
      case None => Err(403, "Unauthorized: Admin not found")
      case Some(admin) => AdminTask(db, admin, body, newId, now)
  }

  /** The employee, when given, belongs to this admin in this company. */
  predicate EmployeeOk(db: Db, body: TaskBody, companyId: Id, adminId: Id)
    reads db
  {
    Given(body.employeeId) ==> OwnsEmployee(db, body.employeeId.value, companyId, adminId)
  }

  /** The team, when given, belongs to this admin in this company. */
  predicate TeamOk(db: Db, body: TaskBody, companyId: Id, adminId: Id)
    reads db
  {
    Given(body.teamId) ==> OwnsTeam(db, body.teamId.value, companyId, adminId)
  }

  /**
   * The checks after the admin lookup, in order: a company (400), a title
   * (400), the employee (400), the team (400); when all pass, the row with
   * the trimmed title and description and the defaults "pending" and
   * "medium".
   */
  function AdminTask(db: Db, admin: Admin, body: TaskBody, newId: Id, now: int): (r: Reply<Task>)
    reads db
    ensures !Truthy(admin.companyId) ==> r == Err(400, "Invalid admin: No company associated")
    ensures Truthy(admin.companyId) && !TitleGiven(body) ==> r == Err(400, "Title is required")
    ensures Truthy(admin.companyId) && TitleGiven(body) && !EmployeeOk(db, body, admin.companyId, admin.id) ==>
      r == Err(400, "Invalid employee: Employee not found or doesn't belong to your company")
    ensures (Truthy(admin.companyId) && TitleGiven(body) && EmployeeOk(db, body, admin.companyId, admin.id)
      && !TeamOk(db, body, admin.companyId, admin.id)) ==>
      r == Err(400, "Invalid team: Team not found or doesn't belong to your company")
    ensures (Truthy(admin.companyId) && TitleGiven(body) && EmployeeOk(db, body, admin.companyId, admin.id)
      && TeamOk(db, body, admin.companyId, admin.id)) ==>
      r == Ok(201, TaskRow(admin, body, newId, now))
    ensures r.Err? ==> r.status == 400
    ensures r.Ok? ==> TitleGiven(body) && r.value.title == Trim(body.title.value) != ""
    ensures r.Ok? ==> r.value.id == newId && r.value.adminId == admin.id && r.value.companyId == admin.companyId != ""
    ensures r.Ok? && r.value.employeeId.Some? ==> OwnsEmployee(db, r.value.employeeId.value, admin.companyId, admin.id)
    ensures r.Ok? && r.value.teamId.Some? ==> OwnsTeam(db, r.value.teamId.value, admin.companyId, admin.id)
  {
    var companyId := admin.companyId;
    if !Truthy(companyId) then Err(400, "Invalid admin: No company associated")
    else if !TitleGiven(body) then Err(400, "Title is required")
    else if !EmployeeOk(db, body, companyId, admin.id) then
      Err(400, "Invalid employee: Employee not found or doesn't belong to your company")
    else if !TeamOk(db, body, companyId, admin.id) then
      Err(400, "Invalid team: Team not found or doesn't belong to your company")
    else
      Ok(201, TaskRow(admin, body, newId, now))
  }

  /** The row a successful creation inserts: trimmed title and description, "pending" and "medium" by default. */
  function TaskRow(admin: Admin, body: TaskBody, newId: Id, now: int): (t: Task)
    requires TitleGiven(body)
    ensures t.id == newId && t.title == Trim(body.title.value) != "" && t.description == TrimmedOrNull(body.description)
    ensures t.status == (if Given(body.status) then body.status.value else "pending")
    ensures t.priority == (if Given(body.priority) then body.priority.value else "medium")
    ensures t.companyId == admin.companyId && t.adminId == admin.id && t.createdAt == now
    ensures t.employeeId == OrNull(body.employeeId) && t.teamId == OrNull(body.teamId) && t.deadline == OrNull(body.deadline)
  {
    Task(newId, Trim(body.title.value), TrimmedOrNull(body.description),
      OrElse(body.status, "pending"), OrElse(body.priority, "medium"), OrNull(body.deadline),
      admin.companyId, admin.id, OrNull(body.employeeId), OrNull(body.teamId), now)
  }

  /** POST /api/tasks: inserts the task exactly when every check passes; otherwise the store is untouched. */
  method PostTask(db: Db, s: Sessions, body: TaskBody, newId: Id, now: int) returns (r: Reply<Task>)
    requires db.Valid()
    requires forall t :: t in db.tasks ==> t.id != newId
    modifies db
    ensures db.Valid()
    ensures r == old(NewTask(db, s, body, newId, now))
    ensures r.Ok? ==> db.tasks == old(db.tasks) + [r.value]
    ensures r.Err? ==> db.tasks == old(db.tasks)
    ensures unchanged(db`companies, db`admins, db`employees, db`teams, db`members, db`chats)
  {
    r := NewTask(db, s, body, newId, now);
    if r.Ok? {
      InsertTask(db, r.value);
    }
  }

  /** Stores a task whose id is new. */
  method InsertTask(db: Db, t: Task)
    requires db.Valid()
    requires forall x :: x in db.tasks ==> x.id != t.id
    modifies db
    ensures db.Valid()
    ensures db.tasks == old(db.tasks) + [t]
    ensures unchanged(db`companies, db`admins, db`employees, db`teams, db`members, db`chats)
  {
    UniqueByAppend(db.tasks, t, TaskKey);
    db.tasks := db.tasks + [t];
  }

  // ---------------------------------------------------------------------------
  // GET /api/cmp/tasks

  /** A company's tasks, newest first; 401 without an identified session, 403 for other roles. */
  function GetCompanyTasks(db: Db, s: Sessions): (r: Reply<seq<Task>>)
    reads db
    ensures !Identified(s.generic) ==> r == Err(401, "Unauthorized")
    ensures Identified(s.generic) && s.generic.value.role != COMPANY ==> r == Err(403, "Unauthorized")
    ensures HasRole(s.generic, COMPANY) && Identified(s.generic) ==> r.Ok?
    ensures r.Ok? ==> HasRole(s.generic, COMPANY) && r.status == 200 && Sorted(r.value, Descending(TaskCreated))
    ensures r.Ok? ==> forall t :: t in r.value <==> t in db.tasks && t.companyId == s.generic.value.id
    ensures r.Ok? ==> forall t :: multiset(r.value)[t] == (if t.companyId == s.generic.value.id then multiset(db.tasks)[t] else 0)
  {
    if !Identified(s.generic) then Err(401, "Unauthorized")
    else if s.generic.value.role != COMPANY then Err(403, "Unauthorized")
    else
      var companyId := s.generic.value.id;
      Ok(200, NewestFirst(db.tasks, (t: Task) => t.companyId == companyId, TaskCreated))
  }
}
