/**
 * Employee management: `app/api/employees/route.ts` (an admin's employees
 * through the next-auth session), `app/api/admin/employees/route.ts` (the
 * same through the admin cookie session, with work ids) and
 * `app/api/cmp/employees/route.ts` (all employees of a company).
 */
module Employees {
  import opened Common
  import opened Store

  // ---------------------------------------------------------------------------
  // Task statistics

  const COMPLETED := "completed"
  const IN_PROGRESS := "in_progress"
  const PENDING := "pending"

  predicate IsCompleted(t: Task) { t.status == COMPLETED }
  predicate IsInProgress(t: Task) { t.status == IN_PROGRESS }
  predicate IsPending(t: Task) { t.status == PENDING }

  /** The number of tasks and how many are completed, in progress and not started. */
  datatype StatusCounts = StatusCounts(total: nat, completed: nat, inProgress: nat, pending: nat)

  /** The `filter((t) => t.status === ...).length` counts of a task list. */
  function StatusCountsOf(tasks: seq<Task>): (r: StatusCounts)
    ensures r.total == |tasks|
    ensures r.completed + r.inProgress + r.pending <= r.total
    ensures r.completed == Count(tasks, IsCompleted) && r.inProgress == Count(tasks, IsInProgress)
      && r.pending == Count(tasks, IsPending)
  {
    CountExclusive(tasks, IsCompleted, IsInProgress, IsPending);
    StatusCounts(|tasks|, Count(tasks, IsCompleted), Count(tasks, IsInProgress), Count(tasks, IsPending))
  }

  /** The tasks assigned to an employee (the `tasks` relation). */
  function TasksOf(tasks: seq<Task>, employeeId: Id): (r: seq<Task>)
    ensures forall t :: t in r <==> t in tasks && t.employeeId == Some(employeeId)
    ensures |r| <= |tasks|
  {
    Filter(tasks, (t: Task) => t.employeeId == Some(employeeId))
  }

  /** Adding a task to an employee raises its total by one and exactly the counter of the task's status. */
  lemma {:induction false} StatusCountsAfterAppend(tasks: seq<Task>, t: Task)
    ensures var before, after := StatusCountsOf(tasks), StatusCountsOf(tasks + [t]);
      && after.total == before.total + 1
      && after.completed == before.completed + (if IsCompleted(t) then 1 else 0)
      && after.inProgress == before.inProgress + (if IsInProgress(t) then 1 else 0)
      && after.pending == before.pending + (if IsPending(t) then 1 else 0)
  {
    assert [t] == [t] + [];
    FilterAppend(tasks, [t], IsCompleted);
    FilterAppend(tasks, [t], IsInProgress);
    FilterAppend(tasks, [t], IsPending);
  }

  // ---------------------------------------------------------------------------
  // /api/employees

  /** A row of GET /api/employees. */
  datatype StaffRow = StaffRow(person: Person, createdAt: int, counts: StatusCounts)

  function StaffRowOf(tasks: seq<Task>, e: Employee): StaffRow {
    StaffRow(EmployeePerson(e), e.createdAt, StatusCountsOf(TasksOf(tasks, e.id)))
  }

  function StaffRowCreated(r: StaffRow): int { r.createdAt }

  /** The employees an admin manages, newest first. */
  function StaffOf(es: seq<Employee>, adminId: Id): (r: seq<Employee>)
    ensures Sorted(r, Descending(EmployeeCreated))
    ensures forall e :: e in r <==> e in es && e.adminId == Some(adminId)
    ensures forall e :: multiset(r)[e] == if e.adminId == Some(adminId) then multiset(es)[e] else 0
  {
    NewestFirst(es, (e: Employee) => e.adminId == Some(adminId), EmployeeCreated)
  }

  /** One statistics row per employee, in the same order. */
  function StaffRows(tasks: seq<Task>, rows: seq<Employee>): (r: seq<StaffRow>)
    ensures |r| == |rows|
    ensures forall i :: 0 <= i < |r| ==> rows[i] in rows && r[i] == StaffRowOf(tasks, rows[i])
    ensures forall e :: e in rows ==> StaffRowOf(tasks, e) in r
    ensures Sorted(rows, Descending(EmployeeCreated)) ==> Sorted(r, Descending(StaffRowCreated))
  {
    var row := (e: Employee) => StaffRowOf(tasks, e);
    MapMembers(rows, row);
    if Sorted(rows, Descending(EmployeeCreated)) then
      MapKeepsDescending(rows, row, EmployeeCreated, StaffRowCreated);
      Map(rows, row)
    else Map(rows, row)
  }

  /**
   * The admin behind the next-auth session of GET and POST: 401 without an
   * id and role, 403 for roles other than ADMIN and SUPERADMIN, 403 when no
   * admin has the session id or its company is missing.
   */
  function StaffManager(db: Db, s: Sessions): (r: Reply<Admin>)
    reads db
    ensures !Identified(s.generic) ==> r == Err(401, "Unauthorized")
    ensures Identified(s.generic) && s.generic.value.role !in {ADMIN, SUPERADMIN} ==> r == Err(403, "Unauthorized")
    ensures Identified(s.generic) && s.generic.value.role in {ADMIN, SUPERADMIN} ==>
      var a := AdminById(db.admins, s.generic.value.id);
      && (a.None? ==> r == Err(403, "Unauthorized"))
      && (a.Some? && CompanyById(db.companies, a.value.companyId).None? ==> r == Err(403, "Unauthorized"))
      && (a.Some? && CompanyById(db.companies, a.value.companyId).Some? ==> r == Ok(200, a.value))
    ensures r.Err? ==> r.status in {401, 403}
    ensures r.Ok? ==>
      && Identified(s.generic) && s.generic.value.role in {ADMIN, SUPERADMIN}
      && r.value in db.admins && r.value.id == s.generic.value.id
      && exists c :: c in db.companies && c.id == r.value.companyId
  {
    if !Identified(s.generic) then Err(401, "Unauthorized")
    else if s.generic.value.role != ADMIN && s.generic.value.role != SUPERADMIN then Err(403, "Unauthorized")
    else
      match AdminById(db.admins, s.generic.value.id)
      case None => Err(403, "Unauthorized")
      case Some(a) => if CompanyById(db.companies, a.companyId).None? then Err(403, "Unauthorized") else Ok(200, a)
  }

  /** GET /api/employees: the caller's own employees, newest first, each with its task statistics. */
  function GetStaff(db: Db, s: Sessions): (r: Reply<seq<StaffRow>>)
    reads db
    ensures StaffManager(db, s).Err? ==> r == Err(StaffManager(db, s).status, StaffManager(db, s).error)
    ensures StaffManager(db, s).Ok? ==> r.Ok?
    ensures r.Ok? ==> StaffManager(db, s).Ok? && r.status == 200 && Sorted(r.value, Descending(StaffRowCreated))
    ensures r.Ok? ==> var a := StaffManager(db, s).value;
      && (forall e :: e in db.employees && e.adminId == Some(a.id) ==> StaffRowOf(db.tasks, e) in r.value)
      && (forall i :: 0 <= i < |r.value| ==>
            exists e :: e in db.employees && e.adminId == Some(a.id) && r.value[i] == StaffRowOf(db.tasks, e))
    ensures r.Ok? ==> var rows := StaffOf(db.employees, StaffManager(db, s).value.id);
      |r.value| == |rows| && forall i :: 0 <= i < |r.value| ==> r.value[i] == StaffRowOf(db.tasks, rows[i])
  {
    match StaffManager(db, s)
    case Err(status, error) => Err(status, error)
    case Ok(_, a) =>
      Ok(200, StaffRows(db.tasks, StaffOf(db.employees, a.id)))
  }

  /** The JSON body of an employee creation; `workId` is read by the admin route only. */
  datatype StaffBody = StaffBody(name: Option<string>, email: Option<string>, password: Option<string>, workId: Option<string>)

  predicate HasCredentials(b: StaffBody) {
    Given(b.name) && Given(b.email) && Given(b.password)
  }

  /**
   * The outcome of POST /api/employees: the manager checks, 400 without
   * name, email or password, 400 when an employee has the e-mail, otherwise
   * the new row under the caller and its company.
   */
  function NewStaff(db: Db, s: Sessions, b: StaffBody, newId: Id, now: int): (r: Reply<Employee>)
    reads db
    ensures StaffManager(db, s).Err? ==> r == Err(StaffManager(db, s).status, StaffManager(db, s).error)
    ensures StaffManager(db, s).Ok? && !HasCredentials(b) ==> r == Err(400, "Name, email, and password are required")
    ensures StaffManager(db, s).Ok? && HasCredentials(b) && EmployeeByEmail(db.employees, b.email.value).Some? ==>
      r == Err(400, "Employee with this email already exists")
    ensures StaffManager(db, s).Ok? && HasCredentials(b) && EmployeeByEmail(db.employees, b.email.value).None? ==>
      var a := StaffManager(db, s).value;
      r == Ok(201, Employee(newId, b.name.value, b.email.value, HashOf(b.password.value), None, a.companyId, Some(a.id), now))
    ensures r.Ok? ==> var a := StaffManager(db, s).value;
      && StaffManager(db, s).Ok? && HasCredentials(b) && r.status == 201
      && r.value == Employee(newId, b.name.value, b.email.value, HashOf(b.password.value), None, a.companyId, Some(a.id), now)
      && forall e :: e in db.employees ==> e.email != b.email.value
  {
    match StaffManager(db, s)
    case Err(status, error) => Err(status, error)
    case Ok(_, a) =>
      if !HasCredentials(b) then Err(400, "Name, email, and password are required")
      else if EmployeeByEmail(db.employees, b.email.value).Some? then Err(400, "Employee with this email already exists")
      else Ok(201, Employee(newId, b.name.value, b.email.value, HashOf(b.password.value), None, a.companyId, Some(a.id), now))
  }

  /** Appending an employee with a new id and a new e-mail keeps the store valid. */
  lemma AddEmployeeKeepsValid(es: seq<Employee>, e: Employee)
    requires EmployeesUnique(es)
    requires forall x :: x in es ==> x.id != e.id && x.email != e.email
    ensures EmployeesUnique(es + [e])
  {
    UniqueByAppend(es, e, EmployeeKey);
    UniqueByAppend(es, e, EmployeeEmail);
  }

  /** POST /api/employees: inserts the employee exactly when every check passes. */
  method PostStaff(db: Db, s: Sessions, b: StaffBody, newId: Id, now: int) returns (r: Reply<Employee>)
    requires db.Valid()
    requires forall e :: e in db.employees ==> e.id != newId
    modifies db
    ensures db.Valid()
    ensures r == old(NewStaff(db, s, b, newId, now))
    ensures r.Ok? ==> db.employees == old(db.employees) + [r.value]
    ensures r.Err? ==> db.employees == old(db.employees)
    ensures unchanged(db`companies, db`admins, db`teams, db`members, db`tasks, db`chats)
  {
    r := NewStaff(db, s, b, newId, now);
    if r.Ok? {
      AddEmployeeKeepsValid(db.employees, r.value);
      db.employees := db.employees + [r.value];
    }
  }

  /**
   * Which employee DELETE /api/employees removes: 401 without an id and
   * role, 403 for other roles or a missing admin, 400 without the `id`
   * parameter, 404 when no employee has it or another admin manages it.
   */
  function DeleteTarget(db: Db, s: Sessions, id: Option<string>): (r: Reply<Id>)
    reads db
    ensures !Identified(s.generic) ==> r == Err(401, "Unauthorized")
    ensures Identified(s.generic) && s.generic.value.role !in {ADMIN, SUPERADMIN} ==> r == Err(403, "Forbidden")
    ensures Identified(s.generic) && s.generic.value.role in {ADMIN, SUPERADMIN} && AdminById(db.admins, s.generic.value.id).None? ==>
      r == Err(403, "Forbidden")
    ensures (Identified(s.generic) && s.generic.value.role in {ADMIN, SUPERADMIN}
      && AdminById(db.admins, s.generic.value.id).Some? && !Given(id)) ==> r == Err(400, "Employee ID is required")
    ensures (Identified(s.generic) && s.generic.value.role in {ADMIN, SUPERADMIN}
      && AdminById(db.admins, s.generic.value.id).Some? && Given(id)
      && (forall e :: e in db.employees && e.id == id.value ==> e.adminId != Some(s.generic.value.id)))
      ==> r == Err(404, "Employee not found")
    ensures (Identified(s.generic) && s.generic.value.role in {ADMIN, SUPERADMIN}
      && AdminById(db.admins, s.generic.value.id).Some? && Given(id)
      && EmployeeById(db.employees, id.value).Some? && EmployeeById(db.employees, id.value).value.adminId == Some(s.generic.value.id))
      ==> r == Ok(200, id.value)
    ensures r.Err? ==> r.status in {400, 401, 403, 404}
    ensures r.Ok? ==>
      && Given(id) && r.value == id.value && r.status == 200
      && (exists a :: a in db.admins && a.id == s.generic.value.id)
      && exists e :: e in db.employees && e.id == r.value && e.adminId == Some(s.generic.value.id)
  {
    if !Identified(s.generic) then Err(401, "Unauthorized")
    else if s.generic.value.role != ADMIN && s.generic.value.role != SUPERADMIN then Err(403, "Forbidden")
    else
      match AdminById(db.admins, s.generic.value.id)
      case None => Err(403, "Forbidden")
      case Some(a) =>
        if !Given(id) then Err(400, "Employee ID is required")
        else
          match EmployeeById(db.employees, id.value)
          case None => Err(404, "Employee not found")
          case Some(e) => if e.adminId != Some(a.id) then Err(404, "Employee not found") else Ok(200, e.id)
  }

  /** The employees table after `employee.delete({ where: { id } })`. */
  function WithoutEmployee(es: seq<Employee>, id: Id): (r: seq<Employee>)
    ensures forall e :: e in r <==> e in es && e.id != id
  {
    Filter(es, (e: Employee) => e.id != id)
  }

  /** DELETE /api/employees: removes the employee exactly when the caller manages it; answers `{ success: true }`. */
  method DeleteStaff(db: Db, s: Sessions, id: Option<string>) returns (r: Reply<bool>)
    requires db.Valid()
    modifies db
    ensures db.Valid()
    ensures var d := old(DeleteTarget(db, s, id));
      && (d.Err? ==> r == Err(d.status, d.error) && db.employees == old(db.employees))
      && (d.Ok? ==> r == Ok(200, true) && db.employees == WithoutEmployee(old(db.employees), d.value))
    ensures unchanged(db`companies, db`admins, db`teams, db`members, db`tasks, db`chats)
  {
    var d := DeleteTarget(db, s, id);
    if d.Err? {
      return Err(d.status, d.error);
    }
    UniqueByFilter(db.employees, (e: Employee) => e.id != d.value, EmployeeKey);
    UniqueByFilter(db.employees, (e: Employee) => e.id != d.value, EmployeeEmail);
    db.employees := WithoutEmployee(db.employees, d.value);
    r := Ok(200, true);
  }

  // ---------------------------------------------------------------------------
  // /api/admin/employees

  /** A row of GET /api/admin/employees. */
  datatype ManagedRow = ManagedRow(person: Person, workId: Option<string>, createdAt: int, counts: StatusCounts)

  function ManagedRowOf(tasks: seq<Task>, e: Employee): ManagedRow {
    ManagedRow(EmployeePerson(e), e.workId, e.createdAt, StatusCountsOf(TasksOf(tasks, e.id)))
  }

  function ManagedRowCreated(r: ManagedRow): int { r.createdAt }

  /** The employees an admin manages within the filtered company, newest first. */
  function ManagedOf(es: seq<Employee>, adminId: Id, filter: Option<Id>): (r: seq<Employee>)
    ensures Sorted(r, Descending(EmployeeCreated))
    ensures forall e :: e in r <==> e in es && e.adminId == Some(adminId) && InCompany(filter, e.companyId)
    ensures forall e :: multiset(r)[e] == (if e.adminId == Some(adminId) && InCompany(filter, e.companyId) then multiset(es)[e] else 0)
  {
    NewestFirst(es, (e: Employee) => e.adminId == Some(adminId) && InCompany(filter, e.companyId), EmployeeCreated)
  }

  /** One row per employee, in the same order. */
  function ManagedRows(tasks: seq<Task>, rows: seq<Employee>): (r: seq<ManagedRow>)
    ensures |r| == |rows|
    ensures forall i :: 0 <= i < |r| ==> rows[i] in rows && r[i] == ManagedRowOf(tasks, rows[i])
    ensures forall e :: e in rows ==> ManagedRowOf(tasks, e) in r
    ensures Sorted(rows, Descending(EmployeeCreated)) ==> Sorted(r, Descending(ManagedRowCreated))
  {
    var row := (e: Employee) => ManagedRowOf(tasks, e);
    MapMembers(rows, row);
    if Sorted(rows, Descending(EmployeeCreated)) then
      MapKeepsDescending(rows, row, EmployeeCreated, ManagedRowCreated);
      Map(rows, row)
    else Map(rows, row)
  }

  /**
   * GET /api/admin/employees: 401 unless the admin session has role ADMIN,
   * 500 when it has no id (the lookup throws), 404 when no admin has it;
   * otherwise the admin's employees, further restricted to the session's
   * company when the session carries one, newest first.
   */
  function GetManaged(db: Db, s: Sessions): (r: Reply<seq<ManagedRow>>)
    reads db
    ensures !HasRole(s.admin, ADMIN) ==> r == Err(401, "Unauthorized")
    ensures HasRole(s.admin, ADMIN) && !Truthy(s.admin.value.id) ==> r == Err(500, "Failed to fetch employees")
    ensures HasRole(s.admin, ADMIN) && Truthy(s.admin.value.id) && AdminById(db.admins, s.admin.value.id).None? ==>
      r == Err(404, "Admin not found")
    ensures HasRole(s.admin, ADMIN) && Truthy(s.admin.value.id) && AdminById(db.admins, s.admin.value.id).Some? ==> r.Ok?
    ensures r.Ok? ==> HasRole(s.admin, ADMIN) && AdminById(db.admins, s.admin.value.id).Some?
    ensures r.Ok? ==> r.status == 200 && Sorted(r.value, Descending(ManagedRowCreated))
    ensures r.Ok? ==> var p := s.admin.value;
      && (forall e :: e in db.employees && e.adminId == Some(p.id) && InCompany(p.companyId, e.companyId) ==>
            ManagedRowOf(db.tasks, e) in r.value)
      && (forall i :: 0 <= i < |r.value| ==>
            exists e :: e in db.employees && e.adminId == Some(p.id) && InCompany(p.companyId, e.companyId)
              && r.value[i] == ManagedRowOf(db.tasks, e))
    ensures r.Ok? ==> var rows := ManagedOf(db.employees, s.admin.value.id, s.admin.value.companyId);
      |r.value| == |rows| && forall i :: 0 <= i < |r.value| ==> r.value[i] == ManagedRowOf(db.tasks, rows[i])
  {
    if !HasRole(s.admin, ADMIN) then Err(401, "Unauthorized")
    else if !Truthy(s.admin.value.id) then Err(500, "Failed to fetch employees")
    else
      match AdminById(db.admins, s.admin.value.id)
      case None => Err(404, "Admin not found")
      case Some(a) =>
        Ok(200, ManagedRows(db.tasks, ManagedOf(db.employees, a.id, s.admin.value.companyId)))
  }

  /** Some employee of the company already has the work id. */
  predicate WorkIdTaken(db: Db, companyId: Id, workId: string)
    reads db
  {
    exists e :: e in db.employees && e.companyId == companyId && e.workId == Some(workId)
  }

  /**
   * The outcome of POST /api/admin/employees: 401 unless the admin session
   * has role ADMIN, 500 when it has no id (the lookup throws), 403 when no
   * admin has it; the remaining checks are those of `ManagedFor`.
   */
  function NewManaged(db: Db, s: Sessions, b: StaffBody, newId: Id, now: int): (r: Reply<Employee>)
    reads db
    ensures !HasRole(s.admin, ADMIN) ==> r == Err(401, "Unauthorized")
    ensures HasRole(s.admin, ADMIN) && !Truthy(s.admin.value.id) ==> r == Err(500, "Failed to create employee")
    ensures HasRole(s.admin, ADMIN) && Truthy(s.admin.value.id) && AdminById(db.admins, s.admin.value.id).None? ==>
      r == Err(403, "Unauthorized")
    ensures HasRole(s.admin, ADMIN) && Truthy(s.admin.value.id) && AdminById(db.admins, s.admin.value.id).Some? ==>
      r == ManagedFor(db, AdminById(db.admins, s.admin.value.id).value, b, newId, now)
    ensures r.Err? ==> r.status in {400, 401, 403, 500}
    ensures r.Ok? ==> var a := AdminById(db.admins, s.admin.value.id);
      && HasRole(s.admin, ADMIN) && a.Some? && r.value.adminId == Some(a.value.id) && r.value.companyId == a.value.companyId
  {
    if !HasRole(s.admin, ADMIN) then Err(401, "Unauthorized")
    else if !Truthy(s.admin.value.id) then Err(500, "Failed to create employee")
    else
      match AdminById(db.admins, s.admin.value.id)
      case None => Err(403, "Unauthorized")
      case Some(a) => ManagedFor(db, a, b, newId, now)
  }

  /**
   * The checks of POST /api/admin/employees after the admin lookup, in
   * order: the admin's company exists (403), name, email and password (400),
   * a work id not used in the company (400), an e-mail no employee has
   * (400); when all pass, the row under the admin and its company.
   */
  function ManagedFor(db: Db, a: Admin, b: StaffBody, newId: Id, now: int): (r: Reply<Employee>)
    reads db
    ensures CompanyById(db.companies, a.companyId).None? ==> r == Err(403, "Unauthorized")
    ensures CompanyById(db.companies, a.companyId).Some? && !HasCredentials(b) ==>
      r == Err(400, "Name, email, and password are required")
    ensures (CompanyById(db.companies, a.companyId).Some? && HasCredentials(b)
      && Given(b.workId) && WorkIdTaken(db, a.companyId, b.workId.value)) ==>
      r == Err(400, "Work ID already in use within your company")
    ensures (CompanyById(db.companies, a.companyId).Some? && HasCredentials(b)
      && !(Given(b.workId) && WorkIdTaken(db, a.companyId, b.workId.value))) ==>
      (EmployeeByEmail(db.employees, b.email.value).Some? ==> r == Err(400, "Employee with this email already exists"))
      && (EmployeeByEmail(db.employees, b.email.value).None? ==>
            r == Ok(201, Employee(newId, b.name.value, b.email.value, HashOf(b.password.value), OrNull(b.workId),
                                  a.companyId, Some(a.id), now)))
    ensures r.Err? ==> r.status in {400, 403}
    ensures r.Ok? ==>
      && CompanyById(db.companies, a.companyId).Some? && HasCredentials(b) && r.status == 201
      && (Given(b.workId) ==> !WorkIdTaken(db, a.companyId, b.workId.value))
      && forall e :: e in db.employees ==> e.email != b.email.value
  {
    if CompanyById(db.companies, a.companyId).None? then Err(403, "Unauthorized")
    else if !HasCredentials(b) then Err(400, "Name, email, and password are required")
    else if Given(b.workId) && WorkIdTaken(db, a.companyId, b.workId.value) then
      Err(400, "Work ID already in use within your company")
    else if EmployeeByEmail(db.employees, b.email.value).Some? then Err(400, "Employee with this email already exists")
    else
      Ok(201, Employee(newId, b.name.value, b.email.value, HashOf(b.password.value), OrNull(b.workId),
                       a.companyId, Some(a.id), now))
  }

  /** Within one company no two employees share a work id. */
  ghost predicate WorkIdsUnique(es: seq<Employee>) {
    forall i, j :: 0 <= i < j < |es| && es[i].workId.Some? && es[i].workId == es[j].workId ==>
      es[i].companyId != es[j].companyId
  }

  /** Creating employees through the admin route keeps work ids unique per company. */
  lemma {:induction false} NewManagedKeepsWorkIds(db: Db, s: Sessions, b: StaffBody, newId: Id, now: int)
    requires WorkIdsUnique(db.employees)
    requires NewManaged(db, s, b, newId, now).Ok?
    ensures WorkIdsUnique(db.employees + [NewManaged(db, s, b, newId, now).value])
  {
    var e := NewManaged(db, s, b, newId, now).value;
    var es := db.employees + [e];
    forall i, j | 0 <= i < j < |es| && es[i].workId.Some? && es[i].workId == es[j].workId
      ensures es[i].companyId != es[j].companyId
    {
      if j == |db.employees| {
        assert es[i] in db.employees;
      }
    }
  }

  /** POST /api/admin/employees: inserts the employee exactly when every check passes. */
  method PostManaged(db: Db, s: Sessions, b: StaffBody, newId: Id, now: int) returns (r: Reply<Employee>)
    requires db.Valid()
    requires forall e :: e in db.employees ==> e.id != newId
    modifies db
    ensures db.Valid()
    ensures r == old(NewManaged(db, s, b, newId, now))
    ensures r.Ok? ==> db.employees == old(db.employees) + [r.value]
    ensures r.Err? ==> db.employees == old(db.employees)
    ensures unchanged(db`companies, db`admins, db`teams, db`members, db`tasks, db`chats)
  {
    r := NewManaged(db, s, b, newId, now);
    if r.Ok? {
      AddEmployeeKeepsValid(db.employees, r.value);
      db.employees := db.employees + [r.value];
    }
  }

  // ---------------------------------------------------------------------------
  // /api/cmp/employees

  /** A row of GET /api/cmp/employees: the employee, its admin and its number of tasks. */
  datatype CompanyStaffRow = CompanyStaffRow(person: Person, admin: Option<Person>, createdAt: int, totalTasks: nat)

  function AdminOf(admins: seq<Admin>, e: Employee): Option<Person> {
    if e.adminId.None? then None
    else
      match AdminById(admins, e.adminId.value)
      case Some(a) => Some(AdminPerson(a))
      case None => None
  }

  function CompanyStaffRowOf(admins: seq<Admin>, tasks: seq<Task>, e: Employee): CompanyStaffRow {
    CompanyStaffRow(EmployeePerson(e), AdminOf(admins, e), e.createdAt, |TasksOf(tasks, e.id)|)
  }

  function CompanyStaffRowCreated(r: CompanyStaffRow): int { r.createdAt }

  /** The employees of the filtered company, newest first. */
  function CompanyEmployees(es: seq<Employee>, filter: Option<Id>): (r: seq<Employee>)
    ensures Sorted(r, Descending(EmployeeCreated))
    ensures forall e :: e in r <==> e in es && InCompany(filter, e.companyId)
    ensures forall e :: multiset(r)[e] == if InCompany(filter, e.companyId) then multiset(es)[e] else 0
  {
    NewestFirst(es, (e: Employee) => InCompany(filter, e.companyId), EmployeeCreated)
  }

  /** One row per employee, in the same order. */
  function CompanyStaffRows(admins: seq<Admin>, tasks: seq<Task>, rows: seq<Employee>): (r: seq<CompanyStaffRow>)
    ensures |r| == |rows|
    ensures forall i :: 0 <= i < |r| ==> rows[i] in rows && r[i] == CompanyStaffRowOf(admins, tasks, rows[i])
    ensures forall e :: e in rows ==> CompanyStaffRowOf(admins, tasks, e) in r
    ensures Sorted(rows, Descending(EmployeeCreated)) ==> Sorted(r, Descending(CompanyStaffRowCreated))
  {
    var row := (e: Employee) => CompanyStaffRowOf(admins, tasks, e);
    MapMembers(rows, row);
    if Sorted(rows, Descending(EmployeeCreated)) then
      MapKeepsDescending(rows, row, EmployeeCreated, CompanyStaffRowCreated);
      Map(rows, row)
    else Map(rows, row)
  }

  /** The rows of GET /api/cmp/employees for a company filter: one per employee of `CompanyEmployees`, in that order. */
  function CompanyStaff(db: Db, filter: Option<Id>): (r: seq<CompanyStaffRow>)
    reads db
    ensures Sorted(r, Descending(CompanyStaffRowCreated))
    ensures forall e :: e in db.employees && InCompany(filter, e.companyId) ==> CompanyStaffRowOf(db.admins, db.tasks, e) in r
    ensures forall i :: 0 <= i < |r| ==>
      exists e :: e in db.employees && InCompany(filter, e.companyId) && r[i] == CompanyStaffRowOf(db.admins, db.tasks, e)
    ensures |r| == |CompanyEmployees(db.employees, filter)|
    ensures forall i :: 0 <= i < |r| ==> r[i] == CompanyStaffRowOf(db.admins, db.tasks, CompanyEmployees(db.employees, filter)[i])
    ensures filter.Some? ==> forall i :: 0 <= i < |r| ==>
      exists e :: e in db.employees && e.companyId == filter.value && r[i].person == EmployeePerson(e)
  {
    CompanyStaffRows(db.admins, db.tasks, CompanyEmployees(db.employees, filter))
  }

  /** GET /api/cmp/employees: 401 unless the company session has role COMPANY; the company's employees, newest first. */
  function GetCompanyStaff(db: Db, s: Sessions): (r: Reply<seq<CompanyStaffRow>>)
    reads db
    ensures !HasRole(s.company, COMPANY) ==> r == Err(401, "Unauthorized")
    ensures HasRole(s.company, COMPANY) ==> r.Ok?
    ensures r.Ok? ==> HasRole(s.company, COMPANY) && r.status == 200 && Sorted(r.value, Descending(CompanyStaffRowCreated))
    ensures r.Ok? ==> var filter := IdFilter(s.company.value.id);
      && (forall e :: e in db.employees && InCompany(filter, e.companyId) ==>
            CompanyStaffRowOf(db.admins, db.tasks, e) in r.value)
      && (forall i :: 0 <= i < |r.value| ==>
            exists e :: e in db.employees && InCompany(filter, e.companyId)
              && r.value[i] == CompanyStaffRowOf(db.admins, db.tasks, e))
    ensures r.Ok? && Truthy(s.company.value.id) ==> forall i :: 0 <= i < |r.value| ==>
      exists e :: e in db.employees && e.companyId == s.company.value.id && r.value[i].person == EmployeePerson(e)
    ensures r.Ok? ==> var rows := CompanyEmployees(db.employees, IdFilter(s.company.value.id));
      |r.value| == |rows| && forall i :: 0 <= i < |r.value| ==> r.value[i] == CompanyStaffRowOf(db.admins, db.tasks, rows[i])
  {
    if !HasRole(s.company, COMPANY) then Err(401, "Unauthorized")
    else Ok(200, CompanyStaff(db, IdFilter(s.company.value.id)))
  }
}
