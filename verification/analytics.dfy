/**
 * Task counters: `app/api/analytics/route.ts` (per-role task and employee
 * counts) and `app/api/cmp/dashboard/route.ts` (a company's overview).
 */
module Analytics {
  import opened Common
  import opened Store
  import opened Employees

  // ---------------------------------------------------------------------------
  // GET /api/analytics

  /** The seven counters of the analytics response. */
  datatype Counters = Counters(
    totalTasks: int, completedTasks: int, inProgressTasks: int, notStartedTasks: int,
    totalEmployees: int, assignedTasks: int, unassignedTasks: int)

  predicate IsAssigned(t: Task) { t.employeeId.Some? }
  predicate IsUnassigned(t: Task) { t.employeeId.None? }

  /** The counters of a task list and an employee count, `unassignedTasks` by subtraction. */
  function Summary(tasks: seq<Task>, employees: nat): (r: Counters)
    ensures r.totalTasks == |tasks| && r.totalEmployees == employees
    ensures r.completedTasks + r.inProgressTasks + r.notStartedTasks <= r.totalTasks
    ensures r.completedTasks == Count(tasks, IsCompleted) && r.inProgressTasks == Count(tasks, IsInProgress)
      && r.notStartedTasks == Count(tasks, IsPending)
    ensures r.assignedTasks == Count(tasks, IsAssigned)
    ensures 0 <= r.unassignedTasks == Count(tasks, IsUnassigned)
    ensures r.assignedTasks + r.unassignedTasks == r.totalTasks
  {
    var counts := StatusCountsOf(tasks);
    var given := Count(tasks, IsAssigned);
    CountSplit(tasks, IsAssigned, IsUnassigned);
    Counters(|tasks|, counts.completed, counts.inProgress, counts.pending, employees, given, |tasks| - given)
  }

  /** The employee variant: no employees, every task assigned. */
  function EmployeeSummary(tasks: seq<Task>): (r: Counters)
    ensures r.totalTasks == r.assignedTasks == |tasks| && r.unassignedTasks == 0 && r.totalEmployees == 0
    ensures r.completedTasks + r.inProgressTasks + r.notStartedTasks <= r.totalTasks
  {
    var counts := StatusCountsOf(tasks);
    Counters(|tasks|, counts.completed, counts.inProgress, counts.pending, 0, |tasks|, 0)
  }

  const NO_COUNTERS := Counters(0, 0, 0, 0, 0, 0, 0)

  /** The tasks an admin created in its company. */
  function AdminTasks(tasks: seq<Task>, a: Admin): (r: seq<Task>)
    ensures forall t :: t in r <==> t in tasks && t.companyId == a.companyId && t.adminId == a.id
  {
    Filter(tasks, (t: Task) => t.companyId == a.companyId && t.adminId == a.id)
  }

  /** The employees an admin manages. */
  function AdminStaff(es: seq<Employee>, a: Admin): (r: seq<Employee>)
    ensures forall e :: e in r <==> e in es && e.adminId == Some(a.id)
  {
    Filter(es, (e: Employee) => e.adminId == Some(a.id))
  }

  /** The tasks assigned to an employee. */
  function AssignedTo(tasks: seq<Task>, id: Id): (r: seq<Task>)
    ensures forall t :: t in r <==> t in tasks && t.employeeId == Some(id)
  {
    Filter(tasks, (t: Task) => t.employeeId == Some(id))
  }

  /** The tasks of a company; an `undefined` company id drops the condition. */
  function CompanyTasks(tasks: seq<Task>, filter: Option<Id>): (r: seq<Task>)
    ensures forall t :: t in r <==> t in tasks && InCompany(filter, t.companyId)
  {
    Filter(tasks, (t: Task) => InCompany(filter, t.companyId))
  }

  /** The employees of a company; an `undefined` company id drops the condition. */
  function CompanyStaff(es: seq<Employee>, filter: Option<Id>): (r: seq<Employee>)
    ensures forall e :: e in r <==> e in es && InCompany(filter, e.companyId)
  {
    Filter(es, (e: Employee) => InCompany(filter, e.companyId))
  }

  /**
   * GET /api/analytics: 401 without any session; for ADMIN the admin's own
   * tasks in its company and its employees (404 when the admin is missing),
   * for EMPLOYEE the tasks assigned to the employee (404 when missing), for
   * COMPANY the company's tasks and employees, and zeros for any other role.
   * A missing id makes the ADMIN and EMPLOYEE lookups throw (500).
   */
  function GetAnalytics(db: Db, s: Sessions): (r: Reply<Counters>)
    reads db
    ensures s.any.None? ==> r == Err(401, "Unauthorized")
    ensures r.Err? ==> r.status in {401, 404, 500}
    ensures s.any.Some? && s.any.value.role in {ADMIN, EMPLOYEE} && !Truthy(s.any.value.id) ==>
      r == Err(500, "Internal server error")
    ensures s.any.Some? && s.any.value.role == ADMIN && Truthy(s.any.value.id) ==>
      match AdminById(db.admins, s.any.value.id)
      case None => r == Err(404, "Admin not found")
      case Some(a) => r == Ok(200, Summary(AdminTasks(db.tasks, a), |AdminStaff(db.employees, a)|))
    ensures s.any.Some? && s.any.value.role == EMPLOYEE && Truthy(s.any.value.id) ==>
      match EmployeeById(db.employees, s.any.value.id)
      case None => r == Err(404, "Employee not found")
      case Some(e) => r == Ok(200, EmployeeSummary(AssignedTo(db.tasks, e.id)))
    ensures s.any.Some? && s.any.value.role == COMPANY ==> var filter := IdFilter(s.any.value.id);
      r == Ok(200, Summary(CompanyTasks(db.tasks, filter), |CompanyStaff(db.employees, filter)|))
    ensures s.any.Some? && s.any.value.role !in {ADMIN, EMPLOYEE, COMPANY} ==> r == Ok(200, NO_COUNTERS)
  {
    if s.any.None? then Err(401, "Unauthorized")
    else
      var p := s.any.value;
      if p.role == ADMIN then
        if !Truthy(p.id) then Err(500, "Internal server error")
        else
          match AdminById(db.admins, p.id)
          case None => Err(404, "Admin not found")
          case Some(a) => Ok(200, Summary(AdminTasks(db.tasks, a), |AdminStaff(db.employees, a)|))
      else if p.role == EMPLOYEE then
        if !Truthy(p.id) then Err(500, "Internal server error")
        else
          match EmployeeById(db.employees, p.id)
          case None => Err(404, "Employee not found")
          case Some(e) => Ok(200, EmployeeSummary(AssignedTo(db.tasks, e.id)))
      else if p.role == COMPANY then
        var filter := IdFilter(p.id);
        Ok(200, Summary(CompanyTasks(db.tasks, filter), |CompanyStaff(db.employees, filter)|))
      else Ok(200, NO_COUNTERS)
  }

  /** The employee counters are the general ones: every task assigned to an employee counts as assigned. */
  lemma EmployeeSummaryIsSummary(tasks: seq<Task>, id: Id)
    ensures EmployeeSummary(AssignedTo(tasks, id)) == Summary(AssignedTo(tasks, id), 0)
  {
    var mine := AssignedTo(tasks, id);
    CountAll(mine, IsAssigned);
  }

  /** An admin's counters never exceed those of its company. */
  lemma {:induction false} AdminWithinCompany(tasks: seq<Task>, es: seq<Employee>, a: Admin)
    ensures var mine, all := Summary(AdminTasks(tasks, a), |AdminStaff(es, a)|),
                             Summary(CompanyTasks(tasks, Some(a.companyId)), |CompanyStaff(es, Some(a.companyId))|);
      mine.totalTasks <= all.totalTasks && mine.completedTasks <= all.completedTasks
  {
    AdminTasksInCompany(tasks, a);
  }

  /** The admin's tasks are a sub-selection of the company's. */
  lemma {:induction false} AdminTasksInCompany(tasks: seq<Task>, a: Admin)
    ensures |AdminTasks(tasks, a)| <= |CompanyTasks(tasks, Some(a.companyId))|
    ensures Count(AdminTasks(tasks, a), IsCompleted) <= Count(CompanyTasks(tasks, Some(a.companyId)), IsCompleted)
  {
    if tasks != [] {
      var t, rest := tasks[0], tasks[1..];
      assert tasks == [t] + rest;
      AdminTasksInCompany(rest, a);
      FilterAppend([t], rest, (k: Task) => k.companyId == a.companyId && k.adminId == a.id);
      FilterAppend([t], rest, (k: Task) => InCompany(Some(a.companyId), k.companyId));
      var mine, all := AdminTasks(tasks, a), CompanyTasks(tasks, Some(a.companyId));
      var mineRest, allRest := AdminTasks(rest, a), CompanyTasks(rest, Some(a.companyId));
      if t.companyId == a.companyId && t.adminId == a.id {
        assert mine == [t] + mineRest && all == [t] + allRest;
        FilterAppend([t], mineRest, IsCompleted);
        FilterAppend([t], allRest, IsCompleted);
      } else if t.companyId == a.companyId {
        assert mine == mineRest && all == [t] + allRest;
        FilterAppend([t], allRest, IsCompleted);
      } else {
        assert mine == mineRest && all == allRest;
      }
    }
  }

  // ---------------------------------------------------------------------------
  // GET /api/cmp/dashboard

  /** The four dashboard counters. */
  datatype Dashboard = Dashboard(totalAdmins: nat, totalEmployees: nat, totalTasks: nat, companyTasks: nat)

  /**
   * GET /api/cmp/dashboard: 401 unless the company session has role
   * COMPANY, 404 when no company has the id; the company's admins,
   * employees and tasks, and every task of every company.
   */
  function GetDashboard(db: Db, s: Sessions): (r: Reply<Dashboard>)
    reads db
    ensures !HasRole(s.company, COMPANY) ==> r == Err(401, "Unauthorized")
    ensures HasRole(s.company, COMPANY) && !Truthy(s.company.value.id) ==> r == Err(500, "Failed to fetch dashboard data")
    ensures HasRole(s.company, COMPANY) && Truthy(s.company.value.id) && CompanyById(db.companies, s.company.value.id).None? ==>
      r == Err(404, "Company not found")
    ensures HasRole(s.company, COMPANY) && Truthy(s.company.value.id) && CompanyById(db.companies, s.company.value.id).Some? ==>
      r.Ok?
    ensures r.Ok? ==> var id := s.company.value.id;
      && HasRole(s.company, COMPANY) && CompanyById(db.companies, id).Some? && r.status == 200
      && r.value.totalAdmins == Count(db.admins, (a: Admin) => a.companyId == id)
      && r.value.totalEmployees == |CompanyStaff(db.employees, Some(id))|
      && r.value.companyTasks == |CompanyTasks(db.tasks, Some(id))|
      && r.value.totalTasks == |db.tasks|
      && r.value.companyTasks <= r.value.totalTasks
  {
    if !HasRole(s.company, COMPANY) then Err(401, "Unauthorized")
    else if !Truthy(s.company.value.id) then Err(500, "Failed to fetch dashboard data")
    else
      match CompanyById(db.companies, s.company.value.id)
      case None => Err(404, "Company not found")
      case Some(c) =>
        var id := c.id;
        Ok(200, Dashboard(Count(db.admins, (a: Admin) => a.companyId == id), |CompanyStaff(db.employees, Some(id))|,
                          |db.tasks|, |CompanyTasks(db.tasks, Some(id))|))
  }
}
