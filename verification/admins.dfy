/**
 * Admin management by a company: `app/api/cmp/admins/route.ts` (the
 * company cookie session: list with statistics, creation) and
 * `app/api/admins/route.ts` (the next-auth session: plain list).
 */
module Admins {
  import opened Common
  import opened Store

  /** A company's admins, newest first; an `undefined` company id drops the condition. */
  function CompanyAdmins(admins: seq<Admin>, filter: Option<Id>): (r: seq<Admin>)
    ensures Sorted(r, Descending(AdminCreated))
    ensures forall a :: a in r <==> a in admins && InCompany(filter, a.companyId)
    ensures forall a :: multiset(r)[a] == if InCompany(filter, a.companyId) then multiset(admins)[a] else 0
  {
    NewestFirst(admins, (a: Admin) => InCompany(filter, a.companyId), AdminCreated)
  }

  // ---------------------------------------------------------------------------
  // GET /api/cmp/admins

  /** A row of the list: the admin, when it was created and its `_count` of employees and tasks. */
  datatype AdminRow = AdminRow(person: Person, createdAt: int, totalEmployees: nat, totalTasks: nat)

  function ManagedBy(es: seq<Employee>, adminId: Id): (r: seq<Employee>)
    ensures forall e :: e in r <==> e in es && e.adminId == Some(adminId)
  {
    Filter(es, (e: Employee) => e.adminId == Some(adminId))
  }

  function CreatedBy(tasks: seq<Task>, adminId: Id): (r: seq<Task>)
    ensures forall t :: t in r <==> t in tasks && t.adminId == adminId
  {
    Filter(tasks, (t: Task) => t.adminId == adminId)
  }

  function AdminRowOf(es: seq<Employee>, tasks: seq<Task>, a: Admin): (r: AdminRow)
    ensures r.person == AdminPerson(a) && r.createdAt == a.createdAt
    ensures r.totalEmployees == |ManagedBy(es, a.id)| <= |es|
    ensures r.totalTasks == |CreatedBy(tasks, a.id)| <= |tasks|
  {
    AdminRow(AdminPerson(a), a.createdAt, |ManagedBy(es, a.id)|, |CreatedBy(tasks, a.id)|)
  }

  function AdminRowCreated(r: AdminRow): int { r.createdAt }

  /** One statistics row per admin, in the same order. */
  function AdminRows(es: seq<Employee>, tasks: seq<Task>, rows: seq<Admin>): (r: seq<AdminRow>)
    ensures |r| == |rows|
    ensures forall i :: 0 <= i < |r| ==> rows[i] in rows && r[i] == AdminRowOf(es, tasks, rows[i])
    ensures forall a :: a in rows ==> AdminRowOf(es, tasks, a) in r
    ensures Sorted(rows, Descending(AdminCreated)) ==> Sorted(r, Descending(AdminRowCreated))
  {
    var row := (a: Admin) => AdminRowOf(es, tasks, a);
    MapMembers(rows, row);
    if Sorted(rows, Descending(AdminCreated)) then
      MapKeepsDescending(rows, row, AdminCreated, AdminRowCreated);
      Map(rows, row)
    else Map(rows, row)
  }

  const NO_COMPANY_SESSION := "Unauthorized: No session found. Please login."

  /**
   * GET /api/cmp/admins: 401 unless the company session has role COMPANY;
   * otherwise one row per admin of the company, newest first, with the
   * number of employees it manages and of tasks it created.
   */
  function GetCompanyAdmins(db: Db, s: Sessions): (r: Reply<seq<AdminRow>>)
    reads db
    ensures !HasRole(s.company, COMPANY) <==> r == Err(401, NO_COMPANY_SESSION)
    ensures r.Err? ==> r == Err(401, NO_COMPANY_SESSION)
    ensures r.Ok? ==> r.status == 200 && Sorted(r.value, Descending(AdminRowCreated))
    ensures r.Ok? ==> var filter := IdFilter(s.company.value.id);
      && |r.value| == |CompanyAdmins(db.admins, filter)|
      && (forall a :: a in db.admins && InCompany(filter, a.companyId) ==> AdminRowOf(db.employees, db.tasks, a) in r.value)
      && (forall i :: 0 <= i < |r.value| ==>
            exists a :: a in db.admins && InCompany(filter, a.companyId) && r.value[i] == AdminRowOf(db.employees, db.tasks, a))
  {
    if !HasRole(s.company, COMPANY) then Err(401, NO_COMPANY_SESSION)
    else
      Ok(200, AdminRows(db.employees, db.tasks, CompanyAdmins(db.admins, IdFilter(s.company.value.id))))
  }

  // ---------------------------------------------------------------------------
  // POST /api/cmp/admins

  /** The JSON body of an admin creation. */
  datatype AdminBody = AdminBody(name: Option<string>, email: Option<string>, password: Option<string>)

  /**
   * How the database answers the insert itself: normally, with a unique
   * constraint violation (Prisma's P2002, left by a concurrent insert of the
   * same e-mail) or with any other failure.
   */
  datatype InsertOutcome = Inserted | UniqueViolation | OtherFailure

  /** `company: { connect: { id } }` finds its row: the session has an id and a company has it. */
  predicate Connectable(db: Db, id: Id)
    reads db
  {
    Truthy(id) && CompanyById(db.companies, id).Some?
  }

  /** The checks before the insert pass: name, e-mail and password given, and the normalised e-mail is free. */
  predicate AdminBodyOk(db: Db, b: AdminBody)
    reads db
  {
    Given(b.name) && Given(b.email) && Given(b.password) && AdminByEmail(db.admins, NormalizeEmail(b.email.value)).None?
  }

  /**
   * The outcome of POST /api/cmp/admins: 401 unless the company session has
   * role COMPANY; 400 without name, e-mail or password; 400 when an admin
   * already has the normalised e-mail; 500 when the session's company
   * cannot be connected (the create throws before inserting); then 409 on a
   * unique violation at the insert, 500 on any other failure there;
   * otherwise the new admin, stored with the normalised e-mail under the
   * session's company.
   */
  function NewAdmin(db: Db, s: Sessions, b: AdminBody, insert: InsertOutcome, newId: Id, now: int): (r: Reply<Admin>)
    reads db
    ensures !HasRole(s.company, COMPANY) ==> r == Err(401, NO_COMPANY_SESSION)
    ensures HasRole(s.company, COMPANY) && !(Given(b.name) && Given(b.email) && Given(b.password)) ==>
      r == Err(400, "Name, email, and password are required")
    ensures (HasRole(s.company, COMPANY) && Given(b.name) && Given(b.email) && Given(b.password)
      && AdminByEmail(db.admins, NormalizeEmail(b.email.value)).Some?) ==>
      r == Err(400, "Admin with this email already exists")
    ensures HasRole(s.company, COMPANY) && AdminBodyOk(db, b) ==>
      var id := s.company.value.id;
      && (!Connectable(db, id) ==> r == Err(500, "Failed to create admin"))
      && (Connectable(db, id) && insert == UniqueViolation ==> r == Err(409, "Admin with this email already exists"))
      && (Connectable(db, id) && insert == OtherFailure ==> r == Err(500, "Failed to create admin"))
      && (Connectable(db, id) && insert == Inserted ==>
            r == Ok(201, Admin(newId, b.name.value, NormalizeEmail(b.email.value), HashOf(b.password.value), id, now)))
    ensures r.Err? ==> r.status in {400, 401, 409, 500}
    ensures r.Err? && r.status == 409 ==> insert == UniqueViolation && Connectable(db, s.company.value.id)
    ensures r.Ok? ==> var email := NormalizeEmail(b.email.value);
      && HasRole(s.company, COMPANY) && Given(b.name) && Given(b.email) && Given(b.password)
      && insert == Inserted && r.status == 201
      && (forall a :: a in db.admins ==> a.email != email)
      && CompanyById(db.companies, s.company.value.id).Some?
      && r.value == Admin(newId, b.name.value, email, HashOf(b.password.value), s.company.value.id, now)
  {
    if !HasRole(s.company, COMPANY) then Err(401, NO_COMPANY_SESSION)
    else if !Given(b.name) || !Given(b.email) || !Given(b.password) then Err(400, "Name, email, and password are required")
    else
      var email := NormalizeEmail(b.email.value);
      if AdminByEmail(db.admins, email).Some? then Err(400, "Admin with this email already exists")
      else if !Connectable(db, s.company.value.id) then Err(500, "Failed to create admin")
      else if insert == UniqueViolation then Err(409, "Admin with this email already exists")
      else if insert == OtherFailure then Err(500, "Failed to create admin")
      else Ok(201, Admin(newId, b.name.value, email, HashOf(b.password.value), s.company.value.id, now))
  }

  /** The response of a creation: the new admin's id, name and e-mail. */
  function AdminView(r: Reply<Admin>): Reply<Person> {
    match r
    case Ok(status, a) => Ok(status, AdminPerson(a))
    case Err(status, error) => Err(status, error)
  }

  /** POST /api/cmp/admins: inserts the admin exactly when every check passes. */
  method PostCompanyAdmin(db: Db, s: Sessions, b: AdminBody, insert: InsertOutcome, newId: Id, now: int)
    returns (r: Reply<Person>)
    requires db.Valid()
    requires forall a :: a in db.admins ==> a.id != newId
    modifies db
    ensures db.Valid()
    ensures var n := old(NewAdmin(db, s, b, insert, newId, now));
      && r == AdminView(n)
      && (n.Ok? ==> db.admins == old(db.admins) + [n.value])
      && (n.Err? ==> db.admins == old(db.admins))
    ensures unchanged(db`companies, db`employees, db`teams, db`members, db`tasks, db`chats)
  {
    var n := NewAdmin(db, s, b, insert, newId, now);
    if n.Ok? {
      UniqueByAppend(db.admins, n.value, AdminKey);
      UniqueByAppend(db.admins, n.value, AdminEmail);
      db.admins := db.admins + [n.value];
    }
    r := AdminView(n);
  }

  /** A created admin's e-mail is already normalised, so looking it up again finds it. */
  lemma NewAdminEmailNormalized(db: Db, s: Sessions, b: AdminBody, insert: InsertOutcome, newId: Id, now: int)
    requires NewAdmin(db, s, b, insert, newId, now).Ok?
    ensures var a := NewAdmin(db, s, b, insert, newId, now).value;
      NormalizeEmail(a.email) == a.email
  {
    NormalizeEmailIdempotent(b.email.value);
  }

  /**
   * E-mails are compared after normalisation: once an admin was created
   * from one spelling, any spelling that normalises the same is refused
   * with 400, whatever the insert would have done.
   */
  lemma {:induction false} NormalizedDuplicateRejected(
    admins: seq<Admin>, created: Admin, db: Db, s: Sessions, b: AdminBody, insert: InsertOutcome, newId: Id, now: int)
    requires created in admins && db.admins == admins
    requires HasRole(s.company, COMPANY) && Given(b.name) && Given(b.email) && Given(b.password)
    requires NormalizeEmail(b.email.value) == created.email
    ensures NewAdmin(db, s, b, insert, newId, now) == Err(400, "Admin with this email already exists")
  {
    var p := (a: Admin) => a.email == NormalizeEmail(b.email.value);
    assert p(created);
    assert AdminByEmail(admins, NormalizeEmail(b.email.value)) == Find(admins, p);
  }

  // ---------------------------------------------------------------------------
  // GET /api/admins

  /**
   * GET /api/admins: 401 without an id and a role in the next-auth session,
   * 403 for roles other than COMPANY, otherwise the company's admins newest
   * first.
   */
  function GetAdmins(db: Db, s: Sessions): (r: Reply<seq<Admin>>)
    reads db
    ensures !Identified(s.generic) <==> r == Err(401, "Unauthorized")
    ensures Identified(s.generic) && s.generic.value.role != COMPANY <==> r == Err(403, "Forbidden")
    ensures r.Ok? ==> Identified(s.generic) && s.generic.value.role == COMPANY && r.status == 200
    ensures r.Ok? ==> Sorted(r.value, Descending(AdminCreated))
    ensures r.Ok? ==> forall a :: a in r.value <==> a in db.admins && a.companyId == s.generic.value.id
    ensures r.Ok? ==> forall a :: multiset(r.value)[a] == (if a.companyId == s.generic.value.id then multiset(db.admins)[a] else 0)
  {
    if !Identified(s.generic) then Err(401, "Unauthorized")
    else if s.generic.value.role != COMPANY then Err(403, "Forbidden")
    else Ok(200, CompanyAdmins(db.admins, Some(s.generic.value.id)))
  }

  /** Both lists of a company's admins hold the same admins in the same order. */
  lemma SameAdminsBothRoutes(db: Db, s: Sessions)
    requires Identified(s.generic) && s.generic.value.role == COMPANY
    requires s.company == s.generic
    ensures GetCompanyAdmins(db, s).Ok? && GetAdmins(db, s).Ok?
    ensures |GetCompanyAdmins(db, s).value| == |GetAdmins(db, s).value|
    ensures forall i :: 0 <= i < |GetAdmins(db, s).value| ==>
      GetCompanyAdmins(db, s).value[i].person == AdminPerson(GetAdmins(db, s).value[i])
  {
  }
}
