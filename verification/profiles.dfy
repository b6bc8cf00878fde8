/**
 * Profiles: `app/api/user/profile/route.ts` (any session, dispatched on the
 * role) and the role-specific `app/api/cmp/profile/route.ts`,
 * `app/api/admin/profile/route.ts` and `app/api/employee/profile/route.ts`.
 * A PATCH rewrites the name and the e-mail of one row in place, each only
 * when the body gives a truthy value for it.
 */
module Profiles {
  import opened Common
  import opened Store

  /** The profile a GET answers; `companyId` and `adminId` only where the role has them. */
  datatype Profile = Profile(id: Id, name: string, email: string, role: string, companyId: Option<Id>, adminId: Option<Id>)

  /** What a PATCH answers: the stored name and e-mail and the role. */
  datatype Echo = Echo(name: string, email: string, role: string)

  /** The JSON body of a PATCH. */
  datatype ProfileBody = ProfileBody(name: Option<string>, email: Option<string>)

  function CompanyProfile(c: Company): Profile { Profile(c.id, c.name, c.email, COMPANY, None, None) }
  function AdminProfile(a: Admin): Profile { Profile(a.id, a.name, a.email, ADMIN, Some(a.companyId), None) }
  function EmployeeProfile(e: Employee): Profile { Profile(e.id, e.name, e.email, EMPLOYEE, Some(e.companyId), e.adminId) }

  /** `...(field && { field })`: the given value when truthy, else the stored one. */
  function Patched(stored: string, given: Option<string>): (r: string)
    ensures Given(given) ==> r == given.value
    ensures !Given(given) ==> r == stored
  {
    if Given(given) then given.value else stored
  }

  /** Some row other than the `i`-th has the e-mail (the unique constraint would reject the update). */
  predicate EmailTaken<T>(s: seq<T>, email: T -> string, i: nat, value: string) {
    exists j :: 0 <= j < |s| && j != i && email(s[j]) == value
  }

  // ---------------------------------------------------------------------------
  // Lookups for GET

  /** The company profile by id: 500 when the id is missing (the lookup throws), 404 when no company has it. */
  function CompanyProfileOf(cs: seq<Company>, id: string): (r: Reply<Profile>)
    ensures !Truthy(id) ==> r == Err(500, "Failed to fetch profile")
    ensures Truthy(id) && (forall c :: c in cs ==> c.id != id) ==> r == Err(404, "Company not found")
    ensures Truthy(id) && (exists c :: c in cs && c.id == id) ==>
      IndexOfKey(cs, CompanyKey, id) < |cs| && r == Ok(200, CompanyProfile(cs[IndexOfKey(cs, CompanyKey, id)]))
    ensures r.Ok? ==>
      && r.status == 200 && r.value.role == COMPANY && r.value.id == id
      && exists c :: c in cs && CompanyProfile(c) == r.value
  {
    if !Truthy(id) then Err(500, "Failed to fetch profile")
    else
      var i := IndexOfKey(cs, CompanyKey, id);
      if i == |cs| then Err(404, "Company not found") else Ok(200, CompanyProfile(cs[i]))
  }

  function AdminProfileOf(admins: seq<Admin>, id: string): (r: Reply<Profile>)
    ensures !Truthy(id) ==> r == Err(500, "Failed to fetch profile")
    ensures Truthy(id) && (forall a :: a in admins ==> a.id != id) ==> r == Err(404, "Admin not found")
    ensures Truthy(id) && (exists a :: a in admins && a.id == id) ==>
      IndexOfKey(admins, AdminKey, id) < |admins| && r == Ok(200, AdminProfile(admins[IndexOfKey(admins, AdminKey, id)]))
    ensures r.Ok? ==>
      && r.status == 200 && r.value.role == ADMIN && r.value.id == id
      && exists a :: a in admins && AdminProfile(a) == r.value
  {
    if !Truthy(id) then Err(500, "Failed to fetch profile")
    else
      var i := IndexOfKey(admins, AdminKey, id);
      if i == |admins| then Err(404, "Admin not found") else Ok(200, AdminProfile(admins[i]))
  }

  function EmployeeProfileOf(es: seq<Employee>, id: string): (r: Reply<Profile>)
    ensures !Truthy(id) ==> r == Err(500, "Failed to fetch profile")
    ensures Truthy(id) && (forall e :: e in es ==> e.id != id) ==> r == Err(404, "Employee not found")
    ensures Truthy(id) && (exists e :: e in es && e.id == id) ==>
      IndexOfKey(es, EmployeeKey, id) < |es| && r == Ok(200, EmployeeProfile(es[IndexOfKey(es, EmployeeKey, id)]))
    ensures r.Ok? ==>
      && r.status == 200 && r.value.role == EMPLOYEE && r.value.id == id
      && exists e :: e in es && EmployeeProfile(e) == r.value
  {
    if !Truthy(id) then Err(500, "Failed to fetch profile")
    else
      var i := IndexOfKey(es, EmployeeKey, id);
      if i == |es| then Err(404, "Employee not found") else Ok(200, EmployeeProfile(es[i]))
  }

  /** GET /api/cmp/profile: 401 unless the company session has role COMPANY. */
  function GetCompanyProfile(db: Db, s: Sessions): (r: Reply<Profile>)
    reads db
    ensures !HasRole(s.company, COMPANY) ==> r == Err(401, "Unauthorized")
    ensures HasRole(s.company, COMPANY) ==> r == CompanyProfileOf(db.companies, s.company.value.id)
  {
    if !HasRole(s.company, COMPANY) then Err(401, "Unauthorized") else CompanyProfileOf(db.companies, s.company.value.id)
  }

  /** GET /api/admin/profile: 401 unless the admin session has role ADMIN. */
  function GetAdminProfile(db: Db, s: Sessions): (r: Reply<Profile>)
    reads db
    ensures !HasRole(s.admin, ADMIN) ==> r == Err(401, "Unauthorized")
    ensures HasRole(s.admin, ADMIN) ==> r == AdminProfileOf(db.admins, s.admin.value.id)
  {
    if !HasRole(s.admin, ADMIN) then Err(401, "Unauthorized") else AdminProfileOf(db.admins, s.admin.value.id)
  }

  /** GET /api/employee/profile: 401 unless the employee session has role EMPLOYEE. */
  function GetEmployeeProfile(db: Db, s: Sessions): (r: Reply<Profile>)
    reads db
    ensures !HasRole(s.employee, EMPLOYEE) ==> r == Err(401, "Unauthorized")
    ensures HasRole(s.employee, EMPLOYEE) ==> r == EmployeeProfileOf(db.employees, s.employee.value.id)
  {
    if !HasRole(s.employee, EMPLOYEE) then Err(401, "Unauthorized") else EmployeeProfileOf(db.employees, s.employee.value.id)
  }

  /**
   * GET /api/user/profile: 401 without any session; the record of the
   * session's role when it exists; 404 "User not found" for a missing record
   * or any other role.
   */
  function GetUserProfile(db: Db, s: Sessions): (r: Reply<Profile>)
    reads db
    ensures s.any.None? ==> r == Err(401, "Unauthorized")
    ensures r.Err? ==> r.status in {401, 404, 500}
    ensures s.any.Some? && s.any.value.role !in {COMPANY, ADMIN, EMPLOYEE} ==> r == Err(404, "User not found")
    ensures s.any.Some? && s.any.value.role in {COMPANY, ADMIN, EMPLOYEE} && !Truthy(s.any.value.id) ==>
      r == Err(500, "Failed to fetch profile")
    ensures (s.any.Some? && s.any.value.role == COMPANY && Truthy(s.any.value.id)
      && (forall c :: c in db.companies ==> c.id != s.any.value.id)) ==> r == Err(404, "User not found")
    ensures (s.any.Some? && s.any.value.role == ADMIN && Truthy(s.any.value.id)
      && (forall a :: a in db.admins ==> a.id != s.any.value.id)) ==> r == Err(404, "User not found")
    ensures (s.any.Some? && s.any.value.role == EMPLOYEE && Truthy(s.any.value.id)
      && (forall e :: e in db.employees ==> e.id != s.any.value.id)) ==> r == Err(404, "User not found")
    ensures r.Ok? ==> s.any.Some? && r.value.id == s.any.value.id && r.value.role == s.any.value.role
    ensures s.any.Some? && s.any.value.role == COMPANY && CompanyProfileOf(db.companies, s.any.value.id).Ok? ==>
      r == CompanyProfileOf(db.companies, s.any.value.id)
    ensures s.any.Some? && s.any.value.role == ADMIN && AdminProfileOf(db.admins, s.any.value.id).Ok? ==>
      r == AdminProfileOf(db.admins, s.any.value.id)
    ensures s.any.Some? && s.any.value.role == EMPLOYEE && EmployeeProfileOf(db.employees, s.any.value.id).Ok? ==>
      r == EmployeeProfileOf(db.employees, s.any.value.id)
  {
    if s.any.None? then Err(401, "Unauthorized")
    else
      var p := s.any.value;
      var found :=
        if p.role == COMPANY then CompanyProfileOf(db.companies, p.id)
        else if p.role == ADMIN then AdminProfileOf(db.admins, p.id)
        else if p.role == EMPLOYEE then EmployeeProfileOf(db.employees, p.id)
        else Err(404, "User not found");
      if found.Ok? then found
      else if found.status == 500 then found
      else Err(404, "User not found")
  }

  // ---------------------------------------------------------------------------
  // The updates

  /** The company row after a PATCH: name and e-mail patched, everything else kept. */
  function PatchCompanyRow(c: Company, b: ProfileBody): Company {
    c.(name := Patched(c.name, b.name), email := Patched(c.email, b.email))
  }

  function PatchAdminRow(a: Admin, b: ProfileBody): Admin {
    a.(name := Patched(a.name, b.name), email := Patched(a.email, b.email))
  }

  function PatchEmployeeRow(e: Employee, b: ProfileBody): Employee {
    e.(name := Patched(e.name, b.name), email := Patched(e.email, b.email))
  }

  /**
   * `company.update({ where: { id }, data })` after the lookup: 500 without
   * an id, 404 when no company has it, 500 when the new e-mail belongs to
   * another company; otherwise the patched row.
   */
  function PatchCompany(cs: seq<Company>, id: string, b: ProfileBody): (r: Reply<Company>)
    ensures !Truthy(id) ==> r == Err(500, "Failed to update profile")
    ensures Truthy(id) && (forall c :: c in cs ==> c.id != id) ==> r == Err(404, "Company not found")
    ensures Truthy(id) && (exists c :: c in cs && c.id == id) ==> var i := IndexOfKey(cs, CompanyKey, id);
      && i < |cs|
      && (Given(b.email) && EmailTaken(cs, CompanyEmail, i, b.email.value) ==> r == Err(500, "Failed to update profile"))
      && (!(Given(b.email) && EmailTaken(cs, CompanyEmail, i, b.email.value)) ==> r == Ok(200, PatchCompanyRow(cs[i], b)))
    ensures r.Err? ==> r.status in {404, 500}
    ensures r.Ok? ==> var i := IndexOfKey(cs, CompanyKey, id);
      && i < |cs| && r.status == 200 && r.value == PatchCompanyRow(cs[i], b)
      && (Given(b.email) ==> !EmailTaken(cs, CompanyEmail, i, r.value.email))
    ensures r.Err? && r.status == 500 && Truthy(id) ==>
      Given(b.email) && EmailTaken(cs, CompanyEmail, IndexOfKey(cs, CompanyKey, id), b.email.value)
  {
    if !Truthy(id) then Err(500, "Failed to update profile")
    else
      var i := IndexOfKey(cs, CompanyKey, id);
      if i == |cs| then Err(404, "Company not found")
      else if Given(b.email) && EmailTaken(cs, CompanyEmail, i, b.email.value) then Err(500, "Failed to update profile")
      else Ok(200, PatchCompanyRow(cs[i], b))
  }

  function PatchAdmin(admins: seq<Admin>, id: string, b: ProfileBody): (r: Reply<Admin>)
    ensures !Truthy(id) ==> r == Err(500, "Failed to update profile")
    ensures Truthy(id) && (forall a :: a in admins ==> a.id != id) ==> r == Err(404, "Admin not found")
    ensures Truthy(id) && (exists a :: a in admins && a.id == id) ==> var i := IndexOfKey(admins, AdminKey, id);
      && i < |admins|
      && (Given(b.email) && EmailTaken(admins, AdminEmail, i, b.email.value) ==> r == Err(500, "Failed to update profile"))
      && (!(Given(b.email) && EmailTaken(admins, AdminEmail, i, b.email.value)) ==> r == Ok(200, PatchAdminRow(admins[i], b)))
    ensures r.Err? ==> r.status in {404, 500}
    ensures r.Ok? ==> var i := IndexOfKey(admins, AdminKey, id);
      && i < |admins| && r.status == 200 && r.value == PatchAdminRow(admins[i], b)
      && (Given(b.email) ==> !EmailTaken(admins, AdminEmail, i, r.value.email))
    ensures r.Err? && r.status == 500 && Truthy(id) ==>
      Given(b.email) && EmailTaken(admins, AdminEmail, IndexOfKey(admins, AdminKey, id), b.email.value)
  {
    if !Truthy(id) then Err(500, "Failed to update profile")
    else
      var i := IndexOfKey(admins, AdminKey, id);
      if i == |admins| then Err(404, "Admin not found")
      else if Given(b.email) && EmailTaken(admins, AdminEmail, i, b.email.value) then Err(500, "Failed to update profile")
      else Ok(200, PatchAdminRow(admins[i], b))
  }

  function PatchEmployee(es: seq<Employee>, id: string, b: ProfileBody): (r: Reply<Employee>)
    ensures !Truthy(id) ==> r == Err(500, "Failed to update profile")
    ensures Truthy(id) && (forall e :: e in es ==> e.id != id) ==> r == Err(404, "Employee not found")
    ensures Truthy(id) && (exists e :: e in es && e.id == id) ==> var i := IndexOfKey(es, EmployeeKey, id);
      && i < |es|
      && (Given(b.email) && EmailTaken(es, EmployeeEmail, i, b.email.value) ==> r == Err(500, "Failed to update profile"))
      && (!(Given(b.email) && EmailTaken(es, EmployeeEmail, i, b.email.value)) ==> r == Ok(200, PatchEmployeeRow(es[i], b)))
    ensures r.Err? ==> r.status in {404, 500}
    ensures r.Ok? ==> var i := IndexOfKey(es, EmployeeKey, id);
      && i < |es| && r.status == 200 && r.value == PatchEmployeeRow(es[i], b)
      && (Given(b.email) ==> !EmailTaken(es, EmployeeEmail, i, r.value.email))
    ensures r.Err? && r.status == 500 && Truthy(id) ==>
      Given(b.email) && EmailTaken(es, EmployeeEmail, IndexOfKey(es, EmployeeKey, id), b.email.value)
  {
    if !Truthy(id) then Err(500, "Failed to update profile")
    else
      var i := IndexOfKey(es, EmployeeKey, id);
      if i == |es| then Err(404, "Employee not found")
      else if Given(b.email) && EmailTaken(es, EmployeeEmail, i, b.email.value) then Err(500, "Failed to update profile")
      else Ok(200, PatchEmployeeRow(es[i], b))
  }

  /** A PATCH touches nothing but the name and the e-mail, and those only when given. */
  lemma PatchTouchesOnlyGivenFields(cs: seq<Company>, id: string, b: ProfileBody)
    requires PatchCompany(cs, id, b).Ok?
    ensures var c, r := cs[IndexOfKey(cs, CompanyKey, id)], PatchCompany(cs, id, b).value;
      && r.id == c.id == id && r.password == c.password && r.createdAt == c.createdAt
      && (Given(b.name) ==> r.name == b.name.value) && (!Given(b.name) ==> r.name == c.name)
      && (Given(b.email) ==> r.email == b.email.value) && (!Given(b.email) ==> r.email == c.email)
  {
  }

  /** The patched company keeps the table's unique columns unique. */
  lemma PatchCompanyKeepsUnique(cs: seq<Company>, id: string, b: ProfileBody)
    requires CompaniesUnique(cs)
    requires PatchCompany(cs, id, b).Ok?
    ensures CompaniesUnique(cs[IndexOfKey(cs, CompanyKey, id) := PatchCompany(cs, id, b).value])
  {
    var i, x := IndexOfKey(cs, CompanyKey, id), PatchCompany(cs, id, b).value;
    UniqueByUpdate(cs, i, x, CompanyKey);
    UniqueByUpdate(cs, i, x, CompanyEmail);
  }

  lemma PatchAdminKeepsUnique(admins: seq<Admin>, id: string, b: ProfileBody)
    requires AdminsUnique(admins)
    requires PatchAdmin(admins, id, b).Ok?
    ensures AdminsUnique(admins[IndexOfKey(admins, AdminKey, id) := PatchAdmin(admins, id, b).value])
  {
    var i, x := IndexOfKey(admins, AdminKey, id), PatchAdmin(admins, id, b).value;
    UniqueByUpdate(admins, i, x, AdminKey);
    UniqueByUpdate(admins, i, x, AdminEmail);
  }

  lemma PatchEmployeeKeepsUnique(es: seq<Employee>, id: string, b: ProfileBody)
    requires EmployeesUnique(es)
    requires PatchEmployee(es, id, b).Ok?
    ensures EmployeesUnique(es[IndexOfKey(es, EmployeeKey, id) := PatchEmployee(es, id, b).value])
  {
    var i, x := IndexOfKey(es, EmployeeKey, id), PatchEmployee(es, id, b).value;
    UniqueByUpdate(es, i, x, EmployeeKey);
    UniqueByUpdate(es, i, x, EmployeeEmail);
  }

  /** After a successful PATCH the GET of the same id shows exactly the echoed name and e-mail. */
  lemma {:induction false} PatchThenGetCompany(cs: seq<Company>, id: string, b: ProfileBody)
    requires PatchCompany(cs, id, b).Ok?
    ensures var r := PatchCompany(cs, id, b).value;
      CompanyProfileOf(cs[IndexOfKey(cs, CompanyKey, id) := r], id) == Ok(200, CompanyProfile(r))
  {
    var r := PatchCompany(cs, id, b).value;
    IndexOfKeyUpdate(cs, CompanyKey, id, r);
  }

  lemma {:induction false} PatchThenGetAdmin(admins: seq<Admin>, id: string, b: ProfileBody)
    requires PatchAdmin(admins, id, b).Ok?
    ensures var r := PatchAdmin(admins, id, b).value;
      AdminProfileOf(admins[IndexOfKey(admins, AdminKey, id) := r], id) == Ok(200, AdminProfile(r))
  {
    var r := PatchAdmin(admins, id, b).value;
    IndexOfKeyUpdate(admins, AdminKey, id, r);
  }

  lemma {:induction false} PatchThenGetEmployee(es: seq<Employee>, id: string, b: ProfileBody)
    requires PatchEmployee(es, id, b).Ok?
    ensures var r := PatchEmployee(es, id, b).value;
      EmployeeProfileOf(es[IndexOfKey(es, EmployeeKey, id) := r], id) == Ok(200, EmployeeProfile(r))
  {
    var r := PatchEmployee(es, id, b).value;
    IndexOfKeyUpdate(es, EmployeeKey, id, r);
  }

  // ---------------------------------------------------------------------------
  // The PATCH handlers

  function CompanyEcho(p: Reply<Company>): Reply<Echo> {
    match p
    case Ok(_, c) => Ok(200, Echo(c.name, c.email, COMPANY))
    case Err(status, error) => Err(status, error)
  }

  function AdminEcho(p: Reply<Admin>): Reply<Echo> {
    match p
    case Ok(_, a) => Ok(200, Echo(a.name, a.email, ADMIN))
    case Err(status, error) => Err(status, error)
  }

  function EmployeeEcho(p: Reply<Employee>): Reply<Echo> {
    match p
    case Ok(_, e) => Ok(200, Echo(e.name, e.email, EMPLOYEE))
    case Err(status, error) => Err(status, error)
  }

  /** Writes the patched company row in place, or changes nothing when the patch fails. */
  method UpdateCompany(db: Db, id: string, b: ProfileBody) returns (r: Reply<Echo>)
    requires db.Valid()
    modifies db
    ensures db.Valid()
    ensures var p := old(PatchCompany(db.companies, id, b));
      && r == CompanyEcho(p)
      && (p.Ok? ==> db.companies == old(db.companies)[old(IndexOfKey(db.companies, CompanyKey, id)) := p.value])
      && (p.Err? ==> db.companies == old(db.companies))
    ensures unchanged(db`admins, db`employees, db`teams, db`members, db`tasks, db`chats)
  {
    var p := PatchCompany(db.companies, id, b);
    if p.Ok? {
      PatchCompanyKeepsUnique(db.companies, id, b);
      db.companies := db.companies[IndexOfKey(db.companies, CompanyKey, id) := p.value];
    }
    r := CompanyEcho(p);
  }

  method UpdateAdmin(db: Db, id: string, b: ProfileBody) returns (r: Reply<Echo>)
    requires db.Valid()
    modifies db
    ensures db.Valid()
    ensures var p := old(PatchAdmin(db.admins, id, b));
      && r == AdminEcho(p)
      && (p.Ok? ==> db.admins == old(db.admins)[old(IndexOfKey(db.admins, AdminKey, id)) := p.value])
      && (p.Err? ==> db.admins == old(db.admins))
    ensures unchanged(db`companies, db`employees, db`teams, db`members, db`tasks, db`chats)
  {
    var p := PatchAdmin(db.admins, id, b);
    if p.Ok? {
      PatchAdminKeepsUnique(db.admins, id, b);
      db.admins := db.admins[IndexOfKey(db.admins, AdminKey, id) := p.value];
    }
    r := AdminEcho(p);
  }

  method UpdateEmployee(db: Db, id: string, b: ProfileBody) returns (r: Reply<Echo>)
    requires db.Valid()
    modifies db
    ensures db.Valid()
    ensures var p := old(PatchEmployee(db.employees, id, b));
      && r == EmployeeEcho(p)
      && (p.Ok? ==> db.employees == old(db.employees)[old(IndexOfKey(db.employees, EmployeeKey, id)) := p.value])
      && (p.Err? ==> db.employees == old(db.employees))
    ensures unchanged(db`companies, db`admins, db`teams, db`members, db`tasks, db`chats)
  {
    var p := PatchEmployee(db.employees, id, b);
    if p.Ok? {
      PatchEmployeeKeepsUnique(db.employees, id, b);
      db.employees := db.employees[IndexOfKey(db.employees, EmployeeKey, id) := p.value];
    }
    r := EmployeeEcho(p);
  }

  /** PATCH /api/cmp/profile: 401 unless the company session has role COMPANY, then the update. */
  method PatchCompanyProfile(db: Db, s: Sessions, b: ProfileBody) returns (r: Reply<Echo>)
    requires db.Valid()
    modifies db
    ensures db.Valid()
    ensures !HasRole(s.company, COMPANY) ==> r == Err(401, "Unauthorized") && unchanged(db)
    ensures HasRole(s.company, COMPANY) ==> var id := s.company.value.id;
      var p := old(PatchCompany(db.companies, id, b));
      && r == CompanyEcho(p)
      && (p.Ok? ==> db.companies == old(db.companies)[old(IndexOfKey(db.companies, CompanyKey, id)) := p.value])
      && (p.Err? ==> db.companies == old(db.companies))
    ensures unchanged(db`admins, db`employees, db`teams, db`members, db`tasks, db`chats)
  {
    if !HasRole(s.company, COMPANY) {
      return Err(401, "Unauthorized");
    }
    r := UpdateCompany(db, s.company.value.id, b);
  }

  /** PATCH /api/admin/profile: 401 unless the admin session has role ADMIN, then the update. */
  method PatchAdminProfile(db: Db, s: Sessions, b: ProfileBody) returns (r: Reply<Echo>)
    requires db.Valid()
    modifies db
    ensures db.Valid()
    ensures !HasRole(s.admin, ADMIN) ==> r == Err(401, "Unauthorized") && unchanged(db)
    ensures HasRole(s.admin, ADMIN) ==> var id := s.admin.value.id;
      var p := old(PatchAdmin(db.admins, id, b));
      && r == AdminEcho(p)
      && (p.Ok? ==> db.admins == old(db.admins)[old(IndexOfKey(db.admins, AdminKey, id)) := p.value])
      && (p.Err? ==> db.admins == old(db.admins))
    ensures unchanged(db`companies, db`employees, db`teams, db`members, db`tasks, db`chats)
  {
    if !HasRole(s.admin, ADMIN) {
      return Err(401, "Unauthorized");
    }
    r := UpdateAdmin(db, s.admin.value.id, b);
  }

  /** PATCH /api/employee/profile: 401 unless the employee session has role EMPLOYEE, then the update. */
  method PatchEmployeeProfile(db: Db, s: Sessions, b: ProfileBody) returns (r: Reply<Echo>)
    requires db.Valid()
    modifies db
    ensures db.Valid()
    ensures !HasRole(s.employee, EMPLOYEE) ==> r == Err(401, "Unauthorized") && unchanged(db)
    ensures HasRole(s.employee, EMPLOYEE) ==> var id := s.employee.value.id;
      var p := old(PatchEmployee(db.employees, id, b));
      && r == EmployeeEcho(p)
      && (p.Ok? ==> db.employees == old(db.employees)[old(IndexOfKey(db.employees, EmployeeKey, id)) := p.value])
      && (p.Err? ==> db.employees == old(db.employees))
    ensures unchanged(db`companies, db`admins, db`teams, db`members, db`tasks, db`chats)
  {
    if !HasRole(s.employee, EMPLOYEE) {
      return Err(401, "Unauthorized");
    }
    r := UpdateEmployee(db, s.employee.value.id, b);
  }

  /**
   * PATCH /api/user/profile: 401 without any session, then the update of
   * the table of the session's role; 404 "User not found" for any other role.
   */
  method PatchUserProfile(db: Db, s: Sessions, b: ProfileBody) returns (r: Reply<Echo>)
    requires db.Valid()
    modifies db
    ensures db.Valid()
    ensures s.any.None? ==> r == Err(401, "Unauthorized") && unchanged(db)
    ensures s.any.Some? && s.any.value.role !in {COMPANY, ADMIN, EMPLOYEE} ==> r == Err(404, "User not found") && unchanged(db)
    ensures s.any.Some? && s.any.value.role == COMPANY ==> var id := s.any.value.id;
      var p := old(PatchCompany(db.companies, id, b));
      && r == CompanyEcho(p)
      && (p.Ok? ==> db.companies == old(db.companies)[old(IndexOfKey(db.companies, CompanyKey, id)) := p.value])
      && (p.Err? ==> db.companies == old(db.companies))
      && unchanged(db`admins, db`employees)
    ensures s.any.Some? && s.any.value.role == ADMIN ==> var id := s.any.value.id;
      var p := old(PatchAdmin(db.admins, id, b));
      && r == AdminEcho(p)
      && (p.Ok? ==> db.admins == old(db.admins)[old(IndexOfKey(db.admins, AdminKey, id)) := p.value])
      && (p.Err? ==> db.admins == old(db.admins))
      && unchanged(db`companies, db`employees)
    ensures s.any.Some? && s.any.value.role == EMPLOYEE ==> var id := s.any.value.id;
      var p := old(PatchEmployee(db.employees, id, b));
      && r == EmployeeEcho(p)
      && (p.Ok? ==> db.employees == old(db.employees)[old(IndexOfKey(db.employees, EmployeeKey, id)) := p.value])
      && (p.Err? ==> db.employees == old(db.employees))
      && unchanged(db`companies, db`admins)
    ensures unchanged(db`teams, db`members, db`tasks, db`chats)
  {
    if s.any.None? {
      return Err(401, "Unauthorized");
    }
    var p := s.any.value;
    if p.role == COMPANY {
      r := UpdateCompany(db, p.id, b);
    } else if p.role == ADMIN {
      r := UpdateAdmin(db, p.id, b);
    } else if p.role == EMPLOYEE {
      r := UpdateEmployee(db, p.id, b);
    } else {
      r := Err(404, "User not found");
    }
  }
}
