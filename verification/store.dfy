/**
 * The relational store behind the route handlers, as in-memory tables, and
 * the session principal the handlers receive.
 *
 * Each table is a sequence of rows in insertion order; Prisma's `findUnique`
 * and `findFirst` are first-match lookups over it and `findMany` is an
 * order-preserving filter. The unique constraints of the schema (every id,
 * the e-mail of companies, admins and employees) and the required relation
 * from a team membership to its team are the store's invariant `Valid`.
 */
module Store {
  import opened Common

  type Id = string

  // ---------------------------------------------------------------------------
  // Password hashing (bcrypt), kept abstract

  /** A stored password hash. Only `HashOf` produces one. */
  datatype Hash = Hashed(digest: string)

  /** `bcrypt.hash(password, 10)`. */
  function HashOf(password: string): Hash {
    Hashed(password)
  }

  /** `bcrypt.compare(password, hash)`: true exactly when `hash` was made from `password`. */
  predicate Matches(password: string, hash: Hash) {
    hash == HashOf(password)
  }

  // ---------------------------------------------------------------------------
  // Rows

  datatype Company = Company(id: Id, name: string, email: string, password: Hash, createdAt: int)

  datatype Admin = Admin(id: Id, name: string, email: string, password: Hash, companyId: Id, createdAt: int)

  datatype Employee = Employee(
    id: Id, name: string, email: string, password: Hash, workId: Option<string>,
    companyId: Id, adminId: Option<Id>, createdAt: int)

  datatype Team = Team(
    id: Id, name: string, description: Option<string>, companyId: Id, adminId: Id, createdAt: int)

  /** A team membership references an admin or an employee (two nullable foreign keys). */
  datatype TeamMember = TeamMember(teamId: Id, adminId: Option<Id>, employeeId: Option<Id>)

  datatype Task = Task(
    id: Id, title: string, description: Option<string>, status: string, priority: string,
    deadline: Option<string>, companyId: Id, adminId: Id, employeeId: Option<Id>,
    teamId: Option<Id>, createdAt: int)

  datatype Chat = Chat(
    id: Id, message: string, chatType: string, companyId: Id, senderId: Id, senderType: string,
    receiverId: Option<Id>, receiverType: Option<string>, teamId: Option<Id>, taskId: Option<Id>,
    isRead: bool, createdAt: int)

  /** The `createdAt` sort keys. */
  function AdminCreated(a: Admin): int { a.createdAt }
  function EmployeeCreated(e: Employee): int { e.createdAt }
  function TeamCreated(t: Team): int { t.createdAt }
  function TaskCreated(t: Task): int { t.createdAt }
  function ChatCreated(c: Chat): int { c.createdAt }

  /** The `name` sort keys. */
  function AdminName(a: Admin): string { a.name }
  function EmployeeName(e: Employee): string { e.name }

  /** The `{ id, name, email }` selection of a related admin or employee. */
  datatype Person = Person(id: Id, name: string, email: string)

  function AdminPerson(a: Admin): Person { Person(a.id, a.name, a.email) }

  function EmployeePerson(e: Employee): Person { Person(e.id, e.name, e.email) }

  // ---------------------------------------------------------------------------
  // Sessions

  const COMPANY := "COMPANY"
  const ADMIN := "ADMIN"
  const EMPLOYEE := "EMPLOYEE"
  const SUPERADMIN := "SUPERADMIN"

  /**
   * The user of a decoded session token. `id` and `role` are the empty string
   * when the token does not carry them (JavaScript treats both as falsy).
   */
  datatype Principal = Principal(id: string, role: string, companyId: Option<string>, adminId: Option<string>)

  /**
   * What each session getter yields for the current request: the generic
   * next-auth session, the admin, employee and company cookie sessions, and
   * `getAnySession`.
   */
  datatype Sessions = Sessions(
    generic: Option<Principal>, admin: Option<Principal>, employee: Option<Principal>,
    company: Option<Principal>, any: Option<Principal>)

  /** `session?.user?.id && session?.user?.role`. */
  predicate Identified(s: Option<Principal>) {
    s.Some? && Truthy(s.value.id) && Truthy(s.value.role)
  }

  /** `session && session.role === role`. */
  predicate HasRole(s: Option<Principal>, role: string) {
    s.Some? && s.value.role == role
  }

  /** `a || b || c || d` over the four next-auth session getters, tried in that order. */
  function FirstSession(s: Sessions): (r: Option<Principal>)
    ensures r.Some? <==> s.generic.Some? || s.admin.Some? || s.employee.Some? || s.company.Some?
    ensures s.generic.Some? ==> r == s.generic
    ensures s.generic.None? && s.admin.Some? ==> r == s.admin
    ensures s.generic.None? && s.admin.None? && s.employee.Some? ==> r == s.employee
    ensures s.generic.None? && s.admin.None? && s.employee.None? ==> r == s.company
  {
    if s.generic.Some? then s.generic
    else if s.admin.Some? then s.admin
    else if s.employee.Some? then s.employee
    else s.company
  }

  // ---------------------------------------------------------------------------
  // Lookups (`findUnique`)

  /** A `company_id` condition; Prisma drops a condition whose value is `undefined` (`None`). */
  predicate InCompany(filter: Option<Id>, companyId: Id) {
    filter.None? || companyId == filter.value
  }

  /** A truthy session id as a filter value, `undefined` otherwise. */
  function IdFilter(id: string): Option<Id> {
    if Truthy(id) then Some(id) else None
  }

  function CompanyById(cs: seq<Company>, id: Id): Option<Company> {
    Find(cs, (c: Company) => c.id == id)
  }

  function CompanyByEmail(cs: seq<Company>, email: string): Option<Company> {
    Find(cs, (c: Company) => c.email == email)
  }

  function AdminById(admins: seq<Admin>, id: Id): Option<Admin> {
    Find(admins, (a: Admin) => a.id == id)
  }

  function AdminByEmail(admins: seq<Admin>, email: string): Option<Admin> {
    Find(admins, (a: Admin) => a.email == email)
  }

  function EmployeeById(es: seq<Employee>, id: Id): Option<Employee> {
    Find(es, (e: Employee) => e.id == id)
  }

  function EmployeeByEmail(es: seq<Employee>, email: string): Option<Employee> {
    Find(es, (e: Employee) => e.email == email)
  }

  function TeamById(ts: seq<Team>, id: Id): Option<Team> {
    Find(ts, (t: Team) => t.id == id)
  }

  function TaskById(ts: seq<Task>, id: Id): Option<Task> {
    Find(ts, (t: Task) => t.id == id)
  }

  // ---------------------------------------------------------------------------
  // Schema constraints

  function CompanyKey(c: Company): Id { c.id }
  function CompanyEmail(c: Company): string { c.email }
  function AdminKey(a: Admin): Id { a.id }
  function AdminEmail(a: Admin): string { a.email }
  function EmployeeKey(e: Employee): Id { e.id }
  function EmployeeEmail(e: Employee): string { e.email }
  function TeamKey(t: Team): Id { t.id }
  function TaskKey(t: Task): Id { t.id }
  function ChatKey(c: Chat): Id { c.id }

  ghost predicate CompaniesUnique(cs: seq<Company>) {
    UniqueBy(cs, CompanyKey) && UniqueBy(cs, CompanyEmail)
  }

  ghost predicate AdminsUnique(admins: seq<Admin>) {
    UniqueBy(admins, AdminKey) && UniqueBy(admins, AdminEmail)
  }

  ghost predicate EmployeesUnique(es: seq<Employee>) {
    UniqueBy(es, EmployeeKey) && UniqueBy(es, EmployeeEmail)
  }

  ghost predicate TeamsUnique(ts: seq<Team>) {
    UniqueBy(ts, TeamKey)
  }

  ghost predicate TasksUnique(ts: seq<Task>) {
    UniqueBy(ts, TaskKey)
  }

  ghost predicate ChatsUnique(cs: seq<Chat>) {
    UniqueBy(cs, ChatKey)
  }

  /** Every membership's team exists (the relation is required in the schema). */
  ghost predicate MembersReferenceTeams(ms: seq<TeamMember>, ts: seq<Team>) {
    forall m :: m in ms ==> TeamById(ts, m.teamId).Some?
  }

  class Db {
    var companies: seq<Company>
    var admins: seq<Admin>
    var employees: seq<Employee>
    var teams: seq<Team>
    var members: seq<TeamMember>
    var tasks: seq<Task>
    var chats: seq<Chat>

    ghost predicate Valid()
      reads this
    {
      && CompaniesUnique(companies)
      && AdminsUnique(admins)
      && EmployeesUnique(employees)
      && TeamsUnique(teams)
      && TasksUnique(tasks)
      && ChatsUnique(chats)
      && MembersReferenceTeams(members, teams)
    }

    constructor ()
      ensures Valid()
      ensures companies == [] && admins == [] && employees == [] && teams == []
      ensures members == [] && tasks == [] && chats == []
    {
      companies, admins, employees, teams := [], [], [], [];
      members, tasks, chats := [], [], [];
    }
  }
}
