/**
 * Account credentials: `app/api/user/change-password/route.ts`,
 * `app/api/auth/forgot-password/route.ts` and `app/api/auth/signup/route.ts`.
 * A password change or reset overwrites the hash of exactly one row, found
 * by id or by e-mail, in the company, admin or employee table.
 */
module Accounts {
  import opened Common
  import opened Store

  /** A row to rewrite: its table and its position there. */
  datatype Account = CompanyAccount(i: nat) | AdminAccount(i: nat) | EmployeeAccount(i: nat)

  /** The account exists in the store. */
  predicate InStore(db: Db, acc: Account)
    reads db
  {
    match acc
    case CompanyAccount(i) => i < |db.companies|
    case AdminAccount(i) => i < |db.admins|
    case EmployeeAccount(i) => i < |db.employees|
  }

  /** The stored hash of an account. */
  function StoredHash(db: Db, acc: Account): Hash
    reads db
    requires InStore(db, acc)
  {
    match acc
    case CompanyAccount(i) => db.companies[i].password
    case AdminAccount(i) => db.admins[i].password
    case EmployeeAccount(i) => db.employees[i].password
  }

  /**
   * Overwrites the password hash of one account; every other row and every
   * other column stays as it was.
   */
  method SetPassword(db: Db, acc: Account, h: Hash)
    requires db.Valid() && InStore(db, acc)
    modifies db
    ensures db.Valid()
    ensures acc.CompanyAccount? ==>
      db.companies == old(db.companies)[acc.i := old(db.companies)[acc.i].(password := h)]
      && unchanged(db`admins, db`employees)
    ensures acc.AdminAccount? ==>
      db.admins == old(db.admins)[acc.i := old(db.admins)[acc.i].(password := h)]
      && unchanged(db`companies, db`employees)
    ensures acc.EmployeeAccount? ==>
      db.employees == old(db.employees)[acc.i := old(db.employees)[acc.i].(password := h)]
      && unchanged(db`companies, db`admins)
    ensures unchanged(db`teams, db`members, db`tasks, db`chats)
  {
    match acc
    case CompanyAccount(i) =>
      var c := db.companies[i].(password := h);
      UniqueBySameKey(db.companies, i, c, CompanyKey);
      UniqueBySameKey(db.companies, i, c, CompanyEmail);
      db.companies := db.companies[i := c];
    case AdminAccount(i) =>
      var a := db.admins[i].(password := h);
      UniqueBySameKey(db.admins, i, a, AdminKey);
      UniqueBySameKey(db.admins, i, a, AdminEmail);
      db.admins := db.admins[i := a];
    case EmployeeAccount(i) =>
      var e := db.employees[i].(password := h);
      UniqueBySameKey(db.employees, i, e, EmployeeKey);
      UniqueBySameKey(db.employees, i, e, EmployeeEmail);
      db.employees := db.employees[i := e];
  }

  // ---------------------------------------------------------------------------
  // POST /api/user/change-password

  const MIN_PASSWORD := 8

  /** The JSON body of a password change. */
  datatype ChangeBody = ChangeBody(currentPassword: Option<string>, newPassword: Option<string>)

  /**
   * The record of a session's role with the session's id: the first company,
   * admin or employee row with that id, none for a missing row or any other
   * role.
   */
  function SessionAccount(db: Db, p: Principal): (r: Option<Account>)
    reads db
    ensures r.Some? ==> InStore(db, r.value)
    ensures p.role !in {COMPANY, ADMIN, EMPLOYEE} ==> r.None?
    ensures p.role == COMPANY ==>
      && ((forall c :: c in db.companies ==> c.id != p.id) ==> r.None?)
      && ((exists c :: c in db.companies && c.id == p.id) ==> r == Some(CompanyAccount(IndexOfKey(db.companies, CompanyKey, p.id))))
    ensures p.role == ADMIN ==>
      && ((forall a :: a in db.admins ==> a.id != p.id) ==> r.None?)
      && ((exists a :: a in db.admins && a.id == p.id) ==> r == Some(AdminAccount(IndexOfKey(db.admins, AdminKey, p.id))))
    ensures p.role == EMPLOYEE ==>
      && ((forall e :: e in db.employees ==> e.id != p.id) ==> r.None?)
      && ((exists e :: e in db.employees && e.id == p.id) ==> r == Some(EmployeeAccount(IndexOfKey(db.employees, EmployeeKey, p.id))))
    ensures r.Some? ==>
      match r.value
      case CompanyAccount(i) => p.role == COMPANY && db.companies[i].id == p.id
      case AdminAccount(i) => p.role == ADMIN && db.admins[i].id == p.id
      case EmployeeAccount(i) => p.role == EMPLOYEE && db.employees[i].id == p.id
  {
    if p.role == COMPANY then
      var i := IndexOfKey(db.companies, CompanyKey, p.id);
      if i < |db.companies| then Some(CompanyAccount(i)) else None
    else if p.role == ADMIN then
      var i := IndexOfKey(db.admins, AdminKey, p.id);
      if i < |db.admins| then Some(AdminAccount(i)) else None
    else if p.role == EMPLOYEE then
      var i := IndexOfKey(db.employees, EmployeeKey, p.id);
      if i < |db.employees| then Some(EmployeeAccount(i)) else None
    else None
  }

  /** The checks before any lookup pass: an identified session, both passwords, a new one of 8 characters or more. */
  predicate ChangeReady(s: Sessions, b: ChangeBody) {
    Identified(s.generic) && Given(b.currentPassword) && Given(b.newPassword) && |b.newPassword.value| >= MIN_PASSWORD
  }

  /**
   * The account a password change rewrites: 401 without an id and role, 400
   * without both passwords, 400 for a new password under 8 characters (all
   * before any lookup), then the record of the session's role, 400 when the
   * current password does not match it, 404 when there is no such record or
   * the role is another one.
   */
  function ChangeTarget(db: Db, s: Sessions, b: ChangeBody): (r: Reply<Account>)
    reads db
    ensures !Identified(s.generic) ==> r == Err(401, "Unauthorized")
    ensures Identified(s.generic) && !(Given(b.currentPassword) && Given(b.newPassword)) ==>
      r == Err(400, "Current password and new password are required")
    ensures Identified(s.generic) && Given(b.currentPassword) && Given(b.newPassword) && |b.newPassword.value| < MIN_PASSWORD ==>
      r == Err(400, "New password must be at least 8 characters")
    ensures (Identified(s.generic) && s.generic.value.role !in {COMPANY, ADMIN, EMPLOYEE}
      && Given(b.currentPassword) && Given(b.newPassword) && |b.newPassword.value| >= MIN_PASSWORD) ==>
      r == Err(404, "User not found")
    ensures ChangeReady(s, b) && SessionAccount(db, s.generic.value).None? ==> r == Err(404, "User not found")
    ensures ChangeReady(s, b) && SessionAccount(db, s.generic.value).Some? ==>
      var acc := SessionAccount(db, s.generic.value).value;
      && (!Matches(b.currentPassword.value, StoredHash(db, acc)) ==> r == Err(400, "Current password is incorrect"))
      && (Matches(b.currentPassword.value, StoredHash(db, acc)) ==> r == Ok(200, acc))
    ensures r.Err? ==> r.status in {400, 401, 404}
    ensures r.Ok? ==>
      && Identified(s.generic) && Given(b.currentPassword) && Given(b.newPassword)
      && |b.newPassword.value| >= MIN_PASSWORD && r.status == 200
      && InStore(db, r.value) && Matches(b.currentPassword.value, StoredHash(db, r.value))
    ensures r.Ok? ==> var p := s.generic.value;
      match r.value
      case CompanyAccount(i) => p.role == COMPANY && db.companies[i].id == p.id
      case AdminAccount(i) => p.role == ADMIN && db.admins[i].id == p.id
      case EmployeeAccount(i) => p.role == EMPLOYEE && db.employees[i].id == p.id
  {
    if !Identified(s.generic) then Err(401, "Unauthorized")
    else if !Given(b.currentPassword) || !Given(b.newPassword) then
      Err(400, "Current password and new password are required")
    else if |b.newPassword.value| < MIN_PASSWORD then Err(400, "New password must be at least 8 characters")
    else
      var acc := SessionAccount(db, s.generic.value);
      var current := b.currentPassword.value;
      if acc.None? then Err(404, "User not found")
      else if !Matches(current, StoredHash(db, acc.value)) then Err(400, "Current password is incorrect")
      else Ok(200, acc.value)
  }

  /**
   * POST /api/user/change-password: replaces the hash of the caller's own
   * record by the hash of the new password exactly when the checks pass;
   * answers `{ success: true }`.
   */
  method ChangePassword(db: Db, s: Sessions, b: ChangeBody) returns (r: Reply<bool>)
    requires db.Valid()
    modifies db
    ensures db.Valid()
    ensures var t := old(ChangeTarget(db, s, b));
      && (t.Err? ==> r == Err(t.status, t.error) && unchanged(db))
      && (t.Ok? ==> r == Ok(200, true) && InStore(db, t.value) && StoredHash(db, t.value) == HashOf(b.newPassword.value))
    ensures var t := old(ChangeTarget(db, s, b));
      t.Ok? ==> match t.value
        case CompanyAccount(i) =>
          db.companies == old(db.companies)[i := old(db.companies)[i].(password := HashOf(b.newPassword.value))]
          && unchanged(db`admins, db`employees)
        case AdminAccount(i) =>
          db.admins == old(db.admins)[i := old(db.admins)[i].(password := HashOf(b.newPassword.value))]
          && unchanged(db`companies, db`employees)
        case EmployeeAccount(i) =>
          db.employees == old(db.employees)[i := old(db.employees)[i].(password := HashOf(b.newPassword.value))]
          && unchanged(db`companies, db`admins)
    ensures unchanged(db`teams, db`members, db`tasks, db`chats)
  {
    var t := ChangeTarget(db, s, b);
    if t.Err? {
      return Err(t.status, t.error);
    }
    SetPassword(db, t.value, HashOf(b.newPassword.value));
    r := Ok(200, true);
  }

  // ---------------------------------------------------------------------------
  // POST /api/auth/forgot-password

  /** The JSON body of a password reset. */
  datatype ResetBody = ResetBody(email: Option<string>, newPassword: Option<string>)

  /**
   * The account a reset rewrites: 400 without an e-mail and a new password,
   * then the first company, else the first admin, else the first employee
   * with the e-mail, 404 when none has it. No session is involved and the
   * new password has no length requirement.
   */
  function ResetTarget(db: Db, b: ResetBody): (r: Reply<Account>)
    reads db
    ensures !(Given(b.email) && Given(b.newPassword)) ==> r == Err(400, "Email and new password are required")
    ensures r.Err? ==> r.status in {400, 404}
    ensures Given(b.email) && Given(b.newPassword) ==> var email := b.email.value;
      && (r == Err(404, "User not found") <==>
            (forall c :: c in db.companies ==> c.email != email)
            && (forall a :: a in db.admins ==> a.email != email)
            && (forall e :: e in db.employees ==> e.email != email))
    ensures Given(b.email) && Given(b.newPassword) ==> var email := b.email.value;
      && ((exists c :: c in db.companies && c.email == email) ==>
            r == Ok(200, CompanyAccount(IndexOfKey(db.companies, CompanyEmail, email))))
      && ((forall c :: c in db.companies ==> c.email != email) && (exists a :: a in db.admins && a.email == email) ==>
            r == Ok(200, AdminAccount(IndexOfKey(db.admins, AdminEmail, email))))
      && ((forall c :: c in db.companies ==> c.email != email) && (forall a :: a in db.admins ==> a.email != email)
          && (exists e :: e in db.employees && e.email == email) ==>
            r == Ok(200, EmployeeAccount(IndexOfKey(db.employees, EmployeeEmail, email))))
    ensures r.Ok? ==> var email := b.email.value;
      && r.status == 200 && InStore(db, r.value)
      && match r.value
         case CompanyAccount(i) => db.companies[i].email == email
         case AdminAccount(i) =>
           db.admins[i].email == email && forall c :: c in db.companies ==> c.email != email
         case EmployeeAccount(i) =>
           db.employees[i].email == email && (forall c :: c in db.companies ==> c.email != email)
           && forall a :: a in db.admins ==> a.email != email
  {
    if !Given(b.email) || !Given(b.newPassword) then Err(400, "Email and new password are required")
    else
      var email := b.email.value;
      var ci := IndexOfKey(db.companies, CompanyEmail, email);
      if ci < |db.companies| then Ok(200, CompanyAccount(ci))
      else
        var ai := IndexOfKey(db.admins, AdminEmail, email);
        if ai < |db.admins| then Ok(200, AdminAccount(ai))
        else
          var ei := IndexOfKey(db.employees, EmployeeEmail, email);
          if ei < |db.employees| then Ok(200, EmployeeAccount(ei))
          else Err(404, "User not found")
  }

  /** POST /api/auth/forgot-password: replaces the hash of the first account with the e-mail; `{ success: true }`. */
  method ForgotPassword(db: Db, b: ResetBody) returns (r: Reply<bool>)
    requires db.Valid()
    modifies db
    ensures db.Valid()
    ensures var t := old(ResetTarget(db, b));
      && (t.Err? ==> r == Err(t.status, t.error) && unchanged(db))
      && (t.Ok? ==> r == Ok(200, true) && InStore(db, t.value) && StoredHash(db, t.value) == HashOf(b.newPassword.value))
    ensures var t := old(ResetTarget(db, b));
      t.Ok? ==> match t.value
        case CompanyAccount(i) =>
          db.companies == old(db.companies)[i := old(db.companies)[i].(password := HashOf(b.newPassword.value))]
          && unchanged(db`admins, db`employees)
        case AdminAccount(i) =>
          db.admins == old(db.admins)[i := old(db.admins)[i].(password := HashOf(b.newPassword.value))]
          && unchanged(db`companies, db`employees)
        case EmployeeAccount(i) =>
          db.employees == old(db.employees)[i := old(db.employees)[i].(password := HashOf(b.newPassword.value))]
          && unchanged(db`companies, db`admins)
    ensures unchanged(db`teams, db`members, db`tasks, db`chats)
  {
    var t := ResetTarget(db, b);
    if t.Err? {
      return Err(t.status, t.error);
    }
    SetPassword(db, t.value, HashOf(b.newPassword.value));
    r := Ok(200, true);
  }

  /**
   * A reset accepts a new password that a change refuses for being short,
   * for an account it finds by e-mail alone.
   */
  lemma ResetSkipsLengthCheck(db: Db, s: Sessions, email: string, current: string, short: string)
    requires Identified(s.generic) && current != "" && email != "" && short != "" && |short| < MIN_PASSWORD
    requires exists c :: c in db.companies && c.email == email
    ensures ResetTarget(db, ResetBody(Some(email), Some(short))).Ok?
    ensures ChangeTarget(db, s, ChangeBody(Some(current), Some(short))) == Err(400, "New password must be at least 8 characters")
  {
  }

  // ---------------------------------------------------------------------------
  // POST /api/auth/signup

  /** The JSON body of a company sign-up. */
  datatype SignupBody = SignupBody(name: Option<string>, email: Option<string>, password: Option<string>)

  /**
   * The outcome of a sign-up: 400 without name, e-mail and password, 400
   * for a password under 8 characters, 400 when a company has the e-mail;
   * otherwise the new company with the hashed password.
   */
  function NewCompany(db: Db, b: SignupBody, newId: Id, now: int): (r: Reply<Company>)
    reads db
    ensures !(Given(b.name) && Given(b.email) && Given(b.password)) ==> r == Err(400, "Missing required fields")
    ensures Given(b.name) && Given(b.email) && Given(b.password) && |b.password.value| < MIN_PASSWORD ==>
      r == Err(400, "Password must be at least 8 characters")
    ensures r.Err? ==> r.status == 400
    ensures r.Ok? ==>
      && Given(b.name) && Given(b.email) && Given(b.password) && |b.password.value| >= MIN_PASSWORD
      && (forall c :: c in db.companies ==> c.email != b.email.value)
      && r.status == 201 && r.value == Company(newId, b.name.value, b.email.value, HashOf(b.password.value), now)
    ensures Given(b.name) && Given(b.email) && Given(b.password) && |b.password.value| >= MIN_PASSWORD ==>
      (r.Ok? <==> forall c :: c in db.companies ==> c.email != b.email.value)
  {
    if !Given(b.name) || !Given(b.email) || !Given(b.password) then Err(400, "Missing required fields")
    else if |b.password.value| < MIN_PASSWORD then Err(400, "Password must be at least 8 characters")
    else if CompanyByEmail(db.companies, b.email.value).Some? then Err(400, "Company with this email already exists")
    else Ok(201, Company(newId, b.name.value, b.email.value, HashOf(b.password.value), now))
  }

  /** The sign-up response: the new company's id, name and e-mail, never the password. */
  function SignupView(r: Reply<Company>): Reply<Person> {
    match r
    case Ok(status, c) => Ok(status, Person(c.id, c.name, c.email))
    case Err(status, error) => Err(status, error)
  }

  /** POST /api/auth/signup: inserts the company exactly when every check passes. */
  method Signup(db: Db, b: SignupBody, newId: Id, now: int) returns (r: Reply<Person>)
    requires db.Valid()
    requires forall c :: c in db.companies ==> c.id != newId
    modifies db
    ensures db.Valid()
    ensures var n := old(NewCompany(db, b, newId, now));
      && r == SignupView(n)
      && (n.Ok? ==> db.companies == old(db.companies) + [n.value])
      && (n.Err? ==> db.companies == old(db.companies))
    ensures unchanged(db`admins, db`employees, db`teams, db`members, db`tasks, db`chats)
  {
    var n := NewCompany(db, b, newId, now);
    if n.Ok? {
      UniqueByAppend(db.companies, n.value, CompanyKey);
      UniqueByAppend(db.companies, n.value, CompanyEmail);
      db.companies := db.companies + [n.value];
    }
    r := SignupView(n);
  }

  /** A company that signed up can be found by its e-mail, and its stored hash matches the chosen password. */
  lemma {:induction false} SignupThenFind(cs: seq<Company>, c: Company, password: string)
    requires forall x :: x in cs ==> x.email != c.email
    requires c.password == HashOf(password)
    ensures CompanyByEmail(cs + [c], c.email) == Some(c)
    ensures Matches(password, CompanyByEmail(cs + [c], c.email).value.password)
  {
    var r := CompanyByEmail(cs + [c], c.email);
    assert c in cs + [c];
    assert r.Some?;
    assert r.value in cs + [c] && r.value.email == c.email;
  }
}
