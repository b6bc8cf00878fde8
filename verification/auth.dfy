/**
 * Sign-in: `app/api/auth/employee/signin/route.ts`,
 * `app/api/auth/admin/signin/route.ts` and `app/api/auth/cmp/signin/route.ts`.
 * Each checks an e-mail and a password against one table, encodes the
 * account's claims into a session token and stores it in a cookie named for
 * the portal. Token encoding is abstract: a token is its claims and its
 * lifetime.
 */
module Auth {
  import opened Common
  import opened Store
  import Accounts

  /** The three portals, each with its own table, role and session cookie. */
  datatype Portal = EmployeePortal | AdminPortal | CompanyPortal

  /** The claims of a session token; `companyId` and `adminId` only where the role has them. */
  datatype Claims = Claims(id: Id, email: string, name: string, role: string, companyId: Option<Id>, adminId: Option<Id>)

  /** An encoded session token. */
  datatype Token = Token(claims: Claims, maxAge: nat)

  /** A cookie with the options the handlers set. */
  datatype Cookie = Cookie(value: Token, httpOnly: bool, secure: bool, sameSite: string, path: string, maxAge: nat)

  /** Thirty days, in seconds: the lifetime of the token and of the cookie. */
  const SESSION_MAX_AGE := 30 * 24 * 60 * 60

  const SECURE_PREFIX := "__Secure-"

  function Suffix(portal: Portal): string {
    match portal
    case EmployeePortal => "employee"
    case AdminPortal => "admin"
    case CompanyPortal => "cmp"
  }

  /** The session cookie's name: the portal's suffix, with the `__Secure-` prefix exactly in production. */
  function SessionCookieName(portal: Portal, production: bool): (r: string)
    ensures var base := "next-auth.session-token." + Suffix(portal);
      && (production ==> r == SECURE_PREFIX + base)
      && (!production ==> r == base)
    ensures production <==> |r| >= |SECURE_PREFIX| && r[..|SECURE_PREFIX|] == SECURE_PREFIX
  {
    var base := "next-auth.session-token." + Suffix(portal);
    if production then SECURE_PREFIX + base
    else
      assert |base| < |SECURE_PREFIX| || base[..|SECURE_PREFIX|][0] != SECURE_PREFIX[0];
      base
  }

  /** Different portals never share a cookie, in production or not. */
  lemma CookieNamesDiffer(p: Portal, q: Portal, production: bool)
    requires p != q
    ensures SessionCookieName(p, production) != SessionCookieName(q, production)
  {
    var a, b := SessionCookieName(p, production), SessionCookieName(q, production);
    var k := if production then |SECURE_PREFIX| + 24 else 24;
    assert a[k] != b[k];
  }

  /** The cookie the handlers set for a token. */
  function SessionCookie(claims: Claims, production: bool): (r: Cookie)
    ensures r.value == Token(claims, SESSION_MAX_AGE) && r.maxAge == SESSION_MAX_AGE == 2592000
    ensures r.httpOnly && r.secure == production && r.sameSite == "lax" && r.path == "/"
  {
    Cookie(Token(claims, SESSION_MAX_AGE), true, production, "lax", "/", SESSION_MAX_AGE)
  }

  /** The browser's cookie store as the handler sees it. */
  class CookieJar {
    var cookies: map<string, Cookie>

    constructor (initial: map<string, Cookie>)
      ensures cookies == initial
    {
      cookies := initial;
    }

    /** `cookieStore.set(name, value, options)`. */
    method Set(name: string, c: Cookie)
      modifies this
      ensures cookies == old(cookies)[name := c]
    {
      cookies := cookies[name := c];
    }
  }

  // ---------------------------------------------------------------------------
  // Credential checks

  /** The JSON body of a sign-in. */
  datatype SignInBody = SignInBody(email: Option<string>, password: Option<string>)

  const INVALID := "Invalid email or password"

  function EmployeeClaims(e: Employee): Claims {
    Claims(e.id, e.email, e.name, EMPLOYEE, Some(e.companyId), OrNull(e.adminId))
  }

  function AdminClaims(a: Admin): Claims {
    Claims(a.id, a.email, a.name, ADMIN, Some(a.companyId), None)
  }

  function CompanyClaims(c: Company): Claims {
    Claims(c.id, c.email, c.name, COMPANY, None, None)
  }

  /**
   * The employee sign-in check: 400 without an e-mail and a password, 401
   * with one and the same message for an unknown e-mail and for a wrong
   * password, otherwise the employee's claims.
   */
  function AuthenticateEmployee(es: seq<Employee>, b: SignInBody): (r: Reply<Claims>)
    ensures !(Given(b.email) && Given(b.password)) ==> r == Err(400, "Email and password are required")
    ensures r.Err? ==> r == Err(400, "Email and password are required") || r == Err(401, INVALID)
    ensures r.Ok? <==> Given(b.email) && Given(b.password) && var e := EmployeeByEmail(es, b.email.value);
      e.Some? && Matches(b.password.value, e.value.password)
    ensures r.Ok? ==> r == Ok(200, EmployeeClaims(EmployeeByEmail(es, b.email.value).value))
  {
    if !Given(b.email) || !Given(b.password) then Err(400, "Email and password are required")
    else
      match EmployeeByEmail(es, b.email.value)
      case None => Err(401, INVALID)
      case Some(e) => if !Matches(b.password.value, e.password) then Err(401, INVALID) else Ok(200, EmployeeClaims(e))
  }

  /** The admin sign-in check, as for employees with the admin's claims. */
  function AuthenticateAdmin(admins: seq<Admin>, b: SignInBody): (r: Reply<Claims>)
    ensures !(Given(b.email) && Given(b.password)) ==> r == Err(400, "Email and password are required")
    ensures r.Err? ==> r == Err(400, "Email and password are required") || r == Err(401, INVALID)
    ensures r.Ok? <==> Given(b.email) && Given(b.password) && var a := AdminByEmail(admins, b.email.value);
      a.Some? && Matches(b.password.value, a.value.password)
    ensures r.Ok? ==> r == Ok(200, AdminClaims(AdminByEmail(admins, b.email.value).value))
  {
    if !Given(b.email) || !Given(b.password) then Err(400, "Email and password are required")
    else
      match AdminByEmail(admins, b.email.value)
      case None => Err(401, INVALID)
      case Some(a) => if !Matches(b.password.value, a.password) then Err(401, INVALID) else Ok(200, AdminClaims(a))
  }

  /** The company sign-in check, as for employees with the company's claims. */
  function AuthenticateCompany(cs: seq<Company>, b: SignInBody): (r: Reply<Claims>)
    ensures !(Given(b.email) && Given(b.password)) ==> r == Err(400, "Email and password are required")
    ensures r.Err? ==> r == Err(400, "Email and password are required") || r == Err(401, INVALID)
    ensures r.Ok? <==> Given(b.email) && Given(b.password) && var c := CompanyByEmail(cs, b.email.value);
      c.Some? && Matches(b.password.value, c.value.password)
    ensures r.Ok? ==> r == Ok(200, CompanyClaims(CompanyByEmail(cs, b.email.value).value))
  {
    if !Given(b.email) || !Given(b.password) then Err(400, "Email and password are required")
    else
      match CompanyByEmail(cs, b.email.value)
      case None => Err(401, INVALID)
      case Some(c) => if !Matches(b.password.value, c.password) then Err(401, INVALID) else Ok(200, CompanyClaims(c))
  }

  /**
   * A refusal does not tell an unknown e-mail from a wrong password: with
   * both fields given, an e-mail no employee has and a registered e-mail
   * with the wrong password get the same reply.
   */
  lemma RejectionsIndistinguishable(es: seq<Employee>, unknown: string, known: Employee, password: string, wrong: string)
    requires unknown != "" && password != "" && wrong != ""
    requires forall e :: e in es ==> e.email != unknown
    requires known in es && known.email != "" && !Matches(wrong, known.password)
    requires forall e :: e in es && e.email == known.email ==> e == known
    ensures AuthenticateEmployee(es, SignInBody(Some(unknown), Some(password)))
         == AuthenticateEmployee(es, SignInBody(Some(known.email), Some(wrong)))
         == Err(401, INVALID)
  {
    var found := EmployeeByEmail(es, known.email);
    assert found.Some?;
  }

  // ---------------------------------------------------------------------------
  // The handlers

  /**
   * POST /api/auth/employee/signin: on success sets the employee session
   * cookie holding the claims for thirty days; on any failure the cookie
   * store is left alone.
   */
  method SignInEmployee(db: Db, jar: CookieJar, production: bool, b: SignInBody) returns (r: Reply<Claims>)
    modifies jar
    ensures r == AuthenticateEmployee(db.employees, b)
    ensures r.Ok? ==> jar.cookies == old(jar.cookies)[SessionCookieName(EmployeePortal, production) := SessionCookie(r.value, production)]
    ensures r.Err? ==> jar.cookies == old(jar.cookies)
  {
    r := AuthenticateEmployee(db.employees, b);
    if r.Ok? {
      jar.Set(SessionCookieName(EmployeePortal, production), SessionCookie(r.value, production));
    }
  }

  /** POST /api/auth/admin/signin: as for employees, with the admin cookie. */
  method SignInAdmin(db: Db, jar: CookieJar, production: bool, b: SignInBody) returns (r: Reply<Claims>)
    modifies jar
    ensures r == AuthenticateAdmin(db.admins, b)
    ensures r.Ok? ==> jar.cookies == old(jar.cookies)[SessionCookieName(AdminPortal, production) := SessionCookie(r.value, production)]
    ensures r.Err? ==> jar.cookies == old(jar.cookies)
  {
    r := AuthenticateAdmin(db.admins, b);
    if r.Ok? {
      jar.Set(SessionCookieName(AdminPortal, production), SessionCookie(r.value, production));
    }
  }

  /** POST /api/auth/cmp/signin: as for employees, with the company cookie. */
  method SignInCompany(db: Db, jar: CookieJar, production: bool, b: SignInBody) returns (r: Reply<Claims>)
    modifies jar
    ensures r == AuthenticateCompany(db.companies, b)
    ensures r.Ok? ==> jar.cookies == old(jar.cookies)[SessionCookieName(CompanyPortal, production) := SessionCookie(r.value, production)]
    ensures r.Err? ==> jar.cookies == old(jar.cookies)
  {
    r := AuthenticateCompany(db.companies, b);
    if r.Ok? {
      jar.Set(SessionCookieName(CompanyPortal, production), SessionCookie(r.value, production));
    }
  }

  /** A company that has just signed up can sign in with the same e-mail and password. */
  lemma {:induction false} SignupThenSignIn(cs: seq<Company>, c: Company, password: string)
    requires c.email != "" && password != ""
    requires forall x :: x in cs ==> x.email != c.email
    requires c.password == HashOf(password)
    ensures AuthenticateCompany(cs + [c], SignInBody(Some(c.email), Some(password))) == Ok(200, CompanyClaims(c))
  {
    Accounts.SignupThenFind(cs, c, password);
  }
}
