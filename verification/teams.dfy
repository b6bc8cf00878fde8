/**
 * Teams: `app/api/admin/teams/route.ts` (an admin's company teams and team
 * creation with its memberships) and `app/api/employee/teams/route.ts` (the
 * teams an employee belongs to).
 */
module Teams {
  import opened Common
  import opened Store

  // ---------------------------------------------------------------------------
  // Views

  /** A membership with the `{ id, name, email }` of its admin and its employee. */
  datatype MemberView = MemberView(member: TeamMember, admin: Option<Person>, employee: Option<Person>)

  /** A team with its memberships and the `_count` of its tasks and memberships. */
  datatype TeamView = TeamView(team: Team, members: seq<MemberView>, taskCount: nat, memberCount: nat)

  /** A team with its memberships only, as the employee route includes it (no `_count`). */
  datatype MemberTeam = MemberTeam(team: Team, members: seq<MemberView>)

  function AdminSummary(admins: seq<Admin>, id: Option<Id>): Option<Person> {
    if id.None? then None
    else
      match AdminById(admins, id.value)
      case Some(a) => Some(AdminPerson(a))
      case None => None
  }

  function EmployeeSummary(es: seq<Employee>, id: Option<Id>): Option<Person> {
    if id.None? then None
    else
      match EmployeeById(es, id.value)
      case Some(e) => Some(EmployeePerson(e))
      case None => None
  }

  function MemberViewOf(admins: seq<Admin>, es: seq<Employee>, m: TeamMember): MemberView {
    MemberView(m, AdminSummary(admins, m.adminId), EmployeeSummary(es, m.employeeId))
  }

  /** The memberships of a team, in table order. */
  function MembersOf(ms: seq<TeamMember>, teamId: Id): (r: seq<TeamMember>)
    ensures forall m :: m in r <==> m in ms && m.teamId == teamId
    ensures forall m :: multiset(r)[m] == (if m.teamId == teamId then multiset(ms)[m] else 0)
  {
    Filter(ms, (m: TeamMember) => m.teamId == teamId)
  }

  /** The memberships of a team, in table order, each with its admin and employee. */
  function MemberViews(admins: seq<Admin>, es: seq<Employee>, ms: seq<TeamMember>, teamId: Id): (r: seq<MemberView>)
    ensures |r| == |MembersOf(ms, teamId)|
    ensures forall i :: 0 <= i < |r| ==> r[i] == MemberViewOf(admins, es, MembersOf(ms, teamId)[i])
    ensures forall i :: 0 <= i < |r| ==> r[i].member in ms && r[i].member.teamId == teamId
  {
    var mine := MembersOf(ms, teamId);
    var views := Map(mine, (m: TeamMember) => MemberViewOf(admins, es, m));
    assert forall i :: 0 <= i < |views| ==> views[i].member == mine[i] && mine[i] in mine;
    views
  }

  /** A team as the admin route includes it: its memberships and its counters. */
  function TeamViewOf(admins: seq<Admin>, es: seq<Employee>, ms: seq<TeamMember>, tasks: seq<Task>, t: Team): (r: TeamView)
    ensures r.team == t && r.memberCount == |r.members| == |MembersOf(ms, t.id)|
    ensures forall i :: 0 <= i < |r.members| ==> r.members[i] == MemberViewOf(admins, es, MembersOf(ms, t.id)[i])
    ensures forall i :: 0 <= i < |r.members| ==> r.members[i].member in ms && r.members[i].member.teamId == t.id
    ensures r.taskCount == Count(tasks, (k: Task) => k.teamId == Some(t.id))
  {
    var views := MemberViews(admins, es, ms, t.id);
    TeamView(t, views, Count(tasks, (k: Task) => k.teamId == Some(t.id)), |views|)
  }

  function TeamViewCreated(v: TeamView): int { v.team.createdAt }

  /** Each team as the handlers include it, in the same order. */
  function TeamViews(admins: seq<Admin>, es: seq<Employee>, ms: seq<TeamMember>, tasks: seq<Task>, ts: seq<Team>): (r: seq<TeamView>)
    ensures |r| == |ts|
    ensures forall i :: 0 <= i < |r| ==> ts[i] in ts && r[i] == TeamViewOf(admins, es, ms, tasks, ts[i])
    ensures forall t :: t in ts ==> TeamViewOf(admins, es, ms, tasks, t) in r
    ensures Sorted(ts, Descending(TeamCreated)) ==> Sorted(r, Descending(TeamViewCreated))
  {
    var view := (t: Team) => TeamViewOf(admins, es, ms, tasks, t);
    MapMembers(ts, view);
    if Sorted(ts, Descending(TeamCreated)) then
      MapKeepsDescending(ts, view, TeamCreated, TeamViewCreated);
      Map(ts, view)
    else Map(ts, view)
  }

  // ---------------------------------------------------------------------------
  // GET /api/admin/teams

  /** The message of the route's `catch`, for GET and for POST. */
  const FETCH_FAILED := "Failed to fetch teams"
  const CREATE_FAILED := "Failed to create team"

  /**
   * The admin of the admin session: 401 unless the session has role ADMIN,
   * 500 with the handler's `failure` message when it has no id (the lookup
   * throws into the `catch`), 404 when no admin has it.
   */
  function TeamAdmin(db: Db, s: Sessions, failure: string): (r: Reply<Admin>)
    reads db
    ensures !HasRole(s.admin, ADMIN) ==> r == Err(401, "Unauthorized")
    ensures HasRole(s.admin, ADMIN) && !Truthy(s.admin.value.id) ==> r == Err(500, failure)
    ensures HasRole(s.admin, ADMIN) && Truthy(s.admin.value.id) && AdminById(db.admins, s.admin.value.id).None? ==>
      r == Err(404, "Admin not found")
    ensures HasRole(s.admin, ADMIN) && Truthy(s.admin.value.id) && AdminById(db.admins, s.admin.value.id).Some? ==>
      r == Ok(200, AdminById(db.admins, s.admin.value.id).value)
    ensures r.Ok? ==> HasRole(s.admin, ADMIN) && r.value in db.admins && r.value.id == s.admin.value.id
  {
    if !HasRole(s.admin, ADMIN) then Err(401, "Unauthorized")
    else if !Truthy(s.admin.value.id) then Err(500, failure)
    else
      match AdminById(db.admins, s.admin.value.id)
      case None => Err(404, "Admin not found")
      case Some(a) => Ok(200, a)
  }

  /** A company's teams, newest first. */
  function CompanyTeams(teams: seq<Team>, companyId: Id): (r: seq<Team>)
    ensures Sorted(r, Descending(TeamCreated))
    ensures forall t :: t in r <==> t in teams && t.companyId == companyId
    ensures forall t :: multiset(r)[t] == (if t.companyId == companyId then multiset(teams)[t] else 0)
  {
    NewestFirst(teams, (t: Team) => t.companyId == companyId, TeamCreated)
  }

  /** GET /api/admin/teams: every team of the admin's company, newest first, with memberships and counters. */
  function GetTeams(db: Db, s: Sessions): (r: Reply<seq<TeamView>>)
    reads db
    ensures HasRole(s.admin, ADMIN) && !Truthy(s.admin.value.id) ==> r == Err(500, "Failed to fetch teams")
    ensures TeamAdmin(db, s, FETCH_FAILED).Err? ==> r == Err(TeamAdmin(db, s, FETCH_FAILED).status, TeamAdmin(db, s, FETCH_FAILED).error)
    ensures TeamAdmin(db, s, FETCH_FAILED).Ok? ==> r.Ok?
    ensures r.Ok? ==> TeamAdmin(db, s, FETCH_FAILED).Ok? && r.status == 200 && Sorted(r.value, Descending(TeamViewCreated))
    ensures r.Ok? ==> var companyId := TeamAdmin(db, s, FETCH_FAILED).value.companyId;
      && (forall t :: t in db.teams && t.companyId == companyId ==>
            TeamViewOf(db.admins, db.employees, db.members, db.tasks, t) in r.value)
      && (forall i :: 0 <= i < |r.value| ==>
            r.value[i].team in db.teams && r.value[i].team.companyId == companyId
            && r.value[i] == TeamViewOf(db.admins, db.employees, db.members, db.tasks, r.value[i].team))
    ensures r.Ok? ==> var ts := CompanyTeams(db.teams, TeamAdmin(db, s, FETCH_FAILED).value.companyId);
      |r.value| == |ts| && forall i :: 0 <= i < |r.value| ==> r.value[i] == TeamViewOf(db.admins, db.employees, db.members, db.tasks, ts[i])
  {
    match TeamAdmin(db, s, FETCH_FAILED)
    case Err(status, error) => Err(status, error)
    case Ok(_, a) =>
      Ok(200, TeamViews(db.admins, db.employees, db.members, db.tasks, CompanyTeams(db.teams, a.companyId)))
  }

  // ---------------------------------------------------------------------------
  // POST /api/admin/teams: the employee id list

  /** A JSON value from the request body; arrays and objects are `JOther`. */
  datatype Json = JString(s: string) | JNumber(n: real) | JBool(b: bool) | JNull | JOther

  /** JavaScript truthiness of a parsed JSON value: `""`, `0`, `false` and `null` are falsy. */
  predicate JsTruthy(j: Json) {
    match j
    case JString(x) => x != ""
    case JNumber(n) => n != 0.0
    case JBool(b) => b
    case JNull => false
    case JOther => true
  }

  /** `includeAdmin = true` then `includeAdmin ? [...] : []`: the default replaces only an absent field. */
  predicate IncludesAdmin(o: Option<Json>) {
    o.None? || JsTruthy(o.value)
  }

  /** Only an absent `includeAdmin` takes the default; `null`, `false`, `0` and `""` are falsy. */
  lemma IncludeAdminDefaults()
    ensures IncludesAdmin(None) && IncludesAdmin(Some(JBool(true)))
    ensures !IncludesAdmin(Some(JNull)) && !IncludesAdmin(Some(JBool(false)))
    ensures !IncludesAdmin(Some(JNumber(0.0))) && !IncludesAdmin(Some(JString("")))
  {
  }

  /** `id.trim().length > 0`. */
  predicate NonBlank(s: string) {
    |Trim(s)| > 0
  }

  /** The string elements that are not blank, in order (`filter` with the type guard). */
  function StringIds(xs: seq<Json>): (r: seq<string>)
    ensures forall x :: x in r <==> JString(x) in xs && NonBlank(x)
  {
    if xs == [] then []
    else
      var rest := StringIds(xs[1..]);
      assert xs == [xs[0]] + xs[1..];
      if xs[0].JString? && NonBlank(xs[0].s) then [xs[0].s] + rest else rest
  }

  /** `filter` keeps the order: the ids of a concatenation are those of each part, in turn. */
  lemma {:induction false} StringIdsAppend(xs: seq<Json>, ys: seq<Json>)
    ensures StringIds(xs + ys) == StringIds(xs) + StringIds(ys)
    decreases |xs|
  {
    if xs == [] {
      assert xs + ys == ys;
    } else {
      assert (xs + ys)[1..] == xs[1..] + ys;
      StringIdsAppend(xs[1..], ys);
    }
  }

  /** A single element is kept exactly when it is a non-blank string. */
  lemma StringIdsSingle(x: Json)
    ensures StringIds([x]) == if x.JString? && NonBlank(x.s) then [x.s] else []
  {
    assert [x][1..] == [];
  }

  /** The position of the first occurrence of `x` in `s`, or `|s|`. */
  function FirstIndex<T(==)>(s: seq<T>, x: T): (i: nat)
    ensures i <= |s|
    ensures forall j :: 0 <= j < i ==> s[j] != x
    ensures i < |s| <==> x in s
    ensures i < |s| ==> s[i] == x
  {
    if s == [] then 0 else if s[0] == x then 0 else 1 + FirstIndex(s[1..], x)
  }

  /** Extending a sequence does not move the first occurrence of an element it already has. */
  lemma FirstIndexExtend<T>(s: seq<T>, y: T, x: T)
    requires x in s
    ensures FirstIndex(s + [y], x) == FirstIndex(s, x)
  {
    var t := s + [y];
    var i, k := FirstIndex(t, x), FirstIndex(s, x);
    assert t[k] == x;
    assert s[i] == x;
  }

  /** `Array.from(new Set(s))`: each element once, in the order of first occurrence. */
  function Dedup(s: seq<string>): (r: seq<string>)
    ensures Distinct(r)
    ensures forall x :: x in r <==> x in s
    ensures forall i, j :: 0 <= i < j < |r| ==> FirstIndex(s, r[i]) < FirstIndex(s, r[j])
  {
    if s == [] then []
    else
      var init, last := s[..|s| - 1], s[|s| - 1];
      assert s == init + [last];
      var d := Dedup(init);
      if last in d then
        DedupKeepOrder(init, last, d);
        d
      else
        DedupAppendOrder(init, last, d);
        d + [last]
  }

  /** The order step of `Dedup` when the new element is already present. */
  lemma DedupKeepOrder(init: seq<string>, last: string, d: seq<string>)
    requires forall x :: x in d <==> x in init
    requires forall i, j :: 0 <= i < j < |d| ==> FirstIndex(init, d[i]) < FirstIndex(init, d[j])
    ensures forall i, j :: 0 <= i < j < |d| ==> FirstIndex(init + [last], d[i]) < FirstIndex(init + [last], d[j])
  {
    forall i, j | 0 <= i < j < |d| ensures FirstIndex(init + [last], d[i]) < FirstIndex(init + [last], d[j]) {
      assert d[i] in d && d[j] in d;
      FirstIndexExtend(init, last, d[i]);
      FirstIndexExtend(init, last, d[j]);
    }
  }

  /** The order step of `Dedup` when the new element is appended. */
  lemma DedupAppendOrder(init: seq<string>, last: string, d: seq<string>)
    requires forall x :: x in d <==> x in init
    requires last !in init
    requires forall i, j :: 0 <= i < j < |d| ==> FirstIndex(init, d[i]) < FirstIndex(init, d[j])
    ensures var r, s := d + [last], init + [last];
      forall i, j :: 0 <= i < j < |r| ==> FirstIndex(s, r[i]) < FirstIndex(s, r[j])
  {
    var r, s := d + [last], init + [last];
    forall i, j | 0 <= i < j < |r| ensures FirstIndex(s, r[i]) < FirstIndex(s, r[j]) {
      assert r[i] == d[i] && d[i] in d;
      FirstIndexExtend(init, last, r[i]);
      if j < |d| {
        assert r[j] == d[j] && d[j] in d;
        FirstIndexExtend(init, last, r[j]);
      } else {
        assert s[|init|] == last;
        assert FirstIndex(s, last) == |init|;
      }
    }
  }

  /** The sanitised `uniqueEmployeeIds`: exactly the non-blank string ids, once each, in first-occurrence order. */
  function SanitizeIds(xs: seq<Json>): (r: seq<string>)
    ensures Distinct(r)
    ensures forall x :: x in r <==> JString(x) in xs && NonBlank(x)
    ensures forall i, j :: 0 <= i < j < |r| ==> FirstIndex(StringIds(xs), r[i]) < FirstIndex(StringIds(xs), r[j])
  {
    Dedup(StringIds(xs))
  }

  /** A list without repeats is its own `Dedup`. */
  lemma {:induction false} DedupDistinct(s: seq<string>)
    requires Distinct(s)
    ensures Dedup(s) == s
  {
    if s != [] {
      var init, last := s[..|s| - 1], s[|s| - 1];
      assert s == init + [last];
      assert Distinct(init) by {
        forall i, j | 0 <= i < j < |init| ensures init[i] != init[j] {
          assert init[i] == s[i] && init[j] == s[j];
        }
      }
      DedupDistinct(init);
      assert last !in init by {
        forall k | 0 <= k < |init| ensures init[k] != last {
          assert init[k] == s[k];
        }
      }
    }
  }

  /**
   * `validEmployeeIds`: the ids of the caller's employees among the
   * sanitised ids, in table order; no lookup when there are none.
   */
  function OwnedIds(es: seq<Employee>, adminId: Id, ids: seq<string>): (r: seq<Id>)
    ensures ids == [] ==> r == []
    ensures forall x :: x in r <==> x in ids && exists e :: e in es && e.id == x && e.adminId == Some(adminId)
    ensures UniqueBy(es, EmployeeKey) ==> Distinct(r)
  {
    if |ids| == 0 then []
    else
      var owned := OwnedRows(es, adminId, ids);
      KeysOf(owned);
      Map(owned, EmployeeKey)
  }

  /** The caller's employees whose id is among `ids`, in table order. */
  function OwnedRows(es: seq<Employee>, adminId: Id, ids: seq<string>): (r: seq<Employee>)
    ensures forall e :: e in r <==> e in es && e.id in ids && e.adminId == Some(adminId)
    ensures UniqueBy(es, EmployeeKey) ==> UniqueBy(r, EmployeeKey)
  {
    OwnedRowsUnique(es, adminId, ids);
    Filter(es, OwnedBy(adminId, ids))
  }

  function OwnedBy(adminId: Id, ids: seq<string>): Employee -> bool {
    (e: Employee) => e.id in ids && e.adminId == Some(adminId)
  }

  lemma OwnedRowsUnique(es: seq<Employee>, adminId: Id, ids: seq<string>)
    ensures UniqueBy(es, EmployeeKey) ==> UniqueBy(Filter(es, OwnedBy(adminId, ids)), EmployeeKey)
  {
    if UniqueBy(es, EmployeeKey) {
      UniqueByFilter(es, OwnedBy(adminId, ids), EmployeeKey);
    }
  }

  /** The ids of some rows are exactly the ids those rows carry, and distinct when the rows' ids are unique. */
  lemma {:induction false} KeysOf(rows: seq<Employee>)
    ensures forall x :: x in Map(rows, EmployeeKey) <==> exists e :: e in rows && e.id == x
    ensures UniqueBy(rows, EmployeeKey) ==> Distinct(Map(rows, EmployeeKey))
  {
    var r := Map(rows, EmployeeKey);
    MapMembers(rows, EmployeeKey);
    forall x | x in r ensures exists e :: e in rows && e.id == x {
      var i :| 0 <= i < |r| && r[i] == x;
      assert rows[i] in rows;
    }
  }

  // ---------------------------------------------------------------------------
  // POST /api/admin/teams: the new rows

  /** The admin's membership, present exactly when `includeAdmin`, then one per owned employee id. */
  function Memberships(teamId: Id, adminId: Id, includeAdmin: bool, ids: seq<Id>): (r: seq<TeamMember>)
    ensures forall m :: m in r ==> m.teamId == teamId
    ensures (exists m :: m in r && m.adminId.Some?) <==> includeAdmin
    ensures includeAdmin ==> r[0] == TeamMember(teamId, Some(adminId), None)
    ensures forall x :: TeamMember(teamId, None, Some(x)) in r <==> x in ids
    ensures Distinct(ids) ==> Distinct(r)
    ensures |r| == (if includeAdmin then 1 else 0) + |ids|
  {
    var head := if includeAdmin then [TeamMember(teamId, Some(adminId), None)] else [];
    var tail := EmployeeMembers(teamId, ids);
    var r := head + tail;
    assert forall m :: m in r ==> m in head || m in tail;
    assert includeAdmin ==> r[0] in r;
    r
  }

  /** One membership of the team per employee id, in order. */
  function EmployeeMembers(teamId: Id, ids: seq<Id>): (r: seq<TeamMember>)
    ensures |r| == |ids|
    ensures forall m :: m in r ==> m.teamId == teamId && m.adminId.None?
    ensures forall x :: TeamMember(teamId, None, Some(x)) in r <==> x in ids
    ensures Distinct(ids) ==> Distinct(r)
  {
    var tail := Map(ids, (x: Id) => TeamMember(teamId, None, Some(x)));
    MapMembers(ids, (x: Id) => TeamMember(teamId, None, Some(x)));
    assert forall i :: 0 <= i < |tail| ==> tail[i].adminId.None? && tail[i].employeeId == Some(ids[i]);
    assert forall x :: TeamMember(teamId, None, Some(x)) in tail ==> x in ids by {
      forall x | TeamMember(teamId, None, Some(x)) in tail ensures x in ids {
        var k :| 0 <= k < |tail| && tail[k] == TeamMember(teamId, None, Some(x));
      }
    }
    tail
  }

  /** The JSON body of POST /api/admin/teams; absent fields are `None`. */
  datatype TeamBody = TeamBody(
    name: Option<string>, description: Option<string>, employeeIds: Option<seq<Json>>, includeAdmin: Option<Json>)

  /** The team row and its membership rows. */
  datatype NewTeamRows = NewTeamRows(team: Team, members: seq<TeamMember>)

  /**
   * The outcome of POST /api/admin/teams: the admin checks, 400 without a
   * name, otherwise the team under the admin's company with the admin's
   * membership when `includeAdmin` is absent or truthy and one membership
   * per sanitised id of an employee the admin manages.
   */
  function NewTeam(db: Db, s: Sessions, b: TeamBody, newId: Id, now: int): (r: Reply<NewTeamRows>)
    reads db
    ensures HasRole(s.admin, ADMIN) && !Truthy(s.admin.value.id) ==> r == Err(500, "Failed to create team")
    ensures TeamAdmin(db, s, CREATE_FAILED).Err? ==> r == Err(TeamAdmin(db, s, CREATE_FAILED).status, TeamAdmin(db, s, CREATE_FAILED).error)
    ensures TeamAdmin(db, s, CREATE_FAILED).Ok? && !Given(b.name) ==> r == Err(400, "Team name is required")
    ensures TeamAdmin(db, s, CREATE_FAILED).Ok? && Given(b.name) ==> r.Ok?
    ensures r.Ok? ==> var a := TeamAdmin(db, s, CREATE_FAILED).value;
      var ids := SanitizeIds(if b.employeeIds.Some? then b.employeeIds.value else []);
      && TeamAdmin(db, s, CREATE_FAILED).Ok? && Given(b.name) && r.status == 201
      && r.value.team == Team(newId, b.name.value, OrNull(b.description), a.companyId, a.id, now)
      && r.value.members == Memberships(newId, a.id, IncludesAdmin(b.includeAdmin), OwnedIds(db.employees, a.id, ids))
    ensures r.Ok? ==> r.value.team.id == newId && forall m :: m in r.value.members ==> m.teamId == newId
  {
    match TeamAdmin(db, s, CREATE_FAILED)
    case Err(status, error) => Err(status, error)
    case Ok(_, a) =>
      if !Given(b.name) then Err(400, "Team name is required")
      else
        var ids := SanitizeIds(if b.employeeIds.Some? then b.employeeIds.value else []);
        var owned := OwnedIds(db.employees, a.id, ids);
        var team := Team(newId, b.name.value, OrNull(b.description), a.companyId, a.id, now);
        Ok(201, NewTeamRows(team, Memberships(newId, a.id, IncludesAdmin(b.includeAdmin), owned)))
  }

  /** A present but falsy `includeAdmin` (`null`, `false`, `0`, `""`) leaves the admin out of the new team. */
  lemma FalsyIncludeAdminOmitsAdmin(db: Db, s: Sessions, b: TeamBody, newId: Id, now: int)
    requires NewTeam(db, s, b, newId, now).Ok?
    requires b.includeAdmin.Some? && !JsTruthy(b.includeAdmin.value)
    ensures forall m :: m in NewTeam(db, s, b, newId, now).value.members ==> m.adminId.None?
  {
  }

  /** Every membership a created team carries names an employee of the creating admin, and at most once. */
  lemma NewTeamMembersOwned(db: Db, s: Sessions, b: TeamBody, newId: Id, now: int)
    requires db.Valid()
    requires NewTeam(db, s, b, newId, now).Ok?
    ensures var rows := NewTeam(db, s, b, newId, now).value;
      && Distinct(rows.members)
      && forall m :: m in rows.members && m.employeeId.Some? ==>
           exists e :: e in db.employees && e.id == m.employeeId.value && e.adminId == Some(rows.team.adminId)
  {
    var rows := NewTeam(db, s, b, newId, now).value;
    var a := TeamAdmin(db, s, CREATE_FAILED).value;
    var ids := SanitizeIds(if b.employeeIds.Some? then b.employeeIds.value else []);
    var owned := OwnedIds(db.employees, a.id, ids);
    forall m | m in rows.members && m.employeeId.Some?
      ensures exists e :: e in db.employees && e.id == m.employeeId.value && e.adminId == Some(rows.team.adminId)
    {
      assert m == TeamMember(newId, None, Some(m.employeeId.value));
      assert m.employeeId.value in owned;
    }
  }

  /** Adding a team together with memberships of that team keeps every membership's team present. */
  lemma {:induction false} MembersReferenceNewTeam(members: seq<TeamMember>, teams: seq<Team>, team: Team, ms: seq<TeamMember>)
    requires MembersReferenceTeams(members, teams)
    requires forall m :: m in ms ==> m.teamId == team.id
    ensures MembersReferenceTeams(members + ms, teams + [team])
  {
    var all := teams + [team];
    forall m | m in members + ms ensures TeamById(all, m.teamId).Some? {
      if m in members {
        var t := TeamById(teams, m.teamId).value;
        assert t in all;
      } else {
        assert team in all;
      }
    }
  }

  /** POST /api/admin/teams: inserts the team and its memberships exactly when every check passes. */
  method PostTeam(db: Db, s: Sessions, b: TeamBody, newId: Id, now: int) returns (r: Reply<NewTeamRows>)
    requires db.Valid()
    requires forall t :: t in db.teams ==> t.id != newId
    modifies db
    ensures db.Valid()
    ensures r == old(NewTeam(db, s, b, newId, now))
    ensures r.Ok? ==> db.teams == old(db.teams) + [r.value.team] && db.members == old(db.members) + r.value.members
    ensures r.Err? ==> db.teams == old(db.teams) && db.members == old(db.members)
    ensures unchanged(db`companies, db`admins, db`employees, db`tasks, db`chats)
  {
    r := NewTeam(db, s, b, newId, now);
    if r.Ok? {
      InsertTeam(db, r.value.team, r.value.members);
    }
  }

  /** Stores a new team and memberships of that team. */
  method InsertTeam(db: Db, team: Team, ms: seq<TeamMember>)
    requires db.Valid()
    requires forall t :: t in db.teams ==> t.id != team.id
    requires forall m :: m in ms ==> m.teamId == team.id
    modifies db
    ensures db.Valid()
    ensures db.teams == old(db.teams) + [team] && db.members == old(db.members) + ms
    ensures unchanged(db`companies, db`admins, db`employees, db`tasks, db`chats)
  {
    UniqueByAppend(db.teams, team, TeamKey);
    MembersReferenceNewTeam(db.members, db.teams, team, ms);
    db.teams := db.teams + [team];
    db.members := db.members + ms;
  }

  // ---------------------------------------------------------------------------
  // GET /api/employee/teams

  /** A membership matched by the `employee_id` condition; an `undefined` id drops the condition. */
  predicate MembershipOf(filter: Option<Id>, m: TeamMember) {
    filter.None? || m.employeeId == Some(filter.value)
  }

  /** The memberships matched by the `employee_id` condition, in table order. */
  function EmployeeMemberships(ms: seq<TeamMember>, filter: Option<Id>): (r: seq<TeamMember>)
    ensures forall m :: m in r <==> m in ms && MembershipOf(filter, m)
  {
    Filter(ms, (m: TeamMember) => MembershipOf(filter, m))
  }

  /** The team of each membership (the required `team` relation), in membership order. */
  function TeamsOf(teams: seq<Team>, mine: seq<TeamMember>): (r: seq<Team>)
    requires forall m :: m in mine ==> TeamById(teams, m.teamId).Some?
    ensures |r| == |mine|
    ensures forall i :: 0 <= i < |r| ==> r[i] in teams && r[i].id == mine[i].teamId
  {
    if mine == [] then []
    else
      assert mine[0] in mine;
      [TeamById(teams, mine[0].teamId).value] + TeamsOf(teams, mine[1..])
  }

  /** A team with its memberships, as the employee route includes it. */
  function MemberTeamOf(admins: seq<Admin>, es: seq<Employee>, ms: seq<TeamMember>, t: Team): MemberTeam {
    MemberTeam(t, MemberViews(admins, es, ms, t.id))
  }

  /** `views` holds, in order, the team of each membership of `mine`, with that team's memberships. */
  ghost predicate TeamsOfMembers(views: seq<MemberTeam>, mine: seq<TeamMember>,
                                 admins: seq<Admin>, es: seq<Employee>, ms: seq<TeamMember>, teams: seq<Team>) {
    && |views| == |mine|
    && forall i :: 0 <= i < |views| ==>
         views[i].team in teams && views[i].team.id == mine[i].teamId
         && views[i] == MemberTeamOf(admins, es, ms, views[i].team)
  }

  /** The team of each membership, in membership order, with that team's memberships. */
  function MembershipTeams(admins: seq<Admin>, es: seq<Employee>, ms: seq<TeamMember>, teams: seq<Team>,
                           mine: seq<TeamMember>): (r: seq<MemberTeam>)
    requires forall m :: m in mine ==> TeamById(teams, m.teamId).Some?
    ensures TeamsOfMembers(r, mine, admins, es, ms, teams)
  {
    var ts := TeamsOf(teams, mine);
    var view := (t: Team) => MemberTeamOf(admins, es, ms, t);
    var views := Map(ts, view);
    assert forall i :: 0 <= i < |views| ==> views[i] == view(ts[i]) && views[i].team == ts[i];
    views
  }

  /**
   * GET /api/employee/teams: 401 unless the employee session has role
   * EMPLOYEE; otherwise one team per matching membership, in membership
   * order, each with its own memberships.
   */
  function GetEmployeeTeams(db: Db, s: Sessions): (r: Reply<seq<MemberTeam>>)
    reads db
    requires MembersReferenceTeams(db.members, db.teams)
    ensures !HasRole(s.employee, EMPLOYEE) ==> r == Err(401, "Unauthorized")
    ensures HasRole(s.employee, EMPLOYEE) ==> r.Ok?
    ensures r.Ok? ==> var mine := EmployeeMemberships(db.members, IdFilter(s.employee.value.id));
      && HasRole(s.employee, EMPLOYEE) && r.status == 200
      && TeamsOfMembers(r.value, mine, db.admins, db.employees, db.members, db.teams)
    ensures r.Ok? && Truthy(s.employee.value.id) ==>
      forall m :: m in EmployeeMemberships(db.members, Some(s.employee.value.id)) ==>
        m in db.members && m.employeeId == Some(s.employee.value.id)
  {
    if !HasRole(s.employee, EMPLOYEE) then Err(401, "Unauthorized")
    else
      var id := s.employee.value.id;
      var mine := EmployeeMemberships(db.members, IdFilter(id));
      Ok(200, MembershipTeams(db.admins, db.employees, db.members, db.teams, mine))
  }
}
