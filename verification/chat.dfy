/**
 * Company chat: `app/api/chat/route.ts` (reading and sending messages),
 * `app/api/chat/unread/route.ts` (the unread badge) and
 * `app/api/chat/contacts/route.ts` (whom a user may write to).
 */
module Chats {
  import opened Common
  import opened Store

  const PERSONAL := "personal"
  const TEAM := "team"
  const TASK := "task"
  const GROUP := "group"

  /** At most this many messages are returned per request. */
  const PAGE := 100

  // ---------------------------------------------------------------------------
  // GET /api/chat

  /** The `chatType`, `teamId`, `taskId` and `receiverId` search parameters. */
  datatype ChatQuery = ChatQuery(
    chatType: Option<string>, teamId: Option<string>, taskId: Option<string>, receiverId: Option<string>)

  /**
   * The `where` filter of a caller `me` in company `companyId`: the company
   * always; a personal view keeps the caller's own conversations (only the
   * one with `receiverId` when given); team and task views keep that type
   * (of one team or task when given); the group view keeps group chats; any
   * other view, including the default "all", keeps the whole company.
   */
  predicate ChatVisible(me: Id, companyId: Id, q: ChatQuery, c: Chat) {
    var view := OrElse(q.chatType, "all");
    && c.companyId == companyId
    && (view == PERSONAL ==>
          && c.chatType == PERSONAL
          && (c.senderId == me || c.receiverId == Some(me))
          && (Given(q.receiverId) ==>
                (c.senderId == me && c.receiverId == q.receiverId)
                || (c.senderId == q.receiverId.value && c.receiverId == Some(me))))
    && (view == TEAM ==> c.chatType == TEAM && (Given(q.teamId) ==> c.teamId == q.teamId))
    && (view == TASK ==> c.chatType == TASK && (Given(q.taskId) ==> c.taskId == q.taskId))
    && (view == GROUP ==> c.chatType == GROUP)
  }

  /** All messages the caller's filter keeps, oldest first. */
  function Conversation(db: Db, me: Principal, q: ChatQuery): (r: seq<Chat>)
    reads db
    requires Given(me.companyId)
    ensures Sorted(r, Ascending(ChatCreated))
    ensures forall c :: c in r <==> c in db.chats && ChatVisible(me.id, me.companyId.value, q, c)
    ensures forall c :: multiset(r)[c] == if ChatVisible(me.id, me.companyId.value, q, c) then multiset(db.chats)[c] else 0
  {
    OldestFirst(db.chats, (c: Chat) => ChatVisible(me.id, me.companyId.value, q, c), ChatCreated)
  }

  /**
   * GET /api/chat as written: `orderBy: { createdAt: "asc" }, take: 100`,
   * which keeps the 100 oldest messages of the conversation.
   */
  function GetChats(db: Db, s: Sessions, q: ChatQuery): (r: Reply<seq<Chat>>)
    reads db
    ensures !Identified(FirstSession(s)) ==> r == Err(401, "Unauthorized")
    ensures Identified(FirstSession(s)) && !Given(FirstSession(s).value.companyId) ==> r == Err(400, "Company ID not found")
    ensures Identified(FirstSession(s)) && Given(FirstSession(s).value.companyId) ==>
      r == Ok(200, Take(Conversation(db, FirstSession(s).value, q), PAGE))
    ensures r.Ok? ==> r.status == 200 && |r.value| <= PAGE && Sorted(r.value, Ascending(ChatCreated))
    ensures r.Ok? ==> var me := FirstSession(s).value;
      forall c :: c in r.value ==>
        c in db.chats && c.companyId == me.companyId.value && ChatVisible(me.id, me.companyId.value, q, c)
    ensures r.Ok? && OrElse(q.chatType, "all") == PERSONAL ==> var me := FirstSession(s).value;
      forall c :: c in r.value ==> c.chatType == PERSONAL && (c.senderId == me.id || c.receiverId == Some(me.id))
  {
    var me := FirstSession(s);
    if !Identified(me) then Err(401, "Unauthorized")
    else if !Given(me.value.companyId) then Err(400, "Company ID not found")
    else Ok(200, Take(Conversation(db, me.value, q), PAGE))
  }

  /** When a conversation is longer than a page, the messages dropped are the newest ones. */
  lemma {:induction false} GetChatsDropsNewest(db: Db, s: Sessions, q: ChatQuery)
    requires GetChats(db, s, q).Ok?
    ensures var me, r := FirstSession(s).value, GetChats(db, s, q).value;
      forall c, d :: c in db.chats && ChatVisible(me.id, me.companyId.value, q, c) && c !in r && d in r ==>
        d.createdAt <= c.createdAt
  {
    TakeDropsLatest(Conversation(db, FirstSession(s).value, q), PAGE, ChatCreated);
  }

  /** With unique chat ids a row occurs at most once in the table. */
  lemma {:induction false} ChatOccursOnce(cs: seq<Chat>, c: Chat)
    requires ChatsUnique(cs)
    ensures multiset(cs)[c] <= 1
  {
    if cs != [] {
      assert cs == [cs[0]] + cs[1..];
      ChatOccursOnce(cs[1..], c);
      if cs[0] == c {
        assert c !in cs[1..];
      }
    }
  }

  /** An element that occurs once in a sequence and is its last is not in any shorter prefix. */
  lemma {:induction false} LastNotInPrefix<T>(s: seq<T>, n: nat)
    requires n < |s|
    requires multiset(s)[s[|s| - 1]] <= 1
    ensures s[|s| - 1] !in Take(s, n)
  {
    var x := s[|s| - 1];
    assert s == s[..n] + s[n..];
    assert multiset(s) == multiset(s[..n]) + multiset(s[n..]);
    assert x in s[n..];
  }

  /**
   * The discrepancy of GET /api/chat: with 101 visible messages the newest
   * one, the message just sent, is not returned.
   */
  lemma {:induction false} GetChatsMissesLatest(db: Db, s: Sessions, q: ChatQuery)
    requires ChatsUnique(db.chats)
    requires Identified(FirstSession(s)) && Given(FirstSession(s).value.companyId)
    requires |Conversation(db, FirstSession(s).value, q)| > PAGE
    ensures var all := Conversation(db, FirstSession(s).value, q);
      all[|all| - 1] !in GetChats(db, s, q).value
  {
    var me := FirstSession(s).value;
    var all := Conversation(db, me, q);
    ConversationOnce(db, me, q, all[|all| - 1]);
    LastNotInPrefix(all, PAGE);
  }

  /** With unique chat ids a message occurs at most once in a conversation. */
  lemma {:induction false} ConversationOnce(db: Db, me: Principal, q: ChatQuery, c: Chat)
    requires ChatsUnique(db.chats) && Given(me.companyId)
    ensures multiset(Conversation(db, me, q))[c] <= 1
  {
    ChatOccursOnce(db.chats, c);
  }

  /** GET /api/chat as the handler's comment intends it: the last 100 messages, oldest first. */
  function GetLatestChats(db: Db, s: Sessions, q: ChatQuery): (r: Reply<seq<Chat>>)
    reads db
    ensures !Identified(FirstSession(s)) ==> r == Err(401, "Unauthorized")
    ensures Identified(FirstSession(s)) && !Given(FirstSession(s).value.companyId) ==> r == Err(400, "Company ID not found")
    ensures Identified(FirstSession(s)) && Given(FirstSession(s).value.companyId) ==>
      r == Ok(200, Last(Conversation(db, FirstSession(s).value, q), PAGE))
    ensures r.Ok? ==> r.status == 200 && |r.value| <= PAGE && Sorted(r.value, Ascending(ChatCreated))
    ensures r.Ok? ==> var me := FirstSession(s).value;
      forall c :: c in r.value ==> c in db.chats && ChatVisible(me.id, me.companyId.value, q, c)
  {
    var me := FirstSession(s);
    if !Identified(me) then Err(401, "Unauthorized")
    else if !Given(me.value.companyId) then Err(400, "Company ID not found")
    else Ok(200, Last(Conversation(db, me.value, q), PAGE))
  }

  /** The corrected read never drops a message newer than one it returns, and always returns the newest. */
  lemma {:induction false} LatestChatsKeepNewest(db: Db, s: Sessions, q: ChatQuery)
    requires GetLatestChats(db, s, q).Ok?
    ensures var me, r := FirstSession(s).value, GetLatestChats(db, s, q).value;
      forall c, d :: c in db.chats && ChatVisible(me.id, me.companyId.value, q, c) && c !in r && d in r ==>
        c.createdAt <= d.createdAt
    ensures var all := Conversation(db, FirstSession(s).value, q);
      all != [] ==> all[|all| - 1] in GetLatestChats(db, s, q).value
  {
    LastKeepsLatest(Conversation(db, FirstSession(s).value, q), PAGE, ChatCreated);
  }

  /** The default view is only the company filter: it includes personal messages between two other users. */
  lemma DefaultViewShowsCompanyChats(db: Db, me: Principal, q: ChatQuery, c: Chat)
    requires Given(me.companyId) && !Given(q.chatType)
    requires c in db.chats && c.companyId == me.companyId.value
    ensures c in Conversation(db, me, q)
  {
  }

  // ---------------------------------------------------------------------------
  // POST /api/chat

  /** The JSON body; an absent field is `None`. */
  datatype ChatBody = ChatBody(
    message: Option<string>, chatType: Option<string>, receiverId: Option<string>,
    teamId: Option<string>, taskId: Option<string>)

  /** The company of `adminReceiver || employeeReceiver`: an admin with the id is preferred. */
  function ReceiverCompany(db: Db, id: Id): (r: Option<Id>)
    reads db
    ensures r.Some? ==>
      (exists a :: a in db.admins && a.id == id && a.companyId == r.value)
      || ((forall a :: a in db.admins ==> a.id != id) && exists e :: e in db.employees && e.id == id && e.companyId == r.value)
    ensures r.None? <==> (forall a :: a in db.admins ==> a.id != id) && (forall e :: e in db.employees ==> e.id != id)
  {
    match AdminById(db.admins, id)
    case Some(a) => Some(a.companyId)
    case None =>
      match EmployeeById(db.employees, id)
      case Some(e) => Some(e.companyId)
      case None => None
  }

  /** `receiver_type`: "admin" when an admin has the id, else "employee" when an employee has it, else null. */
  function ReceiverType(db: Db, receiverId: Option<string>): (r: Option<string>)
    reads db
    ensures r == Some("admin") <==> Given(receiverId) && exists a :: a in db.admins && a.id == receiverId.value
    ensures r == Some("employee") <==>
      && Given(receiverId) && (forall a :: a in db.admins ==> a.id != receiverId.value)
      && exists e :: e in db.employees && e.id == receiverId.value
    ensures r.None? ==> !Given(receiverId) || ReceiverCompany(db, receiverId.value).None?
  {
    if !Given(receiverId) then None
    else if AdminById(db.admins, receiverId.value).Some? then Some("admin")
    else if EmployeeById(db.employees, receiverId.value).Some? then Some("employee")
    else None
  }

  /** The target check: a personal, team or task chat naming a target must name one of the sender's company. */
  predicate TargetAllowed(db: Db, companyId: Id, b: ChatBody)
    reads db
    requires b.chatType.Some?
  {
    var t := b.chatType.value;
    if t == PERSONAL && Given(b.receiverId) then ReceiverCompany(db, b.receiverId.value) == Some(companyId)
    else if t == TEAM && Given(b.teamId) then
      match TeamById(db.teams, b.teamId.value)
      case Some(team) => team.companyId == companyId
      case None => false
    else if t == TASK && Given(b.taskId) then
      match TaskById(db.tasks, b.taskId.value)
      case Some(task) => task.companyId == companyId
      case None => false
    else true
  }

  /**
   * The outcome of sending a message: 401 without an identified session,
   * 400 without a company, 400 without message or type, 403 for a target
   * outside the company, otherwise the message row to insert.
   */
  function NewChat(db: Db, s: Sessions, b: ChatBody, newId: Id, now: int): (r: Reply<Chat>)
    reads db
    ensures !Identified(FirstSession(s)) ==> r == Err(401, "Unauthorized")
    ensures Identified(FirstSession(s)) && !Given(FirstSession(s).value.companyId) ==> r == Err(400, "Company ID not found")
    ensures Identified(FirstSession(s)) && Given(FirstSession(s).value.companyId) ==>
      && (!(Given(b.message) && Given(b.chatType)) ==> r == Err(400, "Message and chat type are required"))
      && (Given(b.message) && Given(b.chatType) && !TargetAllowed(db, FirstSession(s).value.companyId.value, b) ==>
            r == Err(403, "Unauthorized"))
      && (Given(b.message) && Given(b.chatType) && TargetAllowed(db, FirstSession(s).value.companyId.value, b) ==> r.Ok?)
    ensures r.Err? ==> r.status in {400, 401, 403}
    ensures r.Ok? ==> var me := FirstSession(s).value;
      && Identified(FirstSession(s)) && Given(me.companyId) && Given(b.message) && Given(b.chatType)
      && r.status == 201 && r.value.id == newId && r.value.createdAt == now && !r.value.isRead
      && r.value.message == b.message.value && r.value.chatType == b.chatType.value
      && r.value.companyId == me.companyId.value && r.value.senderId == me.id
      && r.value.senderType == ToLower(me.role)
      && r.value.receiverId == OrNull(b.receiverId) && r.value.receiverType == ReceiverType(db, b.receiverId)
      && r.value.teamId == OrNull(b.teamId) && r.value.taskId == OrNull(b.taskId)
    ensures r.Ok? && r.value.chatType == PERSONAL && r.value.receiverId.Some? ==>
      ReceiverCompany(db, r.value.receiverId.value) == Some(r.value.companyId)
    ensures r.Ok? && r.value.chatType == TEAM && r.value.teamId.Some? ==>
      exists t :: t in db.teams && t.id == r.value.teamId.value && t.companyId == r.value.companyId
    ensures r.Ok? && r.value.chatType == TASK && r.value.taskId.Some? ==>
      exists t :: t in db.tasks && t.id == r.value.taskId.value && t.companyId == r.value.companyId
  {
    var me := FirstSession(s);
    if !Identified(me) then Err(401, "Unauthorized")
    else if !Given(me.value.companyId) then Err(400, "Company ID not found")
    else if !Given(b.message) || !Given(b.chatType) then Err(400, "Message and chat type are required")
    else if !TargetAllowed(db, me.value.companyId.value, b) then Err(403, "Unauthorized")
    else
      Ok(201, Chat(
        newId, b.message.value, b.chatType.value, me.value.companyId.value, me.value.id,
        ToLower(me.value.role), OrNull(b.receiverId), ReceiverType(db, b.receiverId),
        OrNull(b.teamId), OrNull(b.taskId), false, now))
  }

  /** POST /api/chat: stores the message exactly when every check passes. */
  method PostChat(db: Db, s: Sessions, b: ChatBody, newId: Id, now: int) returns (r: Reply<Chat>)
    requires db.Valid()
    requires forall c :: c in db.chats ==> c.id != newId
    modifies db
    ensures db.Valid()
    ensures r == old(NewChat(db, s, b, newId, now))
    ensures r.Ok? ==> db.chats == old(db.chats) + [r.value]
    ensures r.Err? ==> db.chats == old(db.chats)
    ensures unchanged(db`companies, db`admins, db`employees, db`teams, db`members, db`tasks)
  {
    r := NewChat(db, s, b, newId, now);
    if r.Ok? {
      db.chats := db.chats + [r.value];
    }
  }

  /** A message the caller sent is visible to it in the personal view. */
  lemma SentMessageIsVisible(db: Db, s: Sessions, b: ChatBody, newId: Id, now: int)
    requires NewChat(db, s, b, newId, now).Ok?
    requires b.chatType == Some(PERSONAL)
    ensures var me, c := FirstSession(s).value, NewChat(db, s, b, newId, now).value;
      ChatVisible(me.id, me.companyId.value, ChatQuery(Some(PERSONAL), None, None, b.receiverId), c)
  {
  }

  // ---------------------------------------------------------------------------
  // GET /api/chat/unread

  /** Counted as unread for `me`: in its company, not read, addressed to it or a team/task/group message, not its own. */
  predicate Unread(me: Id, companyId: Id, c: Chat) {
    && c.companyId == companyId
    && !c.isRead
    && (c.receiverId == Some(me) || c.chatType in {TEAM, TASK, GROUP})
    && c.senderId != me
  }

  /** The number of messages of a table unread for `me` in its company. */
  function UnreadIn(chats: seq<Chat>, me: Id, companyId: Id): (n: nat)
    ensures n <= |chats|
    ensures (exists c :: c in chats && Unread(me, companyId, c)) <==> n > 0
  {
    var f := Filter(chats, (c: Chat) => Unread(me, companyId, c));
    assert |f| > 0 ==> f[0] in f;
    |f|
  }

  /** The unread badge: 401 without an identified session, 0 without a company. */
  function UnreadCount(db: Db, s: Sessions): (r: Reply<nat>)
    reads db
    ensures !Identified(s.generic) ==> r == Err(401, "Unauthorized")
    ensures Identified(s.generic) && !Given(s.generic.value.companyId) ==> r == Ok(200, 0)
    ensures r.Ok? ==> r.status == 200 && r.value <= |db.chats|
    ensures Identified(s.generic) && Given(s.generic.value.companyId) ==>
      var me, companyId := s.generic.value.id, s.generic.value.companyId.value;
      && r == Ok(200, UnreadIn(db.chats, me, companyId))
      && (forall c :: c in db.chats && Unread(me, companyId, c) ==> r.value > 0)
      && ((forall c :: c in db.chats ==> !Unread(me, companyId, c)) ==> r.value == 0)
  {
    if !Identified(s.generic) then Err(401, "Unauthorized")
    else if !Given(s.generic.value.companyId) then Ok(200, 0)
    else Ok(200, UnreadIn(db.chats, s.generic.value.id, s.generic.value.companyId.value))
  }

  /**
   * A new message raises the caller's count by one exactly when it is
   * unread for the caller; its own messages, read ones, other companies' and
   * personal messages to others leave it unchanged.
   */
  lemma {:induction false} UnreadAfterAppend(chats: seq<Chat>, me: Id, companyId: Id, c: Chat)
    ensures UnreadIn(chats + [c], me, companyId) == UnreadIn(chats, me, companyId) + (if Unread(me, companyId, c) then 1 else 0)
  {
    FilterAppend(chats, [c], (x: Chat) => Unread(me, companyId, x));
    assert [c] == [c] + [];
  }

  // ---------------------------------------------------------------------------
  // GET /api/chat/contacts

  /** The `{ id, name, email, work_id }` selection of an employee contact. */
  datatype EmployeeContact = EmployeeContact(id: Id, name: string, email: string, workId: Option<string>)

  /** An admin contact; the employee view tags it with the role "ADMIN". */
  datatype AdminContact = AdminContact(id: Id, name: string, email: string, role: Option<string>)

  datatype Contacts =
    | ForAdmin(employees: seq<EmployeeContact>, admins: seq<AdminContact>)
    | ForEmployee(employees: seq<EmployeeContact>, admin: Option<AdminContact>)

  function ContactOf(e: Employee): EmployeeContact {
    EmployeeContact(e.id, e.name, e.email, e.workId)
  }

  function ContactName(c: EmployeeContact): string { c.name }

  function AdminContactName(c: AdminContact): string { c.name }

  /** The employee rows of the contact query: the filtered company without `self`, by name, each as often as stored. */
  function ContactRows(db: Db, filter: Option<Id>, self: Option<Id>): (r: seq<Employee>)
    reads db
    ensures Sorted(r, ByName(EmployeeName))
    ensures forall e :: multiset(r)[e] == (if InCompany(filter, e.companyId) && Some(e.id) != self then multiset(db.employees)[e] else 0)
  {
    NameOrder(db.employees, (e: Employee) => InCompany(filter, e.companyId) && Some(e.id) != self, EmployeeName)
  }

  /** Employees in the filtered company other than `self`, by name. */
  function EmployeeContacts(db: Db, filter: Option<Id>, self: Option<Id>): (r: seq<EmployeeContact>)
    reads db
    ensures Sorted(r, ByName(ContactName))
    ensures forall e :: e in db.employees && InCompany(filter, e.companyId) && Some(e.id) != self ==> ContactOf(e) in r
    ensures forall i :: 0 <= i < |r| ==>
      exists e :: e in db.employees && InCompany(filter, e.companyId) && Some(e.id) != self && r[i] == ContactOf(e)
    ensures |r| == |ContactRows(db, filter, self)|
    ensures forall i :: 0 <= i < |r| ==> r[i] == ContactOf(ContactRows(db, filter, self)[i])
  {
    var rows := ContactRows(db, filter, self);
    assert forall e :: e in rows <==> e in db.employees && InCompany(filter, e.companyId) && Some(e.id) != self by {
      forall e ensures e in rows <==> e in db.employees && InCompany(filter, e.companyId) && Some(e.id) != self {
        assert e in rows <==> multiset(rows)[e] > 0;
        assert e in db.employees <==> multiset(db.employees)[e] > 0;
      }
    }
    EmployeeContactsOfRows(rows);
    Map(rows, ContactOf)
  }

  lemma {:induction false} EmployeeContactsOfRows(rows: seq<Employee>)
    requires Sorted(rows, ByName(EmployeeName))
    ensures Sorted(Map(rows, ContactOf), ByName(ContactName))
    ensures forall e :: e in rows ==> ContactOf(e) in Map(rows, ContactOf)
    ensures forall i :: 0 <= i < |rows| ==> rows[i] in rows && Map(rows, ContactOf)[i] == ContactOf(rows[i])
  {
    var r := Map(rows, ContactOf);
    forall i | 0 < i < |r| ensures ByName(ContactName)(r[i - 1], r[i]) {
      assert ByName(EmployeeName)(rows[i - 1], rows[i]);
      assert ContactName(r[i - 1]) == EmployeeName(rows[i - 1]) && ContactName(r[i]) == EmployeeName(rows[i]);
    }
    forall e | e in rows ensures ContactOf(e) in r {
      var k :| 0 <= k < |rows| && rows[k] == e;
      assert r[k] == ContactOf(e);
    }
  }

  function AdminContactOf(a: Admin): AdminContact {
    AdminContact(a.id, a.name, a.email, None)
  }

  /** The admin rows of the contact query: the filtered company without `self`, by name, each as often as stored. */
  function AdminContactRows(db: Db, filter: Option<Id>, self: Id): (r: seq<Admin>)
    reads db
    ensures Sorted(r, ByName(AdminName))
    ensures forall a :: multiset(r)[a] == (if InCompany(filter, a.companyId) && a.id != self then multiset(db.admins)[a] else 0)
  {
    NameOrder(db.admins, (a: Admin) => InCompany(filter, a.companyId) && a.id != self, AdminName)
  }

  /** Admins in the filtered company other than `self`, by name. */
  function AdminContacts(db: Db, filter: Option<Id>, self: Id): (r: seq<AdminContact>)
    reads db
    ensures Sorted(r, ByName(AdminContactName))
    ensures forall a :: a in db.admins && InCompany(filter, a.companyId) && a.id != self ==> AdminContactOf(a) in r
    ensures forall i :: 0 <= i < |r| ==>
      && r[i].role.None? && r[i].id != self
      && exists a :: a in db.admins && InCompany(filter, a.companyId) && a.id != self && r[i] == AdminContactOf(a)
    ensures |r| == |AdminContactRows(db, filter, self)|
    ensures forall i :: 0 <= i < |r| ==> r[i] == AdminContactOf(AdminContactRows(db, filter, self)[i])
  {
    var rows := AdminContactRows(db, filter, self);
    assert forall a :: a in rows <==> a in db.admins && InCompany(filter, a.companyId) && a.id != self by {
      forall a ensures a in rows <==> a in db.admins && InCompany(filter, a.companyId) && a.id != self {
        assert a in rows <==> multiset(rows)[a] > 0;
        assert a in db.admins <==> multiset(db.admins)[a] > 0;
      }
    }
    AdminContactsOfRows(rows);
    Map(rows, AdminContactOf)
  }

  lemma {:induction false} AdminContactsOfRows(rows: seq<Admin>)
    requires Sorted(rows, ByName(AdminName))
    ensures Sorted(Map(rows, AdminContactOf), ByName(AdminContactName))
    ensures forall a :: a in rows ==> AdminContactOf(a) in Map(rows, AdminContactOf)
    ensures forall i :: 0 <= i < |rows| ==> rows[i] in rows && Map(rows, AdminContactOf)[i] == AdminContactOf(rows[i])
  {
    var r := Map(rows, AdminContactOf);
    forall i | 0 < i < |r| ensures ByName(AdminContactName)(r[i - 1], r[i]) {
      assert ByName(AdminName)(rows[i - 1], rows[i]);
      assert AdminContactName(r[i - 1]) == AdminName(rows[i - 1]) && AdminContactName(r[i]) == AdminName(rows[i]);
    }
    forall a | a in rows ensures AdminContactOf(a) in r {
      var k :| 0 <= k < |rows| && rows[k] == a;
      assert r[k] == AdminContactOf(a);
    }
  }

  /** The employee's admin, tagged "ADMIN", when `admin_id` is set and names an admin. */
  function ManagerContact(db: Db, e: Employee): (r: Option<AdminContact>)
    reads db
    ensures r.Some? <==> e.adminId.Some? && e.adminId.value != "" && exists a :: a in db.admins && a.id == e.adminId.value
    ensures r.Some? ==> r.value.role == Some(ADMIN) && Some(r.value.id) == e.adminId
  {
    if e.adminId.Some? && e.adminId.value != "" then
      match AdminById(db.admins, e.adminId.value)
      case Some(a) => Some(AdminContact(a.id, a.name, a.email, Some(ADMIN)))
      case None => None
    else None
  }

  /** The ADMIN filter value `admin?.company_id`: `None` when the admin row is missing. */
  function CallerCompany(db: Db, id: Id): Option<Id>
    reads db
  {
    match AdminById(db.admins, id)
    case Some(a) => Some(a.companyId)
    case None => None
  }

  /** GET /api/chat/contacts as written. */
  function GetContacts(db: Db, s: Sessions): (r: Reply<Contacts>)
    reads db
    ensures !Identified(FirstSession(s)) ==> r == Err(401, "Unauthorized")
    ensures Identified(FirstSession(s)) && FirstSession(s).value.role !in {ADMIN, EMPLOYEE} ==> r == Err(403, "Unauthorized")
    ensures (HasRole(FirstSession(s), EMPLOYEE) && Identified(FirstSession(s))
      && EmployeeById(db.employees, FirstSession(s).value.id).None?) ==> r == Err(404, "Employee not found")
    ensures HasRole(FirstSession(s), ADMIN) && Identified(FirstSession(s)) ==> var me := FirstSession(s).value.id;
      r == Ok(200, ForAdmin(EmployeeContacts(db, CallerCompany(db, me), None), AdminContacts(db, CallerCompany(db, me), me)))
    ensures (HasRole(FirstSession(s), EMPLOYEE) && Identified(FirstSession(s))
      && EmployeeById(db.employees, FirstSession(s).value.id).Some?) ==>
      var me := FirstSession(s).value.id; var e := EmployeeById(db.employees, me).value;
      r == Ok(200, ForEmployee(EmployeeContacts(db, Some(e.companyId), Some(me)), ManagerContact(db, e)))
    ensures r.Ok? ==> r.status == 200 && (r.value.ForAdmin? <==> HasRole(FirstSession(s), ADMIN))
    ensures r.Ok? && r.value.ForAdmin? ==>
      forall c :: c in r.value.admins ==> c.id != FirstSession(s).value.id
    ensures r.Ok? && r.value.ForEmployee? ==> var me := EmployeeById(db.employees, FirstSession(s).value.id);
      && me.Some?
      && (forall i :: 0 <= i < |r.value.employees| ==>
            && r.value.employees[i].id != me.value.id
            && exists e :: e in db.employees && e.companyId == me.value.companyId && r.value.employees[i] == ContactOf(e))
      && (forall e :: e in db.employees && e.companyId == me.value.companyId && e.id != me.value.id ==>
            ContactOf(e) in r.value.employees)
      && r.value.admin == ManagerContact(db, me.value)
  {
    var caller := FirstSession(s);
    if !Identified(caller) then Err(401, "Unauthorized")
    else
      var me := caller.value.id;
      if caller.value.role == ADMIN then
        var company := CallerCompany(db, me);
        Ok(200, ForAdmin(EmployeeContacts(db, company, None), AdminContacts(db, company, me)))
      else if caller.value.role == EMPLOYEE then
        match EmployeeById(db.employees, me)
        case None => Err(404, "Employee not found")
        case Some(e) => Ok(200, ForEmployee(EmployeeContacts(db, Some(e.companyId), Some(me)), ManagerContact(db, e)))
      else Err(403, "Unauthorized")
  }

  /** An admin's contacts are its company's employees when its row exists. */
  lemma {:induction false} AdminContactsInCompany(db: Db, s: Sessions, e: Employee)
    requires GetContacts(db, s).Ok? && GetContacts(db, s).value.ForAdmin?
    requires AdminById(db.admins, FirstSession(s).value.id).Some?
    requires e in db.employees
    ensures ContactOf(e) in GetContacts(db, s).value.employees
      <== e.companyId == AdminById(db.admins, FirstSession(s).value.id).value.companyId
  {
  }

  /**
   * The discrepancy of GET /api/chat/contacts: an ADMIN session whose admin
   * row is missing lists the employees of every company.
   */
  lemma {:induction false} ContactsLeakWithoutAdmin(db: Db, s: Sessions)
    requires Identified(FirstSession(s)) && HasRole(FirstSession(s), ADMIN)
    requires AdminById(db.admins, FirstSession(s).value.id).None?
    ensures GetContacts(db, s).Ok?
    ensures forall e :: e in db.employees ==> ContactOf(e) in GetContacts(db, s).value.employees
  {
  }

  /** An admin's contacts scoped to its own company: its employees and its fellow admins. */
  function CompanyContacts(db: Db, a: Admin): (r: Contacts)
    reads db
    ensures r.ForAdmin?
    ensures forall i :: 0 <= i < |r.employees| ==>
      exists e :: e in db.employees && e.companyId == a.companyId && r.employees[i] == ContactOf(e)
    ensures forall e :: e in db.employees && e.companyId == a.companyId ==> ContactOf(e) in r.employees
    ensures forall i :: 0 <= i < |r.admins| ==>
      && r.admins[i].id != a.id
      && exists x :: x in db.admins && x.companyId == a.companyId && x.id == r.admins[i].id
  {
    ForAdmin(EmployeeContacts(db, Some(a.companyId), None), AdminContacts(db, Some(a.companyId), a.id))
  }

  /** GET /api/chat/contacts with the ADMIN branch answering 404 when the admin row is missing, as the EMPLOYEE branch does. */
  function GetScopedContacts(db: Db, s: Sessions): (r: Reply<Contacts>)
    reads db
    ensures !Identified(FirstSession(s)) ==> r == Err(401, "Unauthorized")
    ensures Identified(FirstSession(s)) && FirstSession(s).value.role !in {ADMIN, EMPLOYEE} ==> r == Err(403, "Unauthorized")
    ensures (HasRole(FirstSession(s), ADMIN) && Identified(FirstSession(s))
      && AdminById(db.admins, FirstSession(s).value.id).None?) ==> r == Err(404, "Admin not found")
    ensures r.Ok? && r.value.ForAdmin? ==> var me := AdminById(db.admins, FirstSession(s).value.id);
      me.Some? && r == Ok(200, CompanyContacts(db, me.value))
    ensures r.Ok? && r.value.ForEmployee? ==> r == GetContacts(db, s)
  {
    var caller := FirstSession(s);
    if !Identified(caller) then Err(401, "Unauthorized")
    else if caller.value.role == ADMIN then
      match AdminById(db.admins, caller.value.id)
      case None => Err(404, "Admin not found")
      case Some(a) => Ok(200, CompanyContacts(db, a))
    else GetContacts(db, s)
  }
}
