/** The target portal client (bitrix.py): the decision on a webhook reply, the parsers
    of the user and task searches, the user and task field builders, the memoised user
    lookup and the find / delete / create state machine for tasks. The portal itself is
    an in-memory object whose replies are given by `Respond`. */
module Bitrix {
  import opened PyValues
  import opened PyText
  import Jira

  // ---------------------------------------------------------------------------
  // Decimal text of ids, and Python's int()

  predicate IsDigit(c: char) {
    '0' <= c <= '9'
  }

  predicate AllDigits(s: string) {
    forall i :: 0 <= i < |s| ==> IsDigit(s[i])
  }

  function DigitChar(d: nat): (c: char)
    requires d < 10
    ensures IsDigit(c) && c as int - '0' as int == d
  {
    ('0' as int + d) as char
  }

  /** The decimal digits of a natural number, without leading zeros. */
  function Digits(n: nat): string {
    if n < 10 then [DigitChar(n)] else Digits(n / 10) + [DigitChar(n % 10)]
  }

  /** `str(n)` for an integer. */
  function Decimal(n: int): string {
    if n < 0 then "-" + Digits(-n) else Digits(n)
  }

  /** The value of a run of decimal digits. */
  function DigitsValue(s: string): nat
    requires AllDigits(s)
  {
    if s == [] then 0 else DigitsValue(s[..|s| - 1]) * 10 + (s[|s| - 1] as int - '0' as int)
  }

  /** `int(s)` on text: an optional sign followed by one or more ASCII digits; anything
      else raises ValueError (None here). */
  function ParseInt(s: string): (r: Option<int>)
    ensures r.Some? ==> s != []
  {
    if s != [] && (s[0] == '-' || s[0] == '+') then
      var body := s[1..];
      if body != [] && AllDigits(body) then
        Some(if s[0] == '-' then 0 - DigitsValue(body) else DigitsValue(body))
      else None
    else if s != [] && AllDigits(s) then Some(DigitsValue(s))
    else None
  }

  lemma {:induction false} DigitsRoundTrip(n: nat)
    ensures Digits(n) != [] && AllDigits(Digits(n)) && DigitsValue(Digits(n)) == n
  {
    if n >= 10 {
      DigitsRoundTrip(n / 10);
      var d := Digits(n);
      assert d[..|d| - 1] == Digits(n / 10);
    }
  }

  /** Parsing the decimal text of any integer gives it back. */
  lemma {:induction false} DecimalRoundTrip(n: int)
    ensures ParseInt(Decimal(n)) == Some(n)
  {
    if n < 0 {
      NegativeRoundTrip(-n);
    } else {
      NaturalRoundTrip(n);
    }
  }

  lemma {:induction false} NegativeRoundTrip(m: nat)
    requires m > 0
    ensures ParseInt(Decimal(0 - m)) == Some(0 - m)
  {
    var d := Digits(m);
    DigitsRoundTrip(m);
    assert Decimal(0 - m) == "-" + d;
    assert ("-" + d)[1..] == d;
  }

  lemma {:induction false} NaturalRoundTrip(n: nat)
    ensures ParseInt(Decimal(n)) == Some(n)
  {
    var d := Digits(n);
    DigitsRoundTrip(n);
    assert IsDigit(d[0]);
  }

  /** The three outcomes of `int(x)` on a decoded JSON value. */
  datatype IntConversion = Converted(n: int) | RaisesValueError | RaisesTypeError

  /** `int(x)`: an int is itself, a bool is 0 or 1, a string is parsed, and None, a list
      or a dict raises TypeError. */
  function PyInt(j: Json): (c: IntConversion)
    ensures c.RaisesTypeError? <==> j.JNull? || j.JList? || j.JObj?
    ensures j.JInt? ==> c == Converted(j.i)
    ensures j.JBool? ==> c == Converted(if j.b then 1 else 0)
    ensures j.JStr? ==> (c.RaisesValueError? <==> ParseInt(j.s).None?)
    ensures j.JStr? && ParseInt(j.s).Some? ==> c == Converted(ParseInt(j.s).value)
  {
    match j
    case JInt(i) => Converted(i)
    case JBool(b) => Converted(if b then 1 else 0)
    case JStr(s) => (match ParseInt(s) case Some(n) => Converted(n) case None => RaisesValueError)
    case _ => RaisesTypeError
  }

  /** `int(x)` where a ValueError is caught and read as "no id"; a TypeError escapes. */
  function IdOrNone(j: Json): (r: Result<Option<int>>)
    ensures r.Err? <==> PyInt(j).RaisesTypeError?
    ensures r.Err? ==> r.error == Raised(TypeError)
    ensures r == Ok(None) <==> PyInt(j).RaisesValueError?
    ensures PyInt(j).Converted? ==> r == Ok(Some(PyInt(j).n))
  {
    match PyInt(j)
    case Converted(n) => Ok(Some(n))
    case RaisesValueError => Ok(None)
    case RaisesTypeError => Err(Raised(TypeError))
  }

  // ---------------------------------------------------------------------------
  // Reply decisions and parsers

  /** `callBitrixMethod`'s decision on a decoded reply. An object with an "error" key is a
      BitrixAPIError carrying the method and `error_description`, or `error` when there is
      no description; any other object gives its `result`, or {} when there is none. A
      list or string reply has no `.get` (AttributeError); a number, bool or null cannot
      be searched with `in` (TypeError). */
  function CallResult(op: string, data: Json): (r: Result<Json>)
    ensures r.Ok? <==> data.JObj? && "error" !in data.fields
    ensures r.Ok? && "result" in data.fields ==> r.value == data.fields["result"]
    ensures r.Ok? && "result" !in data.fields ==> r.value == JObj(map[])
    ensures data.JObj? && "error" in data.fields ==>
              r.Err? && r.error.BitrixApiError? && r.error.op == op
              && r.error.message == (if "error_description" in data.fields then data.fields["error_description"]
                                     else data.fields["error"])
    ensures data.JList? || data.JStr? ==> r == Err(Raised(AttributeError))
    ensures data.JNull? || data.JBool? || data.JInt? ==> r == Err(Raised(TypeError))
  {
    match data
    case JObj(m) =>
      if "error" in m then Err(BitrixApiError(op, JGetOr(m, "error_description", m["error"])))
      else Ok(JGetOr(m, "result", JObj(map[])))
    case JList(_) => Err(Raised(AttributeError))
    case JStr(_) => Err(Raised(AttributeError))
    case _ => Err(Raised(TypeError))
  }

  /** `findBitrixUserByEmail` on the result of `user.get`: the converted `ID` of the first
      element of a non-empty list. A missing or unparsable ID, an empty list and a
      non-list result give None; a first element that is not an object, or an ID that
      int() rejects with TypeError, raises TypeError. */
  function UserIdFrom(result: Json): (r: Result<Option<int>>)
    ensures !(result.JList? && result.items != []) ==> r == Ok(None)
    ensures result.JList? && result.items != [] && !result.items[0].JObj? ==> r == Err(Raised(TypeError))
    ensures result.JList? && result.items != [] && result.items[0].JObj? ==>
              var m := result.items[0].fields;
              r == if "ID" in m then IdOrNone(m["ID"]) else Ok(None)
  {
    if result.JList? && result.items != [] then
      match result.items[0]
      case JObj(m) => if "ID" in m then IdOrNone(m["ID"]) else Ok(None)
      case _ => Err(Raised(TypeError))
    else Ok(None)
  }

  /** The id a task object offers: its upper-case `ID` when that is truthy, else its
      lower-case `id`. */
  function TaskIdValue(m: map<string, Json>): (j: Json)
    ensures "ID" in m && Truthy(m["ID"]) ==> j == m["ID"]
    ensures !("ID" in m && Truthy(m["ID"])) ==> j == JGetOr(m, "id", JNull)
  {
    if "ID" in m && Truthy(m["ID"]) then m["ID"] else JGetOr(m, "id", JNull)
  }

  /** `findBitrixTaskByTitle` on the result of `tasks.task.list`. `tasks` is the result's
      `tasks` entry (default []) when the result is an object, and [] otherwise. A falsy
      `tasks` gives None. Otherwise `tasks[0]` is taken: on a list, its first element, whose
      ID (or id) is converted; on an object, a missing key 0 (KeyError, caught: None); on a
      string, a character without `.get` (AttributeError); on a number or True, TypeError. */
  function TaskIdFrom(result: Json): (r: Result<Option<int>>)
    ensures !result.JObj? || "tasks" !in result.fields ==> r == Ok(None)
    ensures result.JObj? && "tasks" in result.fields ==>
              var tasks := result.fields["tasks"];
              && (!Truthy(tasks) ==> r == Ok(None))
              && (Truthy(tasks) && tasks.JList? && tasks.items[0].JObj? ==>
                    r == IdOrNone(TaskIdValue(tasks.items[0].fields)))
              && (Truthy(tasks) && tasks.JList? && !tasks.items[0].JObj? ==> r == Err(Raised(AttributeError)))
              && (Truthy(tasks) && tasks.JObj? ==> r == Ok(None))
              && (Truthy(tasks) && tasks.JStr? ==> r == Err(Raised(AttributeError)))
              && (Truthy(tasks) && (tasks.JInt? || tasks.JBool?) ==> r == Err(Raised(TypeError)))
  {
    var tasks := if result.JObj? then JGetOr(result.fields, "tasks", JList([])) else JList([]);
    if !Truthy(tasks) then Ok(None)
    else match tasks
      case JList(items) =>
        (match items[0]
         case JObj(m) => IdOrNone(TaskIdValue(m))
         case _ => Err(Raised(AttributeError)))
      case JObj(_) => Ok(None)
      case JStr(_) => Err(Raised(AttributeError))
      case _ => Err(Raised(TypeError))
  }

  // ---------------------------------------------------------------------------
  // Request bodies

  /** The fields of `user.add`. */
  datatype UserFields = UserFields(email: Json, name: string, lastName: string, department: int)

  /** The fields of `tasks.task.add`. */
  datatype TaskFields = TaskFields(title: string, description: Option<string>,
                                   responsible: Option<string>, createdBy: Option<string>,
                                   createdDate: Option<string>, changedDate: Option<string>,
                                   group: Option<int>)

  /** The department `addBitrixUser` uses when none is given. */
  const DefaultDepartment := 1

  /** `addBitrixUser`'s fields, built in the source's order: `displayName` is read first
      (KeyError when missing, AttributeError when it is not a string), its first word is
      NAME (IndexError when there is none), its second word, or "", is LAST_NAME, and any
      further words are dropped; then `email` is read (KeyError when missing). */
  function NewUserFields(user: map<string, Json>, department: int): (r: Result<UserFields>)
    ensures "displayName" !in user ==> r == Err(Raised(KeyError))
    ensures "displayName" in user && !user["displayName"].JStr? ==> r == Err(Raised(AttributeError))
    ensures "displayName" in user && user["displayName"].JStr? ==>
              var words := Words(user["displayName"].s);
              && (words == [] ==> r == Err(Raised(IndexError)))
              && (words != [] && "email" !in user ==> r == Err(Raised(KeyError)))
              && (words != [] && "email" in user ==>
                    && r.Ok?
                    && r.value.email == user["email"] && r.value.department == department
                    && r.value.name == words[0] && IsWord(r.value.name)
                    && (|words| == 1 ==> r.value.lastName == "")
                    && (|words| > 1 ==> r.value.lastName == words[1] && IsWord(r.value.lastName)))
  {
    if "displayName" !in user then Err(Raised(KeyError))
    else match user["displayName"]
      case JStr(displayName) =>
        var parts := Words(displayName);
        WordsAreWords(displayName);
        if parts == [] then Err(Raised(IndexError))
        else
          var lastName := if |parts| > 1 then parts[1] else "";
          if "email" !in user then Err(Raised(KeyError))
          else Ok(UserFields(user["email"], parts[0], lastName, department))
      case _ => Err(Raised(AttributeError))
  }

  /** The title `createBitrixTask` both searches for and creates: `key + ": " + summary`. */
  function TaskTitle(issue: Jira.Issue): (t: string)
    ensures |t| == |issue.key| + 2 + |issue.fields.summary|
    ensures t[..|issue.key|] == issue.key && t[|issue.key|..|issue.key| + 2] == ": "
    ensures t[|issue.key| + 2..] == issue.fields.summary
  {
    issue.key + ": " + issue.fields.summary
  }

  /** The contact-map key of an assignee or reporter entry: an explicit null is the
      "Nobody" user; a missing entry reads as {} and so has no name; a present one gives
      its `name` (None when missing or null). */
  function PartyKey(f: Field<Jira.Person>): (k: Option<string>)
    ensures f.Null? ==> k == Some("Nobody")
    ensures f.Absent? ==> k == None
    ensures f.Present? ==> k == Get(f.value.name)
  {
    match f
    case Null => Some("Nobody")
    case Absent => None
    case Present(p) => Get(p.name)
  }

  /** `contactMap.get(k)`: the stored value, None when the key is missing. */
  function Lookup(contacts: map<Option<string>, Option<string>>, k: Option<string>): Option<string> {
    if k in contacts then contacts[k] else None
  }

  /** `createBitrixTask`'s fields for an issue. */
  function NewTaskFields(issue: Jira.Issue, contacts: map<Option<string>, Option<string>>,
                         group: Option<int>): (f: TaskFields)
    ensures f.title == TaskTitle(issue) && f.group == group
    ensures f.responsible == Lookup(contacts, PartyKey(issue.fields.assignee))
    ensures f.createdBy == Lookup(contacts, PartyKey(issue.fields.reporter))
    ensures f.description == GetOr(issue.fields.description, "")
    ensures f.createdDate == GetOr(issue.fields.created, "")
    ensures f.changedDate == GetOr(issue.fields.updated, "")
  {
    TaskFields(TaskTitle(issue), GetOr(issue.fields.description, ""),
               Lookup(contacts, PartyKey(issue.fields.assignee)),
               Lookup(contacts, PartyKey(issue.fields.reporter)),
               GetOr(issue.fields.created, ""), GetOr(issue.fields.updated, ""), group)
  }

  // ---------------------------------------------------------------------------
  // The portal

  /** One webhook call, with the parameters the client sends. */
  datatype Call =
    | UserGet(email: Option<string>)
    | UserAdd(user: UserFields)
    | TaskList(title: string)
    | TaskDelete(taskId: int)
    | TaskAdd(task: TaskFields)
    | CommentAdd(target: Json, message: string, author: Option<string>)

  function MethodName(c: Call): string {
    match c
    case UserGet(_) => "user.get"
    case UserAdd(_) => "user.add"
    case TaskList(_) => "tasks.task.list"
    case TaskDelete(_) => "tasks.task.delete"
    case TaskAdd(_) => "tasks.task.add"
    case CommentAdd(_, _, _) => "task.commentitem.add"
  }

  datatype Account = Account(id: int, user: UserFields)
  datatype Task = Task(id: int, fields: TaskFields)
  datatype Comment = Comment(id: int, target: Json, message: string, author: Option<string>)

  /** The portal's tables and the next id it will hand out. */
  datatype PortalState = PortalState(accounts: seq<Account>, tasks: seq<Task>,
                                     comments: seq<Comment>, nextId: int)

  /** The accounts registered with an email, in registration order. */
  function AccountsWith(accounts: seq<Account>, email: Json): seq<Account>
  {
    if accounts == [] then []
    else
      var last := accounts[|accounts| - 1];
      AccountsWith(accounts[..|accounts| - 1], email) + (if last.user.email == email then [last] else [])
  }

  /** The tasks with a title, in creation order. */
  function TasksTitled(tasks: seq<Task>, title: string): seq<Task>
  {
    if tasks == [] then []
    else
      var last := tasks[|tasks| - 1];
      TasksTitled(tasks[..|tasks| - 1], title) + (if last.fields.title == title then [last] else [])
  }

  /** The tasks other than the one with an id. */
  function WithoutTask(tasks: seq<Task>, id: int): seq<Task>
  {
    if tasks == [] then []
    else
      var last := tasks[|tasks| - 1];
      WithoutTask(tasks[..|tasks| - 1], id) + (if last.id != id then [last] else [])
  }

  predicate HasTask(tasks: seq<Task>, id: int) {
    exists i :: 0 <= i < |tasks| && tasks[i].id == id
  }

  lemma {:induction false} AccountsWithMembers(accounts: seq<Account>, email: Json)
    ensures forall a :: a in AccountsWith(accounts, email) ==> a in accounts && a.user.email == email
  {
    if accounts != [] {
      AccountsWithMembers(accounts[..|accounts| - 1], email);
    }
  }

  lemma {:induction false} TasksTitledMembers(tasks: seq<Task>, title: string)
    ensures forall t :: t in TasksTitled(tasks, title) ==> t in tasks && t.fields.title == title
  {
    if tasks != [] {
      TasksTitledMembers(tasks[..|tasks| - 1], title);
    }
  }

  lemma {:induction false} WithoutTaskMembers(tasks: seq<Task>, id: int)
    ensures forall t :: t in WithoutTask(tasks, id) ==> t in tasks && t.id != id
  {
    if tasks != [] {
      WithoutTaskMembers(tasks[..|tasks| - 1], id);
    }
  }

  /** A one-entry object holding an id as decimal text, as the portal lists ids. */
  function IdRecord(key: string, id: int): Json {
    JObj(map[key := JStr(Decimal(id))])
  }

  /** How the portal lists what a search found: one record per item, holding the item's
      id under `key`, in order (`user.get` lists accounts under `ID`, `tasks.task.list`
      lists tasks under `id`). */
  function IdRecords<T>(key: string, items: seq<T>, id: T -> int): (js: seq<Json>)
    ensures |js| == |items|
    ensures forall k :: 0 <= k < |items| ==> js[k] == IdRecord(key, id(items[k]))
  {
    if items == [] then [] else [IdRecord(key, id(items[0]))] + IdRecords(key, items[1..], id)
  }

  function AccountRecords(accounts: seq<Account>): seq<Json> {
    IdRecords("ID", accounts, (a: Account) => a.id)
  }

  function TaskRecords(tasks: seq<Task>): seq<Json> {
    IdRecords("id", tasks, (t: Task) => t.id)
  }

  function Reply(result: Json): Json {
    JObj(map["result" := result])
  }

  /** The portal's answer to a call, and its state afterwards. A method with a canned
      body (the portal's failures, or any other fixed reply) answers with it and changes
      nothing. Otherwise: `user.get` lists the ids of the accounts with the email;
      `tasks.task.list` lists the ids of the tasks with the title; `tasks.task.delete`
      removes the task and answers true-ish, or answers false when there is no such task;
      the three adds store a new record under the next id and answer with it. */
  function Respond(s: PortalState, canned: map<string, Json>, c: Call): (PortalState, Json) {
    if MethodName(c) in canned then (s, canned[MethodName(c)])
    else match c
      case UserGet(email) =>
        var found := AccountsWith(s.accounts, StrOrNull(email));
        (s, Reply(JList(AccountRecords(found))))
      case TaskList(title) =>
        var found := TasksTitled(s.tasks, title);
        (s, Reply(JObj(map["tasks" := JList(TaskRecords(found))])))
      case TaskDelete(id) =>
        if HasTask(s.tasks, id) then (s.(tasks := WithoutTask(s.tasks, id)), Reply(JObj(map["task" := JBool(true)])))
        else (s, Reply(JBool(false)))
      case UserAdd(user) =>
        (s.(accounts := s.accounts + [Account(s.nextId, user)], nextId := s.nextId + 1), Reply(JInt(s.nextId)))
      case TaskAdd(fields) =>
        (s.(tasks := s.tasks + [Task(s.nextId, fields)], nextId := s.nextId + 1),
         Reply(JObj(map["task" := IdRecord("id", s.nextId)])))
      case CommentAdd(target, message, author) =>
        (s.(comments := s.comments + [Comment(s.nextId, target, message, author)], nextId := s.nextId + 1),
         Reply(JInt(s.nextId)))
  }

  /** What a user lookup answers, from the portal state, when it reaches the portal. */
  function UserAnswer(s: PortalState, canned: map<string, Json>, email: Option<string>): Result<Option<int>> {
    var result :- CallResult("user.get", Respond(s, canned, UserGet(email)).1);
    UserIdFrom(result)
  }

  /** What a task lookup answers, from the portal state. */
  function TaskAnswer(s: PortalState, canned: map<string, Json>, title: string): Result<Option<int>> {
    var result :- CallResult("tasks.task.list", Respond(s, canned, TaskList(title)).1);
    TaskIdFrom(result)
  }

  /** Python truthiness of a found id: only a non-zero id counts as found. */
  predicate Found(answer: Result<Option<int>>) {
    answer.Ok? && answer.value.Some? && answer.value.value != 0
  }

  /** Ids handed out so far are positive and below `nextId`, and task ids increase. */
  ghost predicate Valid(s: PortalState) {
    && s.nextId >= 1
    && (forall i :: 0 <= i < |s.accounts| ==> 1 <= s.accounts[i].id < s.nextId)
    && (forall i :: 0 <= i < |s.comments| ==> 1 <= s.comments[i].id < s.nextId)
    && (forall i :: 0 <= i < |s.tasks| ==> 1 <= s.tasks[i].id < s.nextId)
    && Increasing(s.tasks)
  }

  predicate Increasing(tasks: seq<Task>) {
    forall i, j :: 0 <= i < j < |tasks| ==> tasks[i].id < tasks[j].id
  }

  lemma {:induction false} WithoutTaskIncreasing(tasks: seq<Task>, id: int)
    requires Increasing(tasks)
    ensures Increasing(WithoutTask(tasks, id))
  {
    if tasks != [] {
      var prefix := tasks[..|tasks| - 1];
      var last := tasks[|tasks| - 1];
      WithoutTaskIncreasing(prefix, id);
      WithoutTaskMembers(prefix, id);
      var r := WithoutTask(prefix, id);
      if last.id != id {
        forall i | 0 <= i < |r| ensures r[i].id < last.id {
          var k :| 0 <= k < |prefix| && prefix[k] == r[i];
        }
        var r' := r + [last];
        assert forall i, j :: 0 <= i < j < |r'| ==> r'[i].id < r'[j].id by {
          forall i, j | 0 <= i < j < |r'| ensures r'[i].id < r'[j].id {
            if j < |r| {
              assert r'[i] == r[i] && r'[j] == r[j];
            }
          }
        }
      } else {
        assert WithoutTask(tasks, id) == r + [];
      }
    }
  }

  /** Removing a task keeps the portal valid. */
  lemma {:induction false} DeleteKeepsValid(s: PortalState, id: int)
    requires Valid(s)
    ensures Valid(s.(tasks := WithoutTask(s.tasks, id)))
  {
    assert Increasing(s.tasks);
    WithoutTaskIncreasing(s.tasks, id);
    WithoutTaskMembers(s.tasks, id);
    var r := WithoutTask(s.tasks, id);
    forall i | 0 <= i < |r| ensures 1 <= r[i].id < s.nextId {
      var k :| 0 <= k < |s.tasks| && s.tasks[k] == r[i];
    }
  }

  /** Adding a task under the next id keeps the portal valid. */
  lemma {:induction false} AddTaskKeepsValid(s: PortalState, fields: TaskFields)
    requires Valid(s)
    ensures Valid(s.(tasks := s.tasks + [Task(s.nextId, fields)], nextId := s.nextId + 1))
  {
    var ts := s.tasks + [Task(s.nextId, fields)];
    assert forall i :: 0 <= i < |s.tasks| ==> ts[i] == s.tasks[i];
  }

  /** Every reply keeps the portal's ids fresh and its task ids increasing. */
  lemma {:induction false} RespondKeepsValid(s: PortalState, canned: map<string, Json>, c: Call)
    requires Valid(s)
    ensures Valid(Respond(s, canned, c).0)
  {
    if MethodName(c) !in canned {
      match c
      case TaskDelete(id) =>
        if HasTask(s.tasks, id) {
          DeleteKeepsValid(s, id);
        }
      case TaskAdd(fields) =>
        AddTaskKeepsValid(s, fields);
      case UserAdd(user) =>
        var accs := s.accounts + [Account(s.nextId, user)];
        assert forall i :: 0 <= i < |s.accounts| ==> accs[i] == s.accounts[i];
      case CommentAdd(target, message, author) =>
        var cs := s.comments + [Comment(s.nextId, target, message, author)];
        assert forall i :: 0 <= i < |s.comments| ==> cs[i] == s.comments[i];
      case _ =>
    }
  }

  /** Queries never change the portal. */
  lemma {:induction false} QueriesChangeNothing(s: PortalState, canned: map<string, Json>, c: Call)
    requires c.UserGet? || c.TaskList?
    ensures Respond(s, canned, c).0 == s
  {
  }

  /** On a portal that answers normally, a user lookup finds the first account with the
      email: the decimal id text it lists converts back to the id. */
  lemma {:induction false} UserLookup(s: PortalState, canned: map<string, Json>, email: Option<string>)
    requires "user.get" !in canned
    ensures var found := AccountsWith(s.accounts, StrOrNull(email));
            UserAnswer(s, canned, email) == Ok(if found == [] then None else Some(found[0].id))
  {
    var found := AccountsWith(s.accounts, StrOrNull(email));
    if found != [] {
      UserLookupFound(found);
    }
  }

  /** The parser's side of `UserLookup`: the listing of a non-empty run of accounts gives
      the first account's id. */
  lemma UserLookupFound(found: seq<Account>)
    requires found != []
    ensures UserIdFrom(JList(AccountRecords(found))) == Ok(Some(found[0].id))
  {
    DecimalRoundTrip(found[0].id);
    assert AccountRecords(found)[0] == JObj(map["ID" := JStr(Decimal(found[0].id))]);
  }

  /** On a portal that answers normally, a task lookup finds the first task with the
      title (its lower-case `id`, since no `ID` is listed). */
  lemma {:induction false} TaskLookup(s: PortalState, canned: map<string, Json>, title: string)
    requires "tasks.task.list" !in canned
    ensures var found := TasksTitled(s.tasks, title);
            TaskAnswer(s, canned, title) == Ok(if found == [] then None else Some(found[0].id))
  {
    var found := TasksTitled(s.tasks, title);
    if found != [] {
      TaskLookupFound(found);
    }
  }

  /** The parser's side of `TaskLookup`: the listing of a non-empty run of tasks gives the
      first task's id. */
  lemma TaskLookupFound(found: seq<Task>)
    requires found != []
    ensures TaskIdFrom(JObj(map["tasks" := JList(TaskRecords(found))])) == Ok(Some(found[0].id))
  {
    var id := found[0].id;
    DecimalRoundTrip(id);
    var m := map["id" := JStr(Decimal(id))];
    var tasks := JList(TaskRecords(found));
    var result := JObj(map["tasks" := tasks]);
    assert TaskRecords(found)[0] == JObj(m);
    assert TaskIdValue(m) == JStr(Decimal(id));
    assert IdOrNone(TaskIdValue(m)) == Ok(Some(id));
    assert result.fields["tasks"] == tasks && Truthy(tasks) && tasks.items[0] == JObj(m);
  }

  lemma {:induction false} TasksTitledWithout(tasks: seq<Task>, title: string, id: int)
    requires Increasing(tasks)
    requires TasksTitled(tasks, title) != [] && TasksTitled(tasks, title)[0].id == id
    ensures TasksTitled(WithoutTask(tasks, id), title) == TasksTitled(tasks, title)[1..]
  {
    var prefix := tasks[..|tasks| - 1];
    var last := tasks[|tasks| - 1];
    if TasksTitled(prefix, title) == [] {
      FirstTitledLast(tasks, title, id);
    } else {
      assert Increasing(prefix);
      TasksTitledWithout(prefix, title, id);
      LaterTitled(tasks, title, id);
    }
  }

  /** The base step of `TasksTitledWithout`: the first task with the title is the last
      task. */
  lemma {:induction false} FirstTitledLast(tasks: seq<Task>, title: string, id: int)
    requires tasks != [] && TasksTitled(tasks[..|tasks| - 1], title) == []
    requires TasksTitled(tasks, title) != [] && TasksTitled(tasks, title)[0].id == id
    ensures TasksTitled(WithoutTask(tasks, id), title) == TasksTitled(tasks, title)[1..]
  {
    var prefix := tasks[..|tasks| - 1];
    var last := tasks[|tasks| - 1];
    NoneTitledWithout(prefix, title, id);
    assert TasksTitled(tasks, title) == [] + [last];
    assert last.id == id;
    assert WithoutTask(tasks, id) == WithoutTask(prefix, id) + [];
    assert WithoutTask(prefix, id) + [] == WithoutTask(prefix, id);
  }

  /** The inductive step of `TasksTitledWithout`: the first task with the title is in the
      prefix, so the last task, whose id is larger, stays. */
  lemma {:induction false} LaterTitled(tasks: seq<Task>, title: string, id: int)
    requires Increasing(tasks) && tasks != []
    requires TasksTitled(tasks[..|tasks| - 1], title) != [] && TasksTitled(tasks[..|tasks| - 1], title)[0].id == id
    requires TasksTitled(WithoutTask(tasks[..|tasks| - 1], id), title) == TasksTitled(tasks[..|tasks| - 1], title)[1..]
    ensures TasksTitled(WithoutTask(tasks, id), title) == TasksTitled(tasks, title)[1..]
  {
    var prefix := tasks[..|tasks| - 1];
    var last := tasks[|tasks| - 1];
    TasksTitledMembers(prefix, title);
    assert TasksTitled(prefix, title)[0] in prefix;
    var k :| 0 <= k < |prefix| && prefix[k] == TasksTitled(prefix, title)[0];
    assert tasks[k] == prefix[k];
    assert last.id != id;
    assert WithoutTask(tasks, id) == WithoutTask(prefix, id) + [last];
    TasksTitledAppend(WithoutTask(prefix, id), last, title);
    var tail := if last.fields.title == title then [last] else [];
    assert TasksTitled(tasks, title) == TasksTitled(prefix, title) + tail;
    assert (TasksTitled(prefix, title) + tail)[1..] == TasksTitled(prefix, title)[1..] + tail;
  }

  lemma {:induction false} NoneTitledWithout(tasks: seq<Task>, title: string, id: int)
    requires TasksTitled(tasks, title) == []
    ensures TasksTitled(WithoutTask(tasks, id), title) == []
  {
    if tasks != [] {
      var prefix := tasks[..|tasks| - 1];
      var last := tasks[|tasks| - 1];
      NoneTitledWithout(prefix, title, id);
      assert last.fields.title != title;
      if last.id != id {
        TasksTitledAppend(WithoutTask(prefix, id), last, title);
      } else {
        assert WithoutTask(tasks, id) == WithoutTask(prefix, id) + [];
        assert WithoutTask(prefix, id) + [] == WithoutTask(prefix, id);
      }
    }
  }

  lemma {:induction false} TasksTitledAppend(tasks: seq<Task>, t: Task, title: string)
    ensures TasksTitled(tasks + [t], title) == TasksTitled(tasks, title) + (if t.fields.title == title then [t] else [])
  {
    assert (tasks + [t])[..|tasks|] == tasks;
  }

  /** Deleting the first task with a title and appending a new one with that title
      leaves the other tasks with the title in place and the new one after them, so the
      number of tasks with the title does not change. */
  lemma {:induction false} RecreateReplacesFirst(tasks: seq<Task>, t: Task)
    requires Increasing(tasks) && TasksTitled(tasks, t.fields.title) != []
    ensures var before := TasksTitled(tasks, t.fields.title);
            TasksTitled(WithoutTask(tasks, before[0].id) + [t], t.fields.title) == before[1..] + [t]
  {
    var before := TasksTitled(tasks, t.fields.title);
    TasksTitledWithout(tasks, t.fields.title, before[0].id);
    TasksTitledAppend(WithoutTask(tasks, before[0].id), t, t.fields.title);
  }

  /** What a sequence of calls did: the calls in order, the portal state after them, and
      what the client returned. */
  datatype Run<+T> = Run(calls: seq<Call>, state: PortalState, result: Result<T>)

  /** `callBitrixMethod` against a portal state: one call, then the decision on its reply. */
  function Exchange(s: PortalState, canned: map<string, Json>, c: Call): Run<Json> {
    Run([c], Respond(s, canned, c).0, CallResult(MethodName(c), Respond(s, canned, c).1))
  }

  /** `createBitrixTask` against a portal state: the lookup of the title, then
      `AfterLookupRun` on what it found. */
  function CreateTaskRun(s: PortalState, canned: map<string, Json>, issue: Jira.Issue,
                         contacts: map<Option<string>, Option<string>>, deleteIfExist: bool,
                         group: Option<int>): Run<Json> {
    var title := TaskTitle(issue);
    var found := TaskAnswer(s, canned, title);
    if found.Err? then Run([TaskList(title)], s, Err(found.error))
    else
      var rest := AfterLookupRun(s, canned, found.value, issue, contacts, deleteIfExist, group);
      Run([TaskList(title)] + rest.calls, rest.state, rest.result)
  }

  /** The part of `createBitrixTask` after the lookup: a found (non-zero) id is returned as
      it is when deletion is off and deleted first when it is on; then the add, which
      happens whatever the delete answered unless the delete call raised. */
  function AfterLookupRun(s: PortalState, canned: map<string, Json>, existing: Option<int>,
                          issue: Jira.Issue, contacts: map<Option<string>, Option<string>>,
                          deleteIfExist: bool, group: Option<int>): Run<Json> {
    var add := TaskAdd(NewTaskFields(issue, contacts, group));
    var found := existing.Some? && existing.value != 0;
    if found && !deleteIfExist then Run([], s, Ok(JInt(existing.value)))
    else if found then
      var del := Exchange(s, canned, TaskDelete(existing.value));
      if del.result.Err? then Run([TaskDelete(existing.value)], del.state, del.result)
      else
        var created := Exchange(del.state, canned, add);
        Run([TaskDelete(existing.value), add], created.state, created.result)
    else
      var created := Exchange(s, canned, add);
      Run([add], created.state, created.result)
  }

  /** A portal that answers normally removes an existing task on a delete and answers
      with a truthy result. */
  lemma DeleteAnswer(s: PortalState, canned: map<string, Json>, id: int)
    requires "tasks.task.delete" !in canned && HasTask(s.tasks, id)
    ensures Exchange(s, canned, TaskDelete(id))
         == Run([TaskDelete(id)], s.(tasks := WithoutTask(s.tasks, id)), Ok(JObj(map["task" := JBool(true)])))
  {
  }

  /** A portal that answers normally stores a new task under the next id and answers
      with that id. */
  lemma AddAnswer(s: PortalState, canned: map<string, Json>, fields: TaskFields)
    requires "tasks.task.add" !in canned
    ensures Exchange(s, canned, TaskAdd(fields))
         == Run([TaskAdd(fields)], s.(tasks := s.tasks + [Task(s.nextId, fields)], nextId := s.nextId + 1),
                Ok(JObj(map["task" := IdRecord("id", s.nextId)])))
  {
  }

  /** A portal that answers normally stores a new comment under the next id and answers
      with that id. */
  lemma CommentAnswer(s: PortalState, canned: map<string, Json>, target: Json, message: string,
                      author: Option<string>)
    requires "task.commentitem.add" !in canned
    ensures Exchange(s, canned, CommentAdd(target, message, author))
         == Run([CommentAdd(target, message, author)],
                s.(comments := s.comments + [Comment(s.nextId, target, message, author)], nextId := s.nextId + 1),
                Ok(JInt(s.nextId)))
  {
  }

  /** On a valid portal, a task found by its title has a non-zero id, so it counts as
      found. */
  lemma {:induction false} FirstTitledFound(s: PortalState, title: string)
    requires Valid(s) && TasksTitled(s.tasks, title) != []
    ensures TasksTitled(s.tasks, title)[0].id >= 1
    ensures HasTask(s.tasks, TasksTitled(s.tasks, title)[0].id)
  {
    TasksTitledMembers(s.tasks, title);
    var t := TasksTitled(s.tasks, title)[0];
    assert t in s.tasks;
    var k :| 0 <= k < |s.tasks| && s.tasks[k] == t;
  }

  /** `createBitrixTask` keeps the portal's ids fresh and its task ids increasing. */
  lemma {:induction false} CreateTaskKeepsValid(s: PortalState, canned: map<string, Json>, issue: Jira.Issue,
                                                contacts: map<Option<string>, Option<string>>,
                                                deleteIfExist: bool, group: Option<int>)
    requires Valid(s)
    ensures Valid(CreateTaskRun(s, canned, issue, contacts, deleteIfExist, group).state)
  {
    var found := TaskAnswer(s, canned, TaskTitle(issue));
    if found.Ok? {
      AfterLookupKeepsValid(s, canned, found.value, issue, contacts, deleteIfExist, group);
    }
  }

  lemma {:induction false} AfterLookupKeepsValid(s: PortalState, canned: map<string, Json>, existing: Option<int>,
                                                 issue: Jira.Issue, contacts: map<Option<string>, Option<string>>,
                                                 deleteIfExist: bool, group: Option<int>)
    requires Valid(s)
    ensures Valid(AfterLookupRun(s, canned, existing, issue, contacts, deleteIfExist, group).state)
  {
    var add := TaskAdd(NewTaskFields(issue, contacts, group));
    if existing.Some? && existing.value != 0 && deleteIfExist {
      var del := TaskDelete(existing.value);
      RespondKeepsValid(s, canned, del);
      RespondKeepsValid(Respond(s, canned, del).0, canned, add);
    } else {
      RespondKeepsValid(s, canned, add);
    }
  }

  /** With no task under the title, `createBitrixTask` makes the lookup and one add: the
      new task is appended under the next id, nothing else changes, the new task is then
      the only one with that title, and the answer is the new id. */
  lemma {:induction false} CreateTaskNew(s: PortalState, canned: map<string, Json>, issue: Jira.Issue,
                                         contacts: map<Option<string>, Option<string>>,
                                         deleteIfExist: bool, group: Option<int>)
    requires "tasks.task.list" !in canned && "tasks.task.add" !in canned
    requires TasksTitled(s.tasks, TaskTitle(issue)) == []
    ensures var fields := NewTaskFields(issue, contacts, group);
            var run := CreateTaskRun(s, canned, issue, contacts, deleteIfExist, group);
            && run.calls == [TaskList(TaskTitle(issue)), TaskAdd(fields)]
            && run.state == s.(tasks := s.tasks + [Task(s.nextId, fields)], nextId := s.nextId + 1)
            && TasksTitled(run.state.tasks, TaskTitle(issue)) == [Task(s.nextId, fields)]
            && run.result == Ok(JObj(map["task" := IdRecord("id", s.nextId)]))
  {
    var fields := NewTaskFields(issue, contacts, group);
    TaskLookup(s, canned, TaskTitle(issue));
    AddAnswer(s, canned, fields);
    TasksTitledAppend(s.tasks, Task(s.nextId, fields), TaskTitle(issue));
  }

  /** With deletion off, a task already under the title is answered with its id and the
      portal is left as it was: no delete and no add. */
  lemma {:induction false} CreateTaskKeepsExisting(s: PortalState, canned: map<string, Json>, issue: Jira.Issue,
                                                   contacts: map<Option<string>, Option<string>>,
                                                   group: Option<int>)
    requires Valid(s) && "tasks.task.list" !in canned
    requires TasksTitled(s.tasks, TaskTitle(issue)) != []
    ensures CreateTaskRun(s, canned, issue, contacts, false, group)
         == Run([TaskList(TaskTitle(issue))], s, Ok(JInt(TasksTitled(s.tasks, TaskTitle(issue))[0].id)))
  {
    TaskLookup(s, canned, TaskTitle(issue));
    FirstTitledFound(s, TaskTitle(issue));
  }

  /** With deletion on, a task already under the title is deleted and the issue added
      again: exactly one delete, of the first task with the title, then one add. Only
      that task goes and only the new one comes; the other tasks with the title stay, the
      new one follows them, and the answer is the new id. */
  lemma {:induction false} CreateTaskReplaces(s: PortalState, canned: map<string, Json>, issue: Jira.Issue,
                                              contacts: map<Option<string>, Option<string>>,
                                              group: Option<int>)
    requires Valid(s)
    requires "tasks.task.list" !in canned && "tasks.task.delete" !in canned && "tasks.task.add" !in canned
    requires TasksTitled(s.tasks, TaskTitle(issue)) != []
    ensures var before := TasksTitled(s.tasks, TaskTitle(issue));
            var fields := NewTaskFields(issue, contacts, group);
            var run := CreateTaskRun(s, canned, issue, contacts, true, group);
            && run.calls == [TaskList(TaskTitle(issue)), TaskDelete(before[0].id), TaskAdd(fields)]
            && run.state == s.(tasks := WithoutTask(s.tasks, before[0].id) + [Task(s.nextId, fields)],
                               nextId := s.nextId + 1)
            && TasksTitled(run.state.tasks, TaskTitle(issue)) == before[1..] + [Task(s.nextId, fields)]
            && run.result == Ok(JObj(map["task" := IdRecord("id", s.nextId)]))
  {
    var title := TaskTitle(issue);
    var id := TasksTitled(s.tasks, title)[0].id;
    var fields := NewTaskFields(issue, contacts, group);
    TaskLookup(s, canned, title);
    FirstTitledFound(s, title);
    ReplaceAfterLookup(s, canned, id, issue, contacts, group);
    assert Increasing(s.tasks);
    RecreateReplacesFirst(s.tasks, Task(s.nextId, fields));
  }

  /** The delete-then-add part of `CreateTaskReplaces`. */
  lemma ReplaceAfterLookup(s: PortalState, canned: map<string, Json>, id: int, issue: Jira.Issue,
                           contacts: map<Option<string>, Option<string>>, group: Option<int>)
    requires "tasks.task.delete" !in canned && "tasks.task.add" !in canned
    requires id != 0 && HasTask(s.tasks, id)
    ensures var fields := NewTaskFields(issue, contacts, group);
            AfterLookupRun(s, canned, Some(id), issue, contacts, true, group)
            == Run([TaskDelete(id), TaskAdd(fields)],
                   s.(tasks := WithoutTask(s.tasks, id) + [Task(s.nextId, fields)], nextId := s.nextId + 1),
                   Ok(JObj(map["task" := IdRecord("id", s.nextId)])))
  {
    DeleteAnswer(s, canned, id);
    AddAnswer(s.(tasks := WithoutTask(s.tasks, id)), canned, NewTaskFields(issue, contacts, group));
  }

  /** With deletion on, the add follows the delete even when the delete answers with a
      falsy result (`deleteBitrixTask` returning False); only a delete that raises stops
      it. */
  lemma CreateTaskAfterRefusedDelete(s: PortalState, canned: map<string, Json>, issue: Jira.Issue,
                                     contacts: map<Option<string>, Option<string>>, group: Option<int>)
    requires Found(TaskAnswer(s, canned, TaskTitle(issue)))
    ensures var id := TaskAnswer(s, canned, TaskTitle(issue)).value.value;
            var deleted := Exchange(s, canned, TaskDelete(id));
            var run := CreateTaskRun(s, canned, issue, contacts, true, group);
            && run.calls[..2] == [TaskList(TaskTitle(issue)), TaskDelete(id)]
            && (deleted.result.Err? <==> run.calls == [TaskList(TaskTitle(issue)), TaskDelete(id)])
            && (deleted.result.Ok? ==>
                  run.calls[2] == TaskAdd(NewTaskFields(issue, contacts, group))
                  && run.state == Exchange(deleted.state, canned, TaskAdd(NewTaskFields(issue, contacts, group))).state)
  {
  }

  /** `addBitrixUser` against a portal state: the fields are built (and may fail) before
      any call; after a successful call the log line reads the user's `key`, which raises
      KeyError when it is missing, although the account has been created by then. */
  function AddUserRun(s: PortalState, canned: map<string, Json>, user: map<string, Json>,
                      department: int): Run<Json> {
    match NewUserFields(user, department)
    case Err(e) => Run([], s, Err(e))
    case Ok(fields) =>
      var added := Exchange(s, canned, UserAdd(fields));
      Run([UserAdd(fields)], added.state,
          if added.result.Ok? && "key" !in user then Err(Raised(KeyError)) else added.result)
  }

  /** A display name of one word gives NAME that word and an empty LAST_NAME. */
  lemma {:induction false} OneWordUserFields(user: map<string, Json>, department: int)
    requires "displayName" in user && user["displayName"].JStr? && IsWord(user["displayName"].s)
    requires "email" in user
    ensures NewUserFields(user, department) == Ok(UserFields(user["email"], user["displayName"].s, "", department))
  {
    WordsOfWord(user["displayName"].s);
  }

  /** A request whose fields cannot be built makes no call and changes nothing. */
  lemma {:induction false} AddUserRefused(s: PortalState, canned: map<string, Json>, user: map<string, Json>,
                                          department: int)
    requires NewUserFields(user, department).Err?
    ensures AddUserRun(s, canned, user, department) == Run([], s, Err(NewUserFields(user, department).error))
  {
  }

  /** On a portal that answers normally, a user with a display name, an email and a key
      becomes a new account under the next id, and the result is that id. Without a key
      the account is created all the same, but the result is a KeyError. */
  lemma {:induction false} AddUserCreates(s: PortalState, canned: map<string, Json>, user: map<string, Json>,
                                          department: int)
    requires "user.add" !in canned && NewUserFields(user, department).Ok?
    ensures var fields := NewUserFields(user, department).value;
            var run := AddUserRun(s, canned, user, department);
            && run.calls == [UserAdd(fields)]
            && run.state == s.(accounts := s.accounts + [Account(s.nextId, fields)], nextId := s.nextId + 1)
            && run.result == if "key" in user then Ok(JInt(s.nextId)) else Err(Raised(KeyError))
  {
  }

  // ---------------------------------------------------------------------------
  // The memo table of `findBitrixUserByEmail`

  /** The answer of a lookup through the memo table: a remembered answer, or the portal's. */
  function CachedLookup(s: PortalState, canned: map<string, Json>, cache: map<Option<string>, Option<int>>,
                        email: Option<string>): Result<Option<int>> {
    if email in cache then Ok(cache[email]) else UserAnswer(s, canned, email)
  }

  /** The calls a lookup through the memo table makes. */
  function LookupCalls(cache: map<Option<string>, Option<int>>, email: Option<string>): seq<Call> {
    if email in cache then [] else [UserGet(email)]
  }

  /** The memo table after a lookup: a new successful answer is remembered. */
  function CacheAfter(cache: map<Option<string>, Option<int>>, email: Option<string>,
                      answer: Result<Option<int>>): map<Option<string>, Option<int>> {
    if email !in cache && answer.Ok? then cache[email := answer.value] else cache
  }

  /** Once a lookup has succeeded, every later lookup of the same email gives the same
      answer without a call, whatever the portal has become since (a user created in
      between is not seen). */
  lemma {:induction false} LookupMemoised(s: PortalState, later: PortalState, canned: map<string, Json>,
                                          cache: map<Option<string>, Option<int>>, email: Option<string>)
    requires CachedLookup(s, canned, cache, email).Ok?
    ensures var answer := CachedLookup(s, canned, cache, email);
            var after := CacheAfter(cache, email, answer);
            && CachedLookup(later, canned, after, email) == answer
            && LookupCalls(after, email) == []
            && CacheAfter(after, email, answer) == after
  {
  }

  /** A failed lookup is not remembered: the next lookup of that email asks again. */
  lemma {:induction false} FailureNotMemoised(s: PortalState, canned: map<string, Json>,
                                              cache: map<Option<string>, Option<int>>, email: Option<string>)
    requires CachedLookup(s, canned, cache, email).Err?
    ensures var after := CacheAfter(cache, email, CachedLookup(s, canned, cache, email));
            after == cache && LookupCalls(after, email) == [UserGet(email)]
  {
  }

  /** The portal as an object: its tables, its id counter, the methods it answers with a
      canned body, and the calls it has received. */
  class Portal {
    var accounts: seq<Account>
    var tasks: seq<Task>
    var comments: seq<Comment>
    var nextId: int
    const canned: map<string, Json>
    ghost var log: seq<Call>

    constructor (canned: map<string, Json>)
      ensures State() == PortalState([], [], [], 1) && Valid(State())
      ensures this.canned == canned && log == []
    {
      accounts, tasks, comments, nextId := [], [], [], 1;
      this.canned := canned;
      log := [];
    }

    function State(): PortalState
      reads this
    {
      PortalState(accounts, tasks, comments, nextId)
    }

    /** Answer one call. */
    method Handle(c: Call) returns (body: Json)
      modifies this
      ensures (State(), body) == Respond(old(State()), canned, c)
      ensures log == old(log) + [c]
    {
      var next;
      next, body := Respond(State(), canned, c).0, Respond(State(), canned, c).1;
      accounts, tasks, comments, nextId := next.accounts, next.tasks, next.comments, next.nextId;
      log := log + [c];
    }
  }

  /** `BitrixFillInData`: a webhook client for one portal, with the memo table of
      `findBitrixUserByEmail`. */
  class BitrixClient {
    const portal: Portal
    var cache: map<Option<string>, Option<int>>

    constructor (portal: Portal)
      ensures this.portal == portal && cache == map[]
    {
      this.portal := portal;
      cache := map[];
    }

    /** `callBitrixMethod`: one call, then the decision on its reply. */
    method CallMethod(c: Call) returns (r: Result<Json>)
      modifies portal
      ensures portal.log == old(portal.log) + [c]
      ensures portal.State() == Exchange(old(portal.State()), portal.canned, c).state
      ensures r == Exchange(old(portal.State()), portal.canned, c).result
    {
      var data := portal.Handle(c);
      r := CallResult(MethodName(c), data);
    }

    /** `findBitrixUserByEmail`: an email already answered is answered again from the
        memo table, without a call, even if the portal has changed since; otherwise one
        `user.get` call is made and a successful answer is remembered (an exception is
        not). */
    method FindUserByEmail(email: Option<string>) returns (r: Result<Option<int>>)
      modifies this, portal
      ensures portal.State() == old(portal.State())
      ensures r == CachedLookup(old(portal.State()), portal.canned, old(cache), email)
      ensures portal.log == old(portal.log) + LookupCalls(old(cache), email)
      ensures cache == CacheAfter(old(cache), email, r)
    {
      if email in cache {
        return Ok(cache[email]);
      }
      var result := CallMethod(UserGet(email));
      if result.Err? {
        return Err(result.error);
      }
      r := UserIdFrom(result.value);
      if r.Ok? {
        cache := cache[email := r.value];
      }
    }

    /** `addBitrixUser`, proved against `AddUserRun`. */
    method AddUser(user: map<string, Json>, department: int) returns (r: Result<Json>)
      modifies portal
      ensures var run := AddUserRun(old(portal.State()), portal.canned, user, department);
              portal.log == old(portal.log) + run.calls && portal.State() == run.state && r == run.result
    {
      var fields :- NewUserFields(user, department);
      var result :- CallMethod(UserAdd(fields));
      if "key" !in user {
        return Err(Raised(KeyError));
      }
      return Ok(result);
    }

    /** `findBitrixTaskByTitle`: one `tasks.task.list` call, then its parser. */
    method FindTaskByTitle(title: string) returns (r: Result<Option<int>>)
      modifies portal
      ensures portal.State() == old(portal.State())
      ensures portal.log == old(portal.log) + [TaskList(title)]
      ensures r == TaskAnswer(old(portal.State()), portal.canned, title)
    {
      var result :- CallMethod(TaskList(title));
      r := TaskIdFrom(result);
    }

    /** `deleteBitrixTask`: one `tasks.task.delete` call; True exactly when its result is
        truthy. */
    method DeleteTask(taskId: int) returns (r: Result<bool>)
      modifies portal
      ensures portal.log == old(portal.log) + [TaskDelete(taskId)]
      ensures portal.State() == Exchange(old(portal.State()), portal.canned, TaskDelete(taskId)).state
      ensures var reply := Exchange(old(portal.State()), portal.canned, TaskDelete(taskId)).result;
              r == if reply.Err? then Err(reply.error) else Ok(Truthy(reply.value))
    {
      var result :- CallMethod(TaskDelete(taskId));
      r := Ok(Truthy(result));
    }

    /** `createBitrixTask`, proved against `CreateTaskRun`. */
    method CreateTask(issue: Jira.Issue, contacts: map<Option<string>, Option<string>>,
                      deleteIfExist: bool, group: Option<int>) returns (r: Result<Json>)
      modifies portal
      ensures var run := CreateTaskRun(old(portal.State()), portal.canned, issue, contacts, deleteIfExist, group);
              portal.log == old(portal.log) + run.calls && portal.State() == run.state && r == run.result
    {
      var title := TaskTitle(issue);
      var existing := FindTaskByTitle(title);
      if existing.Err? {
        return Err(existing.error);
      }
      ghost var s1, log1 := portal.State(), portal.log;
      assert CreateTaskRun(s1, portal.canned, issue, contacts, deleteIfExist, group).calls
          == [TaskList(title)] + AfterLookupRun(s1, portal.canned, existing.value, issue, contacts, deleteIfExist, group).calls;
      r := AfterLookup(existing.value, issue, contacts, deleteIfExist, group);
    }

    /** The part of `createBitrixTask` after the lookup, proved against `AfterLookupRun`. */
    method AfterLookup(existing: Option<int>, issue: Jira.Issue, contacts: map<Option<string>, Option<string>>,
                       deleteIfExist: bool, group: Option<int>) returns (r: Result<Json>)
      modifies portal
      ensures var run := AfterLookupRun(old(portal.State()), portal.canned, existing, issue, contacts, deleteIfExist, group);
              portal.log == old(portal.log) + run.calls && portal.State() == run.state && r == run.result
    {
      var found := existing.Some? && existing.value != 0;
      if found && !deleteIfExist {
        return Ok(JInt(existing.value));
      } else if found && deleteIfExist {
        var _ :- DeleteTask(existing.value);
      }
      var fields := NewTaskFields(issue, contacts, group);
      r := CallMethod(TaskAdd(fields));
    }
  }
}
