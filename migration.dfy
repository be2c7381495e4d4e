/** The migration driver (migration.py): the comment sanitiser, the find-or-create of a
    portal user, the two identity maps, and the replay of one project's issues and
    comments onto the portal. */
module Migration {
  import opened PyValues
  import opened PyText
  import opened Jira
  import opened Bitrix

  // ---------------------------------------------------------------------------
  // sanitizeMessage

  const NoBreakSpace: char := '\U{00A0}'

  /** The characters the sanitiser removes: U+0000 to U+001F, and U+007F. */
  predicate IsControl(c: char) {
    c <= '\U{001F}' || c == '\U{007F}'
  }

  /** The first step of the sanitiser: every no-break space (U+00A0) becomes a plain space. */
  function ReplaceNoBreakSpace(s: string): (r: string)
    ensures |r| == |s|
    ensures forall i :: 0 <= i < |s| ==> r[i] == (if s[i] == NoBreakSpace then ' ' else s[i])
  {
    if s == [] then []
    else
      var c := s[|s| - 1];
      ReplaceNoBreakSpace(s[..|s| - 1]) + [if c == NoBreakSpace then ' ' else c]
  }

  /** The second step of the sanitiser: the control characters are removed. */
  function StripControls(s: string): (r: string)
    ensures |r| <= |s|
    ensures forall i :: 0 <= i < |r| ==> !IsControl(r[i]) && r[i] in s
  {
    if s == [] then []
    else
      var c := s[|s| - 1];
      var r := StripControls(s[..|s| - 1]);
      assert forall i :: 0 <= i < |r| ==> r[i] in s;
      r + (if IsControl(c) then [] else [c])
  }

  /** `sanitizeMessage`. */
  function SanitizeMessage(s: string): string {
    StripControls(ReplaceNoBreakSpace(s))
  }

  /** What the sanitiser makes of one character. */
  function CleanChar(c: char): string {
    if IsControl(c) then [] else if c == NoBreakSpace then [' '] else [c]
  }

  /** The output holds neither a control character nor a no-break space. */
  lemma {:induction false} SanitizedIsClean(s: string)
    ensures forall i :: 0 <= i < |SanitizeMessage(s)| ==>
              !IsControl(SanitizeMessage(s)[i]) && SanitizeMessage(s)[i] != NoBreakSpace
  {
    var t := ReplaceNoBreakSpace(s);
    forall i | 0 <= i < |SanitizeMessage(s)|
      ensures !IsControl(SanitizeMessage(s)[i]) && SanitizeMessage(s)[i] != NoBreakSpace
    {
      var c := SanitizeMessage(s)[i];
      assert c in t;
      var k :| 0 <= k < |t| && t[k] == c;
    }
  }

  lemma {:induction false} ReplaceAppend(a: string, b: string)
    ensures ReplaceNoBreakSpace(a + b) == ReplaceNoBreakSpace(a) + ReplaceNoBreakSpace(b)
  {
    var l, r := ReplaceNoBreakSpace(a + b), ReplaceNoBreakSpace(a) + ReplaceNoBreakSpace(b);
    assert |l| == |r|;
    forall i | 0 <= i < |l| ensures l[i] == r[i] {
      if i >= |a| {
        assert (a + b)[i] == b[i - |a|];
      }
    }
  }

  lemma {:induction false} StripAppend(a: string, b: string)
    ensures StripControls(a + b) == StripControls(a) + StripControls(b)
    decreases |b|
  {
    if b == [] {
      assert a + b == a;
    } else {
      var b' := b[..|b| - 1];
      assert (a + b)[..|a + b| - 1] == a + b';
      StripAppend(a, b');
    }
  }

  /** The sanitiser works character by character, keeping the order: together with
      `SanitizeChar`, this determines its output for every string. */
  lemma {:induction false} SanitizeAppend(a: string, b: string)
    ensures SanitizeMessage(a + b) == SanitizeMessage(a) + SanitizeMessage(b)
  {
    ReplaceAppend(a, b);
    StripAppend(ReplaceNoBreakSpace(a), ReplaceNoBreakSpace(b));
  }

  /** A control character is dropped, a no-break space becomes a space, and every other
      character is kept. */
  lemma {:induction false} SanitizeChar(c: char)
    ensures SanitizeMessage([c]) == CleanChar(c)
  {
    var d := if c == NoBreakSpace then ' ' else c;
    var t := ReplaceNoBreakSpace([c]);
    assert t[0] == d;
    assert t == [d];
    assert [d][..0] == [];
    assert StripControls([d]) == (if IsControl(d) then [] else [d]);
  }

  /** A string without control characters and no-break spaces passes unchanged. */
  lemma {:induction false} SanitizeKeepsClean(s: string)
    requires forall i :: 0 <= i < |s| ==> !IsControl(s[i]) && s[i] != NoBreakSpace
    ensures SanitizeMessage(s) == s
    decreases |s|
  {
    if s != [] {
      var init := s[..|s| - 1];
      SanitizeKeepsClean(init);
      assert s == init + [s[|s| - 1]];
      SanitizeAppend(init, [s[|s| - 1]]);
      SanitizeChar(s[|s| - 1]);
    }
  }

  /** Sanitising twice is sanitising once. */
  lemma {:induction false} SanitizeIdempotent(s: string)
    ensures SanitizeMessage(SanitizeMessage(s)) == SanitizeMessage(s)
  {
    SanitizedIsClean(s);
    SanitizeKeepsClean(SanitizeMessage(s));
  }

  /** Two clean words with a no-break space between them and a control character after
      the second: the space becomes plain and the control character goes. */
  lemma {:induction false} SanitizeBetweenWords(a: string, b: string, c: char, e: string)
    requires forall i :: 0 <= i < |a| ==> !IsControl(a[i]) && a[i] != NoBreakSpace
    requires forall i :: 0 <= i < |b| ==> !IsControl(b[i]) && b[i] != NoBreakSpace
    requires forall i :: 0 <= i < |e| ==> !IsControl(e[i]) && e[i] != NoBreakSpace
    requires IsControl(c)
    ensures SanitizeMessage(a + [NoBreakSpace] + b + [c] + e) == a + " " + b + e
  {
    var x1 := a + [NoBreakSpace];
    var x2 := x1 + b;
    var x3 := x2 + [c];
    SanitizeAppend(a, [NoBreakSpace]);
    SanitizeKeepsClean(a);
    SanitizeChar(NoBreakSpace);
    assert SanitizeMessage(x1) == a + " ";
    SanitizeAppend(x1, b);
    SanitizeKeepsClean(b);
    assert SanitizeMessage(x2) == a + " " + b;
    SanitizeAppend(x2, [c]);
    SanitizeChar(c);
    assert SanitizeMessage(x3) == a + " " + b;
    SanitizeAppend(x3, e);
    SanitizeKeepsClean(e);
  }

  /** The no-break space between the words becomes a space, and the bell is removed. */
  lemma {:induction false} SanitizeExample()
    ensures SanitizeMessage("Hello\U{00A0}World\U{0007}!") == "Hello World!"
  {
    assert "Hello\U{00A0}World\U{0007}!" == "Hello" + [NoBreakSpace] + "World" + ['\U{0007}'] + "!";
    SanitizeBetweenWords("Hello", "World", '\U{0007}', "!");
  }

  // ---------------------------------------------------------------------------
  // ensureUser

  /** The request `ensureUser` hands to `addBitrixUser`: the name is split once on
      whitespace (AttributeError when there is no name, ValueError when it has no word),
      the first word is `name`, the untouched remainder, or "", is `lastName`. The
      request carries neither `displayName` nor `key`. */
  function SignupRequest(email: Option<string>, name: Option<string>): (r: Result<map<string, Json>>)
    ensures r.Err? <==> name.None? || SplitOnce(name.value) == []
    ensures name.None? ==> r == Err(Raised(AttributeError))
    ensures r.Err? && name.Some? ==> r == Err(Raised(ValueError))
    ensures r.Ok? ==> "displayName" !in r.value && "key" !in r.value
  {
    if name.None? then Err(Raised(AttributeError))
    else
      var parts := SplitOnce(name.value);
      if parts == [] then Err(Raised(ValueError))
      else
        Ok(RequestFields(email, parts[0], if |parts| > 1 then parts[1] else ""))
  }

  /** The dictionary `{"email": ..., "name": ..., "lastName": ...}`. */
  function RequestFields(email: Option<string>, first: string, last: string): (m: map<string, Json>)
    ensures "email" in m && m["email"] == StrOrNull(email)
    ensures "name" in m && m["name"] == JStr(first)
    ensures "lastName" in m && m["lastName"] == JStr(last)
    ensures "displayName" !in m && "key" !in m
  {
    map["email" := StrOrNull(email), "name" := JStr(first), "lastName" := JStr(last)]
  }

  /** The split of the name: a name without words is refused; otherwise `name` is its
      first word and `lastName` is "" for a one-word name, or else the tail of the name
      from its second word on, whose words are all the remaining ones. */
  lemma {:induction false} SignupNames(email: Option<string>, name: string)
    ensures SignupRequest(email, Some(name)).Err? <==> Blank(name)
    ensures !Blank(name) ==>
              var r := SignupRequest(email, Some(name)).value;
              && r["name"] == JStr(Words(name)[0]) && IsWord(Words(name)[0])
              && (|Words(name)| == 1 ==> r["lastName"] == JStr(""))
              && (|Words(name)| > 1 ==> r["lastName"].JStr? && Words(r["lastName"].s) == Words(name)[1..])
              && (|Words(name)| > 1 ==>
                    var last := r["lastName"].s;
                    last != [] && !IsSpace(last[0]) && IsTail(last, name))
  {
    SplitOnceAgreesWithWords(name);
    SplitOnceShape(name);
    WordsEmptyIffBlank(name);
    WordsAreWords(name);
  }

  /** The create path of `ensureUser` against a portal state: the request is built and
      given to `addBitrixUser`, whose result is indexed by `id`. */
  function SignupRun(s: PortalState, canned: map<string, Json>, email: Option<string>,
                     name: Option<string>): Run<Json> {
    match SignupRequest(email, name)
    case Err(e) => Run([], s, Err(e))
    case Ok(request) =>
      var added := AddUserRun(s, canned, request, DefaultDepartment);
      Run(added.calls, added.state,
          match added.result
          case Err(e) => Err(e)
          case Ok(result) => Subscript(result, "id"))
  }

  /** What one `ensureUser` call did, and the memo table after it. */
  datatype Ensured = Ensured(run: Run<Json>, cache: map<Option<string>, Option<int>>)

  /** `ensureUser` against a portal state and a memo table: the lookup of the email; a
      found (non-zero) id is the answer; otherwise the create path. */
  function EnsureRun(s: PortalState, canned: map<string, Json>, cache: map<Option<string>, Option<int>>,
                     email: Option<string>, name: Option<string>): Ensured {
    var answer := CachedLookup(s, canned, cache, email);
    var looked := LookupCalls(cache, email);
    var after := CacheAfter(cache, email, answer);
    if answer.Err? then Ensured(Run(looked, s, Err(answer.error)), after)
    else if Found(answer) then Ensured(Run(looked, s, Ok(JInt(answer.value.value))), after)
    else
      var created := SignupRun(s, canned, email, name);
      Ensured(Run(looked + created.calls, created.state, created.result), after)
  }

  /** `addBitrixUser` refuses every request `ensureUser` builds, before any call: it reads
      `displayName`, which the request does not have. So the create path makes no call,
      changes nothing and fails: AttributeError without a name, ValueError for a name
      without words, KeyError otherwise. */
  lemma {:induction false} SignupFails(s: PortalState, canned: map<string, Json>, email: Option<string>,
                                       name: Option<string>)
    ensures SignupRun(s, canned, email, name)
         == Run([], s, Err(Raised(if name.None? then AttributeError
                                  else if Blank(name.value) then ValueError
                                  else KeyError)))
  {
    if name.Some? {
      SignupNames(email, name.value);
    }
    var request := SignupRequest(email, name);
    if request.Ok? {
      assert "displayName" !in request.value;
      AddUserRefused(s, canned, request.value, DefaultDepartment);
    }
  }

  /** `ensureUser` never creates a user: it makes at most the lookup call and changes no
      account. It succeeds exactly when the lookup finds a non-zero id, and then answers
      with it; otherwise it fails with the lookup's error or the create path's. */
  lemma {:induction false} EnsureNeverCreates(s: PortalState, canned: map<string, Json>,
                                              cache: map<Option<string>, Option<int>>,
                                              email: Option<string>, name: Option<string>)
    ensures var answer := CachedLookup(s, canned, cache, email);
            var e := EnsureRun(s, canned, cache, email, name);
            && e.run.calls == LookupCalls(cache, email)
            && e.run.state == s
            && e.cache == CacheAfter(cache, email, answer)
            && (e.run.result.Ok? <==> Found(answer))
            && (Found(answer) ==> e.run.result == Ok(JInt(answer.value.value)))
            && (answer.Err? ==> e.run.result == Err(answer.error))
  {
    SignupFails(s, canned, email, name);
    assert LookupCalls(cache, email) + [] == LookupCalls(cache, email);
  }

  /** The create path of `ensureUser`, proved against `SignupRun`. */
  method SignUp(bitrix: BitrixClient, email: Option<string>, name: Option<string>) returns (r: Result<Json>)
    modifies bitrix.portal
    ensures var run := SignupRun(old(bitrix.portal.State()), bitrix.portal.canned, email, name);
            bitrix.portal.log == old(bitrix.portal.log) + run.calls && bitrix.portal.State() == run.state
            && r == run.result
  {
    if name.None? {
      return Err(Raised(AttributeError));
    }
    var parts := SplitOnce(name.value);
    if parts == [] {
      return Err(Raised(ValueError));
    }
    var last := if |parts| > 1 then parts[1] else "";
    var request := RequestFields(email, parts[0], last);
    var created := bitrix.AddUser(request, DefaultDepartment);
    r := match created
      case Err(e) => Err(e)
      case Ok(result) => Subscript(result, "id");
  }

  /** `ensureUser`, proved against `EnsureRun`. */
  method EnsureUser(bitrix: BitrixClient, email: Option<string>, name: Option<string>) returns (r: Result<Json>)
    modifies bitrix, bitrix.portal
    ensures var e := EnsureRun(old(bitrix.portal.State()), bitrix.portal.canned, old(bitrix.cache), email, name);
            && bitrix.portal.log == old(bitrix.portal.log) + e.run.calls
            && bitrix.portal.State() == e.run.state
            && bitrix.cache == e.cache
            && r == e.run.result
  {
    ghost var log0, s0, cache0 := bitrix.portal.log, bitrix.portal.State(), bitrix.cache;
    var bitrixId := bitrix.FindUserByEmail(email);
    if bitrixId.Err? {
      return Err(bitrixId.error);
    }
    if bitrixId.value.Some? && bitrixId.value.value != 0 {
      return Ok(JInt(bitrixId.value.value));
    }
    AppendAssoc(log0, LookupCalls(cache0, email), SignupRun(s0, bitrix.portal.canned, email, name).calls);
    r := SignUp(bitrix, email, name);
  }

  // ---------------------------------------------------------------------------
  // mapUsers

  const NobodyKey := "Nobody"
  const NobodyEmail := "nobody@example.com"

  /** The contact map: a user key (None for a user without `name`) to an email. */
  type ContactMap = map<Option<string>, Option<string>>

  /** The directory pass of `mapUsers`: each user's key is mapped to its email, a later
      user overwriting an earlier one with the same key. */
  function WithDirectory(m: ContactMap, users: seq<JiraUser>): ContactMap {
    if users == [] then m
    else
      var u := users[|users| - 1];
      WithDirectory(m, users[..|users| - 1])[u.key := u.email]
  }

  /** The assignee pass of `mapUsers`: each assignee's name is mapped to its email,
      overwriting what the directory pass wrote. */
  function WithAssignees(m: ContactMap, pairs: seq<Assignee>): ContactMap {
    if pairs == [] then m
    else
      var a := pairs[|pairs| - 1];
      WithAssignees(m, pairs[..|pairs| - 1])[Some(a.name) := a.email]
  }

  /** What `mapUsers` returns, from the answers of the directory listing and of the
      assignee collection: the two passes, then "Nobody". */
  function ContactsFrom(users: Result<seq<JiraUser>>, pairs: Result<seq<Assignee>>): Result<ContactMap> {
    var us :- users;
    var ps :- pairs;
    Ok(WithAssignees(WithDirectory(map[], us), ps)[Some(NobodyKey) := Some(NobodyEmail)])
  }

  /** The directory entry of the last user with a key is the one that stays. */
  lemma {:induction false} DirectoryLastWrite(m: ContactMap, users: seq<JiraUser>, i: nat)
    requires i < |users| && forall j :: i < j < |users| ==> users[j].key != users[i].key
    ensures users[i].key in WithDirectory(m, users) && WithDirectory(m, users)[users[i].key] == users[i].email
    decreases |users|
  {
    if i < |users| - 1 {
      DirectoryLastWrite(m, users[..|users| - 1], i);
    }
  }

  /** A key no user has keeps its entry, or stays absent, through the directory pass. */
  lemma {:induction false} DirectoryElsewhere(m: ContactMap, users: seq<JiraUser>, k: Option<string>)
    requires forall j :: 0 <= j < |users| ==> users[j].key != k
    ensures (k in WithDirectory(m, users)) == (k in m)
    ensures k in m ==> WithDirectory(m, users)[k] == m[k]
    decreases |users|
  {
    if users != [] {
      DirectoryElsewhere(m, users[..|users| - 1], k);
    }
  }

  /** The entry of the last assignee with a name is the one that stays. */
  lemma {:induction false} AssigneeLastWrite(m: ContactMap, pairs: seq<Assignee>, i: nat)
    requires i < |pairs| && forall j :: i < j < |pairs| ==> pairs[j].name != pairs[i].name
    ensures Some(pairs[i].name) in WithAssignees(m, pairs)
    ensures WithAssignees(m, pairs)[Some(pairs[i].name)] == pairs[i].email
    decreases |pairs|
  {
    if i < |pairs| - 1 {
      AssigneeLastWrite(m, pairs[..|pairs| - 1], i);
    }
  }

  /** A key that is no assignee's name keeps its entry, or stays absent, through the
      assignee pass. */
  lemma {:induction false} AssigneeElsewhere(m: ContactMap, pairs: seq<Assignee>, k: Option<string>)
    requires forall j :: 0 <= j < |pairs| ==> Some(pairs[j].name) != k
    ensures (k in WithAssignees(m, pairs)) == (k in m)
    ensures k in m ==> WithAssignees(m, pairs)[k] == m[k]
    decreases |pairs|
  {
    if pairs != [] {
      AssigneeElsewhere(m, pairs[..|pairs| - 1], k);
    }
  }

  /** The collected assignees have distinct names. */
  lemma {:induction false} CollectedNamesDistinct(jira: JiraFetcher)
    requires jira.CollectedAssignees().Ok?
    ensures var ps := jira.CollectedAssignees().value;
            forall i, j :: 0 <= i < j < |ps| ==> ps[i].name != ps[j].name
  {
    var ss := Firsts(Sightings(jira.AllIssues(jira.server.projects)));
    ToAssigneesPairs(ss);
    FirstsDistinct(Sightings(jira.AllIssues(jira.server.projects)));
  }

  /** In the contact map "Nobody" is always the no-reply address, every other assignee's
      name maps to the email of its first sighting (overwriting the directory), and any
      other key keeps the email of the last directory user with it. */
  lemma {:induction false} ContactsFromMeaning(jira: JiraFetcher, users: seq<JiraUser>)
    requires jira.CollectedAssignees().Ok?
    ensures var ps := jira.CollectedAssignees().value;
            var m := ContactsFrom(Ok(users), Ok(ps)).value;
            && Some(NobodyKey) in m && m[Some(NobodyKey)] == Some(NobodyEmail)
            && (forall i :: 0 <= i < |ps| && ps[i].name != NobodyKey ==>
                  Some(ps[i].name) in m && m[Some(ps[i].name)] == ps[i].email)
  {
    var ps := jira.CollectedAssignees().value;
    CollectedNamesDistinct(jira);
    forall i | 0 <= i < |ps| && ps[i].name != NobodyKey
      ensures var m := ContactsFrom(Ok(users), Ok(ps)).value;
              Some(ps[i].name) in m && m[Some(ps[i].name)] == ps[i].email
    {
      AssigneeLastWrite(WithDirectory(map[], users), ps, i);
    }
  }

  /** A directory key that is no assignee's name and not "Nobody" maps to the email of
      the last directory user with that key. */
  lemma {:induction false} DirectoryEntryKept(users: seq<JiraUser>, pairs: seq<Assignee>, i: nat)
    requires i < |users| && forall j :: i < j < |users| ==> users[j].key != users[i].key
    requires users[i].key != Some(NobodyKey)
    requires forall j :: 0 <= j < |pairs| ==> Some(pairs[j].name) != users[i].key
    ensures var m := ContactsFrom(Ok(users), Ok(pairs)).value;
            users[i].key in m && m[users[i].key] == users[i].email
  {
    DirectoryLastWrite(map[], users, i);
    AssigneeElsewhere(WithDirectory(map[], users), pairs, users[i].key);
  }

  /** `mapUsers`, proved against `ContactsFrom`. */
  method MapUsers(jira: JiraFetcher) returns (r: Result<ContactMap>)
    ensures r == ContactsFrom(jira.Directory(""), jira.CollectedAssignees())
  {
    var userMap: ContactMap := map[];
    var users, _ :- jira.FetchUsers("");
    for i := 0 to |users|
      invariant userMap == WithDirectory(map[], users[..i])
    {
      assert users[..i + 1][..i] == users[..i];
      userMap := userMap[users[i].key := users[i].email];
    }
    assert users[..|users|] == users;
    ghost var directory := userMap;
    var assignees :- jira.CollectAssigneeKeys();
    for i := 0 to |assignees|
      invariant userMap == WithAssignees(directory, assignees[..i])
    {
      assert assignees[..i + 1][..i] == assignees[..i];
      userMap := userMap[Some(assignees[i].name) := assignees[i].email];
    }
    assert assignees[..|assignees|] == assignees;
    userMap := userMap[Some(NobodyKey) := Some(NobodyEmail)];
    r := Ok(userMap);
  }

  // ---------------------------------------------------------------------------
  // migrateUsers

  /** What the user migration reads from one entry: the key it records, the email and
      name it hands to `ensureUser`, and whether the entry counts as active. A directory
      user is active only when `active` is true; an extra assignee always is, and its
      name is both its key and its name. */
  datatype Candidate = Candidate(key: Option<string>, email: Option<string>, name: Option<string>, active: bool)

  function FromDirectory(u: JiraUser): Candidate {
    Candidate(u.key, u.email, u.displayName, u.active == Some(true))
  }

  function FromExtra(a: Assignee): Candidate {
    Candidate(Some(a.name), a.email, Some(a.name), true)
  }

  function DirectoryCandidates(users: seq<JiraUser>): (cs: seq<Candidate>)
    ensures |cs| == |users| && forall i :: 0 <= i < |users| ==> cs[i] == FromDirectory(users[i])
  {
    seq(|users|, i requires 0 <= i < |users| => FromDirectory(users[i]))
  }

  function ExtraCandidates(extras: seq<Assignee>): (cs: seq<Candidate>)
    ensures |cs| == |extras| && forall i :: 0 <= i < |extras| ==> cs[i] == FromExtra(extras[i])
  {
    seq(|extras|, i requires 0 <= i < |extras| => FromExtra(extras[i]))
  }

  /** The user migration part-way: the calls made, the portal state, the memo table, the
      `seen` set, the keys `ensureUser` was called for (in order), the map built so far,
      and the exception that stopped it, if any. */
  datatype Progress = Progress(calls: seq<Call>, state: PortalState, cache: map<Option<string>, Option<int>>,
                               seen: set<Option<string>>, ensured: seq<Option<string>>,
                               userMap: map<Option<string>, Json>, failure: Option<Failure>)

  function Start(s: PortalState, cache: map<Option<string>, Option<int>>): Progress {
    Progress([], s, cache, {}, [], map[], None)
  }

  /** The bookkeeping after one `ensureUser`-like step: its calls, state and memo table
      are taken; an exception stops the migration, an id becomes the entry for `key`. */
  function Settled(p: Progress, key: Option<string>, e: Ensured): Progress {
    var q := p.(calls := p.calls + e.run.calls, state := e.run.state, cache := e.cache);
    match e.run.result
    case Err(f) => q.(failure := Some(f))
    case Ok(id) => q.(userMap := p.userMap[key := id])
  }

  /** One entry: skipped when its key has been seen or it is inactive; otherwise the key
      is marked seen and `ensureUser` decides its entry in the map. */
  function Admit(p: Progress, canned: map<string, Json>, c: Candidate): Progress {
    if p.failure.Some? || c.key in p.seen || !c.active then p
    else
      Settled(p.(seen := p.seen + {c.key}, ensured := p.ensured + [c.key]), c.key,
              EnsureRun(p.state, canned, p.cache, c.email, c.name))
  }

  function AdmitAll(p: Progress, canned: map<string, Json>, cs: seq<Candidate>): Progress {
    if cs == [] then p else Admit(AdmitAll(p, canned, cs[..|cs| - 1]), canned, cs[|cs| - 1])
  }

  const Alphabet := "abcdefghijklmnopqrstuvwxyz"

  /** The prefix scan: the directory listing of each letter in turn, every user of it
      admitted; a listing that raises stops the migration. */
  function ScanLetters(jira: JiraFetcher, p: Progress, canned: map<string, Json>, letters: string): Progress {
    if letters == [] then p
    else
      var q := ScanLetters(jira, p, canned, letters[..|letters| - 1]);
      if q.failure.Some? then q
      else match jira.Directory([letters[|letters| - 1]])
        case Err(f) => q.(failure := Some(f))
        case Ok(users) => AdmitAll(q, canned, DirectoryCandidates(users))
  }

  /** The user `migrateUsers` creates for "Nobody" when the no-reply address is unknown:
      active, with the same display name and key. */
  function NamedUser(name: string, email: string): map<string, Json> {
    map["active" := JBool(true), "displayName" := JStr(name), "email" := JStr(email), "key" := JStr(name)]
  }

  /** A lookup by email that falls back on creating a user: a found (non-zero) id is
      taken, otherwise `addBitrixUser` is called with `user` and its result is taken. */
  function LookupOrAddRun(s: PortalState, canned: map<string, Json>, cache: map<Option<string>, Option<int>>,
                          email: Option<string>, user: map<string, Json>): Ensured {
    var answer := CachedLookup(s, canned, cache, email);
    var looked := LookupCalls(cache, email);
    var after := CacheAfter(cache, email, answer);
    if answer.Err? then Ensured(Run(looked, s, Err(answer.error)), after)
    else if Found(answer) then Ensured(Run(looked, s, Ok(JInt(answer.value.value))), after)
    else
      var added := AddUserRun(s, canned, user, DefaultDepartment);
      Ensured(Run(looked + added.calls, added.state, added.result), after)
  }

  /** The entry for "Nobody": the no-reply address is looked up, and the "Nobody" user is
      created when it is not found. */
  function NobodyRun(s: PortalState, canned: map<string, Json>, cache: map<Option<string>, Option<int>>): Ensured {
    LookupOrAddRun(s, canned, cache, Some(NobodyEmail), NamedUser(NobodyKey, NobodyEmail))
  }

  /** The last step: the entry for "Nobody", whatever was there before. */
  function NobodyStep(p: Progress, canned: map<string, Json>): Progress {
    if p.failure.Some? then p else Settled(p, Some(NobodyKey), NobodyRun(p.state, canned, p.cache))
  }


  /** `migrateUsers` against a portal state and a memo table: the prefix scan, the extra
      assignees, then "Nobody". */
  function UsersRun(jira: JiraFetcher, canned: map<string, Json>, s: PortalState,
                    cache: map<Option<string>, Option<int>>, extras: seq<Assignee>): Progress {
    var scanned := ScanLetters(jira, Start(s, cache), canned, Alphabet);
    NobodyStep(AdmitAll(scanned, canned, ExtraCandidates(extras)), canned)
  }

  function Outcome(p: Progress): Result<map<Option<string>, Json>> {
    if p.failure.Some? then Err(p.failure.value) else Ok(p.userMap)
  }

  /** Once the migration has stopped, nothing further happens. */
  lemma {:induction false} AdmitAllStopped(p: Progress, canned: map<string, Json>, cs: seq<Candidate>)
    requires p.failure.Some?
    ensures AdmitAll(p, canned, cs) == p
    decreases |cs|
  {
    if cs != [] {
      AdmitAllStopped(p, canned, cs[..|cs| - 1]);
    }
  }

  lemma {:induction false} ScanStopped(jira: JiraFetcher, p: Progress, canned: map<string, Json>, letters: string, i: nat)
    requires i <= |letters| && ScanLetters(jira, p, canned, letters[..i]).failure.Some?
    ensures ScanLetters(jira, p, canned, letters) == ScanLetters(jira, p, canned, letters[..i])
    decreases |letters|
  {
    if i < |letters| {
      var init := letters[..|letters| - 1];
      assert init[..i] == letters[..i];
      ScanStopped(jira, p, canned, init, i);
    } else {
      assert letters[..i] == letters;
    }
  }

  /** The bookkeeping of the migration: a key is seen exactly when `ensureUser` has been
      called for it, that happened at most once per key, and every key in the map has been
      seen. */
  ghost predicate Booked(p: Progress) {
    && (forall k :: k in p.seen <==> k in p.ensured)
    && (forall i, j :: 0 <= i < j < |p.ensured| ==> p.ensured[i] != p.ensured[j])
    && (forall k :: k in p.userMap ==> k in p.seen)
  }

  lemma {:induction false} AdmitBooked(p: Progress, canned: map<string, Json>, c: Candidate)
    requires Booked(p)
    ensures Booked(Admit(p, canned, c))
  {
    var q := Admit(p, canned, c);
    if q != p {
      assert q.ensured == p.ensured + [c.key] && c.key !in p.ensured;
      forall i, j | 0 <= i < j < |q.ensured| ensures q.ensured[i] != q.ensured[j] {
        if j == |p.ensured| {
          assert q.ensured[i] == p.ensured[i];
        } else {
          assert q.ensured[i] == p.ensured[i] && q.ensured[j] == p.ensured[j];
        }
      }
    }
  }

  lemma {:induction false} AdmitAllBooked(p: Progress, canned: map<string, Json>, cs: seq<Candidate>)
    requires Booked(p)
    ensures Booked(AdmitAll(p, canned, cs))
    decreases |cs|
  {
    if cs != [] {
      AdmitAllBooked(p, canned, cs[..|cs| - 1]);
      AdmitBooked(AdmitAll(p, canned, cs[..|cs| - 1]), canned, cs[|cs| - 1]);
    }
  }

  lemma {:induction false} ScanBooked(jira: JiraFetcher, p: Progress, canned: map<string, Json>, letters: string)
    requires Booked(p)
    ensures Booked(ScanLetters(jira, p, canned, letters))
    decreases |letters|
  {
    if letters != [] {
      ScanBooked(jira, p, canned, letters[..|letters| - 1]);
      var q := ScanLetters(jira, p, canned, letters[..|letters| - 1]);
      if q.failure.None? && jira.Directory([letters[|letters| - 1]]).Ok? {
        AdmitAllBooked(q, canned, DirectoryCandidates(jira.Directory([letters[|letters| - 1]]).value));
      }
    }
  }

  /** `migrateUsers` calls `ensureUser` at most once per key, over both passes, and the
      `seen` set holds exactly the keys it was called for. */
  lemma {:induction false} EnsuredOncePerKey(jira: JiraFetcher, canned: map<string, Json>, s: PortalState,
                                             cache: map<Option<string>, Option<int>>, extras: seq<Assignee>)
    ensures var run := UsersRun(jira, canned, s, cache, extras);
            && (forall i, j :: 0 <= i < j < |run.ensured| ==> run.ensured[i] != run.ensured[j])
            && (forall k :: k in run.seen <==> k in run.ensured)
  {
    var scanned := ScanLetters(jira, Start(s, cache), canned, Alphabet);
    ScanBooked(jira, Start(s, cache), canned, Alphabet);
    var extended := AdmitAll(scanned, canned, ExtraCandidates(extras));
    AdmitAllBooked(scanned, canned, ExtraCandidates(extras));
    NobodyStepKeeps(extended, canned);
  }

  /** The last step calls no `ensureUser`, marks nothing seen and changes only the entry
      for "Nobody". */
  lemma {:induction false} NobodyStepKeeps(p: Progress, canned: map<string, Json>)
    ensures var q := NobodyStep(p, canned);
            && q.ensured == p.ensured && q.seen == p.seen
            && (forall k :: k != Some(NobodyKey) ==> (k in q.userMap <==> k in p.userMap))
            && (forall k :: k != Some(NobodyKey) && k in p.userMap ==> q.userMap[k] == p.userMap[k])
  {
  }

  /** A key already in the map keeps its entry through any further entries. */
  lemma {:induction false} AdmitKeeps(p: Progress, canned: map<string, Json>, c: Candidate, k: Option<string>)
    requires k in p.seen && k in p.userMap
    ensures var q := Admit(p, canned, c);
            k in q.seen && k in q.userMap && q.userMap[k] == p.userMap[k]
  {
  }

  lemma {:induction false} AdmitAllKeeps(p: Progress, canned: map<string, Json>, cs: seq<Candidate>, k: Option<string>)
    requires k in p.seen && k in p.userMap
    ensures var q := AdmitAll(p, canned, cs);
            k in q.seen && k in q.userMap && q.userMap[k] == p.userMap[k]
    decreases |cs|
  {
    if cs != [] {
      AdmitAllKeeps(p, canned, cs[..|cs| - 1], k);
      AdmitKeeps(AdmitAll(p, canned, cs[..|cs| - 1]), canned, cs[|cs| - 1], k);
    }
  }

  /** First seen wins: an entry the prefix scan made is never overwritten by the extra
      assignees, and only "Nobody" is overwritten by the last step. */
  lemma {:induction false} ScanEntryKept(jira: JiraFetcher, canned: map<string, Json>, s: PortalState,
                                         cache: map<Option<string>, Option<int>>, extras: seq<Assignee>,
                                         k: Option<string>)
    requires k != Some(NobodyKey) && k in ScanLetters(jira, Start(s, cache), canned, Alphabet).userMap
    ensures var scanned := ScanLetters(jira, Start(s, cache), canned, Alphabet);
            var run := UsersRun(jira, canned, s, cache, extras);
            k in run.userMap && run.userMap[k] == scanned.userMap[k]
  {
    var scanned := ScanLetters(jira, Start(s, cache), canned, Alphabet);
    ScanBooked(jira, Start(s, cache), canned, Alphabet);
    AdmitAllKeeps(scanned, canned, ExtraCandidates(extras), k);
    NobodyStepKeeps(AdmitAll(scanned, canned, ExtraCandidates(extras)), canned);
  }

  /** An inactive directory user is skipped without being marked seen, so an extra
      assignee with the same key is still handed to `ensureUser`. */
  lemma {:induction false} InactiveThenExtra(p: Progress, canned: map<string, Json>, u: JiraUser, a: Assignee)
    requires p.failure.None? && u.key == Some(a.name) && u.active != Some(true) && Some(a.name) !in p.seen
    ensures var q := AdmitAll(p, canned, [FromDirectory(u), FromExtra(a)]);
            q.ensured == p.ensured + [Some(a.name)] && Some(a.name) in q.seen
  {
    var cs := [FromDirectory(u), FromExtra(a)];
    assert cs[..1] == [FromDirectory(u)] && cs[..1][..0] == [];
    assert AdmitAll(p, canned, cs[..1]) == p;
  }

  /** The "Nobody" user's request: NAME "Nobody", LAST_NAME "" and the no-reply address. */
  lemma {:induction false} NobodyFields()
    ensures NewUserFields(NamedUser(NobodyKey, NobodyEmail), DefaultDepartment)
         == Ok(UserFields(JStr(NobodyEmail), NobodyKey, "", DefaultDepartment))
  {
    var user := NamedUser(NobodyKey, NobodyEmail);
    assert IsWord(NobodyKey);
    assert "email" in user && user["email"] == JStr(NobodyEmail) && user["displayName"] == JStr(NobodyKey);
    OneWordUserFields(user, DefaultDepartment);
  }

  /** On a portal that answers normally, "Nobody" is created exactly when the no-reply
      address is not found: one `user.add` with NAME "Nobody", LAST_NAME "" and that
      address, under the next id. */
  lemma {:induction false} NobodyCreated(s: PortalState, canned: map<string, Json>,
                                         cache: map<Option<string>, Option<int>>)
    requires "user.add" !in canned
    requires var answer := CachedLookup(s, canned, cache, Some(NobodyEmail)); answer.Ok? && !Found(answer)
    ensures var fields := UserFields(JStr(NobodyEmail), NobodyKey, "", DefaultDepartment);
            var e := NobodyRun(s, canned, cache);
            && e.run.calls == LookupCalls(cache, Some(NobodyEmail)) + [UserAdd(fields)]
            && e.run.state == s.(accounts := s.accounts + [Account(s.nextId, fields)], nextId := s.nextId + 1)
            && e.run.result == Ok(JInt(s.nextId))
  {
    NobodyFields();
    AddUserCreates(s, canned, NamedUser(NobodyKey, NobodyEmail), DefaultDepartment);
  }

  /** When the no-reply address is found, "Nobody" is not created: the portal is left as
      it is and the found id is the entry. */
  lemma {:induction false} NobodyFound(s: PortalState, canned: map<string, Json>,
                                       cache: map<Option<string>, Option<int>>)
    requires Found(CachedLookup(s, canned, cache, Some(NobodyEmail)))
    ensures var e := NobodyRun(s, canned, cache);
            && e.run.calls == LookupCalls(cache, Some(NobodyEmail)) && e.run.state == s
            && e.run.result == Ok(JInt(CachedLookup(s, canned, cache, Some(NobodyEmail)).value.value))
  {
  }

  /** A migration that completes has an entry for "Nobody". */
  lemma {:induction false} UsersRunHasNobody(jira: JiraFetcher, canned: map<string, Json>, s: PortalState,
                                             cache: map<Option<string>, Option<int>>, extras: seq<Assignee>)
    ensures var run := UsersRun(jira, canned, s, cache, extras);
            run.failure.None? ==> Some(NobodyKey) in run.userMap
  {
  }

  /** An entry that stops the migration leaves the remaining entries unread. */
  lemma {:induction false} AdmitAllStoppedAt(p: Progress, canned: map<string, Json>, cs: seq<Candidate>, i: nat)
    requires i <= |cs| && AdmitAll(p, canned, cs[..i]).failure.Some?
    ensures AdmitAll(p, canned, cs) == AdmitAll(p, canned, cs[..i])
    decreases |cs|
  {
    if i < |cs| {
      var init := cs[..|cs| - 1];
      assert init[..i] == cs[..i];
      AdmitAllStoppedAt(p, canned, init, i);
    } else {
      assert cs[..i] == cs;
    }
  }

  /** The program's state agrees with `p`: the calls `p` made follow `log0`, and the
      portal and the memo table are as `p` has them. */
  ghost predicate Tracks(p: Progress, bitrix: BitrixClient, log0: seq<Call>)
    reads bitrix, bitrix.portal
  {
    bitrix.portal.log == log0 + p.calls && bitrix.portal.State() == p.state && bitrix.cache == p.cache
  }

  /** One entry of either pass of `migrateUsers`, proved against `Admit`. */
  method AdmitOne(bitrix: BitrixClient, c: Candidate, seen: set<Option<string>>, userMap: map<Option<string>, Json>,
                  ghost p: Progress, ghost log0: seq<Call>)
    returns (seen': set<Option<string>>, userMap': map<Option<string>, Json>, failure: Option<Failure>)
    requires p.failure.None? && p.seen == seen && p.userMap == userMap && Tracks(p, bitrix, log0)
    modifies bitrix, bitrix.portal
    ensures var q := Admit(p, bitrix.portal.canned, c);
            && Tracks(q, bitrix, log0) && q.seen == seen' && q.userMap == userMap' && q.failure == failure
  {
    if c.key in seen || !c.active {
      return seen, userMap, None;
    }
    seen' := seen + {c.key};
    ghost var e := EnsureRun(p.state, bitrix.portal.canned, p.cache, c.email, c.name);
    var id := EnsureUser(bitrix, c.email, c.name);
    AppendAssoc(log0, p.calls, e.run.calls);
    match id
    case Err(f) =>
      userMap', failure := userMap, Some(f);
    case Ok(v) =>
      userMap', failure := userMap[c.key := v], None;
  }

  /** A run of entries, stopping at the first exception, proved against `AdmitAll`. */
  method AdmitEach(bitrix: BitrixClient, cs: seq<Candidate>, seen: set<Option<string>>,
                   userMap: map<Option<string>, Json>, ghost p: Progress, ghost log0: seq<Call>)
    returns (seen': set<Option<string>>, userMap': map<Option<string>, Json>, failure: Option<Failure>)
    requires p.failure.None? && p.seen == seen && p.userMap == userMap && Tracks(p, bitrix, log0)
    modifies bitrix, bitrix.portal
    ensures var q := AdmitAll(p, bitrix.portal.canned, cs);
            && Tracks(q, bitrix, log0) && q.seen == seen' && q.userMap == userMap' && q.failure == failure
  {
    ghost var canned := bitrix.portal.canned;
    ghost var q := p;
    seen', userMap', failure := seen, userMap, None;
    for i := 0 to |cs|
      invariant q == AdmitAll(p, canned, cs[..i]) && q.failure.None? && failure.None?
      invariant Tracks(q, bitrix, log0) && q.seen == seen' && q.userMap == userMap'
    {
      assert cs[..i + 1][..i] == cs[..i];
      seen', userMap', failure := AdmitOne(bitrix, cs[i], seen', userMap', q, log0);
      q := Admit(q, canned, cs[i]);
      if failure.Some? {
        AdmitAllStoppedAt(p, canned, cs, i + 1);
        return;
      }
    }
    assert cs[..|cs|] == cs;
  }

  /** The "Nobody" step of `migrateUsers`, proved against `LookupOrAddRun`. */
  method LookupOrAdd(bitrix: BitrixClient, email: Option<string>, user: map<string, Json>) returns (r: Result<Json>)
    modifies bitrix, bitrix.portal
    ensures var e := LookupOrAddRun(old(bitrix.portal.State()), bitrix.portal.canned, old(bitrix.cache), email, user);
            && bitrix.portal.log == old(bitrix.portal.log) + e.run.calls
            && bitrix.portal.State() == e.run.state
            && bitrix.cache == e.cache
            && r == e.run.result
  {
    ghost var log0, s0, cache0 := bitrix.portal.log, bitrix.portal.State(), bitrix.cache;
    var bitrixId := bitrix.FindUserByEmail(email);
    if bitrixId.Err? {
      return Err(bitrixId.error);
    }
    if bitrixId.value.Some? && bitrixId.value.value != 0 {
      return Ok(JInt(bitrixId.value.value));
    }
    AppendAssoc(log0, LookupCalls(cache0, email), AddUserRun(s0, bitrix.portal.canned, user, DefaultDepartment).calls);
    r := bitrix.AddUser(user, DefaultDepartment);
  }

  /** The prefix scan of `migrateUsers`, stopping at the first exception, proved against
      `ScanLetters`. */
  method ScanEach(jira: JiraFetcher, bitrix: BitrixClient, letters: string, ghost p0: Progress,
                  ghost log0: seq<Call>)
    returns (seen: set<Option<string>>, userMap: map<Option<string>, Json>, failure: Option<Failure>)
    requires p0.failure.None? && p0.seen == {} && p0.userMap == map[] && Tracks(p0, bitrix, log0)
    modifies bitrix, bitrix.portal
    ensures var q := ScanLetters(jira, p0, bitrix.portal.canned, letters);
            && Tracks(q, bitrix, log0) && q.seen == seen && q.userMap == userMap && q.failure == failure
  {
    ghost var canned := bitrix.portal.canned;
    ghost var p := p0;
    seen, userMap, failure := {}, map[], None;
    for i := 0 to |letters|
      invariant p == ScanLetters(jira, p0, canned, letters[..i]) && p.failure.None? && failure.None?
      invariant Tracks(p, bitrix, log0) && p.seen == seen && p.userMap == userMap
    {
      assert letters[..i + 1][..i] == letters[..i];
      var users, _ := jira.FetchUsers([letters[i]]);
      if users.Err? {
        p := p.(failure := Some(users.error));
        ScanStopped(jira, p0, canned, letters, i + 1);
        return seen, userMap, Some(users.error);
      }
      seen, userMap, failure := AdmitEach(bitrix, DirectoryCandidates(users.value), seen, userMap, p, log0);
      p := AdmitAll(p, canned, DirectoryCandidates(users.value));
      if failure.Some? {
        ScanStopped(jira, p0, canned, letters, i + 1);
        return;
      }
    }
    assert letters[..|letters|] == letters;
  }

  /** The last step of `migrateUsers` (with the no-reply address and the "Nobody" user),
      proved against `Settled` and `LookupOrAddRun`. */
  method Settle(bitrix: BitrixClient, userMap: map<Option<string>, Json>, key: Option<string>,
                email: Option<string>, user: map<string, Json>, ghost p: Progress, ghost log0: seq<Call>)
    returns (r: Result<map<Option<string>, Json>>)
    requires p.failure.None? && p.userMap == userMap && Tracks(p, bitrix, log0)
    modifies bitrix, bitrix.portal
    ensures var q := Settled(p, key, LookupOrAddRun(p.state, bitrix.portal.canned, p.cache, email, user));
            Tracks(q, bitrix, log0) && r == Outcome(q)
  {
    ghost var e := LookupOrAddRun(p.state, bitrix.portal.canned, p.cache, email, user);
    var bitrixId := LookupOrAdd(bitrix, email, user);
    AppendAssoc(log0, p.calls, e.run.calls);
    match bitrixId
    case Err(f) =>
      r := Err(f);
    case Ok(id) =>
      r := Ok(userMap[key := id]);
  }

  /** `migrateUsers`, proved against `UsersRun`: the calls, the portal, the memo table and
      the result are those of the run, including a run an exception cut short. */
  method MigrateUsers(extraKeys: seq<Assignee>, jira: JiraFetcher, bitrix: BitrixClient)
    returns (r: Result<map<Option<string>, Json>>)
    modifies bitrix, bitrix.portal
    ensures var run := UsersRun(jira, bitrix.portal.canned, old(bitrix.portal.State()), old(bitrix.cache), extraKeys);
            Tracks(run, bitrix, old(bitrix.portal.log)) && r == Outcome(run)
  {
    ghost var log0 := bitrix.portal.log;
    ghost var canned := bitrix.portal.canned;
    ghost var p := Start(bitrix.portal.State(), bitrix.cache);
    var seen, userMap, failure := ScanEach(jira, bitrix, Alphabet, p, log0);
    p := ScanLetters(jira, p, canned, Alphabet);
    if failure.Some? {
      AdmitAllStopped(p, canned, ExtraCandidates(extraKeys));
      return Err(failure.value);
    }
    seen, userMap, failure := AdmitEach(bitrix, ExtraCandidates(extraKeys), seen, userMap, p, log0);
    p := AdmitAll(p, canned, ExtraCandidates(extraKeys));
    if failure.Some? {
      return Err(failure.value);
    }
    r := Settle(bitrix, userMap, Some(NobodyKey), Some(NobodyEmail), NamedUser(NobodyKey, NobodyEmail), p, log0);
  }


  // ---------------------------------------------------------------------------
  // migrateIssues

  /** The task the comments go to, settled before each comment: a JSON object is
      replaced by the id of its task record, anything else is used as it is. */
  function CommentTarget(taskId: Json): (r: Result<Json>)
    ensures !taskId.JObj? ==> r == Ok(taskId)
    ensures taskId.JObj? ==>
              (r.Ok? <==> "task" in taskId.fields && taskId.fields["task"].JObj? && "id" in taskId.fields["task"].fields)
    ensures taskId.JObj? && r.Ok? ==> r.value == taskId.fields["task"].fields["id"]
    ensures r.Err? ==> r.error == Raised(KeyError) || r.error == Raised(TypeError)
  {
    if taskId.JObj? then
      var task :- Subscript(taskId, "task");
      Subscript(task, "id")
    else Ok(taskId)
  }

  /** The key a comment's author is looked up under, for an author that is not null:
      the author's `name`, and None when there is no author or no name. */
  function AuthorKey(author: Field<Person>): Option<string> {
    match author
    case Present(person) => Get(person.name)
    case _ => None
  }

  /** The `task.commentitem.add` call for a comment: the sanitised body, and the contact
      of the author (None when the author is unknown). A comment without a body
      (`sanitizeMessage(None)`) or with a null author raises AttributeError. */
  function CommentCall(target: Json, c: JiraComment, contacts: ContactMap): (r: Result<Call>)
    ensures r.Ok? <==> c.body.Present? && !c.author.Null?
    ensures r.Err? ==> r.error == Raised(AttributeError)
    ensures r.Ok? ==> && r.value.CommentAdd? && r.value.target == target
                      && r.value.message == SanitizeMessage(c.body.value)
                      && (forall i :: 0 <= i < |r.value.message| ==>
                            !IsControl(r.value.message[i]) && r.value.message[i] != NoBreakSpace)
                      && r.value.author == Lookup(contacts, AuthorKey(c.author))
  {
    match c.body
    case Present(body) =>
      if c.author.Null? then Err(Raised(AttributeError))
      else
        SanitizedIsClean(body);
        Ok(CommentAdd(target, SanitizeMessage(body), Lookup(contacts, AuthorKey(c.author))))
    case _ => Err(Raised(AttributeError))
  }

  /** The issue migration part-way: the calls made, the portal state, and the exception
      that stopped it, if any. */
  datatype Replay = Replay(calls: seq<Call>, state: PortalState, failure: Option<Failure>)

  /** The comment loop of one issue part-way: the replay and the current task id. */
  datatype Posting = Posting(replay: Replay, taskId: Json)

  /** One comment: the task id is settled, the call is built and made; an exception on
      the way, or an error the portal answers, stops the migration. */
  function PostStep(p: Posting, canned: map<string, Json>, contacts: ContactMap, c: JiraComment): Posting {
    if p.replay.failure.Some? then p
    else match CommentTarget(p.taskId)
      case Err(f) => p.(replay := p.replay.(failure := Some(f)))
      case Ok(target) =>
        match CommentCall(target, c, contacts)
        case Err(f) => Posting(p.replay.(failure := Some(f)), target)
        case Ok(call) =>
          var x := Exchange(p.replay.state, canned, call);
          var failure := if x.result.Err? then Some(x.result.error) else None;
          Posting(Replay(p.replay.calls + x.calls, x.state, failure), target)
  }

  function PostAll(p: Posting, canned: map<string, Json>, contacts: ContactMap, cs: seq<JiraComment>): Posting {
    if cs == [] then p else PostStep(PostAll(p, canned, contacts, cs[..|cs| - 1]), canned, contacts, cs[|cs| - 1])
  }

  /** One issue: `createBitrixTask` with deletion on, then its comments, posted to the
      task it answered with. */
  function IssueStep(jira: JiraFetcher, r: Replay, canned: map<string, Json>, contacts: ContactMap,
                     group: Option<int>, issue: Issue): Replay {
    if r.failure.Some? then r
    else
      var created := CreateTaskRun(r.state, canned, issue, contacts, true, group);
      var q := Replay(r.calls + created.calls, created.state, None);
      match created.result
      case Err(f) => q.(failure := Some(f))
      case Ok(taskId) => PostAll(Posting(q, taskId), canned, contacts, jira.CommentsOf(issue.key)).replay
  }

  function IssuesFold(jira: JiraFetcher, r: Replay, canned: map<string, Json>, contacts: ContactMap,
                      group: Option<int>, issues: seq<Issue>): Replay {
    if issues == [] then r
    else IssueStep(jira, IssuesFold(jira, r, canned, contacts, group, issues[..|issues| - 1]),
                   canned, contacts, group, issues[|issues| - 1])
  }

  /** The project filter: only a given, non-empty project id selects, and only the
      project with that key. */
  predicate Selected(projectId: Option<string>, key: string) {
    projectId.Some? && projectId.value != "" && projectId.value == key
  }

  /** The projects in order: the issues of a selected one are migrated, the others are
      passed over without a call. */
  function ProjectsFold(jira: JiraFetcher, r: Replay, canned: map<string, Json>, contacts: ContactMap,
                        projectId: Option<string>, group: Option<int>, keys: seq<string>): Replay {
    if keys == [] then r
    else
      var q := ProjectsFold(jira, r, canned, contacts, projectId, group, keys[..|keys| - 1]);
      if Selected(projectId, keys[|keys| - 1]) then IssuesFold(jira, q, canned, contacts, group, jira.IssuesOf(keys[|keys| - 1]))
      else q
  }

  /** `migrateIssues` against a portal state. */
  function IssuesRun(jira: JiraFetcher, canned: map<string, Json>, s: PortalState, contacts: ContactMap,
                     projectId: Option<string>, group: Option<int>): Replay {
    ProjectsFold(jira, Replay([], s, None), canned, contacts, projectId, group, jira.ProjectKeys())
  }

  function IssuesOutcome(r: Replay): Result<()> {
    if r.failure.Some? then Err(r.failure.value) else Ok(())
  }

  /** Once the migration has stopped, no further comment, issue or project changes
      anything. */
  lemma {:induction false} PostAllStopped(p: Posting, canned: map<string, Json>, contacts: ContactMap,
                                          cs: seq<JiraComment>)
    requires p.replay.failure.Some?
    ensures PostAll(p, canned, contacts, cs) == p
    decreases |cs|
  {
    if cs != [] {
      PostAllStopped(p, canned, contacts, cs[..|cs| - 1]);
    }
  }

  lemma {:induction false} PostAllStoppedAt(p: Posting, canned: map<string, Json>, contacts: ContactMap,
                                            cs: seq<JiraComment>, i: nat)
    requires i <= |cs| && PostAll(p, canned, contacts, cs[..i]).replay.failure.Some?
    ensures PostAll(p, canned, contacts, cs) == PostAll(p, canned, contacts, cs[..i])
    decreases |cs|
  {
    if i < |cs| {
      var init := cs[..|cs| - 1];
      assert init[..i] == cs[..i];
      PostAllStoppedAt(p, canned, contacts, init, i);
    } else {
      assert cs[..i] == cs;
    }
  }

  lemma {:induction false} IssuesStopped(jira: JiraFetcher, r: Replay, canned: map<string, Json>,
                                         contacts: ContactMap, group: Option<int>, issues: seq<Issue>)
    requires r.failure.Some?
    ensures IssuesFold(jira, r, canned, contacts, group, issues) == r
    decreases |issues|
  {
    if issues != [] {
      IssuesStopped(jira, r, canned, contacts, group, issues[..|issues| - 1]);
    }
  }

  lemma {:induction false} IssuesStoppedAt(jira: JiraFetcher, r: Replay, canned: map<string, Json>,
                                           contacts: ContactMap, group: Option<int>, issues: seq<Issue>, i: nat)
    requires i <= |issues| && IssuesFold(jira, r, canned, contacts, group, issues[..i]).failure.Some?
    ensures IssuesFold(jira, r, canned, contacts, group, issues) == IssuesFold(jira, r, canned, contacts, group, issues[..i])
    decreases |issues|
  {
    if i < |issues| {
      var init := issues[..|issues| - 1];
      assert init[..i] == issues[..i];
      IssuesStoppedAt(jira, r, canned, contacts, group, init, i);
    } else {
      assert issues[..i] == issues;
    }
  }

  lemma {:induction false} ProjectsStoppedAt(jira: JiraFetcher, r: Replay, canned: map<string, Json>,
                                             contacts: ContactMap, projectId: Option<string>, group: Option<int>,
                                             keys: seq<string>, i: nat)
    requires i <= |keys| && ProjectsFold(jira, r, canned, contacts, projectId, group, keys[..i]).failure.Some?
    ensures ProjectsFold(jira, r, canned, contacts, projectId, group, keys)
         == ProjectsFold(jira, r, canned, contacts, projectId, group, keys[..i])
    decreases |keys|
  {
    if i < |keys| {
      var init := keys[..|keys| - 1];
      assert init[..i] == keys[..i];
      ProjectsStoppedAt(jira, r, canned, contacts, projectId, group, init, i);
      var q := ProjectsFold(jira, r, canned, contacts, projectId, group, init);
      IssuesStopped(jira, q, canned, contacts, group, jira.IssuesOf(keys[|keys| - 1]));
    } else {
      assert keys[..i] == keys;
    }
  }

  /** Projects that are not selected are passed over: no call, no change. */
  lemma {:induction false} UnselectedProjects(jira: JiraFetcher, r: Replay, canned: map<string, Json>,
                                              contacts: ContactMap, projectId: Option<string>, group: Option<int>,
                                              keys: seq<string>)
    requires forall i :: 0 <= i < |keys| ==> !Selected(projectId, keys[i])
    ensures ProjectsFold(jira, r, canned, contacts, projectId, group, keys) == r
    decreases |keys|
  {
    if keys != [] {
      UnselectedProjects(jira, r, canned, contacts, projectId, group, keys[..|keys| - 1]);
    }
  }

  /** Without a project id (None or empty), or with one that names no project,
      `migrateIssues` makes no call and changes nothing. */
  lemma {:induction false} NoProjectNoCalls(jira: JiraFetcher, canned: map<string, Json>, s: PortalState,
                                            contacts: ContactMap, projectId: Option<string>, group: Option<int>)
    requires projectId.None? || projectId.value == "" || projectId.value !in jira.ProjectKeys()
    ensures IssuesRun(jira, canned, s, contacts, projectId, group) == Replay([], s, None)
  {
    var keys := jira.ProjectKeys();
    assert forall i :: 0 <= i < |keys| ==> !Selected(projectId, keys[i]);
    UnselectedProjects(jira, Replay([], s, None), canned, contacts, projectId, group, keys);
  }

  /** The comments of a created task go to the id in its record, as a decimal string. */
  lemma {:induction false} CreatedTaskTarget(n: int)
    ensures CommentTarget(JObj(map["task" := IdRecord("id", n)])) == Ok(JStr(Decimal(n)))
  {
    var task := IdRecord("id", n);
    assert task.JObj? && "id" in task.fields;
  }

  /** The calls that post comments with bodies and non-null authors to `target`, in order. */
  function CommentCalls(target: Json, cs: seq<JiraComment>, contacts: ContactMap): (calls: seq<Call>)
    requires forall i :: 0 <= i < |cs| ==> cs[i].body.Present? && !cs[i].author.Null?
    ensures |calls| == |cs| && forall i :: 0 <= i < |calls| ==> calls[i].CommentAdd?
  {
    if cs == [] then []
    else CommentCalls(target, cs[..|cs| - 1], contacts) + [CommentCall(target, cs[|cs| - 1], contacts).value]
  }

  /** The comments a portal that answers normally stores for posted calls, from id `n` on. */
  function Posted(n: int, calls: seq<Call>): (comments: seq<Comment>)
    requires forall i :: 0 <= i < |calls| ==> calls[i].CommentAdd?
    ensures |comments| == |calls|
  {
    if calls == [] then []
    else
      var call := calls[|calls| - 1];
      Posted(n, calls[..|calls| - 1]) + [Comment(n + |calls| - 1, call.target, call.message, call.author)]
  }

  /** Call `i` posts comment `i`: to the target, with its sanitised body and its author's
      contact. */
  lemma {:induction false} CommentCallsAt(target: Json, cs: seq<JiraComment>, contacts: ContactMap, i: nat)
    requires forall i :: 0 <= i < |cs| ==> cs[i].body.Present? && !cs[i].author.Null?
    requires i < |cs|
    ensures CommentCalls(target, cs, contacts)[i]
         == CommentAdd(target, SanitizeMessage(cs[i].body.value), Lookup(contacts, AuthorKey(cs[i].author)))
    decreases |cs|
  {
    if i < |cs| - 1 {
      CommentCallsAt(target, cs[..|cs| - 1], contacts, i);
    }
  }

  /** Stored comment `i` carries id `n + i` and what call `i` posted. */
  lemma {:induction false} PostedAt(n: int, calls: seq<Call>, i: nat)
    requires forall i :: 0 <= i < |calls| ==> calls[i].CommentAdd?
    requires i < |calls|
    ensures Posted(n, calls)[i] == Comment(n + i, calls[i].target, calls[i].message, calls[i].author)
    decreases |calls|
  {
    if i < |calls| - 1 {
      PostedAt(n, calls[..|calls| - 1], i);
    }
  }

  /** One comment with a body and a non-null author, on a portal that answers normally:
      exactly its `task.commentitem.add` call, stored under the next id. */
  lemma {:induction false} CommentPostedStep(p: Posting, canned: map<string, Json>, contacts: ContactMap,
                                             c: JiraComment, t: Json)
    requires "task.commentitem.add" !in canned
    requires p.replay.failure.None? && CommentTarget(p.taskId) == Ok(t)
    requires c.body.Present? && !c.author.Null?
    ensures var call := CommentCall(t, c, contacts).value;
            var s := p.replay.state;
            var after := s.(comments := s.comments + [Comment(s.nextId, t, call.message, call.author)],
                            nextId := s.nextId + 1);
            PostStep(p, canned, contacts, c) == Posting(Replay(p.replay.calls + [call], after, None), t)
  {
    var call := CommentCall(t, c, contacts).value;
    CommentAnswer(p.replay.state, canned, t, call.message, call.author);
  }

  /** Comments with bodies and non-null authors, posted to a task whose id is settled as
      `t`, on a portal that answers normally: exactly one `task.commentitem.add` per
      comment, in order, each with the sanitised body and the author's contact, each
      stored as a new comment under the next id; no exception. */
  lemma {:induction false} CommentsPosted(p: Posting, canned: map<string, Json>, contacts: ContactMap,
                                          cs: seq<JiraComment>, t: Json)
    requires "task.commentitem.add" !in canned
    requires p.replay.failure.None? && CommentTarget(p.taskId) == Ok(t) && !t.JObj?
    requires forall i :: 0 <= i < |cs| ==> cs[i].body.Present? && !cs[i].author.Null?
    ensures var q := PostAll(p, canned, contacts, cs);
            var calls := CommentCalls(t, cs, contacts);
            var s := p.replay.state;
            && q.replay.failure.None? && CommentTarget(q.taskId) == Ok(t)
            && q.replay.calls == p.replay.calls + calls
            && q.replay.state == s.(comments := s.comments + Posted(s.nextId, calls), nextId := s.nextId + |cs|)
    decreases |cs|
  {
    if cs == [] {
      var s := p.replay.state;
      assert CommentCalls(t, cs, contacts) == [];
      assert s.comments + [] == s.comments && p.replay.calls + [] == p.replay.calls;
    } else {
      CommentsPosted(p, canned, contacts, cs[..|cs| - 1], t);
      CommentsPostedExtend(p, canned, contacts, cs, t);
    }
  }

  /** The step of `CommentsPosted`: from the comments but the last to all of them. */
  lemma {:induction false} CommentsPostedExtend(p: Posting, canned: map<string, Json>, contacts: ContactMap,
                                                cs: seq<JiraComment>, t: Json)
    requires "task.commentitem.add" !in canned && cs != [] && !t.JObj?
    requires forall i :: 0 <= i < |cs| ==> cs[i].body.Present? && !cs[i].author.Null?
    requires var q := PostAll(p, canned, contacts, cs[..|cs| - 1]);
             var calls := CommentCalls(t, cs[..|cs| - 1], contacts);
             var s := p.replay.state;
             && q.replay.failure.None? && CommentTarget(q.taskId) == Ok(t)
             && q.replay.calls == p.replay.calls + calls
             && q.replay.state == s.(comments := s.comments + Posted(s.nextId, calls), nextId := s.nextId + |cs| - 1)
    ensures var q := PostAll(p, canned, contacts, cs);
            var calls := CommentCalls(t, cs, contacts);
            var s := p.replay.state;
            && q.replay.failure.None? && CommentTarget(q.taskId) == Ok(t)
            && q.replay.calls == p.replay.calls + calls
            && q.replay.state == s.(comments := s.comments + Posted(s.nextId, calls), nextId := s.nextId + |cs|)
  {
    var init, c := cs[..|cs| - 1], cs[|cs| - 1];
    var q0 := PostAll(p, canned, contacts, init);
    CommentPostedStep(q0, canned, contacts, c, t);
    var call := CommentCall(t, c, contacts).value;
    AppendAssoc(p.replay.calls, CommentCalls(t, init, contacts), [call]);
    PostedState(p.replay.state, q0.replay.state, CommentCalls(t, init, contacts), call);
  }

  /** The state after one more stored comment, in terms of `Posted`. */
  lemma {:induction false} PostedState(s: PortalState, s0: PortalState, calls: seq<Call>, call: Call)
    requires call.CommentAdd? && forall i :: 0 <= i < |calls| ==> calls[i].CommentAdd?
    requires s0 == s.(comments := s.comments + Posted(s.nextId, calls), nextId := s.nextId + |calls|)
    ensures s0.(comments := s0.comments + [Comment(s0.nextId, call.target, call.message, call.author)],
                nextId := s0.nextId + 1)
         == s.(comments := s.comments + Posted(s.nextId, calls + [call]), nextId := s.nextId + |calls| + 1)
  {
    var comment := Comment(s0.nextId, call.target, call.message, call.author);
    PostedSnoc(s.nextId, calls, call);
    AppendAssoc(s.comments, Posted(s.nextId, calls), [comment]);
  }

  lemma {:induction false} PostedSnoc(n: int, calls: seq<Call>, call: Call)
    requires call.CommentAdd? && forall i :: 0 <= i < |calls| ==> calls[i].CommentAdd?
    ensures Posted(n, calls + [call]) == Posted(n, calls) + [Comment(n + |calls|, call.target, call.message, call.author)]
  {
    assert (calls + [call])[..|calls|] == calls;
  }

  /** An issue with no task under its title, on a portal that answers normally: the
      lookup, the add, then one comment call per comment, all posted to the new task's
      id as a decimal string; no exception. */
  lemma {:induction false} NewIssueComments(jira: JiraFetcher, r: Replay, canned: map<string, Json>,
                                            contacts: ContactMap, group: Option<int>, issue: Issue)
    requires "tasks.task.list" !in canned && "tasks.task.add" !in canned && "task.commentitem.add" !in canned
    requires r.failure.None? && TasksTitled(r.state.tasks, TaskTitle(issue)) == []
    requires var cs := jira.CommentsOf(issue.key);
             forall i :: 0 <= i < |cs| ==> cs[i].body.Present? && !cs[i].author.Null?
    ensures var q := IssueStep(jira, r, canned, contacts, group, issue);
            var t := JStr(Decimal(r.state.nextId));
            && q.failure.None?
            && q.calls == r.calls + [TaskList(TaskTitle(issue)), TaskAdd(NewTaskFields(issue, contacts, group))]
                                  + CommentCalls(t, jira.CommentsOf(issue.key), contacts)
  {
    CreateTaskNew(r.state, canned, issue, contacts, true, group);
    var created := CreateTaskRun(r.state, canned, issue, contacts, true, group);
    var q := Replay(r.calls + created.calls, created.state, None);
    var t := JStr(Decimal(r.state.nextId));
    CreatedTaskTarget(r.state.nextId);
    CommentsPosted(Posting(q, created.result.value), canned, contacts, jira.CommentsOf(issue.key), t);
  }

  /** The portal agrees with `r`: the calls `r` made follow `log0`, and the state is
      `r`'s. */
  ghost predicate Replays(r: Replay, portal: Portal, log0: seq<Call>)
    reads portal
  {
    portal.log == log0 + r.calls && portal.State() == r.state
  }

  /** The comment loop of one issue, stopping at the first exception, proved against
      `PostAll`. */
  method PostComments(bitrix: BitrixClient, contacts: ContactMap, comments: seq<JiraComment>, taskId: Json,
                      ghost p: Posting, ghost log0: seq<Call>)
    returns (taskId': Json, failure: Option<Failure>)
    requires p.replay.failure.None? && p.taskId == taskId && Replays(p.replay, bitrix.portal, log0)
    modifies bitrix.portal
    ensures var q := PostAll(p, bitrix.portal.canned, contacts, comments);
            && Replays(q.replay, bitrix.portal, log0) && q.replay.failure == failure
            && (failure.None? ==> q.taskId == taskId')
  {
    ghost var canned := bitrix.portal.canned;
    ghost var q := p;
    taskId', failure := taskId, None;
    for i := 0 to |comments|
      invariant q == PostAll(p, canned, contacts, comments[..i]) && q.replay.failure.None? && failure.None?
      invariant Replays(q.replay, bitrix.portal, log0) && q.taskId == taskId'
    {
      assert comments[..i + 1][..i] == comments[..i];
      var target := CommentTarget(taskId');
      if target.Err? {
        q := PostStep(q, canned, contacts, comments[i]);
        PostAllStoppedAt(p, canned, contacts, comments, i + 1);
        return taskId', Some(target.error);
      }
      taskId' := target.value;
      var call := CommentCall(taskId', comments[i], contacts);
      if call.Err? {
        q := PostStep(q, canned, contacts, comments[i]);
        PostAllStoppedAt(p, canned, contacts, comments, i + 1);
        return taskId', Some(call.error);
      }
      AppendAssoc(log0, q.replay.calls, [call.value]);
      var answer := bitrix.CallMethod(call.value);
      q := PostStep(q, canned, contacts, comments[i]);
      if answer.Err? {
        PostAllStoppedAt(p, canned, contacts, comments, i + 1);
        return taskId', Some(answer.error);
      }
    }
    assert comments[..|comments|] == comments;
  }

  /** One issue of `migrateIssues`, proved against `IssueStep`. */
  method MigrateIssue(jira: JiraFetcher, bitrix: BitrixClient, contacts: ContactMap, group: Option<int>,
                      issue: Issue, ghost r: Replay, ghost log0: seq<Call>)
    returns (failure: Option<Failure>)
    requires r.failure.None? && Replays(r, bitrix.portal, log0)
    modifies bitrix.portal
    ensures var q := IssueStep(jira, r, bitrix.portal.canned, contacts, group, issue);
            Replays(q, bitrix.portal, log0) && q.failure == failure
  {
    ghost var created := CreateTaskRun(r.state, bitrix.portal.canned, issue, contacts, true, group);
    AppendAssoc(log0, r.calls, created.calls);
    var taskId := bitrix.CreateTask(issue, contacts, true, group);
    if taskId.Err? {
      return Some(taskId.error);
    }
    ghost var q := Replay(r.calls + created.calls, created.state, None);
    var comments := jira.CommentsOf(issue.key);
    var _, f := PostComments(bitrix, contacts, comments, taskId.value, Posting(q, taskId.value), log0);
    failure := f;
  }

  lemma {:induction false} IssuesFoldStep(jira: JiraFetcher, r: Replay, canned: map<string, Json>,
                                          contacts: ContactMap, group: Option<int>, issues: seq<Issue>, i: nat)
    requires i < |issues|
    ensures IssuesFold(jira, r, canned, contacts, group, issues[..i + 1])
         == IssueStep(jira, IssuesFold(jira, r, canned, contacts, group, issues[..i]), canned, contacts, group, issues[i])
  {
    assert issues[..i + 1][..i] == issues[..i];
  }

  /** The issues of one selected project, stopping at the first exception, proved
      against `IssuesFold`. */
  method MigrateProject(jira: JiraFetcher, bitrix: BitrixClient, contacts: ContactMap, group: Option<int>,
                        key: string, ghost r: Replay, ghost log0: seq<Call>)
    returns (failure: Option<Failure>)
    requires r.failure.None? && Replays(r, bitrix.portal, log0)
    modifies bitrix.portal
    ensures var q := IssuesFold(jira, r, bitrix.portal.canned, contacts, group, jira.IssuesOf(key));
            Replays(q, bitrix.portal, log0) && q.failure == failure
  {
    ghost var canned := bitrix.portal.canned;
    var issues, _ := jira.FetchIssues(key);
    ghost var q := r;
    failure := None;
    for i := 0 to |issues|
      invariant q == IssuesFold(jira, r, canned, contacts, group, issues[..i]) && q.failure.None? && failure.None?
      invariant Replays(q, bitrix.portal, log0)
    {
      IssuesFoldStep(jira, r, canned, contacts, group, issues, i);
      failure := MigrateIssue(jira, bitrix, contacts, group, issues[i], q, log0);
      q := IssueStep(jira, q, canned, contacts, group, issues[i]);
      if failure.Some? {
        IssuesStoppedAt(jira, r, canned, contacts, group, issues, i + 1);
        return;
      }
    }
    assert issues[..|issues|] == issues;
  }

  lemma {:induction false} ProjectsFoldStep(jira: JiraFetcher, r: Replay, canned: map<string, Json>,
                                            contacts: ContactMap, projectId: Option<string>, group: Option<int>,
                                            keys: seq<string>, i: nat)
    requires i < |keys|
    ensures var q := ProjectsFold(jira, r, canned, contacts, projectId, group, keys[..i]);
            ProjectsFold(jira, r, canned, contacts, projectId, group, keys[..i + 1])
            == if Selected(projectId, keys[i]) then IssuesFold(jira, q, canned, contacts, group, jira.IssuesOf(keys[i]))
               else q
  {
    assert keys[..i + 1][..i] == keys[..i];
  }

  /** `migrateIssues`, proved against `IssuesRun`: the calls and the portal are those of
      the run, including a run an exception cut short. */
  method MigrateIssues(contacts: ContactMap, jira: JiraFetcher, bitrix: BitrixClient,
                       projectId: Option<string>, group: Option<int>)
    returns (r: Result<()>)
    modifies bitrix.portal
    ensures var run := IssuesRun(jira, bitrix.portal.canned, old(bitrix.portal.State()), contacts, projectId, group);
            Replays(run, bitrix.portal, old(bitrix.portal.log)) && r == IssuesOutcome(run)
  {
    ghost var log0 := bitrix.portal.log;
    ghost var canned := bitrix.portal.canned;
    ghost var r0 := Replay([], bitrix.portal.State(), None);
    ghost var q := r0;
    var projects := jira.ProjectKeys();
    for i := 0 to |projects|
      invariant q == ProjectsFold(jira, r0, canned, contacts, projectId, group, projects[..i]) && q.failure.None?
      invariant Replays(q, bitrix.portal, log0)
    {
      ProjectsFoldStep(jira, r0, canned, contacts, projectId, group, projects, i);
      var key := projects[i];
      if projectId.Some? && projectId.value != "" && projectId.value == key {
        var failure := MigrateProject(jira, bitrix, contacts, group, key, q, log0);
        q := IssuesFold(jira, q, canned, contacts, group, jira.IssuesOf(key));
        if failure.Some? {
          ProjectsStoppedAt(jira, r0, canned, contacts, projectId, group, projects, i + 1);
          return Err(failure.value);
        }
      }
    }
    assert projects[..|projects|] == projects;
    r := Ok(());
  }
}
