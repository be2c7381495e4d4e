/** The source tracker client (jira.py): offset-paged user and issue searches over a
    fixed, in-memory tracker, the distinct-assignee collection and the exact-username
    lookup. The client keeps no mutable state, so its methods only read. */
module Jira {
  import opened PyValues

  /** A user object as the tracker returns it (in a user search, or as an issue's
      assignee, reporter or comment author). */
  datatype Person = Person(name: Field<string>, emailAddress: Field<string>,
                           displayName: Field<string>, active: Field<bool>)

  datatype IssueFields = IssueFields(summary: string, description: Field<string>,
                                     assignee: Field<Person>, reporter: Field<Person>,
                                     created: Field<string>, updated: Field<string>)

  datatype Issue = Issue(key: string, fields: IssueFields)

  datatype JiraComment = JiraComment(body: Field<string>, author: Field<Person>)

  /** What the user search answers for one query: a list that is served page by page,
      or a JSON object (an error report, or any other non-list body). */
  datatype UserListing = Listing(people: seq<Person>) | Refusal(body: map<string, Json>)

  /** The tracker's data: user-search results per query string, the project keys, the
      issues of each project (in creation order) and the comments of each issue. */
  datatype JiraServer = JiraServer(userSearch: map<string, UserListing>,
                                   projects: seq<string>,
                                   issues: map<string, seq<Issue>>,
                                   comments: map<string, seq<JiraComment>>)

  /** One user search reply: a page of users, or the object body. */
  datatype UserReply = UserPage(people: seq<Person>) | ObjectBody(body: map<string, Json>)

  /** The record `fetchJiraUsers` and `fetchJiraUserByKey` build from a user object. */
  datatype JiraUser = JiraUser(key: Option<string>, email: Option<string>,
                               displayName: Option<string>, active: Option<bool>)

  /** One `[emailAddress, name]` pair of `collectAssigneeKeys`. */
  datatype Assignee = Assignee(email: Option<string>, name: string)

  /** An issue whose assignee counts: its name and its `emailAddress` entry. */
  datatype Sighting = Sighting(name: string, email: Field<string>)

  const UserSearchPath := "/rest/api/2/user/search"

  /** `_get`'s decision on a decoded object body: a body with an "error" key becomes a
      JiraAPIError carrying the path and `error_description`, or `error` when there is
      no description; any other body is returned as it is. */
  function CheckGet(path: string, body: map<string, Json>): (r: Result<map<string, Json>>)
    ensures r.Ok? <==> "error" !in body
    ensures r.Ok? ==> r.value == body
    ensures r.Err? ==> r.error.JiraApiError? && r.error.path == path
    ensures "error" in body && "error_description" in body ==> r.error.message == body["error_description"]
    ensures "error" in body && "error_description" !in body ==> r.error.message == body["error"]
  {
    if "error" in body then Err(JiraApiError(path, JGetOr(body, "error_description", body["error"])))
    else Ok(body)
  }

  /** The slice an offset-paged endpoint returns for `startAt` and `maxResults`; a
      non-positive page size gives an empty page. */
  function Page<T>(xs: seq<T>, startAt: nat, maxResults: int): (p: seq<T>)
    ensures startAt <= |xs| && maxResults > 0 && startAt + maxResults <= |xs| ==>
              p == xs[startAt..startAt + maxResults]
    ensures startAt <= |xs| && maxResults > 0 && startAt + maxResults > |xs| ==> p == xs[startAt..]
    ensures maxResults <= 0 || startAt >= |xs| ==> p == []
  {
    var lo := if startAt <= |xs| then startAt else |xs|;
    var hi := if maxResults <= 0 then lo else if lo + maxResults <= |xs| then lo + maxResults else |xs|;
    xs[lo..hi]
  }

  /** The four entries `fetchJiraUsers` copies out of a user object with `.get`. */
  function DirectoryEntry(p: Person): JiraUser {
    JiraUser(Get(p.name), Get(p.emailAddress), Get(p.displayName), Get(p.active))
  }

  /** The same entries as `fetchJiraUserByKey` copies them: `active` defaults to False. */
  function KeyLookupEntry(p: Person): (u: JiraUser)
    ensures p.active.Absent? ==> u.active == Some(false)
    ensures p.active.Null? ==> u.active == None
    ensures p.active.Present? ==> u.active == Some(p.active.value)
    ensures u.key == Get(p.name) && u.email == Get(p.emailAddress) && u.displayName == Get(p.displayName)
  {
    JiraUser(Get(p.name), Get(p.emailAddress), Get(p.displayName), GetOr(p.active, false))
  }

  function DirectoryEntries(ps: seq<Person>): (us: seq<JiraUser>)
    ensures |us| == |ps|
    ensures forall i :: 0 <= i < |ps| ==> us[i] == DirectoryEntry(ps[i])
  {
    seq(|ps|, i requires 0 <= i < |ps| => DirectoryEntry(ps[i]))
  }

  lemma {:induction false} DirectoryEntriesAppend(a: seq<Person>, b: seq<Person>)
    ensures DirectoryEntries(a + b) == DirectoryEntries(a) + DirectoryEntries(b)
  {
    assert forall i :: 0 <= i < |a + b| ==>
      DirectoryEntries(a + b)[i] == (DirectoryEntries(a) + DirectoryEntries(b))[i];
  }

  /** Request offsets that start at 0 and grow by `m` from one request to the next. */
  ghost predicate EvenlySpaced(starts: seq<nat>, m: int) {
    |starts| >= 1 && starts[0] == 0 && forall i :: 0 < i < |starts| ==> starts[i] == starts[i - 1] + m
  }

  /** The requests a paged fetch of `n` items with page size `m` makes: `n / m + 1` of
      them, at offsets 0, m, 2m, ...; a single request at 0 when `m` is not positive. */
  ghost predicate PagedRequests(starts: seq<nat>, n: nat, m: int) {
    if m > 0 then |starts| == n / m + 1 && forall i :: 0 <= i < |starts| ==> starts[i] == i * m
    else starts == [0]
  }

  lemma {:induction false} SpacedMultiples(starts: seq<nat>, m: int, i: nat)
    requires EvenlySpaced(starts, m) && i < |starts|
    ensures starts[i] == i * m
  {
    if i > 0 {
      SpacedMultiples(starts, m, i - 1);
    }
  }

  lemma {:induction false} DivBetween(n: nat, m: nat, k: nat)
    requires m > 0 && k * m <= n < k * m + m
    ensures n / m == k
  {
    QuotientAtLeast(n, m, k);
    QuotientAtMost(n, m, k);
  }

  lemma {:induction false} QuotientAtLeast(n: nat, m: nat, k: nat)
    requires m > 0 && k * m <= n
    ensures n / m >= k
  {
    var q := n / m;
    if q < k {
      assert n < q * m + m;
      MulMono(q + 1, k, m);
      assert false;
    }
  }

  lemma {:induction false} QuotientAtMost(n: nat, m: nat, k: nat)
    requires m > 0 && n < k * m + m
    ensures n / m <= k
  {
    var q := n / m;
    if q > k {
      assert q * m <= n;
      MulMono(k + 1, q, m);
      assert false;
    }
  }

  lemma {:induction false} MulMono(a: nat, b: nat, m: nat)
    requires a <= b
    ensures a * m <= b * m && (a + 1) * m == a * m + m
  {
    assert b * m == a * m + (b - a) * m;
  }

  /** A fetch that stops at the first page shorter than `m` has made exactly the
      requests `PagedRequests` describes. */
  lemma {:induction false} StopsAfterShortPage(starts: seq<nat>, n: nat, m: int)
    requires m > 0 && EvenlySpaced(starts, m)
    requires starts[|starts| - 1] <= n < starts[|starts| - 1] + m
    ensures PagedRequests(starts, n, m)
  {
    forall i | 0 <= i < |starts| ensures starts[i] == i * m {
      SpacedMultiples(starts, m, i);
    }
    DivBetween(n, m, |starts| - 1);
  }

  /** One request of a paged fetch at the last offset of `starts`: the page extends the
      items fetched so far, and a page that is empty or shorter than `m` ends the fetch
      with every item fetched and exactly the requests `PagedRequests` describes. */
  lemma {:induction false} PageFetched<T>(xs: seq<T>, m: int, starts: seq<nat>, page: seq<T>)
    requires |starts| >= 1 && (m > 0 ==> EvenlySpaced(starts, m)) && (m <= 0 ==> starts == [0])
    requires starts[|starts| - 1] <= |xs| && page == Page(xs, starts[|starts| - 1], m)
    ensures var at := starts[|starts| - 1];
            at + |page| <= |xs| && xs[..at + |page|] == xs[..at] + page
    ensures m <= 0 ==> page == [] && PagedRequests(starts, |xs|, m)
    ensures m > 0 && page == [] ==> xs[..starts[|starts| - 1]] == xs && PagedRequests(starts, |xs|, m)
    ensures m > 0 && |page| < m ==> xs[..starts[|starts| - 1] + |page|] == xs && PagedRequests(starts, |xs|, m)
  {
    var at := starts[|starts| - 1];
    assert xs[..at + |page|] == xs[..at] + page;
    if m > 0 && |page| < m {
      assert at + |page| == |xs|;
      StopsAfterShortPage(starts, |xs|, m);
    }
  }

  /** Paging through `xs` in pages of `m > 0`: every request but the last returns a full
      page, and the last one returns nothing exactly when `|xs|` is a multiple of `m`
      (one extra, empty request after a full final page). */
  lemma {:induction false} PagedRequestsPages<T>(xs: seq<T>, starts: seq<nat>, m: int)
    requires m > 0 && PagedRequests(starts, |xs|, m)
    ensures forall i :: 0 <= i < |starts| - 1 ==> |Page(xs, starts[i], m)| == m
    ensures Page(xs, starts[|starts| - 1], m) == [] <==> |xs| % m == 0
  {
    var n := |xs|;
    var q := n / m;
    assert q * m + n % m == n;
    forall i | 0 <= i < |starts| - 1 ensures |Page(xs, starts[i], m)| == m {
      assert i + 1 <= q;
      assert (i + 1) * m <= q * m;
      assert starts[i] + m <= n;
    }
    assert starts[|starts| - 1] == q * m;
  }

  /** The issues that `collectAssigneeKeys` takes an assignee from: the assignee is
      neither missing nor null and has a non-empty name. */
  function SightingOf(issue: Issue): (s: Option<Sighting>)
    ensures s.Some? <==> issue.fields.assignee.Present?
                         && Get(issue.fields.assignee.value.name).Some?
                         && Get(issue.fields.assignee.value.name).value != ""
    ensures s.Some? ==> s.value == Sighting(Get(issue.fields.assignee.value.name).value,
                                            issue.fields.assignee.value.emailAddress)
  {
    match issue.fields.assignee
    case Present(p) =>
      (match Get(p.name)
       case Some(n) => if n != "" then Some(Sighting(n, p.emailAddress)) else None
       case None => None)
    case _ => None
  }

  function Sightings(issues: seq<Issue>): seq<Sighting> {
    if issues == [] then []
    else
      var last := issues[|issues| - 1];
      Sightings(issues[..|issues| - 1]) + (if SightingOf(last).Some? then [SightingOf(last).value] else [])
  }

  lemma {:induction false} SightingsAppend(a: seq<Issue>, b: seq<Issue>)
    ensures Sightings(a + b) == Sightings(a) + Sightings(b)
    decreases |b|
  {
    if b != [] {
      var b' := b[..|b| - 1];
      assert (a + b)[..|a + b| - 1] == a + b';
      assert (a + b)[|a + b| - 1] == b[|b| - 1];
      SightingsAppend(a, b');
    } else {
      assert a + b == a;
    }
  }

  lemma {:induction false} SightingsSnoc(a: seq<Issue>, x: Issue)
    ensures Sightings(a + [x]) == Sightings(a) + (if SightingOf(x).Some? then [SightingOf(x).value] else [])
  {
    assert (a + [x])[..|a|] == a;
  }

  /** The names of a run of sightings. */
  function Names(ss: seq<Sighting>): set<string> {
    if ss == [] then {} else Names(ss[..|ss| - 1]) + {ss[|ss| - 1].name}
  }

  lemma {:induction false} NamesAppend(a: seq<Sighting>, s: Sighting)
    ensures Names(a + [s]) == Names(a) + {s.name}
  {
    assert (a + [s])[..|a|] == a;
  }

  lemma {:induction false} NamesHas(ss: seq<Sighting>)
    ensures forall i :: 0 <= i < |ss| ==> ss[i].name in Names(ss)
  {
    if ss != [] {
      var prefix := ss[..|ss| - 1];
      NamesHas(prefix);
      assert forall i :: 0 <= i < |prefix| ==> ss[i] == prefix[i];
    }
  }

  /** The sightings whose name has not been seen earlier, in order. */
  function Firsts(ss: seq<Sighting>): seq<Sighting> {
    if ss == [] then []
    else
      var prefix := ss[..|ss| - 1];
      var last := ss[|ss| - 1];
      if last.name in Names(prefix) then Firsts(prefix) else Firsts(prefix) + [last]
  }

  /** The `[emailAddress, name]` pairs of first sightings; reading `emailAddress` with a
      subscript raises KeyError when the entry is missing. */
  function ToAssignees(ss: seq<Sighting>): Result<seq<Assignee>> {
    if ss == [] then Ok([])
    else
      var done :- ToAssignees(ss[..|ss| - 1]);
      var email :- Index(ss[|ss| - 1].email);
      Ok(done + [Assignee(email, ss[|ss| - 1].name)])
  }

  /** The position of the first sighting with a given name. */
  function FirstIndex(ss: seq<Sighting>, name: string): (k: nat)
    requires name in Names(ss)
    ensures k < |ss| && ss[k].name == name
    ensures forall i :: 0 <= i < k ==> ss[i].name != name
  {
    var prefix := ss[..|ss| - 1];
    NamesAppend(prefix, ss[|ss| - 1]);
    NamesHas(prefix);
    assert ss == prefix + [ss[|ss| - 1]];
    if name in Names(prefix) then FirstIndex(prefix, name) else |ss| - 1
  }

  /** One more sighting: it is appended to the first sightings exactly when its name is new. */
  lemma {:induction false} FirstsSnoc(seen: seq<Sighting>, s: Sighting)
    ensures Firsts(seen + [s]) == if s.name in Names(seen) then Firsts(seen) else Firsts(seen) + [s]
    ensures Names(seen + [s]) == Names(seen) + {s.name}
  {
    assert (seen + [s])[..|seen|] == seen;
    NamesAppend(seen, s);
  }

  /** The first sightings carry the same names as all sightings. */
  lemma {:induction false} FirstsSameNames(ss: seq<Sighting>)
    ensures Names(Firsts(ss)) == Names(ss)
  {
    if ss != [] {
      var prefix := ss[..|ss| - 1];
      var last := ss[|ss| - 1];
      assert ss == prefix + [last];
      FirstsSameNames(prefix);
      FirstsSnoc(prefix, last);
      NamesAppend(Firsts(prefix), last);
    }
  }

  /** No name occurs twice among the first sightings. */
  lemma {:induction false} FirstsDistinct(ss: seq<Sighting>)
    ensures forall i, j :: 0 <= i < j < |Firsts(ss)| ==> Firsts(ss)[i].name != Firsts(ss)[j].name
  {
    if ss != [] {
      var prefix := ss[..|ss| - 1];
      var last := ss[|ss| - 1];
      assert ss == prefix + [last];
      FirstsDistinct(prefix);
      FirstsSnoc(prefix, last);
      if last.name !in Names(prefix) {
        var fp := Firsts(prefix);
        var f := fp + [last];
        FirstsSameNames(prefix);
        NamesHas(fp);
        forall i, j | 0 <= i < j < |f| ensures f[i].name != f[j].name {
          if j < |fp| {
            assert f[i] == fp[i] && f[j] == fp[j];
          } else {
            assert f[i] == fp[i] && f[j] == last;
          }
        }
      }
    }
  }

  /** A name's first occurrence does not move when sightings are appended. */
  lemma {:induction false} FirstIndexStable(prefix: seq<Sighting>, s: Sighting, name: string)
    requires name in Names(prefix)
    ensures name in Names(prefix + [s]) && FirstIndex(prefix + [s], name) == FirstIndex(prefix, name)
  {
    NamesAppend(prefix, s);
    assert (prefix + [s])[..|prefix|] == prefix;
  }

  /** Each first sighting is the sighting at its name's first index. */
  lemma {:induction false} FirstsAreFirst(ss: seq<Sighting>)
    ensures forall k :: 0 <= k < |Firsts(ss)| ==>
              Firsts(ss)[k].name in Names(ss) && Firsts(ss)[k] == ss[FirstIndex(ss, Firsts(ss)[k].name)]
  {
    if ss != [] {
      var prefix := ss[..|ss| - 1];
      var last := ss[|ss| - 1];
      assert ss == prefix + [last];
      FirstsAreFirst(prefix);
      FirstsSnoc(prefix, last);
      var fp := Firsts(prefix);
      forall k | 0 <= k < |Firsts(ss)|
        ensures Firsts(ss)[k].name in Names(ss) && Firsts(ss)[k] == ss[FirstIndex(ss, Firsts(ss)[k].name)]
      {
        if k < |fp| {
          assert Firsts(ss)[k] == fp[k];
          FirstIndexStable(prefix, last, fp[k].name);
        } else {
          assert Firsts(ss)[k] == last;
        }
      }
    }
  }

  /** The first sightings come in the order of their first indices. */
  lemma {:induction false} FirstsInOrder(ss: seq<Sighting>)
    ensures forall k :: 0 <= k < |Firsts(ss)| ==> Firsts(ss)[k].name in Names(ss)
    ensures forall i, j :: 0 <= i < j < |Firsts(ss)| ==>
              FirstIndex(ss, Firsts(ss)[i].name) < FirstIndex(ss, Firsts(ss)[j].name)
  {
    FirstsSameNames(ss);
    NamesHas(Firsts(ss));
    if ss != [] {
      var prefix := ss[..|ss| - 1];
      var last := ss[|ss| - 1];
      assert ss == prefix + [last];
      FirstsInOrder(prefix);
      FirstsSnoc(prefix, last);
      var fp := Firsts(prefix);
      forall k | 0 <= k < |fp|
        ensures FirstIndex(ss, fp[k].name) == FirstIndex(prefix, fp[k].name)
                && FirstIndex(prefix, fp[k].name) < |prefix|
      {
        FirstIndexStable(prefix, last, fp[k].name);
      }
      if last.name !in Names(prefix) {
        assert FirstIndex(ss, last.name) == |ss| - 1;
      }
    }
  }

  /** Reading the pairs succeeds exactly when every first sighting has an `emailAddress`
      entry (null reads as None), and then pairs each name with that entry. */
  lemma {:induction false} ToAssigneesPairs(ss: seq<Sighting>)
    ensures ToAssignees(ss).Ok? <==> forall k :: 0 <= k < |ss| ==> !ss[k].email.Absent?
    ensures ToAssignees(ss).Err? ==> ToAssignees(ss).error == Raised(KeyError)
    ensures ToAssignees(ss).Ok? ==>
              |ToAssignees(ss).value| == |ss|
              && forall k :: 0 <= k < |ss| ==>
                   ToAssignees(ss).value[k] == Assignee(Get(ss[k].email), ss[k].name)
  {
    if ss != [] {
      var prefix := ss[..|ss| - 1];
      ToAssigneesPairs(prefix);
      assert forall k :: 0 <= k < |prefix| ==> ss[k] == prefix[k];
    }
  }

  /** The first sightings of a longer sequence start with those of a prefix. */
  lemma {:induction false} FirstsPrefix(a: seq<Sighting>, b: seq<Sighting>)
    ensures exists c :: Firsts(a + b) == Firsts(a) + c
    decreases |b|
  {
    if b == [] {
      assert a + b == a;
      assert Firsts(a + b) == Firsts(a) + [];
    } else {
      var b' := b[..|b| - 1];
      assert (a + b)[..|a + b| - 1] == a + b';
      FirstsPrefix(a, b');
      var c :| Firsts(a + b') == Firsts(a) + c;
      if (a + b)[|a + b| - 1].name in Names(a + b') {
        assert Firsts(a + b) == Firsts(a) + c;
      } else {
        assert Firsts(a + b) == Firsts(a) + (c + [b[|b| - 1]]);
      }
    }
  }

  /** Once reading the pairs of a prefix fails, reading them for any extension fails the
      same way. */
  lemma {:induction false} ToAssigneesPrefixFails(a: seq<Sighting>, c: seq<Sighting>)
    requires ToAssignees(a).Err?
    ensures ToAssignees(a + c) == ToAssignees(a)
    decreases |c|
  {
    if c == [] {
      assert a + c == a;
    } else {
      var c' := c[..|c| - 1];
      assert (a + c)[..|a + c| - 1] == a + c';
      ToAssigneesPrefixFails(a, c');
    }
  }

  /** The state `collectAssigneeKeys` keeps after a run of issues: the names seen and
      the pairs of their first sightings. */
  ghost predicate Collected(done: seq<Issue>, keys: set<string>, pairs: seq<Assignee>) {
    keys == Names(Sightings(done)) && ToAssignees(Firsts(Sightings(done))) == Ok(pairs)
  }

  /** An issue without a named assignee leaves the collection as it is. */
  lemma {:induction false} SkipIssue(done: seq<Issue>, issue: Issue, keys: set<string>, pairs: seq<Assignee>)
    requires Collected(done, keys, pairs) && SightingOf(issue).None?
    ensures Collected(done + [issue], keys, pairs)
  {
    SightingsSnoc(done, issue);
    assert Sightings(done) + [] == Sightings(done);
  }

  /** A name seen before does not grow the set, and nothing is appended. */
  lemma {:induction false} SeenAgain(done: seq<Issue>, issue: Issue, s: Sighting, keys: set<string>, pairs: seq<Assignee>)
    requires Collected(done, keys, pairs) && SightingOf(issue) == Some(s) && s.name in keys
    ensures keys + {s.name} == keys
    ensures Collected(done + [issue], keys, pairs)
  {
    SightingsSnoc(done, issue);
    FirstsSnoc(Sightings(done), s);
  }

  /** A new name grows the set by one and is appended with its `emailAddress` entry; a
      missing entry fails the collection. */
  lemma {:induction false} FirstSighting(done: seq<Issue>, issue: Issue, s: Sighting, keys: set<string>, pairs: seq<Assignee>)
    requires Collected(done, keys, pairs) && SightingOf(issue) == Some(s) && s.name !in keys
    ensures |keys + {s.name}| == |keys| + 1
    ensures s.email.Absent? ==> ToAssignees(Firsts(Sightings(done + [issue]))) == Err(Raised(KeyError))
    ensures !s.email.Absent? ==>
              Collected(done + [issue], keys + {s.name}, pairs + [Assignee(Get(s.email), s.name)])
  {
    SightingsSnoc(done, issue);
    FirstsSnoc(Sightings(done), s);
    var f := Firsts(Sightings(done)) + [s];
    assert f[..|f| - 1] == Firsts(Sightings(done));
  }

  /** Once reading the pairs fails for a run of issues, it fails the same way for any
      longer run. */
  lemma {:induction false} FailureExtends(done: seq<Issue>, later: seq<Issue>)
    requires ToAssignees(Firsts(Sightings(done))).Err?
    ensures ToAssignees(Firsts(Sightings(done + later))) == ToAssignees(Firsts(Sightings(done)))
  {
    SightingsAppend(done, later);
    FirstsPrefix(Sightings(done), Sightings(later));
    var c :| Firsts(Sightings(done) + Sightings(later)) == Firsts(Sightings(done)) + c;
    ToAssigneesPrefixFails(Firsts(Sightings(done)), c);
  }

  /** A failure part-way through a project's issues is the failure of the whole project. */
  lemma {:induction false} FailureInProject(before: seq<Issue>, issues: seq<Issue>, i: nat)
    requires i <= |issues| && ToAssignees(Firsts(Sightings(before + issues[..i]))).Err?
    ensures ToAssignees(Firsts(Sightings(before + issues))) == ToAssignees(Firsts(Sightings(before + issues[..i])))
  {
    var head, tail := issues[..i], issues[i..];
    SplitAt(issues, i);
    assert before + issues == (before + head) + tail;
    FailureExtends(before + head, tail);
  }

  lemma {:induction false} SplitAt<T>(xs: seq<T>, k: nat)
    requires k <= |xs|
    ensures xs[..k] + xs[k..] == xs
  {
  }

  lemma {:induction false} AppendAssoc<T>(a: seq<T>, b: seq<T>, c: seq<T>)
    ensures a + b + c == a + (b + c)
  {
  }

  lemma {:induction false} DropLastOfAppend<T>(a: seq<T>, b: seq<T>)
    ensures b == [] ==> a + b == a
    ensures b != [] ==> (a + b)[..|a + b| - 1] == a + b[..|b| - 1] && (a + b)[|a + b| - 1] == b[|b| - 1]
  {
    if b != [] {
      assert (a + b)[..|a + b| - 1] == a + b[..|b| - 1];
    }
  }

  /** Adding an element grows a set exactly when the element is new. */
  lemma {:induction false} SetGrows<T>(keys: set<T>, x: T)
    ensures x in keys ==> keys + {x} == keys
    ensures x !in keys ==> |keys + {x}| == |keys| + 1
  {
    if x !in keys {
      assert keys + {x} - {x} == keys;
    }
  }

  /** An issue of `collectAssigneeKeys`'s inner loop that has no named assignee, or one
      whose name was seen before, changes nothing. */
  lemma {:induction false} CollectUnchanged(before: seq<Issue>, issues: seq<Issue>, i: nat,
                                            keys: set<string>, pairs: seq<Assignee>)
    requires i < |issues| && Collected(before + issues[..i], keys, pairs)
    requires SightingOf(issues[i]).Some? ==> SightingOf(issues[i]).value.name in keys
    ensures Collected(before + issues[..i + 1], keys, pairs)
  {
    var done := before + issues[..i];
    assert before + issues[..i + 1] == done + [issues[i]];
    if SightingOf(issues[i]).None? {
      SkipIssue(done, issues[i], keys, pairs);
    } else {
      SeenAgain(done, issues[i], SightingOf(issues[i]).value, keys, pairs);
    }
  }

  /** A new name is appended with its `emailAddress` entry. */
  lemma {:induction false} CollectNew(before: seq<Issue>, issues: seq<Issue>, i: nat,
                                      keys: set<string>, pairs: seq<Assignee>)
    requires i < |issues| && Collected(before + issues[..i], keys, pairs)
    requires SightingOf(issues[i]).Some? && SightingOf(issues[i]).value.name !in keys
    requires !SightingOf(issues[i]).value.email.Absent?
    ensures var s := SightingOf(issues[i]).value;
            Collected(before + issues[..i + 1], keys + {s.name}, pairs + [Assignee(Get(s.email), s.name)])
  {
    var done := before + issues[..i];
    assert before + issues[..i + 1] == done + [issues[i]];
    FirstSighting(done, issues[i], SightingOf(issues[i]).value, keys, pairs);
  }

  /** A new name without an `emailAddress` entry is the failure of the whole project. */
  lemma {:induction false} CollectFails(before: seq<Issue>, issues: seq<Issue>, i: nat,
                                        keys: set<string>, pairs: seq<Assignee>)
    requires i < |issues| && Collected(before + issues[..i], keys, pairs)
    requires SightingOf(issues[i]).Some? && SightingOf(issues[i]).value.name !in keys
    requires SightingOf(issues[i]).value.email.Absent?
    ensures ToAssignees(Firsts(Sightings(before + issues))) == Err(Raised(KeyError))
  {
    var done := before + issues[..i];
    assert before + issues[..i + 1] == done + [issues[i]];
    FirstSighting(done, issues[i], SightingOf(issues[i]).value, keys, pairs);
    FailureInProject(before, issues, i + 1);
  }

  /** The position of the first user in `ps` whose name is `username`, if any. */
  function FirstNamed(ps: seq<Person>, username: string): (r: Option<nat>)
    ensures r.None? <==> forall j :: 0 <= j < |ps| ==> Get(ps[j].name) != Some(username)
    ensures r.Some? ==> r.value < |ps| && Get(ps[r.value].name) == Some(username)
                        && forall j :: 0 <= j < r.value ==> Get(ps[j].name) != Some(username)
  {
    if ps == [] then None
    else if Get(ps[0].name) == Some(username) then Some(0)
    else match FirstNamed(ps[1..], username)
      case None => None
      case Some(k) => Some(k + 1)
  }

  class JiraFetcher {
    const server: JiraServer
    const maxResults: int

    constructor (server: JiraServer, maxResults: int)
      ensures this.server == server && this.maxResults == maxResults
    {
      this.server := server;
      this.maxResults := maxResults;
    }

    /** The stored answer of the user search for a query (an empty list when nothing is
        stored for it). */
    function Listed(query: string): UserListing {
      if query in server.userSearch then server.userSearch[query] else Listing([])
    }

    /** The reply to one user search request. */
    function UserSearch(query: string, startAt: nat, limit: int): UserReply {
      match Listed(query)
      case Listing(ps) => UserPage(Page(ps, startAt, limit))
      case Refusal(b) => ObjectBody(b)
    }

    /** The whole answer of `fetchJiraUsers(prefix)`: every stored user, in order, when
        the page size is positive; nothing for a non-positive page size or a non-list body;
        the JiraAPIError of an error body. */
    function Directory(prefix: string): Result<seq<JiraUser>> {
      match Listed(prefix)
      case Listing(ps) => Ok(if maxResults > 0 then DirectoryEntries(ps) else [])
      case Refusal(b) =>
        var _ :- CheckGet(UserSearchPath, b);
        Ok([])
    }

    /** `fetchJiraUsers`: request pages at offset `startAt`, which is always the number of
        users collected so far, until a page is empty, not a list, or shorter than
        `maxResults`. The pages come back whole and in order; `starts` records the offset
        of every request made. */
    method FetchUsers(prefix: string) returns (r: Result<seq<JiraUser>>, ghost starts: seq<nat>)
      ensures r == Directory(prefix)
      ensures Listed(prefix).Listing? ==> PagedRequests(starts, |Listed(prefix).people|, maxResults)
      ensures Listed(prefix).Refusal? ==> starts == [0]
    {
      ghost var listing := Listed(prefix);
      ghost var ps := if listing.Listing? then listing.people else [];
      var users: seq<JiraUser> := [];
      var startAt: nat := 0;
      starts := [];
      while true
        invariant startAt <= |ps| && users == DirectoryEntries(ps[..startAt])
        invariant starts == [] ==> startAt == 0
        invariant starts != [] ==> listing.Listing? && maxResults > 0
                                   && EvenlySpaced(starts, maxResults)
                                   && startAt == starts[|starts| - 1] + maxResults
        decreases |ps| - startAt
      {
        starts := starts + [startAt];
        var resp := UserSearch(prefix, startAt, maxResults);
        if resp.ObjectBody? {
          var _ :- CheckGet(UserSearchPath, resp.body);
          r := Ok(users);
          return;
        }
        var page := resp.people;
        PageFetched(ps, maxResults, starts, page);
        if page == [] {
          r := Ok(users);
          return;
        }
        DirectoryEntriesAppend(ps[..startAt], page);
        users := users + DirectoryEntries(page);
        if |page| < maxResults {
          r := Ok(users);
          return;
        }
        startAt := startAt + |page|;
      }
    }

    /** The issues of a project, as stored. */
    function Stored(projectKey: string): seq<Issue> {
      if projectKey in server.issues then server.issues[projectKey] else []
    }

    /** The whole answer of `fetchJiraIssues(projectKey)`. */
    function IssuesOf(projectKey: string): seq<Issue> {
      if maxResults > 0 then Stored(projectKey) else []
    }

    /** `fetchJiraIssues`: the same offset pagination over the `issues` list of the issue
        search, stopping at an empty or short batch. */
    method FetchIssues(projectKey: string) returns (issues: seq<Issue>, ghost starts: seq<nat>)
      ensures issues == IssuesOf(projectKey)
      ensures PagedRequests(starts, |Stored(projectKey)|, maxResults)
    {
      ghost var all := Stored(projectKey);
      issues := [];
      var startAt: nat := 0;
      starts := [];
      while true
        invariant startAt <= |all| && issues == all[..startAt]
        invariant starts == [] ==> startAt == 0
        invariant starts != [] ==> maxResults > 0 && EvenlySpaced(starts, maxResults)
                                   && startAt == starts[|starts| - 1] + maxResults
        decreases |all| - startAt
      {
        starts := starts + [startAt];
        var batch := Page(Stored(projectKey), startAt, maxResults);
        PageFetched(all, maxResults, starts, batch);
        if batch == [] {
          return;
        }
        issues := issues + batch;
        if |batch| < maxResults {
          return;
        }
        startAt := startAt + |batch|;
      }
    }

    /** The project keys, as `fetchJiraProjects` lists them. */
    function ProjectKeys(): seq<string> {
      server.projects
    }

    /** The comments of an issue, as `fetchComments` returns them. */
    function CommentsOf(issueKey: string): seq<JiraComment> {
      if issueKey in server.comments then server.comments[issueKey] else []
    }

    /** The issues of the given projects, one project after the other. */
    function AllIssues(keys: seq<string>): seq<Issue> {
      if keys == [] then [] else AllIssues(keys[..|keys| - 1]) + IssuesOf(keys[|keys| - 1])
    }

    lemma {:induction false} AllIssuesAppend(a: seq<string>, b: seq<string>)
      ensures AllIssues(a + b) == AllIssues(a) + AllIssues(b)
      decreases |b|
    {
      DropLastOfAppend(a, b);
      if b != [] {
        AllIssuesAppend(a, b[..|b| - 1]);
      }
    }

    lemma {:induction false} AllIssuesStep(projects: seq<string>, p: nat)
      requires p < |projects|
      ensures AllIssues(projects[..p + 1]) == AllIssues(projects[..p]) + IssuesOf(projects[p])
    {
      assert projects[..p + 1][..p] == projects[..p];
    }

    /** A failure in one project is the failure of the whole collection. */
    lemma {:induction false} FailureInLaterProjects(projects: seq<string>, p: nat)
      requires p < |projects| && ToAssignees(Firsts(Sightings(AllIssues(projects[..p + 1])))).Err?
      ensures ToAssignees(Firsts(Sightings(AllIssues(projects))))
           == ToAssignees(Firsts(Sightings(AllIssues(projects[..p + 1]))))
    {
      var head, tail := projects[..p + 1], projects[p + 1..];
      SplitAt(projects, p + 1);
      AllIssuesAppend(head, tail);
      FailureExtends(AllIssues(head), AllIssues(tail));
    }

    /** What `collectAssigneeKeys` returns: the first sighting of every assignee name,
        across all projects and issues, as an `[emailAddress, name]` pair. */
    function CollectedAssignees(): Result<seq<Assignee>> {
      ToAssignees(Firsts(Sightings(AllIssues(server.projects))))
    }

    /** The inner loop of `collectAssigneeKeys`, over the issues of one project. Its answer
        is the set and list after the project, or the KeyError of a first sighting without
        `emailAddress`. */
    method CollectFromIssues(issues: seq<Issue>, ghost before: seq<Issue>,
                             keys0: set<string>, pairs0: seq<Assignee>)
      returns (r: Result<(set<string>, seq<Assignee>)>)
      requires Collected(before, keys0, pairs0)
      ensures r.Ok? ==> Collected(before + issues, r.value.0, r.value.1)
      ensures r.Err? ==> ToAssignees(Firsts(Sightings(before + issues))) == Err(r.error)
    {
      var keys := keys0;
      var usersData := pairs0;
      assert before + issues[..0] == before;
      for i := 0 to |issues|
        invariant Collected(before + issues[..i], keys, usersData)
      {
        var step := CollectFromIssue(issues, before, i, keys, usersData);
        if step.Err? {
          return Err(step.error);
        }
        keys, usersData := step.value.0, step.value.1;
      }
      assert issues[..|issues|] == issues;
      return Ok((keys, usersData));
    }

    /** One issue of the inner loop: the set of names seen and the list of pairs grow
        together, and a name is appended only when adding it grows the set, that is, on
        its first sighting. */
    method CollectFromIssue(issues: seq<Issue>, ghost before: seq<Issue>, i: nat,
                            keys0: set<string>, pairs0: seq<Assignee>)
      returns (r: Result<(set<string>, seq<Assignee>)>)
      requires i < |issues| && Collected(before + issues[..i], keys0, pairs0)
      ensures r.Ok? ==> Collected(before + issues[..i + 1], r.value.0, r.value.1)
      ensures r.Err? ==> ToAssignees(Firsts(Sightings(before + issues))) == Err(r.error)
    {
      var issue := issues[i];
      var keys := keys0;
      var usersData := pairs0;
      // Only an assignee that is present and has a non-empty name counts.
      var sighting := SightingOf(issue);
      if sighting.None? {
        CollectUnchanged(before, issues, i, keys0, pairs0);
        return Ok((keys, usersData));
      }
      var name := sighting.value.name;
      SetGrows(keys, name);
      var keyLen := |keys|;
      keys := keys + {name};
      if |keys| > keyLen {
        if sighting.value.email.Absent? {
          CollectFails(before, issues, i, keys0, pairs0);
        } else {
          CollectNew(before, issues, i, keys0, pairs0);
        }
        var email :- Index(sighting.value.email);
        usersData := usersData + [Assignee(email, name)];
      } else {
        CollectUnchanged(before, issues, i, keys0, pairs0);
      }
      return Ok((keys, usersData));
    }

    /** `collectAssigneeKeys`: every project's issues in turn through the inner loop. */
    method CollectAssigneeKeys() returns (r: Result<seq<Assignee>>)
      ensures r == CollectedAssignees()
    {
      var keys: set<string> := {};
      var usersData: seq<Assignee> := [];
      var projects := ProjectKeys();
      for p := 0 to |projects|
        invariant Collected(AllIssues(projects[..p]), keys, usersData)
      {
        var issues, _ := FetchIssues(projects[p]);
        AllIssuesStep(projects, p);
        var step := CollectFromIssues(issues, AllIssues(projects[..p]), keys, usersData);
        if step.Err? {
          FailureInLaterProjects(projects, p);
          return Err(step.error);
        }
        keys, usersData := step.value.0, step.value.1;
      }
      assert projects[..|projects|] == projects;
      r := Ok(usersData);
    }

    /** `fetchJiraUserByKey`: one search request for the exact username with a page size
        of 1, then the first user of the reply whose name equals the username. */
    method FetchUserByKey(username: string) returns (r: Result<Option<JiraUser>>)
      ensures Listed(username).Refusal? ==>
                var b := Listed(username).body;
                r == if "error" in b then Err(CheckGet(UserSearchPath, b).error)
                     else if b == map[] then Ok(None)
                     else Err(Raised(AttributeError))
      ensures Listed(username).Listing? ==>
                var page := Page(Listed(username).people, 0, 1);
                && |page| <= 1
                && r == Ok(match FirstNamed(page, username)
                           case None => None
                           case Some(i) => Some(KeyLookupEntry(page[i])))
    {
      var resp := UserSearch(username, 0, 1);
      if resp.ObjectBody? {
        var body :- CheckGet(UserSearchPath, resp.body);
        // Iterating an object visits its keys, which are strings without `.get`.
        if body == map[] {
          return Ok(None);
        }
        return Err(Raised(AttributeError));
      }
      var page := resp.people;
      var i := 0;
      while i < |page|
        invariant 0 <= i <= |page|
        invariant forall j :: 0 <= j < i ==> Get(page[j].name) != Some(username)
      {
        if Get(page[i].name) == Some(username) {
          return Ok(Some(KeyLookupEntry(page[i])));
        }
        i := i + 1;
      }
      return Ok(None);
    }
  }
}
