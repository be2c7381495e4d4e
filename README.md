# Jira to Bitrix24 migration, modelled in Dafny

This project models the decision logic of a one-shot migration tool that copies users,
issues and comments from a Jira server into a Bitrix24 portal. Both remote systems are
replaced by in-memory state:

- **The tracker (Jira)** is a fixed `JiraServer` value. It holds:
  - user-search results per query;
  - project keys;
  - issues per project, in creation order;
  - comments per issue.

  Its paged endpoints answer with slices of those sequences (`Jira.Page`). The client
  `Jira.JiraFetcher` only reads.
- **The portal (Bitrix24)** is a `Bitrix.Portal` object. It holds:
  - accounts, tasks and comments;
  - a positive id counter;
  - a map of canned replies, one fixed reply per method name, which that method then gives on every call (an error report or any other odd reply);
  - a ghost log of every call it received.

  `Bitrix.Respond` gives its answer to each call. The client `Bitrix.BitrixClient` holds
  the memo table of the user lookup.

Each remote call is modelled twice:
- as a pure "run" (`Run`, `Ensured`, `Progress`, `Replay`): the calls made, the portal
  state afterwards and the result;
- as an imperative method, proved to make exactly those calls and to leave exactly that
  state and result.

The properties are proved as lemmas about the runs:
- the sanitiser's output and its idempotence;
- the name split;
- first-write and last-write merges of the identity maps;
- pagination termination and completeness;
- distinct, first-occurrence order of the assignees;
- the task find/delete/create state machine;
- the memo table;
- one comment call per comment, in order.

Python's exceptions are a `Failure` value (`PyValues.Result`). The error paths of the
modelled replies (the remote's error replies, KeyError, TypeError, AttributeError,
ValueError, IndexError) are part of the model; the tracker's records are typed, so the
error paths of malformed tracker records are not (see "## Left out"). An uncaught
exception ends the run.

The model follows the code where its behaviour is easy to misread:
- `sanitizeMessage` turns a no-break space into a plain space; it does not delete it
  (migration.py:90). So "Hello\u00A0World\u0007!" becomes "Hello World!"
  (`Migration.SanitizeExample`).
- `ensureUser` never creates a user. Its request has no `displayName`, and
  `addBitrixUser` reads `displayName` first (bitrix.py:56), so the create path always
  fails (KeyError, or AttributeError/ValueError for a missing or blank name). The model
  keeps that outcome (`Migration.SignupFails`, `Migration.EnsureNeverCreates`) and does
  not repair it.
- `mapUsers` lets the email of an assignee overwrite the directory email for the same
  key. The map it builds holds emails, and `migrateIssues` passes those emails as the
  responsible, creator and author ids.
- `migrateIssues` migrates nothing when no project id (or an empty one) is given
  (migration.py:102).

Files:
- `pyvalues.dfy`: JSON values, dictionary entries (missing / null / present), truthiness, exceptions.
- `pytext.dfy`: `str.split()` and `str.split(maxsplit=1)`.
- `jira.dfy`: jira.py.
- `bitrix.dfy`: bitrix.py and the portal.
- `migration.dfy`: migration.py.

## Model

| member | source | states |
|---|---|---|
| PyText.SplitOnceAgreesWithWords | migration.py:29-30 | `split(maxsplit=1)` is empty exactly when `split()` is. Its first element is the first word. It has one element only for a one-word string. Its second element splits into exactly the remaining words. |
| PyText.SplitOnceShape | migration.py:29-30 | The first element of `split(maxsplit=1)` is a whitespace-free, non-empty word. The remainder is non-empty, does not start with whitespace, and is an untouched tail of the string (`IsTail`), inner and trailing whitespace included. |
| PyText.TailIsDrop | migration.py:29-30 | `IsTail(u, s)`, the relation used for the remainder of `split(maxsplit=1)`, holds exactly when `u` is the last `len(u)` characters of `s` (`u == s[len(s) - len(u):]`). |
| PyText.WordsAreWords | bitrix.py:56-58 | Every element of `split()` is non-empty and contains no whitespace. |
| PyText.WordsEmptyIffBlank | bitrix.py:56-57 | `split()` is empty exactly for an empty or all-whitespace string; only then does `parts[0]` fail. |
| PyText.WordsOfWord | bitrix.py:56-58 | A single word splits into itself. |
| Jira.CheckGet | jira.py:36-38 | An object body with an "error" key becomes a JiraAPIError carrying the path and `error_description`, falling back to `error`. Any other body is returned unchanged. |
| Jira.Page | jira.py:47-48 | A request at `startAt` with page size `maxResults` gets the `maxResults` items from `startAt` on, or the rest when fewer remain. A non-positive page size or an offset past the end gets nothing. |
| Jira.KeyLookupEntry | jira.py:86-91 | The record built from a user copies name, emailAddress and displayName with `.get`. A missing `active` becomes False; a null `active` stays None. |
| Jira.DirectoryEntries | jira.py:51-57 | One record per user of the page, in order, each copied with `.get`. |
| Jira.StopsAfterShortPage | jira.py:49-60 | Evenly spaced requests whose last offset lies within one page of the end satisfy the pagination contract `PagedRequests`. |
| Jira.PageFetched | jira.py:46-60 | What one request tells the pagination loop: an empty page means everything was collected; a page shorter than `maxResults` completes the data; a non-positive page size ends after one empty request. |
| Jira.PagedRequestsPages | jira.py:46-60 | Under the pagination contract, every request but the last gets a full page, and the last one comes back empty exactly when the data size is a multiple of `maxResults`. So a full final page causes exactly one more, empty, request. |
| Jira.SightingOf | jira.py:71-72 | An issue counts exactly when its assignee is present (not missing, not null) and has a non-empty name. It then yields that name and the assignee's `emailAddress` entry. |
| Jira.FirstsSameNames | jira.py:72-76 | The first sightings cover exactly the names ever sighted. |
| Jira.FirstsDistinct | jira.py:72-76 | The first sightings have pairwise distinct names. |
| Jira.FirstsAreFirst | jira.py:72-76 | Each kept sighting is the first sighting of its name. |
| Jira.FirstsInOrder | jira.py:72-76 | The kept sightings appear in the order of their names' first occurrence. |
| Jira.FirstsPrefix | jira.py:73-76 | Later issues only append pairs; the pairs collected so far never change. |
| Jira.ToAssigneesPairs | jira.py:76 | The pair list succeeds exactly when every first sighting has an `emailAddress` entry; otherwise it raises KeyError. On success, pair i is `[emailAddress, name]` of first sighting i. |
| Jira.ToAssigneesPrefixFails | jira.py:76 | Once a first sighting without `emailAddress` raised, later sightings do not change the outcome. |
| Jira.SkipIssue | jira.py:71-72 | An issue without a counted assignee leaves the set and the list unchanged. |
| Jira.SeenAgain | jira.py:73-75 | A name already in the set does not grow it, and nothing is appended. |
| Jira.FirstSighting | jira.py:73-76 | A new name grows the set by exactly one. Its pair is appended, or a KeyError is raised when `emailAddress` is missing. |
| Jira.FailureExtends | jira.py:76 | A KeyError in the issues so far is the outcome of the whole collection. |
| Jira.FailureInProject | jira.py:70-76 | A KeyError part-way through a project's issues is the outcome for the whole project. |
| Jira.FirstNamed | jira.py:84-85 | Finds the first user whose name equals the username, or None exactly when no user has that name. |
| Jira.JiraFetcher.AllIssuesAppend | jira.py:69-70 | The issues of two runs of projects are the issues of the first run followed by those of the second. |
| Jira.JiraFetcher.FailureInLaterProjects | jira.py:69-76 | A KeyError in one project is the outcome of the collection over all projects. |
| Jira.JiraFetcher.FetchUsers | jira.py:41-63 | Returns every user of the listing in order, as `Directory` has it, or the JiraAPIError of an error body. Its request offsets satisfy `PagedRequests`: each offset equals the number of users collected so far, and a full final page is followed by exactly one further request. |
| Jira.JiraFetcher.FetchIssues | jira.py:100-123 | Returns all stored issues of the project in order, and each request's `startAt` equals the number of issues collected so far. |
| Jira.JiraFetcher.CollectFromIssues | jira.py:70-76 | After one project's issues, the set and the list are those of all issues so far (`Collected`). A KeyError is the collection's own outcome. |
| Jira.JiraFetcher.CollectFromIssue | jira.py:71-76 | One issue keeps the set and the pair list equal to the names and the first-sighting pairs of the issues so far, or raises the collection's KeyError. |
| Jira.JiraFetcher.CollectAssigneeKeys | jira.py:65-78 | Returns exactly `CollectedAssignees`: one pair per distinct name over all projects and issues, in first-occurrence order, each with the email of the first occurrence. |
| Jira.JiraFetcher.FetchUserByKey | jira.py:80-92 | One request with page size 1. It returns the first user whose name equals the username, or None. An error body raises JiraAPIError, an empty object gives None, and any other object raises AttributeError. |
| Bitrix.DecimalRoundTrip | bitrix.py:48 | `int()` of the decimal text of any id gives that id back. |
| Bitrix.PyInt | bitrix.py:48 | `int(x)`: an int is itself and a bool is 0 or 1. A string is parsed, with ValueError exactly when it is not an optional sign followed by digits. None, a list or a dict raises TypeError. |
| Bitrix.IdOrNone | bitrix.py:47-50 | ValueError is caught and gives None; TypeError escapes; a converted id is returned. |
| Bitrix.CallResult | bitrix.py:36-39 | An object reply with "error" is a BitrixAPIError carrying the method and `error_description`, or `error` when there is no description. Any other object gives its `result`, or {} when absent. A list or string reply raises AttributeError; a number, bool or null raises TypeError. |
| Bitrix.UserIdFrom | bitrix.py:46-51 | For a non-empty list, the converted `ID` of the first element; a missing or unparsable ID gives None. An empty or non-list result gives None. A first element that is not an object raises TypeError. |
| Bitrix.TaskIdValue | bitrix.py:79 | `ID` when it is truthy, else `id` (null when absent). |
| Bitrix.TaskIdFrom | bitrix.py:76-82 | A missing or falsy `tasks` (or a non-object result) gives None. Otherwise the first task's converted id. Each other shape of `tasks` gets its own exception or None. |
| Bitrix.NewUserFields | bitrix.py:56-66 | `displayName` is read first: missing gives KeyError, not a string gives AttributeError, no word gives IndexError. NAME is the first word and LAST_NAME the second word or "". Any later words are dropped. EMAIL is the user's `email` (KeyError when missing). The department is the given one. |
| Bitrix.OneWordUserFields | bitrix.py:56-66 | A one-word display name gives NAME that word and an empty LAST_NAME. |
| Bitrix.TaskTitle | bitrix.py:97 | The title is the key, then ": ", then the summary. |
| Bitrix.PartyKey | bitrix.py:105-112 | A null assignee or reporter is looked up as "Nobody". A missing one is looked up as None; a present one under its `name`. |
| Bitrix.NewTaskFields | bitrix.py:113-121 | TITLE is the lookup title. RESPONSIBLE_ID and CREATED_BY are the contacts of the resolved assignee and reporter. DESCRIPTION, CREATED_DATE and CHANGED_DATE default to "" only when missing. GROUP_ID is the group. |
| Bitrix.UserLookup | bitrix.py:42-51 | On a portal that answers normally, the lookup answers with the id of the first account with the email, or None. |
| Bitrix.UserLookupFound | bitrix.py:46-48 | Parsing the listing of matching accounts gives the first account's id. |
| Bitrix.TaskLookup | bitrix.py:72-82 | On a portal that answers normally, the task lookup answers with the id of the first task with the title, or None. |
| Bitrix.TaskLookupFound | bitrix.py:76-79 | Parsing the listing of matching tasks (lower-case `id` only) gives the first task's id. |
| Bitrix.CreateTaskNew | bitrix.py:97-104 | With no task under the title, `createBitrixTask` makes the lookup and one add, no delete. The new task is appended under the next id and nothing else in the portal changes. The new task is the only one with the title; the result is its id record. |
| Bitrix.CreateTaskKeepsExisting | bitrix.py:97-102 | With deletion off, an existing task is answered with its id. There is no delete and no add, and the portal is unchanged. |
| Bitrix.CreateTaskReplaces | bitrix.py:103-104 | With deletion on, an existing task is replaced: exactly one delete of the first task with the title, then one add. The new state is the old one without that task, plus the new task under the next id. The other tasks with that title stay, and the result is the new id. |
| Bitrix.CreateTaskAfterRefusedDelete | bitrix.py:103-104 | With deletion on, the add follows the delete whatever the delete answered. Only a delete that raises stops it. |
| Bitrix.CreateTaskKeepsValid | bitrix.py:94-124 | Creating a task keeps every id positive and below the counter, and task ids increasing. |
| Bitrix.AddUserRefused | bitrix.py:56-66 | A user whose fields cannot be built is refused before any call; nothing changes. |
| Bitrix.AddUserCreates | bitrix.py:61-70 | On a portal that answers normally, exactly one `user.add` with the built fields creates an account under the next id. The result is that id, or a KeyError from the log line when the user has no `key` (though the account already exists). |
| Bitrix.LookupMemoised | bitrix.py:41 | After a successful lookup, every later lookup of the same email gives the same answer without a call, even after the portal changed. |
| Bitrix.FailureNotMemoised | bitrix.py:41 | A lookup that raised is not remembered; the next lookup calls again. |
| Bitrix.BitrixClient.CallMethod | bitrix.py:30-39 | One call to the portal, then `CallResult` on its reply. |
| Bitrix.BitrixClient.FindUserByEmail | bitrix.py:41-51 | Answers from the memo table without a call, or with one `user.get` whose successful answer is then remembered. The portal is unchanged. |
| Bitrix.BitrixClient.AddUser | bitrix.py:53-70 | Its calls, portal state and result are those of `AddUserRun`. |
| Bitrix.BitrixClient.FindTaskByTitle | bitrix.py:72-82 | One `tasks.task.list` call, the portal unchanged, and the answer `TaskIdFrom` gives. |
| Bitrix.BitrixClient.DeleteTask | bitrix.py:84-92 | One `tasks.task.delete` call. It answers True exactly when the result is truthy, and the call's exception propagates. |
| Bitrix.BitrixClient.CreateTask | bitrix.py:94-124 | Its calls, portal state and result are those of `CreateTaskRun`, whose outcomes the CreateTask lemmas state. |
| Bitrix.BitrixClient.AfterLookup | bitrix.py:100-124 | The part after the lookup: its calls, state and result are those of `AfterLookupRun`. |
| Migration.ReplaceNoBreakSpace | migration.py:90 | Same length; each no-break space becomes a space and every other character is kept at its place. |
| Migration.StripControls | migration.py:92 | The output has no control character and only characters of the input. |
| Migration.SanitizedIsClean | migration.py:89-92 | The sanitised message contains no character in 0x00-0x1F or 0x7F, and no no-break space. |
| Migration.SanitizeAppend | migration.py:89-92 | Sanitising a concatenation is concatenating the sanitised parts: the sanitiser keeps order character by character. |
| Migration.SanitizeChar | migration.py:89-92 | A control character is dropped, a no-break space becomes a space, every other character is kept. |
| Migration.SanitizeKeepsClean | migration.py:89-92 | A string without control characters and no-break spaces is unchanged. |
| Migration.SanitizeIdempotent | migration.py:89-92 | Sanitising twice equals sanitising once. |
| Migration.SanitizeBetweenWords | migration.py:89-92 | A no-break space between clean words becomes a space, and a control character is removed. |
| Migration.SanitizeExample | migration.py:89-92 | "Hello\u00A0World\u0007!" becomes "Hello World!". |
| Migration.SignupRequest | migration.py:29-35 | No name raises AttributeError and a name without words raises ValueError. Otherwise the request has neither `displayName` nor `key`. |
| Migration.SignupNames | migration.py:29-30 | The name is refused exactly when blank. Otherwise `name` is the first word, and `lastName` is "" for one word. Otherwise `lastName` is the untouched tail of the name from its second word on, and its words are all the remaining ones. |
| Migration.SignupFails | migration.py:29-35 | The create path makes no call, changes nothing and raises: AttributeError without a name, ValueError for a blank one, KeyError otherwise. |
| Migration.EnsureNeverCreates | migration.py:24-35 | `ensureUser` makes at most the lookup call and never changes the portal. It succeeds exactly when the lookup finds a non-zero id, and answers with that id; id 0 counts as not found. |
| Migration.SignUp | migration.py:29-35 | Its calls, state and result are those of `SignupRun`. |
| Migration.EnsureUser | migration.py:24-35 | Its calls, state, memo table and result are those of `EnsureRun`. |
| Migration.DirectoryLastWrite | migration.py:39-40 | The last directory user with a key decides that key's email. |
| Migration.DirectoryElsewhere | migration.py:39-40 | A key that no directory user has keeps its entry. |
| Migration.AssigneeLastWrite | migration.py:43-44 | The last assignee with a name decides that name's email. |
| Migration.AssigneeElsewhere | migration.py:43-44 | A key that is no assignee's name keeps its entry. |
| Migration.CollectedNamesDistinct | jira.py:72-76 | The collected assignees have pairwise distinct names. |
| Migration.ContactsFromMeaning | migration.py:37-49 | "Nobody" always maps to nobody@example.com. Every other assignee name maps to its assignee's email, overwriting the directory. |
| Migration.DirectoryEntryKept | migration.py:39-47 | A directory key that is neither an assignee's name nor "Nobody" maps to the email of the last directory user with it. |
| Migration.MapUsers | migration.py:37-49 | Returns `ContactsFrom` of the directory listing and the assignee collection, or their exception. |
| Migration.AdmitAllStopped | migration.py:55-73 | After an exception, no further entry changes anything. |
| Migration.AdmitAllStoppedAt | migration.py:56-73 | An entry that raised leaves the remaining entries unread. |
| Migration.ScanStopped | migration.py:55-63 | A prefix listing or an entry that raised ends the prefix scan. |
| Migration.AdmitBooked | migration.py:57-63 | One entry keeps the bookkeeping: seen keys are exactly those handed to `ensureUser`, each at most once, and every key in the map is seen. |
| Migration.AdmitAllBooked | migration.py:56-73 | A run of entries keeps the bookkeeping. |
| Migration.ScanBooked | migration.py:55-63 | The prefix scan keeps the bookkeeping. |
| Migration.EnsuredOncePerKey | migration.py:53-73 | Over both passes, `ensureUser` is called at most once per key, and `seen` holds exactly the keys it was called for. |
| Migration.NobodyStepKeeps | migration.py:75-84 | The last step calls no `ensureUser`, marks nothing seen, and changes only the entry for "Nobody". |
| Migration.AdmitKeeps | migration.py:57-63 | A key already in the map keeps its entry through one more entry. |
| Migration.AdmitAllKeeps | migration.py:56-73 | A key already in the map keeps its entry through any run of entries. |
| Migration.ScanEntryKept | migration.py:55-84 | First seen wins: an entry made by the prefix scan is never overwritten by the extra assignees or the last step (except "Nobody"). |
| Migration.InactiveThenExtra | migration.py:57-59 | An inactive directory user is skipped without being marked seen. An extra assignee with the same key is still handed to `ensureUser`. |
| Migration.NobodyFields | migration.py:81-82 | The "Nobody" user's request has NAME "Nobody", LAST_NAME "" and EMAIL nobody@example.com, in department 1. |
| Migration.NobodyCreated | migration.py:77-84 | When the no-reply address is not found, exactly one `user.add` creates "Nobody" under the next id, and that id is the entry. |
| Migration.NobodyFound | migration.py:77-79 | When the no-reply address is found, nothing is created and the found id is the entry. |
| Migration.AdmitOne | migration.py:57-63 | One entry, with its calls, state, memo table, `seen` and map as `Admit` has them. |
| Migration.AdmitEach | migration.py:56-73 | A run of entries, stopping at the first exception, as `AdmitAll` has it. |
| Migration.ScanEach | migration.py:55-63 | The prefix scan over the letters, stopping at the first exception, as `ScanLetters` has it. |
| Migration.LookupOrAdd | migration.py:77-83 | The lookup of the no-reply address, and `addBitrixUser` when it is not found, as `LookupOrAddRun` has it. |
| Migration.Settle | migration.py:77-85 | The last step's calls, state and memo table. Its result is the map with the "Nobody" entry, or the exception. |
| Migration.UsersRunHasNobody | migration.py:75-85 | A `migrateUsers` run that raises nothing returns a map with an entry for "Nobody". |
| Migration.MigrateUsers | migration.py:51-85 | The calls, portal state, memo table and result are those of `UsersRun`, including a run that an exception cut short. |
| Migration.CommentTarget | migration.py:111-112 | A dict task id is replaced by `['task']['id']` (KeyError or TypeError when absent). Any other task id is used as it is. |
| Migration.CreatedTaskTarget | migration.py:111-112 | The comments of a newly created task go to its id as decimal text. |
| Migration.CommentCall | migration.py:113-116 | A body and a non-null author are needed; otherwise AttributeError. The call goes to the target with the sanitised body, which is clean, and the contact of the author's name (None for no author). |
| Migration.CommentCallsAt | migration.py:110-116 | Comment call i goes to the target with comment i's sanitised body and its author's contact. |
| Migration.CommentPostedStep | migration.py:113-117 | One good comment on a normal portal makes exactly its call and stores one comment under the next id. |
| Migration.CommentsPosted | migration.py:110-117 | Good comments on a normal portal make exactly one comment call each, in source order. Each is stored as a new comment under consecutive ids, with no exception. |
| Migration.NewIssueComments | migration.py:104-117 | An issue without a task under its title makes the lookup, the add, then one comment call per comment, all posted to the new task's id. |
| Migration.PostAllStopped | migration.py:110-117 | After an exception, no further comment changes anything. |
| Migration.IssuesStoppedAt | migration.py:104-117 | An issue that raised leaves the remaining issues unread. |
| Migration.ProjectsStoppedAt | migration.py:100-117 | A project that raised leaves the remaining projects unread. |
| Migration.UnselectedProjects | migration.py:100-102 | Projects that are not selected are passed over with no call and no change. |
| Migration.NoProjectNoCalls | migration.py:98-102 | A project id that is absent, empty, or names no project gives no call and no change. |
| Migration.PostComments | migration.py:110-117 | The comment loop of one issue, as `PostAll` has it. |
| Migration.MigrateIssue | migration.py:105-117 | One issue, with deletion on, then its comments, as `IssueStep` has it. |
| Migration.MigrateProject | migration.py:103-117 | The issues of one project, stopping at the first exception, as `IssuesFold` has it. |
| Migration.MigrateIssues | migration.py:95-117 | The calls and the portal state are those of `IssuesRun`. The result is its exception or success. |

## Left out

- `main`, argument parsing, dotenv and the logging setup: command-line plumbing and I/O.
- Session, HTTPAdapter and Retry: retry and back-off belong to the HTTP library. `raise_for_status` and JSON decoding are also left out; a portal reply is modelled as its decoded JSON.
- The LRU eviction of `lru_cache(maxsize=100)`: the memo table is a plain map without a capacity bound.
- `getBitrixWorkgroups`: it passes its arguments through and makes no decision.
- The text of exception messages: an API error carries the method or path and the raw `error_description`/`error` value, not the formatted `!r` string.
- Bitrix.ParseInt: Python's `int()` also accepts surrounding whitespace, underscores and non-ASCII digits; the model accepts only an optional sign followed by ASCII digits.
- Jira.Page and the tracker's search semantics: which users a prefix search returns is not modelled; each query has a stored listing. A non-positive page size is modelled as an empty page, since the server's answer to it is unknown.
- Jira.JiraFetcher.FetchIssues: the issue search is modelled as always answering with the stored issues. An error reply, or a reply without `issues`, is not modelled.
- Jira.JiraFetcher.ProjectKeys: `fetchJiraProjects` is modelled as the list of project keys. Its error reply and a project without `key` (KeyError) are not modelled.
- Jira.JiraFetcher.CommentsOf: `fetchComments` is modelled as the stored comments (none when nothing is stored). Its error reply is not modelled.
- The tracker's records are typed (`Jira.Person`, `Jira.Issue`, `Jira.IssueFields`, `Jira.JiraComment`), not JSON. So an issue without `key`, `fields` or `summary` (the KeyError at jira.py:71, bitrix.py:97 and migration.py:109) is not modelled. Nor is a user, assignee, reporter or author entry that is not an object (the AttributeError at jira.py:53-57, jira.py:72, bitrix.py:108, bitrix.py:112 and migration.py:116). Absent and null entries are modelled.
- The canned replies are one fixed reply per method. A method that answers normally on one call and fails on a later call cannot be modelled.
- Issue summaries, descriptions and timestamps are strings, so the f-string formatting of other JSON types in the title is not modelled.
- Migration.CommentsPosted: the normal-portal path with well-formed comments only. The error paths are given by `PostStep` and the stop lemmas, not by this lemma.
- Migration.NewIssueComments: it states the calls and the absence of an exception, not the portal's final state; that state is stated per comment by `Migration.CommentsPosted`.
- The issue counter of `migrateIssues`: it only feeds a log line.
- The portal's own behaviour is a model: sequential ids from 1, searches listing every match in order, ids serialised as decimal text. Any other behaviour of a real portal can only be injected as a canned reply per method, which then holds for every call of that method.
