# ccm2rtc in Dafny

This project models the core of `ccm2rtc`, a tool that migrates a software release's history
from CM/Synergy (the Source SCM, driven by the `ccm` command line) to Rational Team Concert
(the Target SCM, driven by its `lscm` command line and its OSLC REST interface). The model
covers five parts:

- **Retry.** The retry decorator (`retry.py`) calls a function a bounded number of times with
  exponentially growing sleeps, then once more unconditionally. It is modelled as a `while`
  loop over a function from call number to outcome. The loop is proved equal to a recursive
  reference definition, and call budget, sleeps and total sleep are proved about that
  definition.
- **Source SCM (`ccm.py`).** The model covers:
  - the command runner's error classification and its retried form;
  - the DCM prefix stripping and the line splitting;
  - the task-set difference of two baselines;
  - the section scanner of the `baseline -compare` report;
  - the choice of a baseline's project by hierarchy size;
  - the parsers of the baseline list, of a project's fields and of the `Task X:` lines.

  Command output is a string argument. A project's hierarchy size is an oracle.
- **Target SCM (`rtc.py`, module `Rtc`).** The model covers:
  - the server record and its URL;
  - the retried command line;
  - hand-written matchers for the change-set, snapshot and ETag patterns. Each matcher is
    proved sound and complete against a predicate that states where the pattern matches.
- **REST session and work items (`rtc.py`, modules `RtcSession` and `RtcWorkItem`).**
  - The REST session is the class `RtcSession.Session`. Its `authenticated` and `_authtime`
    fields follow the one-hour login lifetime. An HTTP 302 forces a new login. The last
    response and its header offset are captured field by field. The clock, each login's
    outcome and each transfer are arguments.
  - The work item is the class `RtcWorkItem.WorkItem`, which holds its decoded JSON record.
  - Every method is proved equal to a function of the state before the call, and the field
    promises (get/set, state round trip, ETag reuse) are lemmas about those functions.
- **Migration (`ccm2rtc.py`).** The orchestration is modelled as methods that return the
  commands they issue. An oracle `Env` answers each command given the commands issued before
  it. The model covers:
  - per-task replay (`add_tasks` and `migrate_task`);
  - the CDETS ticket check;
  - the sandbox realignment;
  - the collection of predecessors;
  - the main loop over consecutive baselines.

  Each loop is a method proved equal to a recursive function over the trace. Ordering and
  "nothing else is issued" are lemmas about those functions.

Modules: `Wrappers` (Option and Result), `Exec` (a process run and the exception kinds),
`Text` (string helpers), `Retry`, `Ccm`, `Rtc`, `RtcSession`, `RtcWorkItem`, `Migrate`.

Details of the code that the model keeps as written:

- `t1 = t0` in `Project.baselines` (ccm.py:182) never advances `t0`, which stays at
  1970-01-01. Each line's date is therefore only checked to be later than that epoch. The
  list keeps the order the query printed it in, and lines are not compared with each other.
- The patterns `^([0-9]+)$` (rtc.py:268) and the CDETS pattern (ccm2rtc.py:116) use Python's
  `$`, which also matches just before a final newline. The model keeps that.
- `text2list` keeps a whitespace-only line as `""`, because the emptiness test runs before
  `rstrip` (ccm.py:66-67).
- While a work item is being created, its `id` is not assigned yet (rtc.py:284). A factory
  reply without an `ETag: "…"` header makes the log line of `_extract_etag` (rtc.py:291) read
  `self.id`, which raises AttributeError, so `WorkItem(rtc, project)` fails. The model
  raises there. After creation, `flush` only logs a missing ETag.
- A baseline without a resolvable project is formatted as `'None'` in the later `ccm`
  commands (ccm.py:68-76, 187-193), and the model issues those commands with `None`.

## Model

| member | source | states |
|---|---|---|
| Retry.RetryCall | retry.py:11-31 | The decorated call equals the reference run. It makes between 1 and max(tries, 1) calls. The result is the last call's own outcome. Every earlier call raised the retried exception. An early stop happens only on an outcome that is not retried. The i-th sleep is delay·backoff^i. |
| Retry.RetriedShape | retry.py:13-30 | For any attempts, the reference run respects the call budget and returns the last call's outcome. Every earlier call raised the retried exception. Sleep i is delay·backoff^i, and there is one sleep fewer than there are calls. |
| Retry.FirstAnswerWins | retry.py:15-20 | If call k is the first that does not raise the retried exception, it decides the result. Exactly k+1 calls and k sleeps happen, so a returned value or an unchecked exception stops at once. |
| Retry.LastAttemptAlwaysMade | retry.py:14-30 | When every loop call raises the retried exception, the final call is still made, and its outcome (value or exception) is the result. |
| Retry.TotalSleep | retry.py:26-28 | The total time slept is delay·(1 + backoff + … + backoff^(m-1)) for m sleeps. |
| Retry.RetriedStep | retry.py:16-28 | A retried exception with tries > 1 adds one call and one sleep of the current delay, then goes on with tries-1 and delay·backoff. |
| Retry.RetriedStop | retry.py:15-30 | With tries ≤ 1, or on an outcome that is not retried, the current call is the last one. |
| Retry.SourcePolicyExhausted | ccm.py:29 | Under the source's policy (tries 9, delay 8, backoff 2), a call that keeps failing runs 9 times and the 9th outcome propagates. The sleeps are 8, 16, …, 1024 seconds, 2040 in all. |
| Retry.PolicySleeps | rtc.py:41 | The eight sleeps of that policy are 8·2^i, listed explicitly, and their sum is 2040. |
| Ccm.ToNewline | ccm.py:14-16 | The text up to the first newline, so `.` stops at a line break. |
| Ccm.RemoveDcmPrefixStrips | ccm.py:14-16 | For a non-empty word prefix p, `p=rest` becomes `rest`. |
| Ccm.RemoveDcmPrefixKeeps | ccm.py:14-16 | A name whose leading word run is not followed by `=` is returned unchanged. |
| Ccm.FoundOnePiece | ccm.py:29-54 | An ignore pattern of a single literal matches exactly when that literal occurs. |
| Ccm.FoundTwoUnfold | ccm.py:29-54 | A two-piece `a(?ms).*b` pattern matches exactly when b occurs after the first a. |
| Ccm.FollowedFoundTwo | ccm.py:29-54 | Any occurrence of a followed later by b makes the two-piece pattern match. |
| Ccm.FoundTwoFollowed | ccm.py:29-54 | A match of the two-piece pattern has b after the first a. |
| Ccm.Execute | ccm.py:29-54 | Status 0 returns stdout. Otherwise stderr is returned if the error pattern is in it. Failing that, stdout is returned if the output pattern is in it (stderr checked first). Otherwise a CCMError is raised, retried by the decorator; nothing else is ever raised. |
| Ccm.IgnoredErrorNotRetried | ccm.py:29-54 | A failure whose stderr carries the ignore pattern returns stderr after one call and no sleep. |
| Ccm.PersistentFailureRaises | ccm.py:29-54 | A command that fails every time runs 9 times, sleeping 8 … 1024 seconds, and raises CCMError. |
| Ccm.ExecuteFailOk | ccm.py:55-65 | Returns None exactly on a non-zero status, otherwise stdout; never raises. |
| Ccm.RStripNonEmptyAppend | ccm.py:66-67 | The line filter distributes over concatenation of line lists. |
| Ccm.Text2ListLine | ccm.py:66-67 | One line gives nothing if empty, otherwise itself without trailing whitespace. |
| Ccm.Text2ListAppend | ccm.py:66-67 | text2list of `a\nb` is text2list(a) followed by text2list(b): one entry per non-empty segment, in order. |
| Ccm.Text2ListBlankLine | ccm.py:66-67 | A whitespace-only segment yields the empty string, not nothing. |
| Ccm.LineTasks | ccm.py:77-81 | The tasks of a line are exactly the comma-separated pieces of the stripped line. |
| Ccm.TasksOfLinesMembers | ccm.py:77-81 | A task belongs to text2tasks exactly when some stripped non-empty line lists it. |
| Ccm.BaselineCompare | ccm.py:68-90 | Additions are T(bl2) − T(bl1) and removals are T(bl1) − T(bl2). They are disjoint, and applying them to T(bl1) gives T(bl2). Removals are empty when T(bl1) ⊆ T(bl2). |
| Ccm.TaskLineId | ccm.py:110-135 | A recognised task line starts with the id and a space. |
| Ccm.TaskLineIdOf | ccm.py:110-135 | `p=n rest`, with a word p and digits n, is recognised with id `p=n`. |
| Ccm.TaskLineIdAt | ccm.py:110-135 | Given a word run, `=`, digits, then a space, the id is exactly that prefix. |
| Ccm.ScanAppend | ccm.py:110-135 | Scanning two runs of lines scans the second in the section left by the first. |
| Ccm.NothingOutsideSections | ccm.py:110-135 | Before any section header, no line contributes to either list. |
| Ccm.SectionCollectsTaskLines | ccm.py:110-135 | Inside a section, every task line and only those contribute, in order and with duplicates, to that section's list and to no other. |
| Ccm.SectionAfterAppend | ccm.py:110-135 | The section after two runs of lines is the section after the second, starting where the first ended. |
| Ccm.ScanStep | ccm.py:110-135 | Scanning one more line adds that line's id to the list of the section it falls in. Header lines change the section and contribute nothing. |
| Ccm.BaselineCompareX | ccm.py:91-135 | The loop's two lists are the bl1-section and bl2-section collections of the report's lines, returned as (bl2 list, bl1 list). |
| Ccm.FirstWithCount | ccm.py:143-156 | The index found lies within the listed projects. |
| Ccm.FirstWithCountFound | ccm.py:143-156 | The index found has the wanted hierarchy count, and no earlier project has it. |
| Ccm.FirstWithCountAt | ccm.py:143-156 | The first project with the wanted count is the one found. |
| Ccm.SelectBaselineProject | ccm.py:141-156 | The project returned is the last one whose hierarchy was queried. |
| Ccm.SelectBaselineProjectChoice | ccm.py:141-156 | Returns the first listed project whose hierarchy count equals the number listed. Failing that, it returns the sole project if one is listed, else None. Every project is queried exactly when none before the last matches. |
| Ccm.BaselineProject | ccm.py:141-156 | The early-return loop returns that selection and queries exactly that many hierarchies. |
| Ccm.ParseProjectInfo | ccm.py:163-165 | Fails, with a ValueError, exactly when the stripped info does not have four bar-separated fields. |
| Ccm.ProjectInfoRoundTrip | ccm.py:163-165 | Formatting four fields free of bars and parsing them gives them back. |
| Ccm.Project.constructor | ccm.py:159-161 | The allocation part of `Project(spec, ccm)`: the spec is kept and the four fields are not yet read. `Ccm.NewProject` runs `_init_common` after it. |
| Ccm.Project.InitCommon | ccm.py:163-165 | On success the four fields are those parsed from the info. On a ValueError they are unchanged. |
| Ccm.NewProject | ccm.py:159-165 | `Project(spec, ccm)` yields a fresh project exactly when the info output parses into four fields, and then holds those fields. Otherwise it raises the parse's ValueError. |
| Ccm.BaselineNamesAccepts | ccm.py:176-186 | The listing is accepted exactly when every line holding a bar has a valid date later than the epoch. A bad date raises; `t0` is never advanced. |
| Ccm.BaselineNamesValue | ccm.py:176-186 | An accepted listing yields the first field of every line holding a bar, in order. |
| Ccm.NoBarLineSkipped | ccm.py:176-186 | A line without a bar, such as a trailing empty line, is skipped. |
| Ccm.Baselines | ccm.py:166-186 | The append loop over the split listing yields exactly that list or that exception. |
| Ccm.AfterNothing | ccm.py:176-186 | The loop state before any line is the whole result. |
| Ccm.AfterNamesAppend | ccm.py:176-186 | Appending one name keeps the loop's result. |
| Ccm.TaskSpecOf | ccm.py:211-220 | A task spec found is non-empty and colon-free, and the line starts with `Task <spec>:`. |
| Ccm.TaskSpecOfLine | ccm.py:211-220 | `Task t:rest`, with t non-empty and colon-free, yields t. |
| Ccm.TaskSpecsMembers | ccm.py:211-220 | A spec is collected exactly when some line starts with `Task <spec>:`. |
| Ccm.RemovableTasks | ccm.py:211-220 | The append loop collects, in order, the spec of every `Task X:` line and skips the others. |
| Rtc.NewServer | rtc.py:22-33 | Fails with RTCError exactly when the host is empty. Otherwise it keeps host and port, and the URL starts `https://host:`. |
| Rtc.AuthorityOf | rtc.py:29-33 | The authority of the URL splits at the host's colon. |
| Rtc.PortRootOf | rtc.py:29-33 | `port/root` parses back to the port and root. |
| Rtc.ServerUrlRoundTrip | rtc.py:29-33 | The server URL parses back to its host, port and root. |
| Rtc.CliExecute | rtc.py:41-50 | Returns stdout exactly on status 0. Otherwise it raises RTCError, which is retried. |
| Rtc.CliRetriedUntilSuccess | rtc.py:41-50 | A command that first succeeds on run k < 9 runs k+1 times and returns that run's stdout. |
| Rtc.ParenIdAt | rtc.py:60-64 | A match is `(` followed by an id made of `[-_A-Za-z0-9]` and `)`. |
| Rtc.ParenIdAtComplete | rtc.py:60-64 | Every parenthesised id at a position is found. |
| Rtc.ParenAfter | rtc.py:60-64 | The parenthesised id found follows a run of non-word characters. |
| Rtc.ParenAfterComplete | rtc.py:60-64 | When a parenthesised id follows the non-word run, one is found no earlier than it. |
| Rtc.ChangesetAt | rtc.py:60-64 | A match at a position is `Change sets:`, non-word characters, then `(id)`. |
| Rtc.ChangesetAtComplete | rtc.py:60-64 | Every match at a position is found, with the greediest run of non-word characters. |
| Rtc.ChangesetSearch | rtc.py:60-64 | Returns the leftmost match, or None exactly when no position matches. |
| Rtc.ChangesetSearchComplete | rtc.py:60-64 | Any match makes the search succeed, at that position or earlier. |
| Rtc.ChangesetId | rtc.py:60-64 | The id is non-empty and made of `[-_A-Za-z0-9]`. It is the group of the leftmost match. |
| Rtc.Group | rtc.py:60-64 | The group is the characters between the parentheses. |
| Rtc.ChangesetIdNone | rtc.py:60-64 | No id exactly when the pattern matches nowhere. |
| Rtc.ParenIdUnique | rtc.py:60-64 | A parenthesised id at a position has one length. |
| Rtc.ReportMatches | ccm2rtc.py:100 | A checkin report `Change sets:` + non-word gap + `(id)` matches at its start. |
| Rtc.SkipIsNonWord | rtc.py:60-64 | Everything skipped between the tag and `(` is non-word. |
| Rtc.ChangesetIdAtStart | rtc.py:60-64 | A match at the start of the output yields its id. |
| Rtc.ChangesetIdOf | ccm2rtc.py:100 | The id of the report `Change sets: (id)` is `id`. |
| Rtc.SnapshotAt | rtc.py:77-83 | A match is `Snapshot (id) `, then anything, newlines included, then `successfully created`. |
| Rtc.SnapshotAtComplete | rtc.py:77-83 | Every snapshot match at a position is found. |
| Rtc.SnapshotSearch | rtc.py:77-83 | Returns the leftmost match, or None exactly when none exists. |
| Rtc.SnapshotId | rtc.py:77-83 | A snapshot id is non-empty and made of `[-_A-Za-z0-9]`. |
| Rtc.SnapshotMatchUnique | rtc.py:77-83 | A snapshot match at a position has one id length. |
| Rtc.SnapshotIdComplete | rtc.py:77-83 | The leftmost match yields its id. |
| Rtc.SnapshotIdNone | rtc.py:77-83 | No id exactly when the pattern matches nowhere. |
| Rtc.SnapshotReport | rtc.py:77-83 | The report `Snapshot (id) … successfully created` matches at its start. |
| Rtc.SnapshotIdOf | rtc.py:77-83 | The id of that report is `id`. |
| Rtc.EtagAt | rtc.py:285-292 | A match is `ETag: "`, then characters other than `"` and newline, then `"`. |
| Rtc.EtagAtComplete | rtc.py:285-292 | Every ETag match at a position is found. |
| Rtc.EtagSearch | rtc.py:285-292 | Returns the leftmost ETag, or None exactly when none exists. |
| Rtc.ExtractEtag | rtc.py:285-292 | The value extracted contains no quote and no newline. |
| Rtc.ExtractEtagComplete | rtc.py:285-292 | The leftmost ETag's value is extracted. |
| Rtc.ExtractEtagNone | rtc.py:285-292 | Nothing is extracted exactly when no ETag header is present. |
| Rtc.EtagHeader | rtc.py:285-292 | `ETag: "v"` matches at its start with value v. |
| Rtc.EtagOfHeader | rtc.py:285-292 | The ETag of `ETag: "v"…` is v. |
| RtcSession.LoginStep | rtc.py:118-140 | A login succeeds exactly when it answered without `authrequired` or `authfailed`. Success records `authenticated` and the time. Failure raises RTCError and leaves `authenticated` cleared, unless a 302 inside the login's own transfers logged in again, whose state it then keeps. |
| RtcSession.AuthStep | rtc.py:109-127 | A login is attempted exactly when the session is not authenticated or is older than 3600 s. Otherwise nothing changes. |
| RtcSession.ReauthStep | rtc.py:106-108 | reauthenticate always logs in, whatever the session's age. |
| RtcSession.AuthRun | rtc.py:109-127 | A sequence of authenticate calls reports, call by call, whether each one logged in. |
| RtcSession.LoginsAfter | rtc.py:109-127 | With a later clock and successful logins, a call logs in only more than an hour after the last login. |
| RtcSession.LoginsAnHourApart | rtc.py:109-127 | Any two logins of such a run are more than 3600 s apart. |
| RtcSession.HeaderRun | rtc.py:143-148 | While only headers arrive, the capture is their text and the body offset is its length. |
| RtcSession.BodyRun | rtc.py:143-148 | Body chunks extend the capture and leave the body offset alone. |
| RtcSession.SplitResponse | rtc.py:196 | headers ++ body equals the response, and the header length is min(offset, length). |
| RtcSession.HeadersThenBody | rtc.py:143-196 | For headers then body, `rest` splits the capture exactly into the two. |
| RtcSession.AttemptOutcome | rtc.py:162-177 | A transfer returns the capture exactly when it did not fail. Any failure raises RTCError, which is retried. Only a 302 can carry the login failure. |
| RtcSession.RedirectReauthenticates | rtc.py:165-177 | After a 302 the session state is that of a forced login. |
| RtcSession.NoRedirectKeepsLogin | rtc.py:141-180 | Transfers without a 302 leave the login state unchanged. |
| RtcSession.RedirectRenewsLogin | rtc.py:141-180 | A last attempt ending in a 302 with a successful login leaves the session logged in at that time. |
| RtcSession.ReturnedIsCaptured | rtc.py:145-180 | A returned attempt returns exactly the captured response. |
| RtcSession.RetryingIsRetried | rtc.py:141-180 | Attempt by attempt, the retried transfer is the retry decorator's run over the attempts' outcomes. |
| RtcSession.RetryingAuth | rtc.py:141-180 | The retried transfer leaves the login state of all its attempts taken in turn. |
| RtcSession.RetryingCapture | rtc.py:141-180 | The retried transfer leaves the capture of its last attempt. |
| RtcSession.RetryingOutcome | rtc.py:141-180 | The retried transfer ends with its last attempt's outcome. |
| RtcSession.FetchKeepsLogin | rtc.py:141-180 | A fetch none of whose attempts meets a 302 leaves the login state alone. |
| RtcSession.WalkWithoutRedirectKeepsLogin | rtc.py:207-241 | Only a 302 met during the discovery walk changes the login state. |
| RtcSession.WalkStopsAtRoot | rtc.py:207-211 | A walk whose root-services fetch fails fetches nothing else and raises that failure. |
| RtcSession.RestReply | rtc.py:181-196 | `rest` returns a split of the body exactly when the transfer returned. Otherwise it propagates the transfer's exception. |
| RtcSession.FactoryPath | rtc.py:244-245 | The work item factory path found lies under the server URL and has no newline. |
| RtcSession.LastWorkitems | rtc.py:244-247 | Finds the last `/workitems` position, or reports that there is none. |
| RtcSession.ProjectUuid | rtc.py:246-247 | The UUID found sits between `/contexts/` and `/workitems` in the path. |
| RtcSession.ProjectUuidOf | rtc.py:246-247 | The UUID of `…/contexts/<uuid>/workitems` is `<uuid>`. |
| RtcSession.MakeDiscovery | rtc.py:243-254 | The record is built exactly when the factory path and UUID are found. Otherwise it raises AttributeError. |
| RtcSession.Session.constructor | rtc.py:91-100 | A new session is not authenticated, with an empty capture and no discovery. |
| RtcSession.Session.Authenticate | rtc.py:109-140 | The new login state and the attempt equal the authenticate step. A login leaves the capture (`_last_response`, `_body_offset`) of its last transfer; without a login the capture is unchanged. The URL, headers and discovery are unchanged. |
| RtcSession.Session.Reauthenticate | rtc.py:106-108 | The new login state equals a forced login, and the capture is the login's. The URL, headers and discovery are unchanged. |
| RtcSession.Session.Perform | rtc.py:142-180 | One transfer fills the capture chunk by chunk and returns its outcome. On a 302 it logs in again, and the capture is then the relogin's. The login state is that after the attempt. |
| RtcSession.Session.DoCurl | rtc.py:141-180 | Outcome, calls, sleeps, login state and capture equal the attempt-by-attempt run: another attempt follows a failed transfer while tries remain. |
| RtcSession.Session.Rest | rtc.py:181-196 | Authenticates, then runs the retried transfer at most 9 times and splits the last capture at its offset. Authentication failure stops before any transfer. |
| RtcSession.Session.Discover | rtc.py:197-254 | After authenticating, it returns the cached record. Otherwise it builds one from the walk's URLs and caches it only on success. Login state and capture are those the walk left, including any relogin after a 302. |
| RtcSession.Session.Transfer | rtc.py:181-196 | The retried transfer of `rest` makes 1 to 9 attempts and splits the last response at its header length. Login state and capture are those of the attempts. |
| RtcSession.Session.Get | rtc.py:141-180 | `do_curl(None, url)` equals the fetch under the 9/8/2 policy, including login state and capture. |
| RtcSession.Session.Walk | rtc.py:207-241 | The three fetches of the discovery walk equal the walk, each from the URL read in the one before, stopping at the first failure. |
| RtcSession.Open | rtc.py:91-100 | A session is made exactly when the host is non-empty, unauthenticated, for the server of that host. |
| RtcWorkItem.IdMatchIff | rtc.py:268 | A string is an id exactly when it is digits, alone or before a final newline. |
| RtcWorkItem.NumberIsId | rtc.py:281-284 | A number's decimal form is an id. A name with a non-digit before its final character is not. |
| RtcWorkItem.Fetch | rtc.py:343-352 | After a successful fetch a record is held. |
| RtcWorkItem.GetSetStep | rtc.py:356-371 | A successful getset holds a record. |
| RtcWorkItem.NoFetchWhenLoaded | rtc.py:343-352 | A held record is never fetched again. getset without a value returns the field or raises KeyError, and nothing changes. |
| RtcWorkItem.NoIdNoRequest | rtc.py:356-371 | Without an id, getset fails its assertion before any request and leaves the item as it was. |
| RtcWorkItem.GetSetSpec | rtc.py:356-371 | getset succeeds exactly when the fetch succeeds and the field exists. It returns the old value and keeps every other field. It stores the new value only when that value is truthy. |
| RtcWorkItem.SetThenGet | rtc.py:356-371 | A field set to a truthy value reads back on the next getset, with no new request. |
| RtcWorkItem.StateRoundTrip | rtc.py:372-381 | state(v) returns the old URI's last character and replaces that character with v. The rest of the record is unchanged. The next state() returns v's last character. |
| RtcWorkItem.FlushSpec | rtc.py:324-342 | flush sends `If-Match:` with the ETag held, or `None`. It keeps the response's record and ETag. It raises ValueError on undecodable JSON and RTCError without `dc:identifier`. |
| RtcWorkItem.FlushStoresEtag | rtc.py:324-342 | The ETag of a flush's response is the one the next flush sends. |
| RtcWorkItem.OpenSpec | rtc.py:269-323 | An id is kept as given with nothing fetched. A project name creates an item whose id is the factory's `dc:identifier`, whose project is the discovered UUID and whose ETag is the factory reply's. A factory reply without an ETag raises AttributeError. |
| RtcWorkItem.WorkItem.constructor | rtc.py:269-280 | A new work item holds nothing. |
| RtcWorkItem.WorkItem.GetData | rtc.py:343-352 | The new state equals the fetch step. A GET is issued exactly when no record is held. |
| RtcWorkItem.WorkItem.Etag | rtc.py:353-355 | Fetches if needed, then returns the ETag held. |
| RtcWorkItem.WorkItem.GetSet | rtc.py:356-371 | The result and the new record equal the getset step. A GET is issued only with an id and no record. |
| RtcWorkItem.WorkItem.State | rtc.py:372-381 | The result and the new record equal the state step. |
| RtcWorkItem.WorkItem.Cdets | rtc.py:382-383 | getset on `rtc_cm:cdets`. |
| RtcWorkItem.WorkItem.Title | rtc.py:384-385 | getset on `dc:title`. |
| RtcWorkItem.WorkItem.ChangeSets | rtc.py:386-387 | getset on the change-set link field. |
| RtcWorkItem.WorkItem.Store | rtc.py:314-342 | Stores a response's headers, record and ETag, and returns its identifier or the named RTCError. While creating, a reply without an ETag raises AttributeError and leaves the ETag unset. |
| RtcWorkItem.WorkItem.Flush | rtc.py:324-342 | PUTs to the item's path with the ETag held, and the new state equals the flush step. |
| RtcWorkItem.WorkItem.Create | rtc.py:302-323 | POSTs to the discovered factory, and the new state equals the create step, which raises AttributeError on a reply without an ETag. |
| RtcWorkItem.Open | rtc.py:269-284 | Creates on the factory exactly for a non-id with a discovery. It fails exactly when the open step fails, an ETag-less factory reply included, and otherwise holds the open step's item. |
| Migrate.ScmCommandsAppend | ccm2rtc.py:71-125 | The RTC commands of a concatenation are those of each part. |
| Migrate.NoScmCommands | ccm2rtc.py:71-125 | A trace without RTC commands has none. |
| Migrate.PredQueries | ccm2rtc.py:164-168 | One predecessor query per object, none of them an RTC command. |
| Migrate.Cats | ccm2rtc.py:169-172 | One copy per predecessor, none of them an RTC command. |
| Migrate.PredecessorSaving | ccm2rtc.py:157-172 | The saving begins with the task's object listing and issues no RTC command. |
| Migrate.CollectPredsMembers | ccm2rtc.py:164-169 | A predecessor is collected exactly when some lookup printed it. |
| Migrate.AllLookupsFail | ccm2rtc.py:164-169 | Failed lookups contribute nothing and do not abort. |
| Migrate.CollectPredecessors | ccm2rtc.py:164-169 | The nested loop collects, in order, the lines of each successful lookup and issues one query per object. |
| Migrate.CopyPredecessors | ccm2rtc.py:169-172 | The loop issues one copy per predecessor, in order. |
| Migrate.SavePredecessors | ccm2rtc.py:157-172 | Issues exactly the listing, the lookups and the copies. |
| Migrate.StrippedCdets | ccm2rtc.py:113-116 | A stripped ticket accepted by the CDETS pattern has exactly 10 characters. |
| Migrate.CdetsDecides | ccm2rtc.py:113-120 | Tells a valid ticket (`CSC` + 2 lowercase + 5 digits) from an invalid one. A valid ticket sets `rtc_cm:cdets`, and the description is the resolver text. An invalid one leaves cdets untouched and quotes the bad id in the description. |
| Migrate.Prelude | ccm2rtc.py:81-84 | The working-area copy issues no RTC command and creates no work item. |
| Migrate.MigrateTask | ccm2rtc.py:71-125 | The commands and the outcome equal the task migration. |
| Migrate.ScmCommandsNoScm | ccm2rtc.py:71-125 | Appending commands other than RTC ones adds no RTC command. |
| Migrate.OnlyScm | ccm2rtc.py:71-125 | A run of RTC commands is its own RTC part. |
| Migrate.ScmCommandsAllScm | ccm2rtc.py:71-125 | Appending RTC commands appends them to the RTC part. |
| Migrate.ScmOrder | ccm2rtc.py:95-125 | The RTC commands around the work item's creation keep their order. |
| Migrate.NoChangesNoCheckin | ccm2rtc.py:85-87 | Without `Unresolved:` in `status -w`, only the copy and the status are issued. Nothing is checked in, associated, created or delivered. |
| Migrate.BeforeCheckinScm | ccm2rtc.py:85-97 | Before the checkin the only RTC command is the status. |
| Migrate.MissingChangesetRaises | ccm2rtc.py:98-104 | A checkin naming no change set raises RTCError right after it, with nothing else issued. |
| Migrate.MigrateTaskOrder | ccm2rtc.py:95-125 | With changes, the order is: predecessors saved, checkin, comment, umbrella association, work item creation, fill and flush, association with it, delivery. Nothing else is issued. |
| Migrate.CheckinThenItem | ccm2rtc.py:98-125 | The checkin commands followed by the work item's stages form that sequence. |
| Migrate.CheckinScmOrder | ccm2rtc.py:98-125 | Those are the RTC commands in that order. |
| Migrate.MigrateTaskUsesReportedChangeset | ccm2rtc.py:98-125 | The change set named in the checkin report is the one commented, and delivery comes last. |
| Migrate.StepsAppend | ccm2rtc.py:46-69 | A loop handles its items in order, and an exception ends it. |
| Migrate.StepsStart | ccm2rtc.py:46-69 | A loop begins with nothing issued. |
| Migrate.AfterAfter | ccm2rtc.py:46-69 | Issuing two command runs one after the other is issuing their concatenation. |
| Migrate.StepsNext | ccm2rtc.py:213-250 | One turn either raises, which ends the loop, or adds its commands to those issued. |
| Migrate.StepsFirst | ccm2rtc.py:213-250 | The first item's step, and then the rest. |
| Migrate.StepsEnd | ccm2rtc.py:213-250 | After the last item, the loop's commands are those issued. |
| Migrate.StepsStopAtError | ccm2rtc.py:213-250 | Nothing of the items after one that raises is issued. |
| Migrate.HandleTask | ccm2rtc.py:46-69 | One task's status query, then skip or add and migrate, equals the task addition. |
| Migrate.AddTasks | ccm2rtc.py:37-69 | The loop over tasks equals their in-order replay, up to the first exception. |
| Migrate.StatusQueries | ccm2rtc.py:46-51 | One status query per task. |
| Migrate.AdditionQueriesItsTask | ccm2rtc.py:46-69 | One turn of add_tasks queries the status of its own task, and of no other. |
| Migrate.ReplayQueriesEachTask | ccm2rtc.py:37-69 | A run of add_tasks that raises nothing queries the status of each task once, in order. |
| Migrate.ExcludedTaskSkipped | ccm2rtc.py:48-51 | An excluded task gets only its status query. There is no update_properties, update, info query or migration. |
| Migrate.AllExcludedOnlyQueried | ccm2rtc.py:46-51 | When every task is excluded, add_tasks only queries each status, in order. |
| Migrate.Mirror | ccm2rtc.py:132-134 | The sandbox mirroring issues no RTC command and creates no work item. |
| Migrate.AlignSandbox | ccm2rtc.py:127-155 | The commands equal the realignment for the status and checkin reports. |
| Migrate.NoWorkItemAppend | ccm2rtc.py:127-155 | Two runs without work items have none together. |
| Migrate.AlignSandboxNoWorkItem | ccm2rtc.py:127-155 | align_sandbox never creates a work item, and it associates only with the umbrella work item. |
| Migrate.AlignSandboxRealigns | ccm2rtc.py:135-155 | With changes and an id, the RTC commands are status, checkin, comment `baseline realignment: <bl>`, umbrella association, delivery. |
| Migrate.AlignSandboxStops | ccm2rtc.py:135-146 | Without changes only the status is issued. Without an id the checkin is last, with no exception. |
| Migrate.SnapshotCreation | rtc.py:71-83 | The snapshot creation is always the first command. |
| Migrate.SnapshotPromotesReported | rtc.py:71-83 | A report naming the snapshot delivers and promotes that id. |
| Migrate.SnapshotMissingRaises | rtc.py:71-83 | Without a report, nothing is delivered or promoted, and RTCError is raised. |
| Migrate.HierQueries | ccm.py:141-156 | One hierarchy query per listed project, none of them an RTC command. |
| Migrate.LookupQueriesInOrder | ccm.py:141-156 | Lists the projects once, then queries their hierarchies in order, ending at the one selected. No RTC command is issued. |
| Migrate.AlignmentRemovesTasks | ccm.py:187-220 | With tasks, baseline_align lists them, removes them all in one command, updates, moves the project, and updates again. |
| Migrate.AlignmentWithoutTasks | ccm.py:195-198 | Without tasks, no removal and no extra update are issued. |
| Migrate.AlignmentOutcome | ccm.py:187-220 | The alignment issues no RTC command and removes only the tasks listed. It moves the project to `None` when none was found. |
| Migrate.MigratePair | ccm2rtc.py:214-250 | One pair's commands and outcome equal the pair migration: compare, the replay of the add set in the order the set is iterated, snapshot, alignment, realignment. |
| Migrate.PairReplaysAddedTasks | ccm2rtc.py:214-250 | With sets iterated as Python does, a pair replays its add set, T(next) − T(current), each task once. A replay that raises nothing queries each task's status exactly once. |
| Migrate.PairStagesInOrder | ccm2rtc.py:225-250 | The stages run compare → add → snapshot → align → realign, each after the ones before. An exception ends the pair, and the realignment comes only after every stage succeeds. |
| Migrate.PairSnapshotName | ccm2rtc.py:240 | The snapshot follows the task additions and is named after the later baseline without its DCM prefix. |
| Migrate.Consecutive | ccm2rtc.py:214-215 | The pairs (b[i-1], b[i]) of the list, in order. |
| Migrate.IndexOf | ccm2rtc.py:201-205 | The first position of the initial baseline. |
| Migrate.MigrateBaselines | ccm2rtc.py:199-250 | The listing, the initial alignment and the pair loop equal the migration. |
| Migrate.MigratePairs | ccm2rtc.py:213-250 | The loop over consecutive pairs equals their in-order migration, up to the first exception. |
| Migrate.MissingInitialBaseline | ccm2rtc.py:199-204 | An unlisted initial baseline raises CCMError after the listing alone. |
| Migrate.StartsAtInitial | ccm2rtc.py:199-209 | Migration starts at the initial baseline's first position, aligns with it, then migrates the later pairs in order. When it is the last baseline, nothing else happens. |

## Left out

- I/O is not modelled: process spawning, libcurl option setup, the `FileReader` callback, temporary files, `find | cpio`, `rsync`, `cat` redirections, `os.makedirs` and cookie-file removal. Commands are values in a trace, and their output comes from oracle answers.
- Clocks and sleeping are not performed. The time of each authentication is an argument, sleeps are returned as delays, and the 1.57 s settle before a working-area update is dropped.
- Logging and `print` are left out. The one log line that can raise, in `_extract_etag` during creation, is modelled as the AttributeError it raises; the others change no state the program reads.
- JSON decoding is an oracle `Decoder` that returns None when `json.loads` raises; JSON encoding is left out. `datetime.strptime` is an oracle from text to seconds. The unicode decoding of task fields (ccm2rtc.py:89-91) is left out.
- The XML walk of service discovery (rtc.py:207-241) is an argument of `RtcSession.Session.Discover`. Only the caching and the path split are modelled.
- Baseline names and URLs interpolated into patterns (ccm.py:106-107, rtc.py:244, rtc.py:305) are taken as literal text, not as regular expressions.
- Migrate.MigrateTask, Migrate.AddTasks, Migrate.AlignSandbox and Migrate.MigrateBaselines do not model a command that raises (CCMError after its retries, RTCError from the retried CLI). Inside the orchestration every command answers. Failure and retry of one command are modelled in Ccm.Execute, Rtc.CliExecute and Retry.
- Migrate.LookupQueriesInOrder: all hierarchy queries of one baseline_project are answered at the history after `baseline -show projects`. They are read-only, so their order in the history does not change their answers.
- Migrate.AlignmentOutcome: the `ignore_err` pattern and the caught CCMError of `remove_tasks` (ccm.py:200-205) are not modelled. The removal is a command like any other.
- The interactive `baseline_advisor` prompt (`raw_input`, ccm2rtc.py:177-181, 215-223) is left out.
- Argument parsing, configuration through `execfile`, and the `main`/`test` drivers of rtc.py and ccm.py are left out.
- The `CCM` session start and the `CCM_ADDR` environment handling (ccm.py:19-28) are left out.
- `project_grouping` (ccm.py:136-140) is left out; the core does not use it.
- `CLI.compare_baselines`, `CLI.compare_baseline_tip` and the command sequence of `CLI.migrate_baseline` (rtc.py:51-70) are left out: the migration does not call them. The change-set pattern of `migrate_baseline` is `Rtc.ChangesetId`.
- `create_session_id` and the credential post of a login are one argument: the response, or None when a transfer raised.
- The order in which Python iterates a set of tasks is an oracle, `Env.order`. `Migrate.Enumerates` states that it lists every member once and nothing else; `Migrate.PairReplaysAddedTasks` takes that as its precondition.
- Concurrency is left out: there is none in the program.
