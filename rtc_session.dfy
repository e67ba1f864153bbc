/**
 * The `RTC` class of rtc.py: a REST session whose login expires after an hour, whose transfers
 * are retried, and whose last response is captured through two libcurl callbacks. The clock,
 * each login's outcome and each libcurl transfer are arguments.
 */
module RtcSession {
  import opened Wrappers
  import opened Text
  import opened Exec
  import Retry
  import Rtc
  import Ccm

  // ---------------------------------------------------------------------------------------
  // Authentication (rtc.py:97, 106-140)

  /** `_auth_timeout`: seconds after which a login is renewed. */
  const AuthTimeout: int := 3600

  const AuthFailed := RtcError("unable to authenticate")

  /** `check_auth`: a response naming `authrequired` or `authfailed` is a refused login. */
  predicate LoginAccepted(response: string) {
    !Contains(response, "authrequired") && !Contains(response, "authfailed")
  }

  /** The fields `authenticated` and `_authtime`. */
  datatype AuthState = AuthState(authenticated: bool, authTime: int)

  /**
   * What one login (`create_session_id` then `check_auth`, rtc.py:128-140) does: the
   * credentials post answered with `text` (`Answered`), or one of the two retried transfers
   * raised (`Raised`). Either way `text` and `offset` are what the login's last transfer left in
   * `_last_response` and `_body_offset`; an answered post returns its capture, so there the two
   * agree. A 302 met by those transfers starts a nested login (rtc.py:175); `nested` is the
   * login state the last nested login left, if there was one.
   */
  datatype Login =
    | Answered(text: string, offset: nat, nested: Option<AuthState>)
    | Raised(text: string, offset: nat, nested: Option<AuthState>)

  predicate LoginSucceeds(login: Login) {
    login.Answered? && LoginAccepted(login.text)
  }

  /** The capture fields a login leaves. */
  function LoginCapture(login: Login): (string, nat) {
    (login.text, login.offset)
  }

  /**
   * The login state after a failed login: the flag was cleared before it, so it is that, unless
   * a nested login inside its transfers set it again.
   */
  function FailedLogin(s: AuthState, login: Login): AuthState {
    if login.nested.Some? then login.nested.value else AuthState(false, s.authTime)
  }

  /** A login younger than the timeout is still trusted. */
  predicate Fresh(s: AuthState, now: int) {
    s.authenticated && now - s.authTime <= AuthTimeout
  }

  /** The new state, whether a login was made, and what the call returns or raises. */
  datatype AuthResult = AuthResult(state: AuthState, attempted: bool, result: Result<(), Error>)

  /** The login itself: success records the time, any failure raises `RTCError`. */
  function LoginStep(s: AuthState, now: int, login: Login): (r: AuthResult)
    ensures r.attempted
    ensures r.result.Ok? <==> LoginSucceeds(login)
    ensures r.result.Ok? ==> r.state == AuthState(true, now)
    ensures r.result.Err? ==> r.state == FailedLogin(s, login) && r.result.error == AuthFailed
    ensures r.result.Err? && login.nested.None? ==> !r.state.authenticated && r.state.authTime == s.authTime
  {
    if LoginSucceeds(login) then AuthResult(AuthState(true, now), true, Ok(()))
    else AuthResult(FailedLogin(s, login), true, Err(AuthFailed))
  }

  /** `authenticate`: a login is made exactly when the session is not fresh. */
  function AuthStep(s: AuthState, now: int, login: Login): (r: AuthResult)
    ensures r.attempted <==> !Fresh(s, now)
    ensures !r.attempted ==> r.state == s && r.result.Ok?
    ensures r.attempted ==> r == LoginStep(s, now, login)
  {
    if Fresh(s, now) then AuthResult(s, false, Ok(())) else LoginStep(s, now, login)
  }

  /** `reauthenticate`: the session is dropped first, so a login is always made. */
  function ReauthStep(s: AuthState, now: int, login: Login): (r: AuthResult)
    ensures r.attempted && r == LoginStep(s, now, login)
  {
    AuthStep(AuthState(false, s.authTime), now, login)
  }

  /** Whether each of a series of `authenticate` calls made a login. */
  function AuthRun(s: AuthState, times: seq<int>, logins: seq<Login>): (attempts: seq<bool>)
    requires |times| == |logins|
    ensures |attempts| == |times|
    decreases |times|
  {
    if times == [] then []
    else
      var r := AuthStep(s, times[0], logins[0]);
      [r.attempted] + AuthRun(r.state, times[1..], logins[1..])
  }

  predicate Nondecreasing(times: seq<int>) {
    forall i, j :: 0 <= i < j < |times| ==> times[i] <= times[j]
  }

  predicate AllSucceed(logins: seq<Login>) {
    forall i :: 0 <= i < |logins| ==> LoginSucceeds(logins[i])
  }

  /** After a login at `s.authTime`, every later login comes more than an hour after it. */
  lemma {:induction false} LoginsAfter(s: AuthState, times: seq<int>, logins: seq<Login>)
    requires |times| == |logins| && s.authenticated
    requires Nondecreasing(times) && AllSucceed(logins)
    ensures forall j :: 0 <= j < |times| && AuthRun(s, times, logins)[j] ==>
      times[j] - s.authTime > AuthTimeout
    decreases |times|
  {
    if times != [] {
      var r := AuthStep(s, times[0], logins[0]);
      var rest := AuthRun(r.state, times[1..], logins[1..]);
      assert AuthRun(s, times, logins) == [r.attempted] + rest;
      LoginsAfter(r.state, times[1..], logins[1..]);
      forall j | 1 <= j < |times| && AuthRun(s, times, logins)[j]
        ensures times[j] - s.authTime > AuthTimeout
      {
        assert rest[j - 1];
        assert times[1..][j - 1] == times[j];
        if r.attempted {
          assert times[0] <= times[j];
        }
      }
    }
  }

  /** With every login succeeding, no two logins of a session are less than an hour apart. */
  lemma {:induction false} LoginsAnHourApart(s: AuthState, times: seq<int>, logins: seq<Login>)
    requires |times| == |logins|
    requires Nondecreasing(times) && AllSucceed(logins)
    ensures forall i, j :: 0 <= i < j < |times| && AuthRun(s, times, logins)[i] && AuthRun(s, times, logins)[j] ==>
      times[j] - times[i] > AuthTimeout
    decreases |times|
  {
    if times != [] {
      var r := AuthStep(s, times[0], logins[0]);
      var rest := AuthRun(r.state, times[1..], logins[1..]);
      assert AuthRun(s, times, logins) == [r.attempted] + rest;
      LoginsAnHourApart(r.state, times[1..], logins[1..]);
      if r.attempted {
        LoginsAfter(r.state, times[1..], logins[1..]);
      }
      forall i, j | 0 <= i < j < |times| && AuthRun(s, times, logins)[i] && AuthRun(s, times, logins)[j]
        ensures times[j] - times[i] > AuthTimeout
      {
        assert rest[j - 1];
        assert times[1..][j - 1] == times[j];
        if i > 0 {
          assert rest[i - 1];
          assert times[1..][i - 1] == times[i];
        }
      }
    }
  }

  // ---------------------------------------------------------------------------------------
  // Transfers (rtc.py:141-180, 196)

  /** One piece of data libcurl hands to a callback: header data or body data. */
  datatype Chunk = Chunk(text: string, header: bool)

  /**
   * One `curl.perform()`: the chunks delivered, and the response code when it raised
   * `pycurl.error`.
   */
  datatype Transfer = Transfer(chunks: seq<Chunk>, failure: Option<int>)

  /** What the header callback adds to `_body_offset`. */
  function HeaderLength(chunks: seq<Chunk>): nat {
    if chunks == [] then 0
    else
      var last := chunks[|chunks| - 1];
      HeaderLength(chunks[..|chunks| - 1]) + (if last.header then |last.text| else 0)
  }

  /**
   * What the write callback accumulates in `_last_response`: body data, and with the `HEADER`
   * option that `rest` sets, the header data as well.
   */
  function Captured(chunks: seq<Chunk>, withHeaders: bool): string {
    if chunks == [] then ""
    else
      var last := chunks[|chunks| - 1];
      Captured(chunks[..|chunks| - 1], withHeaders) + (if !last.header || withHeaders then last.text else "")
  }

  /** The text of a run of chunks. */
  function Texts(chunks: seq<Chunk>): string {
    if chunks == [] then "" else Texts(chunks[..|chunks| - 1]) + chunks[|chunks| - 1].text
  }

  predicate AllHeaders(chunks: seq<Chunk>) { forall i :: 0 <= i < |chunks| ==> chunks[i].header }

  predicate AllBodies(chunks: seq<Chunk>) { forall i :: 0 <= i < |chunks| ==> !chunks[i].header }

  lemma {:induction false} HeaderRun(hs: seq<Chunk>)
    requires AllHeaders(hs)
    ensures Captured(hs, true) == Texts(hs) && HeaderLength(hs) == |Texts(hs)|
  {
    if hs != [] {
      HeaderRun(hs[..|hs| - 1]);
    }
  }

  lemma {:induction false} BodyRun(hs: seq<Chunk>, bs: seq<Chunk>)
    requires AllBodies(bs)
    ensures Captured(hs + bs, true) == Captured(hs, true) + Texts(bs)
    ensures HeaderLength(hs + bs) == HeaderLength(hs)
  {
    if bs == [] {
      assert hs + bs == hs;
    } else {
      var bs' := bs[..|bs| - 1];
      assert (hs + bs)[..|hs + bs| - 1] == hs + bs';
      BodyRun(hs, bs');
    }
  }

  /** `(r[:offset], r[offset:])`, with Python's clamping of slice bounds. */
  function SplitResponse(r: string, offset: nat): (split: (string, string))
    ensures split.0 + split.1 == r
    ensures |split.0| == if offset < |r| then offset else |r|
  {
    if offset < |r| then (r[..offset], r[offset..]) else (r, "")
  }

  /** When the headers arrive before the body, `rest` returns them apart. */
  lemma HeadersThenBody(hs: seq<Chunk>, bs: seq<Chunk>)
    requires AllHeaders(hs) && AllBodies(bs)
    ensures SplitResponse(Captured(hs + bs, true), HeaderLength(hs + bs)) == (Texts(hs), Texts(bs))
  {
    HeaderRun(hs);
    BodyRun(hs, bs);
    var r := Texts(hs) + Texts(bs);
    assert r[..|Texts(hs)|] == Texts(hs);
    assert r[|Texts(hs)|..] == Texts(bs);
  }

  /** What one call of the undecorated `do_curl` returns or raises. */
  function AttemptOutcome(t: Transfer, withHeaders: bool, relogin: Login): (o: Retry.Outcome<string, Error>)
    ensures !o.Unchecked?
    ensures o.Returned? <==> t.failure.None?
    ensures o.Returned? ==> o.value == Captured(t.chunks, withHeaders)
    ensures o.Checked? ==> o.error.RtcError?
    ensures o.Checked? && t.failure != Some(302) ==> o.error != AuthFailed
  {
    match t.failure
    case None => Retry.Returned(Captured(t.chunks, withHeaders))
    case Some(code) =>
      // a failed reauthentication raises from inside the handler, replacing the curl error
      if code == 302 && !LoginSucceeds(relogin) then Retry.Checked(AuthFailed)
      else Retry.Checked(RtcError("unable to perform CURL operation (RTC response code: " + IntToString(code) + ")"))
  }

  /**
   * What one attempt of `do_curl` meets: the libcurl transfer, the time, and the outcome of the
   * login a 302 response triggers.
   */
  datatype CurlCall = CurlCall(transfer: Transfer, now: int, relogin: Login)

  /** The login state after one attempt: a 302 response forces a login. */
  function AuthAfterAttempt(s: AuthState, c: CurlCall): AuthState {
    if c.transfer.failure != Some(302) then s
    else if LoginSucceeds(c.relogin) then AuthState(true, c.now)
    else FailedLogin(s, c.relogin)
  }

  /** The state after a 302 is the one `reauthenticate` leaves. */
  lemma RedirectReauthenticates(s: AuthState, c: CurlCall)
    requires c.transfer.failure == Some(302)
    ensures AuthAfterAttempt(s, c) == ReauthStep(s, c.now, c.relogin).state
  {
  }

  /**
   * The capture fields after one attempt: the transfer's own, unless a 302 made the session log
   * in again, whose transfers then left theirs.
   */
  function AttemptCapture(c: CurlCall, withHeaders: bool): (string, nat) {
    if c.transfer.failure == Some(302) then LoginCapture(c.relogin)
    else (Captured(c.transfer.chunks, withHeaders), HeaderLength(c.transfer.chunks))
  }

  /** An attempt that returns leaves what it returns as the capture, as `do_curl` returns `_last_response`. */
  lemma ReturnedIsCaptured(c: CurlCall, withHeaders: bool)
    ensures AttemptOutcome(c.transfer, withHeaders, c.relogin).Returned? ==>
      AttemptCapture(c, withHeaders).0 == AttemptOutcome(c.transfer, withHeaders, c.relogin).value
  {
  }

  /** The login state after the `n` attempts numbered from `first` on. */
  function AuthAfter(s: AuthState, curls: nat -> CurlCall, first: nat, n: nat): AuthState
    decreases n
  {
    if n == 0 then s
    else AuthAfter(AuthAfterAttempt(s, curls(first)), curls, first + 1, n - 1)
  }

  /** The last of `calls` attempts numbered from `first`. */
  function LastCall(curls: nat -> CurlCall, first: nat, calls: nat): CurlCall
    requires 1 <= calls
  {
    curls(first + calls - 1)
  }

  /** A single attempt is its own last. */
  lemma LastCallOne(curls: nat -> CurlCall, first: nat)
    ensures LastCall(curls, first, 1) == curls(first)
  {
  }

  /** A failed attempt followed by `more` attempts ends where those `more` end. */
  lemma LastCallAfter(curls: nat -> CurlCall, first: nat, more: nat)
    requires 1 <= more
    ensures LastCall(curls, first + 1, more) == LastCall(curls, first, 1 + more)
  {
  }

  /** The login state after `n + 1` attempts is that after `n` attempts from the second on. */
  lemma AuthAfterFirst(s: AuthState, curls: nat -> CurlCall, first: nat, n: nat)
    ensures AuthAfter(s, curls, first, 1 + n) == AuthAfter(AuthAfterAttempt(s, curls(first)), curls, first + 1, n)
  {
  }

  /** The outcomes of `do_curl` attempts, as the retry decorator sees them. */
  function Attempts(curls: nat -> CurlCall, withHeaders: bool): nat -> Retry.Outcome<string, Error> {
    (k: nat) => AttemptOutcome(curls(k).transfer, withHeaders, curls(k).relogin)
  }

  /** A retried transfer's run, with the login state and the capture it leaves. */
  datatype Transferred = Transferred(run: Retry.Run<string, Error>, auth: AuthState, capture: (string, nat))

  /**
   * The decorated `do_curl` from login state `s`, attempt by attempt: each attempt's outcome,
   * login state and capture, and another attempt while tries remain after a failed transfer,
   * which always raises the retried `RTCError`.
   */
  function Retrying(s: AuthState, tries: int, delay: nat, backoff: nat, curls: nat -> CurlCall, withHeaders: bool, first: nat): Transferred
    decreases if tries > 1 then tries else 0
  {
    var c := curls(first);
    var s1 := AuthAfterAttempt(s, c);
    if tries <= 1 || c.transfer.failure.None? then
      Transferred(Retry.Run(AttemptOutcome(c.transfer, withHeaders, c.relogin), 1, []), s1, AttemptCapture(c, withHeaders))
    else
      var rest := Retrying(s1, tries - 1, delay * backoff, backoff, curls, withHeaders, first + 1);
      Transferred(Retry.After(1, [delay], rest.run), rest.auth, rest.capture)
  }

  /** The attempt-by-attempt transfer is the decorator's run over the attempts' outcomes. */
  lemma {:induction false} RetryingIsRetried(s: AuthState, tries: int, delay: nat, backoff: nat, curls: nat -> CurlCall, withHeaders: bool, first: nat)
    ensures Retrying(s, tries, delay, backoff, curls, withHeaders, first).run == Retry.Retried(tries, delay, backoff, Attempts(curls, withHeaders), first)
    decreases if tries > 1 then tries else 0
  {
    var c := curls(first);
    assert Attempts(curls, withHeaders)(first) == AttemptOutcome(c.transfer, withHeaders, c.relogin);
    if tries > 1 && c.transfer.failure.Some? {
      var s1 := AuthAfterAttempt(s, c);
      RetryingIsRetried(s1, tries - 1, delay * backoff, backoff, curls, withHeaders, first + 1);
    }
  }

  /** The attempt-by-attempt transfer leaves the login state of all its attempts in turn. */
  lemma {:induction false} RetryingAuth(s: AuthState, tries: int, delay: nat, backoff: nat, curls: nat -> CurlCall, withHeaders: bool, first: nat)
    ensures var r := Retrying(s, tries, delay, backoff, curls, withHeaders, first);
      r.auth == AuthAfter(s, curls, first, r.run.calls)
    decreases if tries > 1 then tries else 0
  {
    var c := curls(first);
    var s1 := AuthAfterAttempt(s, c);
    if tries > 1 && c.transfer.failure.Some? {
      var rest := Retrying(s1, tries - 1, delay * backoff, backoff, curls, withHeaders, first + 1);
      RetryingAuth(s1, tries - 1, delay * backoff, backoff, curls, withHeaders, first + 1);
      AuthAfterFirst(s, curls, first, rest.run.calls);
    }
  }

  /** The attempt-by-attempt transfer leaves the capture of its last attempt. */
  lemma {:induction false} RetryingCapture(s: AuthState, tries: int, delay: nat, backoff: nat, curls: nat -> CurlCall, withHeaders: bool, first: nat)
    ensures var r := Retrying(s, tries, delay, backoff, curls, withHeaders, first);
      1 <= r.run.calls && r.capture == AttemptCapture(LastCall(curls, first, r.run.calls), withHeaders)
    decreases if tries > 1 then tries else 0
  {
    var c := curls(first);
    var s1 := AuthAfterAttempt(s, c);
    if tries <= 1 || c.transfer.failure.None? {
      LastCallOne(curls, first);
    } else {
      var rest := Retrying(s1, tries - 1, delay * backoff, backoff, curls, withHeaders, first + 1);
      RetryingCapture(s1, tries - 1, delay * backoff, backoff, curls, withHeaders, first + 1);
      LastCallAfter(curls, first, rest.run.calls);
    }
  }

  /** The attempt-by-attempt transfer ends with the outcome of its last attempt. */
  lemma {:induction false} RetryingOutcome(s: AuthState, tries: int, delay: nat, backoff: nat, curls: nat -> CurlCall, withHeaders: bool, first: nat)
    ensures var r := Retrying(s, tries, delay, backoff, curls, withHeaders, first);
      && 1 <= r.run.calls
      && r.run.outcome == AttemptOutcome(LastCall(curls, first, r.run.calls).transfer, withHeaders, LastCall(curls, first, r.run.calls).relogin)
    decreases if tries > 1 then tries else 0
  {
    var c := curls(first);
    var s1 := AuthAfterAttempt(s, c);
    if tries <= 1 || c.transfer.failure.None? {
      LastCallOne(curls, first);
    } else {
      var rest := Retrying(s1, tries - 1, delay * backoff, backoff, curls, withHeaders, first + 1);
      RetryingOutcome(s1, tries - 1, delay * backoff, backoff, curls, withHeaders, first + 1);
      LastCallAfter(curls, first, rest.run.calls);
    }
  }




  /** Retried transfers without a 302 never touch the login state. */
  lemma {:induction false} NoRedirectKeepsLogin(s: AuthState, curls: nat -> CurlCall, first: nat, n: nat)
    requires forall k :: first <= k < first + n ==> curls(k).transfer.failure != Some(302)
    ensures AuthAfter(s, curls, first, n) == s
    decreases n
  {
    if n > 0 {
      NoRedirectKeepsLogin(s, curls, first + 1, n - 1);
    }
  }

  /** A 302 on the last attempt answered by a successful login leaves the session authenticated at that time. */
  lemma {:induction false} RedirectRenewsLogin(s: AuthState, curls: nat -> CurlCall, first: nat, n: nat)
    requires n > 0
    requires curls(first + n - 1).transfer.failure == Some(302) && LoginSucceeds(curls(first + n - 1).relogin)
    ensures AuthAfter(s, curls, first, n) == AuthState(true, curls(first + n - 1).now)
    decreases n
  {
    if n > 1 {
      RedirectRenewsLogin(AuthAfterAttempt(s, curls(first)), curls, first + 1, n - 1);
    }
  }

  /** What `rest` returns for the outcome of its retried transfer. */
  function RestReply(outcome: Retry.Outcome<string, Error>, offset: nat): (r: Result<(string, string), Error>)
    ensures r.Ok? <==> outcome.Returned?
    ensures r.Ok? ==> r.value.0 + r.value.1 == outcome.value
    ensures r.Err? ==> r.error == outcome.error
  {
    match outcome
    case Returned(resp) => Ok(SplitResponse(resp, offset))
    case Checked(e) => Err(e)
    case Unchecked(e) => Err(e)
  }

  // ---------------------------------------------------------------------------------------
  // Service discovery (rtc.py:197-254): only the caching and the path split are modelled

  /** The part of `_discovery` the rest of the tool reads. */
  datatype Discovery = Discovery(workItemFactory: string, projectUuid: string, query: string)

  const ContextsTag := "oslc/contexts/"
  const WorkitemsTag := "/workitems"

  /** `re.match('%s/(.*)' % url, factory_url).group(1)`, the server URL taken literally. */
  function FactoryPath(url: string, factoryUrl: string): (r: Option<string>)
    ensures r.Some? ==> StartsWith(factoryUrl, url + "/") && '\n' !in r.value
  {
    if StartsWith(factoryUrl, url + "/") then
      Some(Ccm.ToNewline(factoryUrl[|url| + 1..]))
    else None
  }

  /**
   * `re.match('oslc/contexts/(.*)/workitems', path).group(1)`: greedy, so the group ends at the
   * last `/workitems` on the first line. Positions `j` at most `14 + l` are tried, largest first.
   */
  function LastWorkitems(path: string, l: nat): (r: Option<nat>)
    ensures r.Some? ==> 14 <= r.value <= 14 + l && OccursAt(path, WorkitemsTag, r.value)
    ensures r.Some? ==> forall j :: r.value < j <= 14 + l ==> !OccursAt(path, WorkitemsTag, j)
    ensures r.None? ==> forall j :: 14 <= j <= 14 + l ==> !OccursAt(path, WorkitemsTag, j)
    decreases l
  {
    if OccursAt(path, WorkitemsTag, 14 + l) then Some(14 + l)
    else if l == 0 then None
    else LastWorkitems(path, l - 1)
  }

  function ProjectUuid(path: string): (r: Option<string>)
    ensures r.Some? ==> '\n' !in r.value && Contains(path, ContextsTag + r.value + WorkitemsTag)
  {
    if !StartsWith(path, ContextsTag) then None
    else
      var line := Ccm.ToNewline(path[14..]);
      match LastWorkitems(path, |line|)
      case None => None
      case Some(j) =>
        var uuid := path[14..j];
        assert uuid == line[..j - 14];
        assert path[..j + 10] == ContextsTag + uuid + WorkitemsTag;
        assert OccursAt(path, ContextsTag + uuid + WorkitemsTag, 0);
        Some(uuid)
  }

  /** The factory path of a project names that project's UUID. */
  lemma ProjectUuidOf(uuid: string)
    requires '\n' !in uuid
    ensures ProjectUuid(ContextsTag + uuid + WorkitemsTag) == Some(uuid)
  {
    var path := ContextsTag + uuid + WorkitemsTag;
    assert path[..14] == ContextsTag;
    assert path[14..] == uuid + WorkitemsTag;
    Ccm.ToNewlineFree(path[14..]);
    var line := Ccm.ToNewline(path[14..]);
    assert |line| == |uuid| + 10 by {
      assert '\n' !in path[14..];
    }
    assert OccursAt(path, WorkitemsTag, 14 + |uuid|);
    assert forall j :: 14 + |uuid| < j ==> !OccursAt(path, WorkitemsTag, j);
    assert path[14..14 + |uuid|] == uuid;
  }

  /** The discovery record built from the factory and query URLs the XML walk found. */
  function MakeDiscovery(url: string, factoryUrl: string, queryUrl: string): (r: Result<Discovery, Error>)
    ensures r.Ok? <==> FactoryPath(url, factoryUrl).Some? && ProjectUuid(FactoryPath(url, factoryUrl).value).Some?
    ensures r.Ok? ==> r.value.query == queryUrl && r.value.workItemFactory == FactoryPath(url, factoryUrl).value
    ensures r.Err? ==> r.error == AttributeError
  {
    match FactoryPath(url, factoryUrl)
    case None => Err(AttributeError)
    case Some(path) =>
      match ProjectUuid(path)
      case None => Err(AttributeError)
      case Some(uuid) => Ok(Discovery(path, uuid, queryUrl))
  }

  // ---------------------------------------------------------------------------------------
  // The discovery walk (rtc.py:207-241): three retried `do_curl(None, url)` calls

  /**
   * How the walk reads the XML documents it fetches: the catalog URL in the root services
   * document, the services URL of the wanted project in the catalog (RTCError when the project
   * is not listed), and the work item factory and query URLs in the service descriptor. A
   * reading that fails raises what its parse or lookup raises.
   */
  datatype Readings = Readings(
    catalogUrl: string -> Result<string, Error>,
    servicesUrl: string -> Result<string, Error>,
    urls: string -> Result<(string, string), Error>)

  /** The outcome of a step of the walk, with the login state and the capture fields after it. */
  datatype Fetched<T> = Fetched(outcome: Result<T, Error>, auth: AuthState, capture: (string, nat))

  /**
   * One `do_curl(None, url)` under the source's retry policy, from login state `s`, meeting the
   * attempts `curls`; without the `HEADER` option only the body is captured.
   */
  function Fetch(s: AuthState, curls: nat -> CurlCall): Fetched<string> {
    Fetching(s, curls, Retry.Retried(9, 8, 2, Attempts(curls, false), 0))
  }

  /** What a fetch from `s` leaves when the retried transfer ran as `run`. */
  function Fetching(s: AuthState, curls: nat -> CurlCall, run: Retry.Run<string, Error>): Fetched<string>
    requires 1 <= run.calls
  {
    var result := if run.outcome.Returned? then Ok(run.outcome.value) else Err(run.outcome.error);
    Fetched(result, AuthAfter(s, curls, 0, run.calls), AttemptCapture(LastCall(curls, 0, run.calls), false))
  }

  /**
   * The walk from login state `s`: the root services document under the server URL, then the
   * catalog, then the project's service descriptor, each fetched from the URL read in the one
   * before; `fetch(u)` are the attempts met at URL `u`. The first failure ends the walk.
   */
  function DiscoveryWalk(s: AuthState, url: string, readings: Readings, fetch: string -> nat -> CurlCall): Fetched<(string, string)> {
    var root := Fetch(s, fetch(url + "/rootservices"));
    if root.outcome.Err? then Fetched(Err(root.outcome.error), root.auth, root.capture)
    else match readings.catalogUrl(root.outcome.value)
    case Err(e) => Fetched(Err(e), root.auth, root.capture)
    case Ok(catalogUrl) =>
      var catalog := Fetch(root.auth, fetch(catalogUrl));
      if catalog.outcome.Err? then Fetched(Err(catalog.outcome.error), catalog.auth, catalog.capture)
      else match readings.servicesUrl(catalog.outcome.value)
      case Err(e) => Fetched(Err(e), catalog.auth, catalog.capture)
      case Ok(servicesUrl) =>
        var services := Fetch(catalog.auth, fetch(servicesUrl));
        if services.outcome.Err? then Fetched(Err(services.outcome.error), services.auth, services.capture)
        else Fetched(readings.urls(services.outcome.value), services.auth, services.capture)
  }

  /** Only a 302 met by one of the walk's transfers changes the login state. */
  lemma WalkWithoutRedirectKeepsLogin(s: AuthState, url: string, readings: Readings, fetch: string -> nat -> CurlCall)
    requires forall u: string, k: nat :: fetch(u)(k).transfer.failure != Some(302)
    ensures DiscoveryWalk(s, url, readings, fetch).auth == s
  {
    var root := fetch(url + "/rootservices");
    FetchKeepsLogin(s, root);
    var f := Fetch(s, root);
    if f.outcome.Ok? && readings.catalogUrl(f.outcome.value).Ok? {
      var catalog := fetch(readings.catalogUrl(f.outcome.value).value);
      FetchKeepsLogin(s, catalog);
      var g := Fetch(s, catalog);
      if g.outcome.Ok? && readings.servicesUrl(g.outcome.value).Ok? {
        FetchKeepsLogin(s, fetch(readings.servicesUrl(g.outcome.value).value));
      }
    }
  }

  /** A fetch none of whose attempts meets a 302 leaves the login state alone. */
  lemma FetchKeepsLogin(s: AuthState, curls: nat -> CurlCall)
    requires forall k: nat :: curls(k).transfer.failure != Some(302)
    ensures Fetch(s, curls).auth == s
  {
    NoRedirectKeepsLogin(s, curls, 0, Retry.Retried(9, 8, 2, Attempts(curls, false), 0).calls);
  }

  /** A walk that fails to fetch the root services document fetches nothing else. */
  lemma WalkStopsAtRoot(s: AuthState, url: string, readings: Readings, fetch: string -> nat -> CurlCall)
    requires Fetch(s, fetch(url + "/rootservices")).outcome.Err?
    ensures var root := Fetch(s, fetch(url + "/rootservices"));
      DiscoveryWalk(s, url, readings, fetch) == Fetched(Err(root.outcome.error), root.auth, root.capture)
  {
  }

  // ---------------------------------------------------------------------------------------
  // The session object (rtc.py:85-254)

  const AcceptHeader := "Accept: application/x-oslc-cm-changerequest+json"
  const ContentTypeHeader := "Content-Type: application/x-oslc-cm-changerequest+json"

  class Session {
    const server: Rtc.Server
    var authenticated: bool
    var authTime: int
    /** `_last_response` and `_body_offset`, written by the two libcurl callbacks. */
    var lastResponse: string
    var bodyOffset: nat
    /** `_last_url`, and the `HTTPHEADER` list of the last REST call. */
    var lastUrl: string
    var lastHeaders: seq<string>
    /** `_discovery`, absent until the first successful discovery. */
    var discovery: Option<Discovery>

    constructor (server: Rtc.Server)
      ensures this.server == server && !authenticated
      ensures lastResponse == "" && discovery.None?
    {
      this.server := server;
      authenticated := false;
      authTime := 0;
      lastResponse := "";
      bodyOffset := 0;
      lastUrl := "";
      lastHeaders := [];
      discovery := None;
    }

    function Auth(): AuthState
      reads this
    {
      AuthState(authenticated, authTime)
    }

    /** `_last_response` and `_body_offset`. */
    function Capture(): (string, nat)
      reads this
    {
      (lastResponse, bodyOffset)
    }

    /** The fields a login or a transfer leaves alone. */
    function Others(): (string, seq<string>, Option<Discovery>)
      reads this
    {
      (lastUrl, lastHeaders, discovery)
    }

    /** `authenticate` at time `now`; `login` is what a login would do if one is made. */
    method Authenticate(now: int, login: Login) returns (r: Result<(), Error>, attempted: bool)
      modifies this
      ensures AuthResult(Auth(), attempted, r) == AuthStep(old(Auth()), now, login)
      ensures Capture() == if attempted then LoginCapture(login) else old(Capture())
      ensures Others() == old(Others())
    {
      if authenticated {
        if now - authTime > AuthTimeout {
          authenticated := false;
        } else {
          return Ok(()), false;
        }
      }
      attempted := true;
      // the login's transfers leave their capture
      lastResponse, bodyOffset := login.text, login.offset;
      if !LoginSucceeds(login) {
        var left := FailedLogin(Auth(), login);
        authenticated, authTime := left.authenticated, left.authTime;
        return Err(AuthFailed), true;
      }
      authenticated := true;
      authTime := now;
      r := Ok(());
    }

    /** `reauthenticate`: always logs in again. */
    method Reauthenticate(now: int, login: Login) returns (r: Result<(), Error>)
      modifies this
      ensures AuthResult(Auth(), true, r) == ReauthStep(old(Auth()), now, login)
      ensures Capture() == LoginCapture(login)
      ensures Others() == old(Others())
    {
      authenticated := false;
      var attempted;
      r, attempted := Authenticate(now, login);
    }

    /**
     * One call of the undecorated `do_curl`: the callbacks replay the transfer's chunks; on a
     * 302 the session logs in again before the error is raised, and that login's transfers
     * overwrite the capture.
     */
    method Perform(c: CurlCall, withHeaders: bool) returns (o: Retry.Outcome<string, Error>)
      modifies this
      ensures o == AttemptOutcome(c.transfer, withHeaders, c.relogin)
      ensures Capture() == AttemptCapture(c, withHeaders)
      ensures Auth() == AuthAfterAttempt(old(Auth()), c)
      ensures Others() == old(Others())
    {
      var chunks := c.transfer.chunks;
      bodyOffset := 0;
      lastResponse := "";
      for i := 0 to |chunks|
        invariant lastResponse == Captured(chunks[..i], withHeaders)
        invariant bodyOffset == HeaderLength(chunks[..i])
        invariant Auth() == old(Auth())
        invariant Others() == old(Others())
      {
        var chunk := chunks[i];
        assert chunks[..i + 1][..i] == chunks[..i];
        if chunk.header {
          bodyOffset := bodyOffset + |chunk.text|;
        }
        if !chunk.header || withHeaders {
          lastResponse := lastResponse + chunk.text;
        }
      }
      assert chunks[..|chunks|] == chunks;
      match c.transfer.failure
      case None =>
        o := Retry.Returned(lastResponse);
      case Some(code) =>
        if code == 302 {
          RedirectReauthenticates(old(Auth()), c);
          var re := Reauthenticate(c.now, c.relogin);
          if re.Err? {
            return Retry.Checked(re.error);
          }
        }
        o := Retry.Checked(RtcError("unable to perform CURL operation (RTC response code: " + IntToString(code) + ")"));
    }

    /**
     * `do_curl` under `@retry(RTCError, tries, delay, backoff)`, the decorator's loop unrolled
     * from attempt `first` on; `rest` starts at 0 with the source's policy 9, 8, 2. Attempt `k`
     * meets `curls(k)`.
     */
    method DoCurl(tries: int, delay: nat, backoff: nat, curls: nat -> CurlCall, withHeaders: bool, first: nat)
        returns (outcome: Retry.Outcome<string, Error>, calls: nat, sleeps: seq<nat>)
      modifies this
      ensures Retrying(old(Auth()), tries, delay, backoff, curls, withHeaders, first) == Transferred(Retry.Run(outcome, calls, sleeps), Auth(), Capture())
      ensures Others() == old(Others())
      decreases if tries > 1 then tries else 0
    {
      outcome := Perform(curls(first), withHeaders);
      if tries <= 1 || !outcome.Checked? {
        return outcome, 1, [];
      }
      // sleep(delay), then the next attempt with the delay grown by `backoff`
      var more: nat;
      outcome, more, sleeps := DoCurl(tries - 1, delay * backoff, backoff, curls, withHeaders, first + 1);
      calls, sleeps := 1 + more, [delay] + sleeps;
    }

    /**
     * `rest`: authenticate, then a retried transfer with the JSON headers, split at the body
     * offset.
     */
    method Rest(path: string, extraHeaders: seq<string>, now: int, login: Login, curls: nat -> CurlCall)
        returns (r: Result<(string, string), Error>, attempts: nat)
      modifies this
      ensures var a := AuthStep(old(Auth()), now, login);
        a.result.Err? ==> r == Err(a.result.error) && Auth() == a.state && attempts == 0
      ensures AuthStep(old(Auth()), now, login).result.Ok? ==>
        && lastUrl == server.url + "/" + path
        && lastHeaders == [AcceptHeader, ContentTypeHeader] + extraHeaders
      ensures var run := Retry.Retried(9, 8, 2, Attempts(curls, true), 0);
        AuthStep(old(Auth()), now, login).result.Ok? ==>
          && 1 <= attempts == run.calls <= 9
          && r == RestReply(run.outcome, HeaderLength(LastCall(curls, 0, attempts).transfer.chunks))
      ensures var a := AuthStep(old(Auth()), now, login);
        a.result.Ok? ==> Auth() == AuthAfter(a.state, curls, 0, attempts)
      ensures AuthStep(old(Auth()), now, login).result.Err? ==> Capture() == LoginCapture(login)
      ensures AuthStep(old(Auth()), now, login).result.Ok? ==>
        1 <= attempts && Capture() == AttemptCapture(LastCall(curls, 0, attempts), true)
      ensures discovery == old(discovery)
    {
      ghost var a0 := AuthStep(old(Auth()), now, login);
      var a, attempted := Authenticate(now, login);
      if a.Err? {
        return Err(a.error), 0;
      }
      assert a0.result.Ok? && Auth() == a0.state;
      lastUrl := server.url + "/" + path;
      lastHeaders := [AcceptHeader, ContentTypeHeader] + extraHeaders;
      r, attempts := Transfer(curls);
    }

    /** The transfer of `rest` once authenticated: retried, with the headers, split at the body offset. */
    method Transfer(curls: nat -> CurlCall) returns (r: Result<(string, string), Error>, attempts: nat)
      modifies this
      ensures var run := Retry.Retried(9, 8, 2, Attempts(curls, true), 0);
        && 1 <= attempts == run.calls <= 9
        && r == RestReply(run.outcome, HeaderLength(LastCall(curls, 0, attempts).transfer.chunks))
      ensures Auth() == AuthAfter(old(Auth()), curls, 0, attempts)
      ensures Capture() == AttemptCapture(LastCall(curls, 0, attempts), true)
      ensures Others() == old(Others())
    {
      var outcome, sleeps;
      ghost var s := Auth();
      outcome, attempts, sleeps := DoCurl(9, 8, 2, curls, true, 0);
      RetryingIsRetried(s, 9, 8, 2, curls, true, 0);
      RetryingAuth(s, 9, 8, 2, curls, true, 0);
      RetryingCapture(s, 9, 8, 2, curls, true, 0);
      RetryingOutcome(s, 9, 8, 2, curls, true, 0);
      ghost var c := LastCall(curls, 0, attempts);
      // a returned transfer met no 302, so the offset is its own header length
      assert outcome.Returned? ==> bodyOffset == HeaderLength(c.transfer.chunks);
      r := RestReply(outcome, bodyOffset);
      assert r == RestReply(outcome, HeaderLength(c.transfer.chunks));
    }

    /** `do_curl(None, url)` under the source's retry policy, meeting the attempts `curls`. */
    method Get(curls: nat -> CurlCall) returns (r: Result<string, Error>)
      modifies this
      ensures Fetched(r, Auth(), Capture()) == Fetch(old(Auth()), curls)
      ensures Others() == old(Others())
    {
      var outcome, calls, sleeps;
      outcome, calls, sleeps := DoCurl(9, 8, 2, curls, false, 0);
      RetryingIsRetried(old(Auth()), 9, 8, 2, curls, false, 0);
      RetryingAuth(old(Auth()), 9, 8, 2, curls, false, 0);
      RetryingCapture(old(Auth()), 9, 8, 2, curls, false, 0);
      r := if outcome.Returned? then Ok(outcome.value) else Err(outcome.error);
      assert Fetch(old(Auth()), curls) == Fetching(old(Auth()), curls, Retry.Run(outcome, calls, sleeps));
    }

    /** The XML walk of `discover`: the factory and query URLs, or what one of its steps raised. */
    method Walk(readings: Readings, fetch: string -> nat -> CurlCall) returns (r: Result<(string, string), Error>)
      modifies this
      ensures Fetched(r, Auth(), Capture()) == DiscoveryWalk(old(Auth()), server.url, readings, fetch)
      ensures Others() == old(Others())
    {
      var root :- Get(fetch(server.url + "/rootservices"));
      var catalogUrl :- readings.catalogUrl(root);
      var catalog :- Get(fetch(catalogUrl));
      var servicesUrl :- readings.servicesUrl(catalog);
      var services :- Get(fetch(servicesUrl));
      r := readings.urls(services);
    }

    /**
     * `discover`: after authenticating, the cached record if there is one; otherwise the
     * record built from the URLs the walk found, which is then cached.
     */
    method Discover(now: int, login: Login, readings: Readings, fetch: string -> nat -> CurlCall)
        returns (r: Result<Discovery, Error>)
      modifies this
      ensures var a := AuthStep(old(Auth()), now, login);
        (a.result.Err? || old(discovery).Some?) ==>
          && Auth() == a.state
          && Capture() == (if a.attempted then LoginCapture(login) else old(Capture()))
          && discovery == old(discovery)
          && r == (if a.result.Err? then Err(a.result.error) else Ok(old(discovery).value))
      ensures var a := AuthStep(old(Auth()), now, login);
        a.result.Ok? && old(discovery).None? ==>
          var w := DiscoveryWalk(a.state, server.url, readings, fetch);
          && Auth() == w.auth && Capture() == w.capture
          && r == (if w.outcome.Err? then Err(w.outcome.error) else MakeDiscovery(server.url, w.outcome.value.0, w.outcome.value.1))
          && discovery == (if r.Ok? then Some(r.value) else None)
      ensures lastUrl == old(lastUrl) && lastHeaders == old(lastHeaders)
    {
      var a, attempted := Authenticate(now, login);
      if a.Err? {
        return Err(a.error);
      }
      if discovery.Some? {
        return Ok(discovery.value);
      }
      var found := Walk(readings, fetch);
      if found.Err? {
        return Err(found.error);
      }
      r := MakeDiscovery(server.url, found.value.0, found.value.1);
      if r.Ok? {
        discovery := Some(r.value);
      }
    }
  }

  /** `RTC.__init__`: the server needs a host. */
  method Open(host: string, root: string) returns (r: Result<Session, Error>)
    ensures r.Err? <==> host == ""
    ensures r.Ok? ==> fresh(r.value) && !r.value.authenticated && r.value.discovery.None?
    ensures r.Ok? ==> r.value.server == Rtc.NewServer(host, Rtc.DefaultPort, root).value
  {
    var server :- Rtc.NewServer(host, Rtc.DefaultPort, root);
    var s := new Session(server);
    r := Ok(s);
  }
}
