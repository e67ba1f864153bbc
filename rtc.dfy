/**
 * rtc.py: the Target SCM (Rational Team Concert) side. The id-extracting patterns, the response
 * split and the work-item record updates are functions; the REST session, whose fields
 * `authenticate` and `do_curl` update, and the work item, whose record `getset` and `state`
 * update in place, are classes. Time is an integer argument, a login's outcome and each HTTP
 * transfer are arguments, and JSON decoding is an oracle function.
 */
module Rtc {
  import opened Wrappers
  import opened Text
  import opened Exec
  import Retry

  // ---------------------------------------------------------------------------------------
  // Server (rtc.py:22-33)

  const DefaultPort: nat := 9443

  datatype Server = Server(host: string, port: nat, url: string)

  /** `Server.__init__`: a missing host raises; the URL is `https://host:port/root`. */
  function NewServer(host: string, port: nat, root: string): (r: Result<Server, Error>)
    ensures r.Err? <==> host == ""
    ensures r.Err? ==> r.error.RtcError?
    ensures r.Ok? ==> r.value.host == host && r.value.port == port
    ensures r.Ok? ==> StartsWith(r.value.url, "https://" + host + ":")
  {
    if host == "" then Err(RtcError("Server requires a hostname, none provided"))
    else
      var url := "https://" + host + ":" + Decimal(port) + "/" + root;
      assert url[..|"https://" + host + ":"|] == "https://" + host + ":";
      Ok(Server(host, port, url))
  }

  /** Reads host, port and root back out of a server URL. */
  function ParseUrl(url: string): Option<(string, nat, string)> {
    if !StartsWith(url, "https://") then None else ParseAuthority(url[8..])
  }

  /** `host:port/root` */
  function ParseAuthority(rest: string): Option<(string, nat, string)> {
    match FirstIndex(rest, ":")
    case None => None
    case Some(i) =>
      match ParsePortRoot(rest[i + 1..])
      case None => None
      case Some((port, root)) => Some((rest[..i], port, root))
  }

  /** `port/root` */
  function ParsePortRoot(after: string): Option<(nat, string)> {
    var d := Span(after, DigitChars);
    if d == 0 || d >= |after| || after[d] != '/' then None
    else Some((ParseDecimal(after[..d]), after[d + 1..]))
  }

  /** The first ':' ends a host without ':'. */
  lemma AuthorityOf(host: string, after: string)
    requires ':' !in host
    ensures ParseAuthority(host + ":" + after) == match ParsePortRoot(after)
      case None => None
      case Some((port, root)) => Some((host, port, root))
  {
    var rest := host + ":" + after;
    assert rest[|host|..|host| + 1] == ":";
    forall j | 0 <= j < |host| ensures !OccursAt(rest, ":", j) {
      assert rest[j..j + 1] == [host[j]];
    }
    FirstIndexIs(rest, ":", |host|);
    assert rest[..|host|] == host;
    assert rest[|host| + 1..] == after;
  }

  /** The port's digits end at the '/' before the root. */
  lemma PortRootOf(port: nat, root: string)
    ensures ParsePortRoot(Decimal(port) + "/" + root) == Some((port, root))
  {
    var digits := Decimal(port);
    var after := digits + "/" + root;
    assert after == digits + ("/" + root);
    SpanOf(digits, "/" + root, DigitChars);
    assert after[..|digits|] == digits;
    assert after[|digits| + 1..] == root;
    DecimalRoundTrip(port);
  }

  /** The URL a server forms names its host, port and root, for a host without ':'. */
  lemma ServerUrlRoundTrip(host: string, port: nat, root: string)
    requires host != "" && ':' !in host
    ensures NewServer(host, port, root).Ok?
    ensures ParseUrl(NewServer(host, port, root).value.url) == Some((host, port, root))
  {
    var url := NewServer(host, port, root).value.url;
    var after := Decimal(port) + "/" + root;
    assert url == "https://" + (host + ":" + after);
    assert url[8..] == host + ":" + after;
    AuthorityOf(host, after);
    PortRootOf(port, root);
  }

  // ---------------------------------------------------------------------------------------
  // CLI.execute (rtc.py:41-50)

  /** One run of the `lscm` command line: a non-zero status raises `RTCError`, which is retried. */
  function CliExecute(run: Process): (r: Retry.Outcome<string, Error>)
    ensures !r.Unchecked?
    ensures r.Checked? <==> run.status != 0
    ensures r.Checked? ==> r.error.RtcError?
    ensures r.Returned? ==> r.value == run.stdout
  {
    if run.status != 0 then Retry.Checked(RtcError("failed to execute RTC CLI command (status: " + IntToString(run.status) + "):\n" + run.stderr))
    else Retry.Returned(run.stdout)
  }

  /** `CLI.execute` under `@retry(RTCError, tries=9, delay=8, backoff=2)`. */
  function CliExecuteRetried(runs: nat -> Process): Retry.Run<string, Error> {
    Retry.Retried(9, 8, 2, k => CliExecute(runs(k)), 0)
  }

  /** The command runs again until its status is zero, at most nine times. */
  lemma CliRetriedUntilSuccess(runs: nat -> Process, k: nat)
    requires k < 9
    requires forall j :: 0 <= j < k ==> runs(j).status != 0
    requires runs(k).status == 0
    ensures CliExecuteRetried(runs).calls == k + 1
    ensures CliExecuteRetried(runs).outcome == Retry.Returned(runs(k).stdout)
  {
    Retry.FirstAnswerWins(9, 8, 2, j => CliExecute(runs(j)), 0, k);
  }

  // ---------------------------------------------------------------------------------------
  // Changeset ids (rtc.py:60-64; ccm2rtc.py:100,141): `(?m)Change sets:\W*\(([-_A-Za-z0-9]+)\)`

  predicate IsIdChar(c: char) { IsWordChar(c) || c == '-' }

  predicate IsNonWord(c: char) { !IsWordChar(c) }

  const ChangeSetsTag := "Change sets:"

  /** `\(([-_A-Za-z0-9]+)\)` matches at `j` with an id of length `k`. */
  predicate ParenId(s: string, j: int, k: nat) {
    0 <= j && j + k + 2 <= |s| && s[j] == '(' && k > 0
    && (forall t :: j + 1 <= t < j + 1 + k ==> IsIdChar(s[t]))
    && s[j + 1 + k] == ')'
  }

  /** The id length matched at `j`; `)` is not an id character, so it is unique. */
  function ParenIdAt(s: string, j: nat): (r: Option<nat>)
    ensures r.Some? ==> ParenId(s, j, r.value)
  {
    if j < |s| && s[j] == '(' then
      var k := Span(s[j + 1..], IdChars);
      assert forall t :: j + 1 <= t < j + 1 + k ==> s[t] == s[j + 1..][t - j - 1];
      if k > 0 && j + 1 + k < |s| && s[j + 1 + k] == ')' then Some(k) else None
    else None
  }

  lemma ParenIdAtComplete(s: string, j: nat, k: nat)
    requires ParenId(s, j, k)
    ensures ParenIdAt(s, j) == Some(k)
  {
  }

  /**
   * The whole pattern matches at `i`, with `skip` characters taken by `\W*` and an id of
   * length `k`.
   */
  predicate ChangesetMatch(s: string, i: int, skip: nat, k: nat) {
    OccursAt(s, ChangeSetsTag, i)
    && ParenId(s, i + 12 + skip, k)
    && (forall t :: i + 12 <= t < i + 12 + skip ==> IsNonWord(s[t]))
  }

  /** The backtracking of `\W*`: `skip` lengths tried from `l` down to 0. */
  function ParenAfter(s: string, j0: nat, l: nat): (r: Option<(nat, nat)>)
    ensures r.Some? ==> r.value.0 <= l && ParenId(s, j0 + r.value.0, r.value.1)
    decreases l
  {
    match ParenIdAt(s, j0 + l)
    case Some(k) => Some((l, k))
    case None => if l == 0 then None else ParenAfter(s, j0, l - 1)
  }

  /** Backtracking finds the longest skip `L` at most `l` after which an id matches. */
  lemma {:induction false} ParenAfterComplete(s: string, j0: nat, l: nat, L: nat, k: nat)
    requires L <= l && ParenId(s, j0 + L, k)
    ensures ParenAfter(s, j0, l).Some? && L <= ParenAfter(s, j0, l).value.0
    decreases l
  {
    var here := ParenIdAt(s, j0 + l);
    if here.Some? {
      assert ParenAfter(s, j0, l) == Some((l, here.value));
    } else if L == l {
      ParenIdAtComplete(s, j0 + l, k);
      assert false;
    } else {
      assert ParenAfter(s, j0, l) == ParenAfter(s, j0, l - 1);
      ParenAfterComplete(s, j0, l - 1, L, k);
    }
  }

  /** `\W*` then the parenthesised id, for a match starting at `i`. */
  function ChangesetAt(s: string, i: nat): (r: Option<(nat, nat)>)
    ensures r.Some? ==> ChangesetMatch(s, i, r.value.0, r.value.1)
  {
    if !OccursAt(s, ChangeSetsTag, i) then None
    else
      var j0 := i + 12;
      var w := Span(s[j0..], NonWordChars);
      assert forall t :: j0 <= t < j0 + w ==> s[t] == s[j0..][t - j0];
      ParenAfter(s, j0, w)
  }

  /** A match at `i` is found there, and with the longest possible `\W*` run. */
  lemma ChangesetAtComplete(s: string, i: nat, L: nat, k: nat)
    requires ChangesetMatch(s, i, L, k)
    ensures ChangesetAt(s, i).Some? && L <= ChangesetAt(s, i).value.0
  {
    var j0 := i + 12;
    var w := Span(s[j0..], NonWordChars);
    ParenAfterComplete(s, j0, w, L, k);
  }

  datatype Match = Match(start: nat, skip: nat, len: nat)

  /** The search: the match at the first start position. */
  function ChangesetSearch(s: string): (r: Option<Match>)
    ensures r.Some? ==> ChangesetMatch(s, r.value.start, r.value.skip, r.value.len)
    ensures r.Some? ==> r.value.start <= |s|
    ensures r.Some? ==> forall j: nat :: j < r.value.start ==> ChangesetAt(s, j).None?
    ensures r.Some? ==> ChangesetAt(s, r.value.start) == Some((r.value.skip, r.value.len))
    ensures r.None? ==> forall j: nat :: j <= |s| ==> ChangesetAt(s, j).None?
  {
    var f := i => ChangesetAt(s, i);
    match FirstSome(0, |s| + 1, f)
    case None =>
      assert forall j: nat :: j <= |s| ==> ChangesetAt(s, j).None? by {
        forall j: nat | j <= |s| ensures ChangesetAt(s, j).None? {
          assert f(j) == ChangesetAt(s, j);
        }
      }
      None
    case Some((i, p)) =>
      assert forall j: nat :: j < i ==> ChangesetAt(s, j).None? by {
        forall j: nat | j < i ensures ChangesetAt(s, j).None? {
          assert f(j) == ChangesetAt(s, j);
        }
      }
      assert f(i) == ChangesetAt(s, i);
      Some(Match(i, p.0, p.1))
  }

  /** Leftmost-first: no match starts before the one found, nor takes a longer `\W*` run. */
  lemma ChangesetSearchComplete(s: string, i: nat, L: nat, k: nat)
    requires ChangesetMatch(s, i, L, k)
    ensures ChangesetSearch(s).Some? && ChangesetSearch(s).value.start <= i
      && (ChangesetSearch(s).value.start == i ==> L <= ChangesetSearch(s).value.skip)
  {
    ChangesetAtComplete(s, i, L, k);
  }

  /** `m.group(1)` of the changeset pattern, or None when it does not match. */
  function ChangesetId(s: string): (r: Option<string>)
    ensures r.Some? <==> ChangesetSearch(s).Some?
    ensures r.Some? ==> r.value != "" && forall t :: 0 <= t < |r.value| ==> IsIdChar(r.value[t])
    ensures r.Some? ==> r.value == Group(s, ChangesetSearch(s).value)
  {
    match ChangesetSearch(s)
    case None => None
    case Some(m) =>
      var id := Group(s, m);
      Some(id)
  }

  /** The text of the parenthesised group of a match. */
  function Group(s: string, m: Match): (id: string)
    requires ChangesetMatch(s, m.start, m.skip, m.len)
    ensures |id| == m.len && forall t :: 0 <= t < m.len ==> id[t] == s[m.start + 13 + m.skip + t]
  {
    s[m.start + 13 + m.skip..m.start + 13 + m.skip + m.len]
  }

  /** The pattern finds no id exactly when no position matches it. */
  lemma ChangesetIdNone(s: string)
    ensures ChangesetId(s).None? <==> forall i: nat, L: nat, k: nat :: !ChangesetMatch(s, i, L, k)
  {
    if ChangesetId(s).Some? {
      var m := ChangesetSearch(s).value;
      assert ChangesetMatch(s, m.start, m.skip, m.len);
    } else {
      forall i: nat, L: nat, k: nat ensures !ChangesetMatch(s, i, L, k) {
        if ChangesetMatch(s, i, L, k) {
          ChangesetSearchComplete(s, i, L, k);
        }
      }
    }
  }

  /** Two ids matched at the same position have the same length. */
  lemma ParenIdUnique(s: string, j: nat, k1: nat, k2: nat)
    requires ParenId(s, j, k1) && ParenId(s, j, k2)
    ensures k1 == k2
  {
    ParenIdAtComplete(s, j, k1);
    ParenIdAtComplete(s, j, k2);
  }

  /**
   * A checkin report `Change sets:` + non-word gap + `(id)` names the changeset `id`, for an id
   * starting with a word character (otherwise `\W*` could run through it to a later `(`).
   */
  lemma ReportMatches(gap: string, id: string, rest: string)
    requires forall t :: 0 <= t < |gap| ==> IsNonWord(gap[t])
    requires id != "" && forall t :: 0 <= t < |id| ==> IsIdChar(id[t])
    ensures var s := ChangeSetsTag + gap + "(" + id + ")" + rest;
      ChangesetMatch(s, 0, |gap|, |id|) && s[13 + |gap|] == id[0] && s[13 + |gap|..13 + |gap| + |id|] == id
  {
    var s := ChangeSetsTag + gap + "(" + id + ")" + rest;
    var g := |gap|;
    assert s[..12] == ChangeSetsTag;
    assert forall t :: 12 <= t < 12 + g ==> s[t] == gap[t - 12];
    assert s[12 + g] == '(';
    assert forall t :: 13 + g <= t < 13 + g + |id| ==> s[t] == id[t - 13 - g];
    assert s[13 + g + |id|] == ')';
    assert s[13 + g..13 + g + |id|] == id;
  }

  /** Every character the `\W*` of a match takes is a non-word character. */
  lemma SkipIsNonWord(s: string, m: Match, t: int)
    requires ChangesetMatch(s, m.start, m.skip, m.len)
    requires m.start + 12 <= t < m.start + 12 + m.skip
    ensures IsNonWord(s[t])
  {
  }

  /** A match at the start whose id begins with a word character is the one found. */
  lemma ChangesetIdAtStart(s: string, g: nat, k: nat, id: string)
    requires ChangesetMatch(s, 0, g, k) && IsWordChar(s[13 + g]) && s[13 + g..13 + g + k] == id
    ensures ChangesetId(s) == Some(id)
  {
    ChangesetSearchComplete(s, 0, g, k);
    var r := ChangesetSearch(s);
    assert r.Some?;
    var m := r.value;
    assert m.start == 0;
    assert m.skip == g by {
      assert m.skip >= g;
      if m.skip > g + 1 {
        SkipIsNonWord(s, m, 13 + g);
      }
    }
    ParenIdUnique(s, 12 + g, m.len, k);
    assert Group(s, m) == id;
  }

  lemma ChangesetIdOf(gap: string, id: string, rest: string)
    requires forall t :: 0 <= t < |gap| ==> IsNonWord(gap[t])
    requires id != "" && IsWordChar(id[0]) && forall t :: 0 <= t < |id| ==> IsIdChar(id[t])
    ensures ChangesetId(ChangeSetsTag + gap + "(" + id + ")" + rest) == Some(id)
  {
    ReportMatches(gap, id, rest);
    ChangesetIdAtStart(ChangeSetsTag + gap + "(" + id + ")" + rest, |gap|, |id|, id);
  }

  // -----
  // Snapshot ids (rtc.py:77-83): `(?ms)Snapshot \(([-_A-Za-z0-9]+)\) .* successfully created`

  const SnapshotTag := "Snapshot ("
  const CreatedTag := " successfully created"

  /** The pattern matches at `i` with an id of length `k`; `.*` also spans newlines. */
  predicate SnapshotMatch(s: string, i: int, k: nat) {
    OccursAt(s, SnapshotTag, i) && k > 0 && i + 12 + k <= |s|
    && (forall t :: i + 10 <= t < i + 10 + k ==> IsIdChar(s[t]))
    && s[i + 10 + k] == ')' && s[i + 11 + k] == ' '
    && Contains(s[i + 12 + k..], CreatedTag)
  }

  function SnapshotAt(s: string, i: nat): (r: Option<nat>)
    ensures r.Some? ==> SnapshotMatch(s, i, r.value)
  {
    if !OccursAt(s, SnapshotTag, i) then None
    else
      var k := Span(s[i + 10..], IdChars);
      assert forall t :: i + 10 <= t < i + 10 + k ==> s[t] == s[i + 10..][t - i - 10];
      if k > 0 && i + 12 + k <= |s| && s[i + 10 + k] == ')' && s[i + 11 + k] == ' '
         && FirstIndex(s[i + 12 + k..], CreatedTag).Some?
      then Some(k)
      else None
  }

  lemma SnapshotAtComplete(s: string, i: nat, k: nat)
    requires SnapshotMatch(s, i, k)
    ensures SnapshotAt(s, i) == Some(k)
  {
  }

  /** The search: the first start at which the snapshot pattern matches, and its id length. */
  function SnapshotSearch(s: string): (r: Option<(nat, nat)>)
    ensures r.Some? ==> SnapshotMatch(s, r.value.0, r.value.1)
    ensures r.Some? ==> forall j: nat :: j < r.value.0 ==> SnapshotAt(s, j).None?
    ensures r.None? ==> forall j: nat :: j <= |s| ==> SnapshotAt(s, j).None?
  {
    var f := i => SnapshotAt(s, i);
    match FirstSome(0, |s| + 1, f)
    case None =>
      assert forall j: nat :: j <= |s| ==> SnapshotAt(s, j).None? by {
        forall j: nat | j <= |s| ensures SnapshotAt(s, j).None? {
          assert f(j) == SnapshotAt(s, j);
        }
      }
      None
    case Some((i, p)) =>
      assert forall j: nat :: j < i ==> SnapshotAt(s, j).None? by {
        forall j: nat | j < i ensures SnapshotAt(s, j).None? {
          assert f(j) == SnapshotAt(s, j);
        }
      }
      assert f(i) == SnapshotAt(s, i);
      Some((i, p))
  }

  /** `m.group(1)` of the snapshot pattern searched in `create snapshot` output. */
  function SnapshotId(s: string): (r: Option<string>)
    ensures r.Some? ==> r.value != "" && forall t :: 0 <= t < |r.value| ==> IsIdChar(r.value[t])
  {
    match SnapshotSearch(s)
    case None => None
    case Some((i, k)) =>
      var id := s[i + 10..i + 10 + k];
      assert forall t :: 0 <= t < k ==> id[t] == s[i + 10 + t];
      Some(id)
  }

  /** At one position the pattern matches with one id length only. */
  lemma SnapshotMatchUnique(s: string, i: nat, k1: nat, k2: nat)
    requires SnapshotMatch(s, i, k1) && SnapshotMatch(s, i, k2)
    ensures k1 == k2
  {
    SnapshotAtComplete(s, i, k1);
    SnapshotAtComplete(s, i, k2);
  }

  /** The first match is the one found. */
  lemma SnapshotIdComplete(s: string, i: nat, k: nat, id: string)
    requires SnapshotMatch(s, i, k) && s[i + 10..i + 10 + k] == id
    requires forall j: nat, k': nat :: j < i ==> !SnapshotMatch(s, j, k')
    ensures SnapshotId(s) == Some(id)
  {
    SnapshotAtComplete(s, i, k);
    var r := SnapshotSearch(s);
    assert r.Some?;
    var m := r.value;
    assert m.0 == i by {
      assert !(m.0 < i);
      assert !(i < m.0);
    }
    SnapshotMatchUnique(s, i, k, m.1);
  }

  /** No id is found exactly when nothing matches. */
  lemma SnapshotIdNone(s: string)
    ensures SnapshotId(s).None? <==> forall i: nat, k: nat :: !SnapshotMatch(s, i, k)
  {
    if SnapshotId(s).None? {
      forall i: nat, k: nat ensures !SnapshotMatch(s, i, k) {
        if SnapshotMatch(s, i, k) {
          SnapshotAtComplete(s, i, k);
        }
      }
    }
  }

  lemma SnapshotReport(id: string, middle: string)
    requires id != "" && forall t :: 0 <= t < |id| ==> IsIdChar(id[t])
    ensures var s := SnapshotTag + id + ") " + middle + CreatedTag;
      SnapshotMatch(s, 0, |id|) && s[10..10 + |id|] == id
  {
    var s := SnapshotTag + id + ") " + middle + CreatedTag;
    var k := |id|;
    assert s[..10] == SnapshotTag;
    assert forall t :: 10 <= t < 10 + k ==> s[t] == id[t - 10];
    var tail := s[12 + k..];
    assert tail == middle + CreatedTag;
    assert OccursAt(tail, CreatedTag, |middle|);
    assert s[10..10 + k] == id;
  }

  /** A report `Snapshot (id) ... successfully created` names the snapshot `id`. */
  lemma SnapshotIdOf(id: string, middle: string)
    requires id != "" && forall t :: 0 <= t < |id| ==> IsIdChar(id[t])
    ensures SnapshotId(SnapshotTag + id + ") " + middle + CreatedTag) == Some(id)
  {
    SnapshotReport(id, middle);
    SnapshotIdComplete(SnapshotTag + id + ") " + middle + CreatedTag, 0, |id|, id);
  }

  // ---------------------------------------------------------------------------------------
  // ETags (rtc.py:285-292): `ETag: "(.*?)"`

  const EtagTag := "ETag: \""

  predicate NotQuoteOrNewline(c: char) { c != '"' && c != '\n' }

  /** The lazy group matches at `i` with `m` characters: up to the next quote, on one line. */
  predicate EtagMatch(s: string, i: int, m: nat) {
    OccursAt(s, EtagTag, i) && i + 7 + m < |s| && s[i + 7 + m] == '"'
    && forall t :: i + 7 <= t < i + 7 + m ==> NotQuoteOrNewline(s[t])
  }

  function EtagAt(s: string, i: nat): (r: Option<nat>)
    ensures r.Some? ==> EtagMatch(s, i, r.value)
  {
    if !OccursAt(s, EtagTag, i) then None
    else
      var m := Span(s[i + 7..], NoQuoteOrNewline);
      assert forall t :: i + 7 <= t < i + 7 + m ==> s[t] == s[i + 7..][t - i - 7];
      if i + 7 + m < |s| && s[i + 7 + m] == '"' then Some(m) else None
  }

  lemma EtagAtComplete(s: string, i: nat, m: nat)
    requires EtagMatch(s, i, m)
    ensures EtagAt(s, i) == Some(m)
  {
  }

  /** The search: the first start at which the ETag pattern matches, and the value's length. */
  function EtagSearch(s: string): (r: Option<(nat, nat)>)
    ensures r.Some? ==> EtagMatch(s, r.value.0, r.value.1)
    ensures r.Some? ==> forall j: nat :: j < r.value.0 ==> EtagAt(s, j).None?
    ensures r.None? ==> forall j: nat :: j <= |s| ==> EtagAt(s, j).None?
  {
    var f := i => EtagAt(s, i);
    match FirstSome(0, |s| + 1, f)
    case None =>
      assert forall j: nat :: j <= |s| ==> EtagAt(s, j).None? by {
        forall j: nat | j <= |s| ensures EtagAt(s, j).None? {
          assert f(j) == EtagAt(s, j);
        }
      }
      None
    case Some((i, p)) =>
      assert forall j: nat :: j < i ==> EtagAt(s, j).None? by {
        forall j: nat | j < i ensures EtagAt(s, j).None? {
          assert f(j) == EtagAt(s, j);
        }
      }
      assert f(i) == EtagAt(s, i);
      Some((i, p))
  }

  /** `_extract_etag`: the first complete `ETag: "..."` value; None (only logged) otherwise. */
  function ExtractEtag(headers: string): (r: Option<string>)
    ensures r.Some? ==> '"' !in r.value && '\n' !in r.value
  {
    match EtagSearch(headers)
    case None => None
    case Some((i, m)) =>
      var e := headers[i + 7..i + 7 + m];
      assert forall t :: 0 <= t < m ==> e[t] == headers[i + 7 + t];
      Some(e)
  }

  /** The first match gives the ETag, and none is found only when nothing matches. */
  lemma ExtractEtagComplete(s: string, i: nat, m: nat, v: string)
    requires EtagMatch(s, i, m) && s[i + 7..i + 7 + m] == v
    requires forall j: nat, m': nat :: j < i ==> !EtagMatch(s, j, m')
    ensures ExtractEtag(s) == Some(v)
  {
    EtagAtComplete(s, i, m);
  }

  lemma ExtractEtagNone(s: string)
    ensures ExtractEtag(s).None? <==> forall i: nat, m: nat :: !EtagMatch(s, i, m)
  {
    if ExtractEtag(s).None? {
      forall i: nat, m: nat ensures !EtagMatch(s, i, m) {
        if EtagMatch(s, i, m) {
          EtagAtComplete(s, i, m);
        }
      }
    }
  }

  lemma EtagHeader(v: string, rest: string)
    requires '"' !in v && '\n' !in v
    ensures var s := EtagTag + v + "\"" + rest; EtagMatch(s, 0, |v|) && s[7..7 + |v|] == v
  {
    var s := EtagTag + v + "\"" + rest;
    assert s[..7] == EtagTag;
    assert forall t :: 7 <= t < 7 + |v| ==> s[t] == v[t - 7];
    assert s[7..7 + |v|] == v;
  }

  /** Headers starting `ETag: "v"` yield `v`. */
  lemma EtagOfHeader(v: string, rest: string)
    requires '"' !in v && '\n' !in v
    ensures ExtractEtag(EtagTag + v + "\"" + rest) == Some(v)
  {
    EtagHeader(v, rest);
    ExtractEtagComplete(EtagTag + v + "\"" + rest, 0, |v|, v);
  }
}
