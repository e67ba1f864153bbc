/**
 * ccm.py: the Source SCM (CM/Synergy) command runner's error classification and the parsers
 * of its command output. Command output is taken as a string argument; the hierarchy-member
 * count of a project and the date parser are oracle functions.
 */
module Ccm {
  import opened Wrappers
  import opened Text
  import opened Exec
  import Retry

  // ---------------------------------------------------------------------------------------
  // remove_dcm_prefix (ccm.py:14-16): `(\w+=)?(.*)` matched at the start, group 2 returned

  /** What `.*` matches: the text before the first newline. */
  function ToNewline(s: string): (r: string)
    ensures |r| <= |s| && r == s[..|r|] && '\n' !in r && (|r| == |s| || s[|r|] == '\n')
  {
    if s == [] || s[0] == '\n' then ""
    else
      var r := [s[0]] + ToNewline(s[1..]);
      assert r == s[..|r|];
      r
  }

  lemma {:induction false} ToNewlineFree(s: string)
    requires '\n' !in s
    ensures ToNewline(s) == s
  {
    if s != [] {
      ToNewlineFree(s[1..]);
      assert [s[0]] + s[1..] == s;
    }
  }

  /** The optional group `(\w+=)` matches: leading word characters followed by `=`. */
  predicate HasDcmPrefix(name: string) {
    var k := Span(name, WordChars);
    0 < k < |name| && name[k] == '='
  }

  function RemoveDcmPrefix(name: string): string {
    ToNewline(if HasDcmPrefix(name) then name[Span(name, WordChars) + 1..] else name)
  }

  /** A database prefix `p=` made of word characters is removed. */
  lemma RemoveDcmPrefixStrips(p: string, rest: string)
    requires p != [] && AllWord(p)
    requires '\n' !in rest
    ensures RemoveDcmPrefix(p + "=" + rest) == rest
  {
    var name := p + "=" + rest;
    assert name == p + ("=" + rest);
    SpanOf(p, "=" + rest, WordChars);
    assert name[|p| + 1..] == rest;
    ToNewlineFree(rest);
  }

  /** A name whose leading word characters are not followed by `=` is returned unchanged. */
  lemma RemoveDcmPrefixKeeps(name: string)
    requires '\n' !in name
    requires forall k :: 0 < k < |name| && name[k] == '=' ==> !AllWord(name[..k])
    ensures RemoveDcmPrefix(name) == name
  {
    ToNewlineFree(name);
  }

  // ---------------------------------------------------------------------------------------
  // CCM.execute / execute_failok (ccm.py:29-65)

  /**
   * An ignore pattern: literal pieces separated by `.*`, searched with `(?ms)` so that `.*`
   * also spans newlines (for example `Failed to add any task.*cannot be changed`).
   */
  datatype Pattern = Pattern(pieces: seq<string>)

  /** `re.compile(p).search(s)` for such a pattern. */
  predicate Found(pieces: seq<string>, s: string)
    decreases |pieces|
  {
    if pieces == [] then true
    else
      match FirstIndex(s, pieces[0])
      case None => false
      case Some(i) => Found(pieces[1..], s[i + |pieces[0]|..])
  }

  lemma FoundOnePiece(w: string, s: string)
    ensures Found([w], s) <==> Contains(s, w)
  {
    assert [w][1..] == [];
  }

  /** A later occurrence of `a` leaves less text after it than the first one does. */
  lemma ContainsAfterEarlier(s: string, a: string, b: string, i0: nat, i: nat)
    requires i0 <= i && i + |a| <= |s|
    requires Contains(s[i + |a|..], b)
    ensures Contains(s[i0 + |a|..], b)
  {
    var t := s[i + |a|..];
    var j :| 0 <= j <= |t| && OccursAt(t, b, j);
    var u := s[i0 + |a|..];
    assert u[j + (i - i0)..j + (i - i0) + |b|] == t[j..j + |b|];
    assert OccursAt(u, b, j + (i - i0));
  }

  /** `b` occurs somewhere after the occurrence of `a` at `i`. */
  predicate FollowedBy(s: string, a: string, b: string, i: int) {
    OccursAt(s, a, i) && Contains(s[i + |a|..], b)
  }

  lemma FoundTwoUnfold(a: string, b: string, s: string)
    ensures Found([a, b], s) <==> FirstIndex(s, a).Some? && Contains(s[FirstIndex(s, a).value + |a|..], b)
  {
    assert [a, b][1..] == [b];
    if FirstIndex(s, a).Some? {
      FoundOnePiece(b, s[FirstIndex(s, a).value + |a|..]);
    }
  }

  /** A two-piece pattern is found wherever `b` occurs after some occurrence of `a`, ... */
  lemma FollowedFoundTwo(a: string, b: string, s: string, i: nat)
    requires FollowedBy(s, a, b, i)
    ensures Found([a, b], s)
  {
    assert Contains(s, a);
    var i0 := FirstIndex(s, a).value;
    ContainsAfterEarlier(s, a, b, i0, i);
    FoundTwoUnfold(a, b, s);
  }

  /** ... and only there: then `b` follows the first occurrence of `a`. */
  lemma FoundTwoFollowed(a: string, b: string, s: string)
    requires Found([a, b], s)
    ensures FirstIndex(s, a).Some? && FollowedBy(s, a, b, FirstIndex(s, a).value)
  {
    FoundTwoUnfold(a, b, s);
  }

  /** `ignore and re.compile(ignore).search(s)`: an absent or empty pattern never matches. */
  predicate Ignores(p: Option<Pattern>, s: string) {
    p.Some? && p.value.pieces != [] && p.value.pieces != [""] && Found(p.value.pieces, s)
  }

  /** One run of `ccm` as `execute` classifies it: `CCMError` is the exception retried. */
  function Execute(run: Process, ignoreOut: Option<Pattern>, ignoreErr: Option<Pattern>): (r: Retry.Outcome<string, Error>)
    ensures !r.Unchecked?
    ensures r.Checked? <==> run.status != 0 && !Ignores(ignoreErr, run.stderr) && !Ignores(ignoreOut, run.stdout)
    ensures r.Checked? ==> r.error.CcmError?
    ensures run.status == 0 ==> r == Retry.Returned(run.stdout)
    ensures run.status != 0 && Ignores(ignoreErr, run.stderr) ==> r == Retry.Returned(run.stderr)
    ensures run.status != 0 && !Ignores(ignoreErr, run.stderr) && Ignores(ignoreOut, run.stdout) ==> r == Retry.Returned(run.stdout)
  {
    if run.status == 0 then Retry.Returned(run.stdout)
    else if Ignores(ignoreErr, run.stderr) then Retry.Returned(run.stderr)
    else if Ignores(ignoreOut, run.stdout) then Retry.Returned(run.stdout)
    else Retry.Checked(CcmError("failed to execute CCM CLI command:\nstandard output: <<" + run.stdout
                                 + ">>\nstandard error: <<" + run.stderr + ">>"))
  }

  /** `execute` under its decorator `@retry(CCMError, tries=9, delay=8, backoff=2)`. */
  function ExecuteRetried(runs: nat -> Process, ignoreOut: Option<Pattern>, ignoreErr: Option<Pattern>): Retry.Run<string, Error> {
    Retry.Retried(9, 8, 2, k => Execute(runs(k), ignoreOut, ignoreErr), 0)
  }

  /** A failure whose error stream matches the ignore pattern is returned at once, never retried. */
  lemma IgnoredErrorNotRetried(runs: nat -> Process, ignoreOut: Option<Pattern>, ignoreErr: Option<Pattern>)
    requires runs(0).status != 0 && Ignores(ignoreErr, runs(0).stderr)
    ensures var r := ExecuteRetried(runs, ignoreOut, ignoreErr);
      r.calls == 1 && r.sleeps == [] && r.outcome == Retry.Returned(runs(0).stderr)
  {
    Retry.FirstAnswerWins(9, 8, 2, k => Execute(runs(k), ignoreOut, ignoreErr), 0, 0);
  }

  /** A command that keeps failing is run nine times and its last `CCMError` propagates. */
  lemma PersistentFailureRaises(runs: nat -> Process, ignoreOut: Option<Pattern>, ignoreErr: Option<Pattern>)
    requires forall k :: 0 <= k < 9 ==> runs(k).status != 0 && !Ignores(ignoreErr, runs(k).stderr) && !Ignores(ignoreOut, runs(k).stdout)
    ensures var r := ExecuteRetried(runs, ignoreOut, ignoreErr);
      r.calls == 9 && r.outcome.Checked? && r.outcome.error.CcmError?
      && r.sleeps == [8, 16, 32, 64, 128, 256, 512, 1024]
  {
    var attempt := k => Execute(runs(k), ignoreOut, ignoreErr);
    assert forall j :: 0 <= j < 8 ==> attempt(j).Checked?;
    Retry.SourcePolicyExhausted(attempt);
    assert attempt(8).Checked?;
  }

  /** `execute_failok`: not retried, never raises; None on a non-zero status. */
  function ExecuteFailOk(run: Process): (r: Option<string>)
    ensures r.None? <==> run.status != 0
    ensures r.Some? ==> r.value == run.stdout
  {
    if run.status != 0 then None else Some(run.stdout)
  }

  // ---------------------------------------------------------------------------------------
  // text2list (ccm.py:66-67): `[l.rstrip() for l in text.split('\n') if l]`

  function RStripNonEmpty(lines: seq<string>): seq<string> {
    if lines == [] then []
    else (if lines[0] == "" then [] else [RStrip(lines[0])]) + RStripNonEmpty(lines[1..])
  }

  function Text2List(text: string): seq<string> {
    RStripNonEmpty(Split(text, '\n'))
  }

  lemma {:induction false} RStripNonEmptyAppend(a: seq<string>, b: seq<string>)
    ensures RStripNonEmpty(a + b) == RStripNonEmpty(a) + RStripNonEmpty(b)
  {
    if a == [] {
      assert a + b == b;
    } else {
      assert (a + b)[1..] == a[1..] + b;
      RStripNonEmptyAppend(a[1..], b);
    }
  }

  /** A single line gives one right-stripped entry, or none when it is empty. */
  lemma Text2ListLine(line: string)
    requires '\n' !in line
    ensures Text2List(line) == if line == "" then [] else [RStrip(line)]
  {
    SplitFree(line, '\n');
    assert [line][1..] == [];
    assert RStripNonEmpty([line]) == (if line == "" then [] else [RStrip(line)]) + RStripNonEmpty([]);
  }

  /** The entries of two newline-separated texts follow each other, in input order. */
  lemma Text2ListAppend(a: string, b: string)
    ensures Text2List(a + "\n" + b) == Text2List(a) + Text2List(b)
  {
    SplitAppend(a, b, '\n');
    RStripNonEmptyAppend(Split(a, '\n'), Split(b, '\n'));
  }

  /** A segment of whitespace only yields an empty entry rather than none. */
  lemma Text2ListBlankLine(line: string)
    requires line != "" && '\n' !in line
    requires forall i :: 0 <= i < |line| ==> IsSpace(line[i])
    ensures Text2List(line) == [""]
  {
    Text2ListLine(line);
    assert RStrip(line) == [];
  }

  /** `[p.strip() for p in text.split('\n') if p]`, as in baseline_project. */
  function StripNonEmpty(lines: seq<string>): seq<string> {
    if lines == [] then []
    else (if lines[0] == "" then [] else [Strip(lines[0])]) + StripNonEmpty(lines[1..])
  }

  function StrippedLines(text: string): seq<string> {
    StripNonEmpty(Split(text, '\n'))
  }

  // ---------------------------------------------------------------------------------------
  // text2tasks and baseline_compare (ccm.py:68-90)

  /** `x` is one of the comma-separated task ids of the non-empty line `line`. */
  predicate LineHasTask(line: string, x: string) {
    line != "" && x in Split(Strip(line), ',')
  }

  function LineTasks(line: string): (r: set<string>)
    ensures forall x :: x in r <==> LineHasTask(line, x)
  {
    if line == "" then {} else
      var pieces := Split(Strip(line), ',');
      set i | 0 <= i < |pieces| :: pieces[i]
  }

  function TasksOfLines(lines: seq<string>): set<string> {
    if lines == [] then {} else LineTasks(lines[0]) + TasksOfLines(lines[1..])
  }

  /** The task ids of a query: the comma-separated pieces of every stripped non-empty line. */
  function Text2Tasks(text: string): set<string> {
    TasksOfLines(Split(text, '\n'))
  }

  lemma {:induction false} TasksOfLinesMembers(lines: seq<string>, x: string)
    ensures x in TasksOfLines(lines) <==> exists k :: 0 <= k < |lines| && LineHasTask(lines[k], x)
  {
    if lines != [] {
      var tail := lines[1..];
      TasksOfLinesMembers(tail, x);
      if x in TasksOfLines(tail) {
        var k :| 0 <= k < |tail| && LineHasTask(tail[k], x);
        assert lines[k + 1] == tail[k];
      }
      if exists k :: 0 <= k < |lines| && LineHasTask(lines[k], x) {
        var k :| 0 <= k < |lines| && LineHasTask(lines[k], x);
        if k > 0 {
          assert tail[k - 1] == lines[k];
        }
      }
    }
  }

  /**
   * baseline_compare's result given the two membership queries' output: the tasks to add and
   * the tasks to remove to turn the first baseline into the second.
   */
  function BaselineCompare(members1: string, members2: string): (r: (set<string>, set<string>))
    ensures r.0 !! r.1
    ensures r.0 <= Text2Tasks(members2) && r.1 <= Text2Tasks(members1)
    ensures r.0 !! Text2Tasks(members1)
    ensures (Text2Tasks(members1) - r.1) + r.0 == Text2Tasks(members2)
    ensures Text2Tasks(members1) <= Text2Tasks(members2) ==> r.1 == {}
  {
    var t1, t2 := Text2Tasks(members1), Text2Tasks(members2);
    (t2 - t1, t1 - t2)
  }

  // ---------------------------------------------------------------------------------------
  // baseline_compare_x (ccm.py:91-135): scan of the "baseline -compare" report

  /** Which list task lines currently go to: `in_bl1`, `in_bl2`, or neither. */
  datatype Section = NoSection | OnlyInFirst | OnlyInSecond

  /** The section a header line opens; the three headers are tried in the source's order. */
  function HeaderOf(line: string, bl1: string, bl2: string): Option<Section> {
    if StartsWith(line, "Tasks only in Baseline " + bl1) then Some(OnlyInFirst)
    else if StartsWith(line, "Tasks only in Baseline " + bl2) then Some(OnlyInSecond)
    else if StartsWith(line, "Tasks in both Baseline") then Some(NoSection)
    else None
  }

  /** `re.match(r'(\w+=\d+) (\w*)', line).group(1)` */
  function TaskLineId(line: string): (r: Option<string>)
    ensures r.Some? ==> StartsWith(line, r.value + " ")
  {
    var k := Span(line, WordChars);
    if k == 0 || k >= |line| || line[k] != '=' then None
    else
      var d := Span(line[k + 1..], DigitChars);
      if d == 0 || k + 1 + d >= |line| || line[k + 1 + d] != ' ' then None
      else
        assert line[..k + 1 + d] + " " == line[..k + 2 + d];
        Some(line[..k + 1 + d])
  }

  /** A line `p=n x` with a word `p` and a number `n` names the task `p=n`. */
  lemma TaskLineIdOf(p: string, n: string, rest: string)
    requires p != [] && AllWord(p) && n != [] && AllDigits(n)
    ensures TaskLineId(p + "=" + n + " " + rest) == Some(p + "=" + n)
  {
    var line := p + "=" + n + " " + rest;
    var k := |p|;
    assert forall i :: 0 <= i < k ==> line[i] == p[i];
    assert forall i :: k + 1 <= i < k + 1 + |n| ==> line[i] == n[i - k - 1];
    TaskLineIdAt(line, k, |n|);
    assert line[..k + 1 + |n|] == p + "=" + n;
  }

  /** The id of a line whose first `k` characters are word characters, then `=`, `d` digits and a space. */
  lemma TaskLineIdAt(line: string, k: nat, d: nat)
    requires 0 < k && 0 < d && k + 1 + d < |line|
    requires forall i :: 0 <= i < k ==> IsWordChar(line[i])
    requires line[k] == '=' && line[k + 1 + d] == ' '
    requires forall i :: k + 1 <= i < k + 1 + d ==> IsDigit(line[i])
    ensures TaskLineId(line) == Some(line[..k + 1 + d])
  {
    SpanIs(line, k, WordChars);
    var after := line[k + 1..];
    assert forall i :: 0 <= i < d ==> after[i] == line[k + 1 + i];
    SpanIs(after, d, DigitChars);
  }

  /** The section the scanner is in after `line`: a header opens its own, any other line keeps `sec`. */
  function NextSection(line: string, bl1: string, bl2: string, sec: Section): Section {
    match HeaderOf(line, bl1, bl2)
    case Some(s) => s
    case None => sec
  }

  /** The ids `line` adds to the `which` list when read in section `sec`. */
  function LineIds(line: string, bl1: string, bl2: string, sec: Section, which: Section): seq<string> {
    if HeaderOf(line, bl1, bl2).Some? then []
    else
      var id := TaskLineId(line);
      if which != NoSection && sec == which && id.Some? then [id.value] else []
  }

  /** The ids a scan of `lines` adds to the `which` list, starting in section `sec`. */
  function Scan(lines: seq<string>, bl1: string, bl2: string, sec: Section, which: Section): seq<string> {
    if lines == [] then []
    else LineIds(lines[0], bl1, bl2, sec, which) + Scan(lines[1..], bl1, bl2, NextSection(lines[0], bl1, bl2, sec), which)
  }

  /** The section the scanner is in after `lines`. */
  function SectionAfter(lines: seq<string>, bl1: string, bl2: string, sec: Section): Section {
    if lines == [] then sec
    else SectionAfter(lines[1..], bl1, bl2, NextSection(lines[0], bl1, bl2, sec))
  }

  /** The scan of two consecutive parts of a report: order and duplicates are kept. */
  lemma {:induction false} ScanAppend(a: seq<string>, b: seq<string>, bl1: string, bl2: string, sec: Section, which: Section)
    ensures Scan(a + b, bl1, bl2, sec, which)
      == Scan(a, bl1, bl2, sec, which) + Scan(b, bl1, bl2, SectionAfter(a, bl1, bl2, sec), which)
  {
    if a == [] {
      assert a + b == b;
    } else {
      assert (a + b)[0] == a[0];
      assert (a + b)[1..] == a[1..] + b;
      ScanAppend(a[1..], b, bl1, bl2, NextSection(a[0], bl1, bl2, sec), which);
    }
  }

  predicate NoHeader(lines: seq<string>, bl1: string, bl2: string) {
    forall k :: 0 <= k < |lines| ==> HeaderOf(lines[k], bl1, bl2).None?
  }

  /**
   * Task lines contribute to neither list before any header, and after the "Tasks in both"
   * header until the next header.
   */
  lemma {:induction false} NothingOutsideSections(lines: seq<string>, bl1: string, bl2: string, which: Section)
    requires NoHeader(lines, bl1, bl2)
    ensures Scan(lines, bl1, bl2, NoSection, which) == []
  {
    if lines != [] {
      assert HeaderOf(lines[0], bl1, bl2).None?;
      NothingOutsideSections(lines[1..], bl1, bl2, which);
    }
  }

  /** Under a section header, every task line contributes its id to that section's list alone. */
  lemma {:induction false} SectionCollectsTaskLines(lines: seq<string>, bl1: string, bl2: string, sec: Section)
    requires NoHeader(lines, bl1, bl2) && sec != NoSection
    ensures Scan(lines, bl1, bl2, sec, sec) == TaskIds(lines)
    ensures forall other :: other != sec ==> Scan(lines, bl1, bl2, sec, other) == []
  {
    if lines != [] {
      assert HeaderOf(lines[0], bl1, bl2).None?;
      SectionCollectsTaskLines(lines[1..], bl1, bl2, sec);
    }
  }

  /** The ids of the task lines among `lines`, in order. */
  function TaskIds(lines: seq<string>): seq<string> {
    if lines == [] then []
    else (if TaskLineId(lines[0]).Some? then [TaskLineId(lines[0]).value] else []) + TaskIds(lines[1..])
  }

  /** The section the two flags of the scan loop stand for. */
  function SectionOf(inBl1: bool, inBl2: bool): Section {
    if inBl1 then OnlyInFirst else if inBl2 then OnlyInSecond else NoSection
  }

  lemma {:induction false} SectionAfterAppend(a: seq<string>, b: seq<string>, bl1: string, bl2: string, sec: Section)
    ensures SectionAfter(a + b, bl1, bl2, sec) == SectionAfter(b, bl1, bl2, SectionAfter(a, bl1, bl2, sec))
  {
    if a == [] {
      assert a + b == b;
    } else {
      assert (a + b)[0] == a[0];
      assert (a + b)[1..] == a[1..] + b;
      SectionAfterAppend(a[1..], b, bl1, bl2, NextSection(a[0], bl1, bl2, sec));
    }
  }

  /** The scan of the first `i + 1` lines: that of the first `i`, then line `i` in the section they leave. */
  lemma ScanStep(lines: seq<string>, i: nat, bl1: string, bl2: string, sec: Section, which: Section)
    requires i < |lines|
    ensures var before := SectionAfter(lines[..i], bl1, bl2, sec);
      && Scan(lines[..i + 1], bl1, bl2, sec, which)
        == Scan(lines[..i], bl1, bl2, sec, which) + LineIds(lines[i], bl1, bl2, before, which)
      && SectionAfter(lines[..i + 1], bl1, bl2, sec) == NextSection(lines[i], bl1, bl2, before)
  {
    var before := SectionAfter(lines[..i], bl1, bl2, sec);
    assert lines[..i + 1] == lines[..i] + [lines[i]];
    ScanAppend(lines[..i], [lines[i]], bl1, bl2, sec, which);
    SectionAfterAppend(lines[..i], [lines[i]], bl1, bl2, sec);
    assert Scan([lines[i]], bl1, bl2, before, which) == LineIds(lines[i], bl1, bl2, before, which) + [];
  }

  /** The scan loop of baseline_compare_x; returns (tasks to add, tasks to remove). */
  method BaselineCompareX(report: string, bl1: string, bl2: string) returns (bl2Tasks: seq<string>, bl1Tasks: seq<string>)
    ensures bl1Tasks == Scan(Split(report, '\n'), bl1, bl2, NoSection, OnlyInFirst)
    ensures bl2Tasks == Scan(Split(report, '\n'), bl1, bl2, NoSection, OnlyInSecond)
  {
    var lines := Split(report, '\n');
    var inBl1, inBl2 := false, false;
    bl1Tasks, bl2Tasks := [], [];
    for i := 0 to |lines|
      invariant !(inBl1 && inBl2)
      invariant SectionOf(inBl1, inBl2) == SectionAfter(lines[..i], bl1, bl2, NoSection)
      invariant bl1Tasks == Scan(lines[..i], bl1, bl2, NoSection, OnlyInFirst)
      invariant bl2Tasks == Scan(lines[..i], bl1, bl2, NoSection, OnlyInSecond)
    {
      var l := lines[i];
      ScanStep(lines, i, bl1, bl2, NoSection, OnlyInFirst);
      ScanStep(lines, i, bl1, bl2, NoSection, OnlyInSecond);
      if StartsWith(l, "Tasks only in Baseline " + bl1) {
        inBl1, inBl2 := true, false;
        continue;
      }
      if StartsWith(l, "Tasks only in Baseline " + bl2) {
        inBl1, inBl2 := false, true;
        continue;
      }
      if StartsWith(l, "Tasks in both Baseline") {
        inBl1, inBl2 := false, false;
        continue;
      }
      var m := TaskLineId(l);
      if inBl1 && m.Some? {
        bl1Tasks := bl1Tasks + [m.value];
      }
      if inBl2 && m.Some? {
        bl2Tasks := bl2Tasks + [m.value];
      }
    }
    assert lines[..|lines|] == lines;
  }

  // ---------------------------------------------------------------------------------------
  // baseline_project (ccm.py:141-156)

  /** The project chosen (None when resolution fails) and how many hierarchy queries were made. */
  datatype Selection = Selection(project: Option<string>, queried: nat)

  /** Index of the first project whose hierarchy has `n` members, or |projs| if none. */
  function FirstWithCount(projs: seq<string>, count: string -> nat, n: nat): (k: nat)
    ensures k <= |projs|
  {
    if projs == [] then 0
    else if count(projs[0]) == n then 0
    else 1 + FirstWithCount(projs[1..], count, n)
  }

  /** The index found has `n` members and none before it has. */
  lemma {:induction false} FirstWithCountFound(projs: seq<string>, count: string -> nat, n: nat)
    ensures var k := FirstWithCount(projs, count, n);
      && (k < |projs| ==> count(projs[k]) == n)
      && forall j :: 0 <= j < k ==> count(projs[j]) != n
  {
    if projs != [] && count(projs[0]) != n {
      FirstWithCountFound(projs[1..], count, n);
      var k := FirstWithCount(projs, count, n);
      forall j | 0 <= j < k ensures count(projs[j]) != n {
        if j > 0 { assert projs[j] == projs[1..][j - 1]; }
      }
    }
  }

  lemma FirstWithCountAt(projs: seq<string>, count: string -> nat, n: nat, k: nat)
    requires k <= |projs|
    requires k < |projs| ==> count(projs[k]) == n
    requires forall j :: 0 <= j < k ==> count(projs[j]) != n
    ensures FirstWithCount(projs, count, n) == k
  {
    FirstWithCountFound(projs, count, n);
  }

  function SelectBaselineProject(projs: seq<string>, count: string -> nat): (r: Selection)
    ensures r.queried <= |projs|
    // the project returned is the last one whose hierarchy was queried
    ensures r.project.Some? ==> 1 <= r.queried && r.project.value == projs[r.queried - 1]
  {
    var k := FirstWithCount(projs, count, |projs|);
    if k < |projs| then Selection(Some(projs[k]), k + 1)
    else Selection(if |projs| == 1 then Some(projs[0]) else None, |projs|)
  }

  /**
   * The first listed project whose hierarchy count equals the number of listed projects is
   * returned; failing that, the sole project if exactly one is listed, and None otherwise.
   * Every project is queried exactly when none but possibly the last has that count.
   */
  lemma SelectBaselineProjectChoice(projs: seq<string>, count: string -> nat)
    ensures var r := SelectBaselineProject(projs, count);
      && (r.queried == |projs| <==> forall j :: 0 <= j < |projs| - 1 ==> count(projs[j]) != |projs|)
      && (forall k :: 0 <= k < |projs| && count(projs[k]) == |projs|
                      && (forall j :: 0 <= j < k ==> count(projs[j]) != |projs|)
                      ==> r == Selection(Some(projs[k]), k + 1))
      && ((forall j :: 0 <= j < |projs| ==> count(projs[j]) != |projs|)
          ==> r == Selection(if |projs| == 1 then Some(projs[0]) else None, |projs|))
  {
    FirstWithCountFound(projs, count, |projs|);
    forall k | 0 <= k < |projs| && count(projs[k]) == |projs| && (forall j :: 0 <= j < k ==> count(projs[j]) != |projs|)
      ensures FirstWithCount(projs, count, |projs|) == k
    {
      FirstWithCountAt(projs, count, |projs|, k);
    }
  }

  /**
   * The loop of baseline_project over `projs`, the StrippedLines of `baseline -show projects`;
   * `count` answers the hierarchy-member query of a project.
   */
  method BaselineProject(projs: seq<string>, count: string -> nat) returns (project: Option<string>, queried: nat)
    ensures Selection(project, queried) == SelectBaselineProject(projs, count)
  {
    queried := 0;
    for i := 0 to |projs|
      invariant queried == i
      invariant forall j :: 0 <= j < i ==> count(projs[j]) != |projs|
    {
      queried := queried + 1;
      if count(projs[i]) == |projs| {
        project := Some(projs[i]);
        FirstWithCountAt(projs, count, |projs|, i);
        return;
      }
    }
    FirstWithCountAt(projs, count, |projs|, |projs|);
    if |projs| == 1 {
      project := Some(projs[0]);
    } else {
      project := None;
    }
  }

  // ---------------------------------------------------------------------------------------
  // Project (ccm.py:158-220)

  datatype ProjectFields = ProjectFields(name: string, version: string, baselineProject: string, release: string)

  /** `_init_common`: `info` output stripped and split on `|` into exactly four fields. */
  function ParseProjectInfo(info: string): (r: Result<ProjectFields, Error>)
    ensures r.Err? <==> |Split(Strip(info), '|')| != 4
    ensures r.Err? ==> r.error.ValueError?
  {
    var f := Split(Strip(info), '|');
    if |f| == 4 then Ok(ProjectFields(f[0], f[1], f[2], f[3]))
    else Err(ValueError("too many or too few values to unpack"))
  }

  /** The four fields written by `info -f '%name|%version|%baseline|%release'` are read back. */
  lemma ProjectInfoRoundTrip(p: ProjectFields)
    requires '|' !in p.name && '|' !in p.version && '|' !in p.baselineProject && '|' !in p.release
    requires p.name != "" && !IsSpace(p.name[0]) && p.release != "" && !IsSpace(p.release[|p.release| - 1])
    ensures ParseProjectInfo(p.name + "|" + p.version + "|" + p.baselineProject + "|" + p.release) == Ok(p)
  {
    var parts := [p.name, p.version, p.baselineProject, p.release];
    var s := p.name + "|" + p.version + "|" + p.baselineProject + "|" + p.release;
    assert parts[1..] == [p.version, p.baselineProject, p.release];
    assert parts[1..][1..] == [p.baselineProject, p.release];
    assert parts[1..][1..][1..] == [p.release];
    assert Join(parts[1..][1..], '|') == p.baselineProject + "|" + p.release;
    assert Join(parts[1..], '|') == p.version + "|" + (p.baselineProject + "|" + p.release);
    assert Join(parts, '|') == s;
    assert s[0] == p.name[0];
    assert s[|s| - 1] == p.release[|p.release| - 1];
    assert RStrip(s) == s;
    assert LStrip(s) == s;
    SplitJoin(parts, '|');
  }

  /** The working project; `_init_common` reassigns its four fields. */
  class Project {
    const spec: string
    var name: string
    var version: string
    var baselineProject: string
    var release: string

    /** The allocation part of `Project(spec, ccm)`; `NewProject` runs `_init_common` after it. */
    constructor (spec: string)
      ensures this.spec == spec
      ensures name == "" && version == "" && baselineProject == "" && release == ""
    {
      this.spec := spec;
      name, version, baselineProject, release := "", "", "", "";
    }

    function Fields(): ProjectFields
      reads this
    {
      ProjectFields(name, version, baselineProject, release)
    }

    /** `_init_common`, given the output of the `info` command; a bad unpack changes nothing. */
    method InitCommon(info: string) returns (r: Result<(), Error>)
      modifies this
      ensures r.Ok? <==> ParseProjectInfo(info).Ok?
      ensures r.Ok? ==> Fields() == ParseProjectInfo(info).value
      ensures r.Err? ==> r.error == ParseProjectInfo(info).error && Fields() == old(Fields())
    {
      var p := ParseProjectInfo(info);
      match p
      case Err(e) =>
        r := Err(e);
      case Ok(ProjectFields(n, v, b, rel)) =>
        name, version, baselineProject, release := n, v, b, rel;
        r := Ok(());
    }
  }

  /**
   * `Project(spec, ccm)`: the project is made, then `_init_common` reads its fields from the
   * output of its `info` command; a bad unpack raises ValueError out of the constructor.
   */
  method NewProject(spec: string, info: string) returns (r: Result<Project, Error>)
    ensures r.Ok? <==> ParseProjectInfo(info).Ok?
    ensures r.Ok? ==> fresh(r.value) && r.value.spec == spec && r.value.Fields() == ParseProjectInfo(info).value
    ensures r.Err? ==> r.error == ParseProjectInfo(info).error
  {
    var p := new Project(spec);
    var init := p.InitCommon(info);
    if init.Err? {
      return Err(init.error);
    }
    r := Ok(p);
  }

  // Project.baselines (ccm.py:166-186)

  /**
   * The baseline names of a `displayname|create_time` listing. A line with fewer than two
   * `|`-fields is skipped (IndexError is caught); an unparsable date raises ValueError and a
   * date not after 1970-01-01 fails the assertion. `t0` is never advanced, so lines are not
   * compared with each other. `date` stands for `strptime(..., '%c')`, in seconds since 1970.
   */
  function BaselineNames(lines: seq<string>, date: string -> Option<int>): Result<seq<string>, Error> {
    if lines == [] then Ok([])
    else
      var x := Split(lines[0], '|');
      if |x| < 2 then BaselineNames(lines[1..], date)
      else
        match date(Strip(x[1]))
        case None => Err(ValueError("time data does not match format '%c'"))
        case Some(t) =>
          if t <= 0 then Err(AssertionError)
          else
            match BaselineNames(lines[1..], date)
            case Ok(rest) => Ok([x[0]] + rest)
            case Err(e) => Err(e)
  }

  /** The first `|`-field of every line that has at least two. */
  function FirstFields(lines: seq<string>): seq<string> {
    if lines == [] then []
    else
      var x := Split(lines[0], '|');
      (if |x| < 2 then [] else [x[0]]) + FirstFields(lines[1..])
  }

  predicate DatedLine(line: string, date: string -> Option<int>) {
    var x := Split(line, '|');
    |x| < 2 || (date(Strip(x[1])).Some? && date(Strip(x[1])).value > 0)
  }

  /** The listing is accepted iff every line with a date has a valid one. */
  lemma {:induction false} BaselineNamesAccepts(lines: seq<string>, date: string -> Option<int>)
    ensures BaselineNames(lines, date).Ok? <==> forall k :: 0 <= k < |lines| ==> DatedLine(lines[k], date)
  {
    if lines != [] {
      var tail := lines[1..];
      BaselineNamesAccepts(tail, date);
      assert forall k :: 1 <= k < |lines| ==> lines[k] == tail[k - 1];
      var allTail := forall k :: 0 <= k < |tail| ==> DatedLine(tail[k], date);
      assert allTail <==> forall k :: 1 <= k < |lines| ==> DatedLine(lines[k], date);
      if DatedLine(lines[0], date) {
        assert BaselineNames(lines, date).Ok? <==> BaselineNames(tail, date).Ok?;
      } else {
        assert BaselineNames(lines, date).Err?;
      }
    }
  }

  /** An accepted listing gives the first field of every line with a date, in order. */
  lemma {:induction false} BaselineNamesValue(lines: seq<string>, date: string -> Option<int>)
    ensures BaselineNames(lines, date).Ok? ==> BaselineNames(lines, date).value == FirstFields(lines)
  {
    if lines != [] {
      BaselineNamesValue(lines[1..], date);
    }
  }

  /** A line without `|`, such as the empty line after the last newline, is skipped. */
  lemma NoBarLineSkipped(line: string, rest: seq<string>, date: string -> Option<int>)
    requires '|' !in line
    ensures BaselineNames([line] + rest, date) == BaselineNames(rest, date)
  {
    SplitFree(line, '|');
    assert ([line] + rest)[1..] == rest;
  }

  /** The loop of Project.baselines over the listing `raw`. */
  method Baselines(raw: string, date: string -> Option<int>) returns (r: Result<seq<string>, Error>)
    ensures r == BaselineNames(Split(raw, '\n'), date)
  {
    var lines := Split(raw, '\n');
    var names: seq<string> := [];
    var i := 0;
    AfterNothing(BaselineNames(lines, date));
    while i < |lines|
      invariant 0 <= i <= |lines|
      invariant BaselineNames(lines, date) == AfterNames(names, BaselineNames(lines[i..], date))
    {
      assert lines[i..][0] == lines[i] && lines[i..][1..] == lines[i + 1..];
      var x := Split(lines[i], '|');
      if |x| >= 2 {
        var t := date(Strip(x[1]));
        if t.None? {
          return Err(ValueError("time data does not match format '%c'"));
        }
        if t.value <= 0 {
          return Err(AssertionError);
        }
        AfterNamesAppend(names, x[0], BaselineNames(lines[i + 1..], date));
        names := names + [x[0]];
      }
      i := i + 1;
    }
    assert lines[i..] == [] && names + [] == names;
    return Ok(names);
  }

  function AfterNames(done: seq<string>, rest: Result<seq<string>, Error>): Result<seq<string>, Error> {
    match rest
    case Ok(v) => Ok(done + v)
    case Err(e) => Err(e)
  }

  lemma AfterNothing(r: Result<seq<string>, Error>)
    ensures AfterNames([], r) == r
  {
    if r.Ok? {
      assert [] + r.value == r.value;
    }
  }

  lemma AfterNamesAppend(done: seq<string>, x: string, rest: Result<seq<string>, Error>)
    ensures AfterNames(done, match rest case Ok(v) => Ok([x] + v) case Err(e) => Err(e))
         == AfterNames(done + [x], rest)
  {
    if rest.Ok? {
      assert done + ([x] + rest.value) == (done + [x]) + rest.value;
    }
  }

  // remove_all_tasks (ccm.py:211-220)

  /** `re.match(r'Task ([^:]+):', line).group(1)` */
  function TaskSpecOf(line: string): (r: Option<string>)
    ensures r.Some? ==> r.value != "" && ':' !in r.value && StartsWith(line, "Task " + r.value + ":")
  {
    if !StartsWith(line, "Task ") then None
    else
      var rest := line[5..];
      match FirstIndex(rest, ":")
      case None => None
      case Some(k) =>
        if k == 0 then None
        else
          assert ':' !in rest[..k] by {
            forall j | 0 <= j < k ensures rest[j] != ':' {
              assert !OccursAt(rest, ":", j);
            }
          }
          assert line[..5 + k + 1] == "Task " + rest[..k] + ":";
          Some(rest[..k])
  }

  /** A line `Task t: ...` names the task `t` when `t` is non-empty and colon-free. */
  lemma TaskSpecOfLine(t: string, rest: string)
    requires t != "" && ':' !in t
    ensures TaskSpecOf("Task " + t + ":" + rest) == Some(t)
  {
    var line := "Task " + t + ":" + rest;
    assert line[..5] == "Task ";
    assert line[5..] == t + ":" + rest;
    var s := t + ":" + rest;
    assert s[|t|..|t| + 1] == ":";
    assert OccursAt(s, ":", |t|);
    forall j | 0 <= j < |t| ensures !OccursAt(s, ":", j) {
      assert s[j] == t[j];
      assert s[j..j + 1] == [t[j]];
    }
    FirstIndexIs(s, ":", |t|);
    assert s[..|t|] == t;
  }

  /** The task specs `remove_all_tasks` collects from the lines of `-show tasks`, in order. */
  function TaskSpecs(lines: seq<string>): seq<string> {
    FilterMap(lines, TaskSpecOf)
  }

  lemma TaskSpecsMembers(lines: seq<string>, t: string)
    ensures t in TaskSpecs(lines) <==> exists k :: 0 <= k < |lines| && TaskSpecOf(lines[k]) == Some(t)
  {
    FilterMapMembers(lines, TaskSpecOf, t);
  }

  /** The append loop of remove_all_tasks. */
  method RemovableTasks(raw: string) returns (tasks: seq<string>)
    ensures tasks == TaskSpecs(Split(raw, '\n'))
  {
    var lines := Split(raw, '\n');
    tasks := [];
    for i := 0 to |lines|
      invariant tasks == FilterMap(lines[..i], TaskSpecOf)
    {
      assert lines[..i + 1][..i] == lines[..i];
      var m := TaskSpecOf(lines[i]);
      if m.Some? {
        tasks := tasks + [m.value];
      }
    }
    assert lines[..|lines|] == lines;
  }
}
