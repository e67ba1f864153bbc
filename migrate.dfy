/**
 * The migration driver: CM/Synergy baselines are replayed, task by task, as RTC change sets.
 * Every step is a function of the history of commands issued before it that gives the commands
 * it issues; what a command prints is given by an environment that may depend on that
 * history. Commands are taken to succeed
 * (their failure handling is modelled by `Ccm.Execute`, `Rtc.CliExecute` and `Retry`).
 */
module Migrate {
  import opened Wrappers
  import opened Text
  import opened Exec
  import Ccm
  import Rtc

  /** A command of the CCM command line, through CCM.execute. */
  datatype CcmCmd =
    | TaskStatus(task: string)
    | AddTask(task: string, spec: string)
    | Update(spec: string)
    | TaskField(task: string, field: string)
    | Resolver(task: string)
    | TaskObjects(task: string)
    | Cat(pred: string, dir: string)
    | ShowProjects(baseline: string)
    | Hierarchy(project: string)
    | Members(baselineProject: string)
    | ShowTasks(spec: string)
    | RemoveTasks(tasks: seq<string>, spec: string)
    | ModifyBaselineProject(baselineProject: string, spec: string)
    | Info(spec: string)
    | ListBaselines(release: string, purposes: seq<string>)

  /** A command of the RTC command line, through CLI.execute. */
  datatype ScmCmd =
    | Status
    | Checkin
    | Comment(csid: string, text: string)
    | Associate(csid: string, item: string)
    | Deliver
    | CreateSnapshot(name: string, workspace: string)
    | Promote(stream: string, ssid: string)

  /** A command issued by the driver. */
  datatype Cmd =
    | CcmRun(ccm: CcmCmd)                // CCM.execute
    | PredQuery(obj: string)             // CCM.execute_failok of `is_predecessor_of`
    | ScmRun(scm: ScmCmd)                // CLI.execute
    | CopyChanged(epoch: string, sandbox: string)   // `find ... -cnewer | cpio` through execute
    | Rsync(versions: string, workArea: string, sandbox: string) // `rsync` through execute
    | ChDir(dir: string)                 // log_chdir
    | NewWorkItem(project: string)       // WorkItem(rtc, project): a work item is created
    | FillWorkItem(info: TaskInfo)       // its fields set from the task's information (WorkItemFields)
    | FlushItem                          // its flush()

  /**
   * What the outside world answers. `out` is what a command prints. `failOk` is what
   * execute_failok returns, None for a failed command. `date` parses a `create_time`.
   * `order` is the order in which a set of tasks is iterated. `epoch` names the temporary
   * file made before a task is brought in.
   */
  datatype Env = Env(
    out: (seq<Cmd>, Cmd) -> string,
    failOk: (seq<Cmd>, Cmd) -> Option<string>,
    date: string -> Option<int>,
    order: set<string> -> seq<string>,
    epoch: string -> string)

  /** `order` iterates a set as Python's `for` does: every member exactly once, and nothing else. */
  ghost predicate Enumerates(env: Env) {
    forall s: set<string> :: multiset(env.order(s)) == multiset(s)
  }

  /** The `mt_config` settings the driver reads. */
  datatype Config = Config(
    sandbox: string, workArea: string, ccmVersions: string,
    rtcProject: string, workItem: string, workspace: string, stream: string,
    purposes: seq<string>, baselineInitial: string, release: string)

  /**
   * The commands a step issues after the history it is given, and how it ended: its value or
   * the exception it raised.
   */
  datatype Out<+T> = Out(cmds: seq<Cmd>, result: Result<T, Error>)

  /** `mt_config.rtc.task_pred_dir` */
  function TaskPredDir(cfg: Config): string {
    cfg.sandbox + "/" + cfg.ccmVersions
  }

  /** `'%s' % x` for a baseline project that may be None. */
  function ShowOpt(x: Option<string>): string {
    match x case Some(s) => s case None => "None"
  }

  // ---------------------------------------------------------------------------------------
  // Constants

  const Unresolved := "Unresolved:"
  const Excluded := "excluded"
  const DescriptionKey := "dc:description"
  const TitleKey := "dc:title"
  const CdetsKey := "rtc_cm:cdets"

  const StatusW := ScmRun(Status)
  const CheckinCmd := ScmRun(Checkin)
  const DeliverCmd := ScmRun(Deliver)

  // ---------------------------------------------------------------------------------------
  // The SCM commands of a trace, and trace extension

  /** The RTC command-line commands of `t`, in order. */
  function ScmCommands(t: seq<Cmd>): seq<Cmd> {
    if t == [] then [] else (if t[0].ScmRun? then [t[0]] else []) + ScmCommands(t[1..])
  }

  lemma {:induction false} ScmCommandsAppend(a: seq<Cmd>, b: seq<Cmd>)
    ensures ScmCommands(a + b) == ScmCommands(a) + ScmCommands(b)
  {
    if a == [] {
      assert a + b == b;
    } else {
      var h := if a[0].ScmRun? then [a[0]] else [];
      assert (a + b)[0] == a[0] && (a + b)[1..] == a[1..] + b;
      ScmCommandsAppend(a[1..], b);
      assert h + ScmCommands(a[1..]) + ScmCommands(b) == h + (ScmCommands(a[1..]) + ScmCommands(b));
    }
  }

  /** A trace of commands that are no RTC commands. */
  predicate NoScm(t: seq<Cmd>) {
    forall i :: 0 <= i < |t| ==> !t[i].ScmRun?
  }

  lemma {:induction false} NoScmCommands(t: seq<Cmd>)
    requires NoScm(t)
    ensures ScmCommands(t) == []
    decreases |t|
  {
    if t != [] {
      NoScmCommands(t[1..]);
    }
  }

  // ---------------------------------------------------------------------------------------
  // save_task_object_predecessors (ccm2rtc.py:157-172)

  /** What one execute_failok lookup adds: its lines, or nothing when it failed or printed nothing. */
  function PredLines(r: Option<string>): seq<string> {
    if r.Some? && r.value != "" then Ccm.Text2List(r.value) else []
  }

  /** The execute_failok lookups of the objects, in order. */
  function PredQueries(objects: seq<string>): (r: seq<Cmd>)
    ensures |r| == |objects| && NoScm(r)
  {
    seq(|objects|, i requires 0 <= i < |objects| => PredQuery(objects[i]))
  }

  /** What the `i`-th lookup adds, answered after the lookups before it. */
  function Lookup(env: Env, h: seq<Cmd>, objects: seq<string>, i: nat): seq<string>
    requires i < |objects|
  {
    PredLines(env.failOk(h + PredQueries(objects)[..i], PredQuery(objects[i])))
  }

  /** `allpreds` after the first `n` lookups: their lines, in order. */
  function CollectPreds(env: Env, h: seq<Cmd>, objects: seq<string>, n: nat): seq<string>
    requires n <= |objects|
  {
    if n == 0 then [] else CollectPreds(env, h, objects, n - 1) + Lookup(env, h, objects, n - 1)
  }

  /** The copies of the predecessors into the task's directory. */
  function Cats(preds: seq<string>, dir: string): (r: seq<Cmd>)
    ensures |r| == |preds| && NoScm(r)
  {
    seq(|preds|, i requires 0 <= i < |preds| => CcmRun(Cat(preds[i], dir)))
  }

  /** The commands save_task_object_predecessors issues after `h`: the object query, the lookups, the copies. */
  function PredecessorSaving(env: Env, cfg: Config, h: seq<Cmd>, task: string): (r: seq<Cmd>)
    ensures |r| >= 1 && r[0] == CcmRun(TaskObjects(task)) && NoScm(r)
  {
    var q := CcmRun(TaskObjects(task));
    var objects := Ccm.Text2List(env.out(h, q));
    [q] + PredQueries(objects) + Cats(CollectPreds(env, h + [q], objects, |objects|), TaskPredDir(cfg) + "/" + task)
  }

  /**
   * A predecessor is saved exactly when some lookup printed it; a failed lookup adds nothing
   * and does not stop the ones after it.
   */
  lemma {:induction false} CollectPredsMembers(env: Env, h: seq<Cmd>, objects: seq<string>, n: nat, p: string)
    requires n <= |objects|
    ensures p in CollectPreds(env, h, objects, n) <==> exists i :: 0 <= i < n && p in Lookup(env, h, objects, i)
  {
    if n > 0 {
      CollectPredsMembers(env, h, objects, n - 1, p);
    }
  }

  /** When every lookup fails, no predecessor is copied. */
  lemma {:induction false} AllLookupsFail(env: Env, h: seq<Cmd>, objects: seq<string>, n: nat)
    requires n <= |objects|
    requires forall i :: 0 <= i < n ==> env.failOk(h + PredQueries(objects)[..i], PredQuery(objects[i])).None?
    ensures CollectPreds(env, h, objects, n) == []
  {
    if n > 0 {
      AllLookupsFail(env, h, objects, n - 1);
      assert Lookup(env, h, objects, n - 1) == [];
    }
  }

  /**
   * The first loop of save_task_object_predecessors: one execute_failok lookup per object,
   * after `h`, and the lines of every lookup that printed something, in order.
   */
  method CollectPredecessors(env: Env, h: seq<Cmd>, objects: seq<string>) returns (allpreds: seq<string>, issued: seq<Cmd>)
    ensures allpreds == CollectPreds(env, h, objects, |objects|)
    ensures issued == PredQueries(objects)
  {
    ghost var queries := PredQueries(objects);
    issued := [];
    allpreds := [];
    for i := 0 to |objects|
      invariant issued == queries[..i]
      invariant allpreds == CollectPreds(env, h, objects, i)
    {
      var objpreds := env.failOk(h + issued, PredQuery(objects[i]));
      assert queries[..i + 1] == queries[..i] + [PredQuery(objects[i])];
      issued := issued + [PredQuery(objects[i])];
      if objpreds.Some? && objpreds.value != "" {
        var lines := Ccm.Text2List(objpreds.value);
        ghost var before := allpreds;
        for j := 0 to |lines|
          invariant allpreds == before + lines[..j]
        {
          assert lines[..j + 1] == lines[..j] + [lines[j]];
          allpreds := allpreds + [lines[j]];
        }
        assert lines[..|lines|] == lines;
      }
    }
    assert queries[..|objects|] == queries;
  }

  /** The second loop of save_task_object_predecessors: one `cat` of each predecessor into `dir`. */
  method CopyPredecessors(allpreds: seq<string>, dir: string) returns (issued: seq<Cmd>)
    ensures issued == Cats(allpreds, dir)
  {
    ghost var cats := Cats(allpreds, dir);
    issued := [];
    for k := 0 to |allpreds|
      invariant issued == cats[..k]
    {
      assert cats[..k + 1] == cats[..k] + [CcmRun(Cat(allpreds[k], dir))];
      issued := issued + [CcmRun(Cat(allpreds[k], dir))];
    }
    assert cats[..|allpreds|] == cats;
  }

  /** save_task_object_predecessors: the commands it issues after `h`. */
  method SavePredecessors(env: Env, cfg: Config, h: seq<Cmd>, task: string) returns (issued: seq<Cmd>)
    ensures issued == PredecessorSaving(env, cfg, h, task)
  {
    var q := CcmRun(TaskObjects(task));
    var objects := Ccm.Text2List(env.out(h, q));
    var allpreds, queries := CollectPredecessors(env, h + [q], objects);
    var copies := CopyPredecessors(allpreds, TaskPredDir(cfg) + "/" + task);
    issued := [q] + queries + copies;
  }

  // ---------------------------------------------------------------------------------------
  // migrate_task (ccm2rtc.py:71-125)

  /** The four `task_info` fields add_tasks reads. */
  datatype TaskInfo = TaskInfo(synopsis: string, description: string, resolver: string, crNumber: string)

  /**
   * `re.match(r'CSC[a-z]{2}\d{5}$', cr)`: "CSC", two lower-case ASCII letters and five digits,
   * then the end of the string or a final newline.
   */
  predicate IsCdets(cr: string) {
    && (|cr| == 10 || (|cr| == 11 && cr[10] == '\n'))
    && cr[..3] == "CSC" && IsLower(cr[3]) && IsLower(cr[4])
    && forall i :: 5 <= i < 10 ==> IsDigit(cr[i])
  }

  /** A stripped CR number is a CDETS id only when it is exactly ten characters long. */
  lemma StrippedCdets(cr: string)
    requires IsCdets(Strip(cr))
    ensures |Strip(cr)| == 10
  {
  }

  /** The work item's description: the resolver and description, prefixed by an invalid CR number. */
  function Description(info: TaskInfo): string {
    var desc := "[resolver: \"" + info.resolver + "\"]<p>" + info.description + "\n";
    if IsCdets(info.crNumber) then desc
    else "[migrated from CM/Synergy]<p>[cr_number (invalid CDETS): \"" + info.crNumber + "\"]<p>" + desc + "\n"
  }

  /**
   * The fields migrate_task hands to `getset` on the new work item, in order: the title, the
   * CDETS field when the CR number is valid, and the description; `getset` stores only a truthy
   * value, so an empty synopsis leaves the title as the factory made it.
   */
  function WorkItemFields(info: TaskInfo): seq<(string, string)> {
    [(TitleKey, info.synopsis)]
      + (if IsCdets(info.crNumber) then [(CdetsKey, info.crNumber)] else [])
      + [(DescriptionKey, Description(info))]
  }

  /**
   * A valid CDETS id is stored in its own field and the description is the resolver text; an
   * invalid one leaves the field alone and is quoted at the head of the description.
   */
  lemma CdetsDecides(info: TaskInfo)
    ensures var resolverText := "[resolver: \"" + info.resolver + "\"]<p>" + info.description + "\n";
      var fields := WorkItemFields(info);
      && (IsCdets(info.crNumber) ==>
        && fields == [(TitleKey, info.synopsis), (CdetsKey, info.crNumber), (DescriptionKey, resolverText)])
      && (!IsCdets(info.crNumber) ==>
        && (forall i :: 0 <= i < |fields| ==> fields[i].0 != CdetsKey)
        && fields[|fields| - 1] == (DescriptionKey, "[migrated from CM/Synergy]<p>[cr_number (invalid CDETS): \"" + info.crNumber + "\"]<p>" + resolverText + "\n"))
      && fields[0] == (TitleKey, info.synopsis)
  {
  }

  /** The working-directory changes and the copy of changed files with which migrate_task starts. */
  function Prelude(env: Env, cfg: Config, task: string): (r: seq<Cmd>)
    ensures NoScm(r) && NoWorkItem(r)
  {
    [ChDir(cfg.workArea), CopyChanged(env.epoch(task), cfg.sandbox), ChDir(cfg.sandbox)]
  }

  /** The commands of migrate_task before the checkin: prelude, status, predecessor saving. */
  function BeforeCheckin(env: Env, cfg: Config, h: seq<Cmd>, task: string): seq<Cmd> {
    var s := Prelude(env, cfg, task) + [StatusW];
    s + PredecessorSaving(env, cfg, h + s, task)
  }

  /** The checkin, the comment naming the task and the association with the umbrella work item. */
  function CheckinCommands(cfg: Config, task: string, csid: string): seq<Cmd> {
    [CheckinCmd, ScmRun(Comment(csid, task)), ScmRun(Associate(csid, cfg.workItem))]
  }

  /**
   * The commands migrate_task issues after `h`: nothing is checked in without "Unresolved:" in
   * `status -w`, and RTCError is raised when the checkin names no change set.
   */
  function TaskMigration(env: Env, cfg: Config, h: seq<Cmd>, task: string, info: TaskInfo): Out<()> {
    var pre := Prelude(env, cfg, task);
    if !Contains(env.out(h + pre, StatusW), Unresolved) then Out(pre + [StatusW], Ok(()))
    else
      var b := BeforeCheckin(env, cfg, h, task);
      var txt := env.out(h + b, CheckinCmd);
      match Rtc.ChangesetId(txt)
      case None => Out(b + [CheckinCmd], Err(RtcError("unable to find changeset id in: \n" + txt)))
      case Some(csid) =>
        var c := b + CheckinCommands(cfg, task, csid);
        var wid := env.out(h + c, NewWorkItem(cfg.rtcProject));
        Out(c + [NewWorkItem(cfg.rtcProject), FillWorkItem(info), FlushItem, ScmRun(Associate(csid, wid)), DeliverCmd], Ok(()))
  }

  /** migrate_task, with `save_task_object_predecessors` as a call. */
  method MigrateTask(env: Env, cfg: Config, h: seq<Cmd>, task: string, info: TaskInfo) returns (o: Out<()>)
    ensures o == TaskMigration(env, cfg, h, task, info)
  {
    var pre := Prelude(env, cfg, task);
    var status := env.out(h + pre, StatusW);
    var s := pre + [StatusW];
    if !Contains(status, Unresolved) {
      return Out(s, Ok(()));
    }
    var p := SavePredecessors(env, cfg, h + s, task);
    var b := s + p;
    var txt := env.out(h + b, CheckinCmd);
    var m := Rtc.ChangesetId(txt);
    if m.None? {
      return Out(b + [CheckinCmd], Err(RtcError("unable to find changeset id in: \n" + txt)));
    }
    var csid := m.value;
    var c := b + [CheckinCmd, ScmRun(Comment(csid, task)), ScmRun(Associate(csid, cfg.workItem))];
    var wid := env.out(h + c, NewWorkItem(cfg.rtcProject));
    o := Out(c + [NewWorkItem(cfg.rtcProject), FillWorkItem(info), FlushItem, ScmRun(Associate(csid, wid)), DeliverCmd], Ok(()));
  }

  /** Appending commands that are no RTC commands leaves the RTC commands as they were. */
  lemma ScmCommandsNoScm(a: seq<Cmd>, b: seq<Cmd>)
    requires NoScm(b)
    ensures ScmCommands(a + b) == ScmCommands(a)
  {
    ScmCommandsAppend(a, b);
    NoScmCommands(b);
  }

  predicate AllScm(t: seq<Cmd>) {
    forall i :: 0 <= i < |t| ==> t[i].ScmRun?
  }

  lemma {:induction false} OnlyScm(b: seq<Cmd>)
    requires AllScm(b)
    ensures ScmCommands(b) == b
  {
    if b != [] {
      OnlyScm(b[1..]);
    }
  }

  /** The RTC commands of a list of RTC commands are the list itself. */
  lemma ScmCommandsAllScm(a: seq<Cmd>, b: seq<Cmd>)
    requires AllScm(b)
    ensures ScmCommands(a + b) == ScmCommands(a) + b
  {
    ScmCommandsAppend(a, b);
    OnlyScm(b);
  }

  /** The RTC commands of a trace whose later blocks are all, or none, RTC commands. */
  lemma ScmOrder(b: seq<Cmd>, mid: seq<Cmd>, w: seq<Cmd>, tail: seq<Cmd>)
    requires AllScm(mid) && NoScm(w) && AllScm(tail)
    ensures ScmCommands(b + mid + w + tail) == ScmCommands(b) + mid + tail
  {
    ScmCommandsAllScm(b, mid);
    ScmCommandsNoScm(b + mid, w);
    ScmCommandsAllScm(b + mid + w, tail);
  }

  /** No work item is created or filled in `t`. */
  predicate NoWorkItem(t: seq<Cmd>) {
    forall i :: 0 <= i < |t| ==> !t[i].NewWorkItem? && !t[i].FillWorkItem?
  }

  /** Without "Unresolved:" in `status -w`, nothing is checked in, associated, created or delivered. */
  lemma NoChangesNoCheckin(env: Env, cfg: Config, h: seq<Cmd>, task: string, info: TaskInfo)
    requires !Contains(env.out(h + Prelude(env, cfg, task), StatusW), Unresolved)
    ensures var o := TaskMigration(env, cfg, h, task, info);
      && o == Out(Prelude(env, cfg, task) + [StatusW], Ok(()))
      && ScmCommands(o.cmds) == [StatusW]
      && NoWorkItem(o.cmds)
  {
    ScmCommandsAllScm(Prelude(env, cfg, task), [StatusW]);
    NoScmCommands(Prelude(env, cfg, task));
  }

  /** Before the checkin the only RTC command is the status. */
  lemma BeforeCheckinScm(env: Env, cfg: Config, h: seq<Cmd>, task: string)
    ensures ScmCommands(BeforeCheckin(env, cfg, h, task)) == [StatusW]
  {
    var pre := Prelude(env, cfg, task);
    var s := pre + [StatusW];
    ScmCommandsAllScm(pre, [StatusW]);
    NoScmCommands(pre);
    ScmCommandsNoScm(s, PredecessorSaving(env, cfg, h + s, task));
  }

  /** A checkin that names no change set raises RTCError right after it: nothing else is issued. */
  lemma MissingChangesetRaises(env: Env, cfg: Config, h: seq<Cmd>, task: string, info: TaskInfo)
    requires Contains(env.out(h + Prelude(env, cfg, task), StatusW), Unresolved)
    requires Rtc.ChangesetId(env.out(h + BeforeCheckin(env, cfg, h, task), CheckinCmd)).None?
    ensures var o := TaskMigration(env, cfg, h, task, info);
      && o.result.Err? && o.result.error.RtcError?
      && o.cmds == BeforeCheckin(env, cfg, h, task) + [CheckinCmd]
      && ScmCommands(o.cmds) == [StatusW, CheckinCmd]
  {
    BeforeCheckinScm(env, cfg, h, task);
    ScmCommandsAllScm(BeforeCheckin(env, cfg, h, task), [CheckinCmd]);
  }

  /**
   * With changes, migrate_task first saves the predecessors, and its RTC commands are, in order:
   * status, checkin, the comment naming the task, the association with the umbrella work item,
   * the association with the new work item, and the delivery; the new work item is created,
   * filled and flushed between the two associations.
   */
  lemma MigrateTaskOrder(env: Env, cfg: Config, h: seq<Cmd>, task: string, info: TaskInfo, csid: string)
    requires Contains(env.out(h + Prelude(env, cfg, task), StatusW), Unresolved)
    requires Rtc.ChangesetId(env.out(h + BeforeCheckin(env, cfg, h, task), CheckinCmd)) == Some(csid)
    ensures var o := TaskMigration(env, cfg, h, task, info);
      var b := BeforeCheckin(env, cfg, h, task);
      var wid := env.out(h + b + CheckinCommands(cfg, task, csid), NewWorkItem(cfg.rtcProject));
      && o.result.Ok?
      && o.cmds == b + [CheckinCmd, ScmRun(Comment(csid, task)), ScmRun(Associate(csid, cfg.workItem)),
        NewWorkItem(cfg.rtcProject), FillWorkItem(info), FlushItem, ScmRun(Associate(csid, wid)), DeliverCmd]
      && ScmCommands(o.cmds) == [StatusW, CheckinCmd, ScmRun(Comment(csid, task)),
        ScmRun(Associate(csid, cfg.workItem)), ScmRun(Associate(csid, wid)), DeliverCmd]
  {
    var b := BeforeCheckin(env, cfg, h, task);
    var mid := CheckinCommands(cfg, task, csid);
    assert h + b + mid == h + (b + mid);
    var wid := env.out(h + (b + mid), NewWorkItem(cfg.rtcProject));
    CheckinThenItem(b, cfg, task, info, csid, wid);
    BeforeCheckinScm(env, cfg, h, task);
    CheckinScmOrder(b, cfg, task, info, csid, wid);
  }

  /** The checkin commands, then the work item's creation, association and the delivery. */
  lemma CheckinThenItem(b: seq<Cmd>, cfg: Config, task: string, info: TaskInfo, csid: string, wid: string)
    ensures b + CheckinCommands(cfg, task, csid) + [NewWorkItem(cfg.rtcProject), FillWorkItem(info), FlushItem, ScmRun(Associate(csid, wid)), DeliverCmd]
      == b + [CheckinCmd, ScmRun(Comment(csid, task)), ScmRun(Associate(csid, cfg.workItem)),
        NewWorkItem(cfg.rtcProject), FillWorkItem(info), FlushItem, ScmRun(Associate(csid, wid)), DeliverCmd]
  {
  }

  /** After a history whose only RTC command is the status, the RTC commands of a migrated task. */
  lemma CheckinScmOrder(b: seq<Cmd>, cfg: Config, task: string, info: TaskInfo, csid: string, wid: string)
    requires ScmCommands(b) == [StatusW]
    ensures ScmCommands(b + [CheckinCmd, ScmRun(Comment(csid, task)), ScmRun(Associate(csid, cfg.workItem)),
        NewWorkItem(cfg.rtcProject), FillWorkItem(info), FlushItem, ScmRun(Associate(csid, wid)), DeliverCmd])
      == [StatusW, CheckinCmd, ScmRun(Comment(csid, task)), ScmRun(Associate(csid, cfg.workItem)), ScmRun(Associate(csid, wid)), DeliverCmd]
  {
    var mid := CheckinCommands(cfg, task, csid);
    var w := [NewWorkItem(cfg.rtcProject), FillWorkItem(info), FlushItem];
    var tail := [ScmRun(Associate(csid, wid)), DeliverCmd];
    ScmOrder(b, mid, w, tail);
    assert b + mid + w + tail == b + (mid + w + tail);
    assert mid + w + tail == [CheckinCmd, ScmRun(Comment(csid, task)), ScmRun(Associate(csid, cfg.workItem)),
      NewWorkItem(cfg.rtcProject), FillWorkItem(info), FlushItem, ScmRun(Associate(csid, wid)), DeliverCmd];
    assert [StatusW] + mid + tail == [StatusW, CheckinCmd, ScmRun(Comment(csid, task)),
      ScmRun(Associate(csid, cfg.workItem)), ScmRun(Associate(csid, wid)), DeliverCmd];
  }

  /** A checkin report `Change sets: (id)` makes `id` the change set commented and delivered. */
  lemma MigrateTaskUsesReportedChangeset(env: Env, cfg: Config, h: seq<Cmd>, task: string, info: TaskInfo, gap: string, id: string, rest: string)
    requires Contains(env.out(h + Prelude(env, cfg, task), StatusW), Unresolved)
    requires env.out(h + BeforeCheckin(env, cfg, h, task), CheckinCmd) == Rtc.ChangeSetsTag + gap + "(" + id + ")" + rest
    requires forall t :: 0 <= t < |gap| ==> Rtc.IsNonWord(gap[t])
    requires id != "" && IsWordChar(id[0]) && forall t :: 0 <= t < |id| ==> Rtc.IsIdChar(id[t])
    ensures var o := TaskMigration(env, cfg, h, task, info);
      o.result.Ok? && ScmRun(Comment(id, task)) in o.cmds && o.cmds[|o.cmds| - 1] == DeliverCmd
  {
    Rtc.ChangesetIdOf(gap, id, rest);
    var b := BeforeCheckin(env, cfg, h, task);
    var o := TaskMigration(env, cfg, h, task, info);
    assert o.cmds[|b| + 1] == ScmRun(Comment(id, task));
  }


  // ---------------------------------------------------------------------------------------
  // Loops of steps that each append commands (the loops of add_tasks and of main)

  /** The commands `d`, then those of `o`, ending as `o` ends. */
  function After<T>(d: seq<Cmd>, o: Out<T>): Out<T> {
    Out(d + o.cmds, o.result)
  }

  /**
   * The steps for `xs` in order, each given the history left by the ones before it, stopping
   * at the first exception.
   */
  function Steps<X>(step: (seq<Cmd>, X) -> Out<()>, h: seq<Cmd>, xs: seq<X>): Out<()>
    decreases |xs|
  {
    if xs == [] then Out([], Ok(()))
    else
      var o := step(h, xs[0]);
      if o.result.Err? then o else After(o.cmds, Steps(step, h + o.cmds, xs[1..]))
  }

  /**
   * Running the steps for `a + b` runs those for `a`, then, unless one of them raised, those
   * for `b` after their commands: the items are handled in order and an exception ends the loop.
   */
  lemma {:induction false} StepsAppend<X>(step: (seq<Cmd>, X) -> Out<()>, h: seq<Cmd>, a: seq<X>, b: seq<X>)
    ensures var ra := Steps(step, h, a);
      Steps(step, h, a + b) == if ra.result.Err? then ra else After(ra.cmds, Steps(step, h + ra.cmds, b))
    decreases |a|
  {
    if a == [] {
      assert a + b == b;
      assert h + [] == h;
    } else {
      assert (a + b)[0] == a[0];
      assert (a + b)[1..] == a[1..] + b;
      var o := step(h, a[0]);
      if o.result.Ok? {
        StepsAppend(step, h + o.cmds, a[1..], b);
        var r := Steps(step, h + o.cmds, a[1..]);
        if r.result.Ok? {
          assert h + o.cmds + r.cmds == h + (o.cmds + r.cmds);
          var rb := Steps(step, h + (o.cmds + r.cmds), b);
          assert o.cmds + (r.cmds + rb.cmds) == o.cmds + r.cmds + rb.cmds;
        }
      }
    }
  }

  /** The loop state before the first item: nothing done yet. */
  lemma StepsStart<X>(step: (seq<Cmd>, X) -> Out<()>, h: seq<Cmd>, xs: seq<X>)
    ensures Steps(step, h, xs) == After([], Steps(step, h + [], xs[0..]))
  {
    assert h + [] == h && xs[0..] == xs;
  }

  /** Issuing `a` and then `b` before a run is issuing `a + b` before it. */
  lemma AfterAfter<T>(a: seq<Cmd>, b: seq<Cmd>, r: Out<T>)
    ensures After(a, After(b, r)) == After(a + b, r)
  {
    assert a + (b + r.cmds) == a + b + r.cmds;
  }

  /**
   * One turn of a loop over `xs` that has issued `done` for the items before `i`: the item's
   * step either raises, which ends the loop, or its commands join `done`.
   */
  lemma StepsNext<X>(step: (seq<Cmd>, X) -> Out<()>, h: seq<Cmd>, xs: seq<X>, i: nat, done: seq<Cmd>, o: Out<()>)
    requires i < |xs|
    requires o == step(h + done, xs[i])
    ensures o.result.Err? ==> After(done, Steps(step, h + done, xs[i..])) == After(done, o)
    ensures o.result.Ok? ==>
      After(done, Steps(step, h + done, xs[i..])) == After(done + o.cmds, Steps(step, h + (done + o.cmds), xs[i + 1..]))
  {
    var ys := xs[i..];
    assert ys[0] == xs[i] && ys[1..] == xs[i + 1..];
    StepsFirst(step, h + done, ys, o);
    if o.result.Ok? {
      assert h + done + o.cmds == h + (done + o.cmds);
      AfterAfter(done, o.cmds, Steps(step, h + (done + o.cmds), xs[i + 1..]));
    }
  }

  /** The first step of a run, and what follows it. */
  lemma StepsFirst<X>(step: (seq<Cmd>, X) -> Out<()>, g: seq<Cmd>, ys: seq<X>, o: Out<()>)
    requires ys != [] && o == step(g, ys[0])
    ensures Steps(step, g, ys) == if o.result.Err? then o else After(o.cmds, Steps(step, g + o.cmds, ys[1..]))
  {
  }

  /** The loop state after the last item: every step succeeded and `done` is all that was issued. */
  lemma StepsEnd<X>(step: (seq<Cmd>, X) -> Out<()>, h: seq<Cmd>, xs: seq<X>, done: seq<Cmd>, rest: seq<X>)
    requires rest == []
    requires Steps(step, h, xs) == After(done, Steps(step, h + done, rest))
    ensures Steps(step, h, xs) == Out(done, Ok(()))
  {
    assert done + [] == done;
  }

  /** A step that raises ends the loop: nothing of the later items is issued. */
  lemma StepsStopAtError<X>(step: (seq<Cmd>, X) -> Out<()>, h: seq<Cmd>, a: seq<X>, x: X, b: seq<X>)
    requires Steps(step, h, a).result.Ok?
    requires step(h + Steps(step, h, a).cmds, x).result.Err?
    ensures var ra := Steps(step, h, a);
      Steps(step, h, a + [x] + b) == After(ra.cmds, step(h + ra.cmds, x))
  {
    var ra := Steps(step, h, a);
    StepsAppend(step, h, a, [x] + b);
    assert a + [x] + b == a + ([x] + b);
    assert ([x] + b)[0] == x;
  }

  // ---------------------------------------------------------------------------------------
  // add_tasks (ccm2rtc.py:37-69)

  /** The four `task -show` queries that fill `task_info`, each answered after the ones before. */
  function InfoQueries(task: string): seq<Cmd> {
    [CcmRun(TaskField(task, "task_synopsis")), CcmRun(TaskField(task, "task_description")), CcmRun(Resolver(task)), CcmRun(TaskField(task, "cr_number"))]
  }

  /** `task_info`: the synopsis, resolver and CR number stripped, the description as printed. */
  function TaskInfoOf(env: Env, h: seq<Cmd>, task: string): TaskInfo {
    var q := InfoQueries(task);
    TaskInfo(
      Strip(env.out(h, q[0])),
      env.out(h + q[..1], q[1]),
      Strip(env.out(h + q[..2], q[2])),
      Strip(env.out(h + q[..3], q[3])))
  }

  /** The status query, the addition of the task to the project, and the update. */
  function TaskLead(spec: string, task: string): seq<Cmd> {
    [CcmRun(TaskStatus(task)), CcmRun(AddTask(task, spec)), CcmRun(Update(spec))]
  }

  /** One iteration of add_tasks: skip an excluded task, or bring it in, update and migrate it. */
  function TaskAddition(env: Env, cfg: Config, h: seq<Cmd>, spec: string, task: string): Out<()> {
    if Contains(env.out(h, CcmRun(TaskStatus(task))), Excluded) then Out([CcmRun(TaskStatus(task))], Ok(()))
    else
      var lead := TaskLead(spec, task);
      var m := TaskMigration(env, cfg, h + (lead + InfoQueries(task)), task, TaskInfoOf(env, h + lead, task));
      Out(lead + InfoQueries(task) + m.cmds, m.result)
  }

  /** The body of the loop of add_tasks. */
  method HandleTask(env: Env, cfg: Config, h: seq<Cmd>, spec: string, task: string) returns (o: Out<()>)
    ensures o == TaskAddition(env, cfg, h, spec, task)
  {
    var status := env.out(h, CcmRun(TaskStatus(task)));
    if Contains(status, Excluded) {
      return Out([CcmRun(TaskStatus(task))], Ok(()));
    }
    var lead := [CcmRun(TaskStatus(task)), CcmRun(AddTask(task, spec)), CcmRun(Update(spec))];
    var info := TaskInfoOf(env, h + lead, task);
    var m := MigrateTask(env, cfg, h + (lead + InfoQueries(task)), task, info);
    o := Out(lead + InfoQueries(task) + m.cmds, m.result);
  }

  function TaskStep(env: Env, cfg: Config, spec: string): (seq<Cmd>, string) -> Out<()> {
    (h: seq<Cmd>, task: string) => TaskAddition(env, cfg, h, spec, task)
  }

  /** add_tasks: with no task, only the change to the sandbox migrate_task would have made. */
  function TaskReplay(env: Env, cfg: Config, h: seq<Cmd>, spec: string, tasks: seq<string>): Out<()> {
    if tasks == [] then Out([ChDir(cfg.sandbox)], Ok(())) else Steps(TaskStep(env, cfg, spec), h, tasks)
  }

  /** The loop of add_tasks. */
  method AddTasks(env: Env, cfg: Config, h: seq<Cmd>, spec: string, tasks: seq<string>) returns (o: Out<()>)
    ensures o == TaskReplay(env, cfg, h, spec, tasks)
  {
    if tasks == [] {
      return Out([ChDir(cfg.sandbox)], Ok(()));
    }
    ghost var f := TaskStep(env, cfg, spec);
    var done: seq<Cmd> := [];
    StepsStart(f, h, tasks);
    for i := 0 to |tasks|
      invariant Steps(f, h, tasks) == After(done, Steps(f, h + done, tasks[i..]))
    {
      var step := HandleTask(env, cfg, h + done, spec, tasks[i]);
      StepsNext(f, h, tasks, i, done, step);
      if step.result.Err? {
        return After(done, step);
      }
      done := done + step.cmds;
    }
    StepsEnd(f, h, tasks, done, tasks[|tasks|..]);
    o := Out(done, Ok(()));
  }

  /** The status queries of `tasks`, one after the other. */
  function StatusQueries(tasks: seq<string>): (r: seq<Cmd>)
    ensures |r| == |tasks|
  {
    seq(|tasks|, i requires 0 <= i < |tasks| => CcmRun(TaskStatus(tasks[i])))
  }

  /** An excluded task gets its status query and nothing else. */
  lemma ExcludedTaskSkipped(env: Env, cfg: Config, h: seq<Cmd>, spec: string, task: string)
    requires Contains(env.out(h, CcmRun(TaskStatus(task))), Excluded)
    ensures TaskAddition(env, cfg, h, spec, task) == Out([CcmRun(TaskStatus(task))], Ok(()))
  {
  }

  /** When every task is excluded, add_tasks only queries each task's status, in order. */
  lemma {:induction false} AllExcludedOnlyQueried(env: Env, cfg: Config, h: seq<Cmd>, spec: string, tasks: seq<string>)
    requires forall k :: 0 <= k < |tasks| ==>
      Contains(env.out(h + StatusQueries(tasks)[..k], CcmRun(TaskStatus(tasks[k]))), Excluded)
    ensures Steps(TaskStep(env, cfg, spec), h, tasks) == Out(StatusQueries(tasks), Ok(()))
    decreases |tasks|
  {
    if tasks != [] {
      var st := CcmRun(TaskStatus(tasks[0]));
      assert StatusQueries(tasks)[..0] == [];
      assert h + [] == h;
      assert TaskStep(env, cfg, spec)(h, tasks[0]) == Out([st], Ok(()));
      var rest := tasks[1..];
      forall k | 0 <= k < |rest|
        ensures Contains(env.out(h + [st] + StatusQueries(rest)[..k], CcmRun(TaskStatus(rest[k]))), Excluded)
      {
        assert StatusQueries(tasks)[..k + 1] == [st] + StatusQueries(rest)[..k];
        assert h + [st] + StatusQueries(rest)[..k] == h + StatusQueries(tasks)[..k + 1];
      }
      AllExcludedOnlyQueried(env, cfg, h + [st], spec, rest);
      assert StatusQueries(tasks) == [st] + StatusQueries(rest);
    }
  }

  /** The tasks whose status `t` queries, in order. */
  function StatusTasks(t: seq<Cmd>): seq<string> {
    if t == [] then [] else (if t[0].CcmRun? && t[0].ccm.TaskStatus? then [t[0].ccm.task] else []) + StatusTasks(t[1..])
  }

  lemma {:induction false} StatusTasksAppend(a: seq<Cmd>, b: seq<Cmd>)
    ensures StatusTasks(a + b) == StatusTasks(a) + StatusTasks(b)
  {
    if a == [] {
      assert a + b == b;
    } else {
      var h := if a[0].CcmRun? && a[0].ccm.TaskStatus? then [a[0].ccm.task] else [];
      assert (a + b)[0] == a[0] && (a + b)[1..] == a[1..] + b;
      StatusTasksAppend(a[1..], b);
      assert h + StatusTasks(a[1..]) + StatusTasks(b) == h + (StatusTasks(a[1..]) + StatusTasks(b));
    }
  }

  /** `t` queries no task's status. */
  predicate NoStatusQuery(t: seq<Cmd>) {
    forall i :: 0 <= i < |t| ==> !(t[i].CcmRun? && t[i].ccm.TaskStatus?)
  }

  lemma {:induction false} NoStatusTasks(t: seq<Cmd>)
    requires NoStatusQuery(t)
    ensures StatusTasks(t) == []
    decreases |t|
  {
    if t != [] {
      NoStatusTasks(t[1..]);
    }
  }

  /** save_task_object_predecessors queries no task's status. */
  lemma SavingQueriesNoStatus(env: Env, cfg: Config, h: seq<Cmd>, task: string)
    ensures StatusTasks(PredecessorSaving(env, cfg, h, task)) == []
  {
    var p := PredecessorSaving(env, cfg, h, task);
    var q := CcmRun(TaskObjects(task));
    var objects := Ccm.Text2List(env.out(h, q));
    var qs := PredQueries(objects);
    var cs := Cats(CollectPreds(env, h + [q], objects, |objects|), TaskPredDir(cfg) + "/" + task);
    assert p == [q] + qs + cs;
    forall i | 0 <= i < |p| ensures !(p[i].CcmRun? && p[i].ccm.TaskStatus?) {
      if 0 < i < 1 + |qs| {
        assert p[i] == qs[i - 1];
      } else if i > 0 {
        assert p[i] == cs[i - 1 - |qs|];
      }
    }
    NoStatusTasks(p);
  }

  /** The commands of migrate_task before its checkin query no task's status. */
  lemma BeforeCheckinNoStatus(env: Env, cfg: Config, h: seq<Cmd>, task: string)
    ensures StatusTasks(BeforeCheckin(env, cfg, h, task)) == []
  {
    var s := Prelude(env, cfg, task) + [StatusW];
    NoStatusTasks(s);
    SavingQueriesNoStatus(env, cfg, h + s, task);
    StatusTasksAppend(s, PredecessorSaving(env, cfg, h + s, task));
  }

  /** A migrate_task whose checkin names no change set queries no task's status. */
  lemma MissingChangesetNoStatus(env: Env, cfg: Config, h: seq<Cmd>, task: string, info: TaskInfo)
    requires Contains(env.out(h + Prelude(env, cfg, task), StatusW), Unresolved)
    requires Rtc.ChangesetId(env.out(h + BeforeCheckin(env, cfg, h, task), CheckinCmd)).None?
    ensures StatusTasks(TaskMigration(env, cfg, h, task, info).cmds) == []
  {
    var b := BeforeCheckin(env, cfg, h, task);
    assert TaskMigration(env, cfg, h, task, info).cmds == b + [CheckinCmd];
    BeforeCheckinNoStatus(env, cfg, h, task);
    NoStatusTasks([CheckinCmd]);
    StatusTasksAppend(b, [CheckinCmd]);
  }

  /** A migrate_task that checks in change set `csid` queries no task's status. */
  lemma CheckedInNoStatus(env: Env, cfg: Config, h: seq<Cmd>, task: string, info: TaskInfo, csid: string)
    requires Contains(env.out(h + Prelude(env, cfg, task), StatusW), Unresolved)
    requires Rtc.ChangesetId(env.out(h + BeforeCheckin(env, cfg, h, task), CheckinCmd)) == Some(csid)
    ensures StatusTasks(TaskMigration(env, cfg, h, task, info).cmds) == []
  {
    var b := BeforeCheckin(env, cfg, h, task);
    var c := b + CheckinCommands(cfg, task, csid);
    var wid := env.out(h + c, NewWorkItem(cfg.rtcProject));
    CheckedInCommands(env, cfg, h, task, info, csid);
    BeforeCheckinNoStatus(env, cfg, h, task);
    CheckinTailNoStatus(b, cfg, task, info, csid, wid);
  }

  /** The checkin and work item commands query no task's status. */
  lemma CheckinTailNoStatus(b: seq<Cmd>, cfg: Config, task: string, info: TaskInfo, csid: string, wid: string)
    requires StatusTasks(b) == []
    ensures StatusTasks(b + CheckinCommands(cfg, task, csid) + WorkItemCommands(cfg, info, csid, wid)) == []
  {
    var c := b + CheckinCommands(cfg, task, csid);
    NoStatusTasks(CheckinCommands(cfg, task, csid));
    StatusTasksAppend(b, CheckinCommands(cfg, task, csid));
    NoStatusTasks(WorkItemCommands(cfg, info, csid, wid));
    StatusTasksAppend(c, WorkItemCommands(cfg, info, csid, wid));
  }

  /** The work item commands that follow the checkin of change set `csid`. */
  function WorkItemCommands(cfg: Config, info: TaskInfo, csid: string, wid: string): seq<Cmd> {
    [NewWorkItem(cfg.rtcProject), FillWorkItem(info), FlushItem, ScmRun(Associate(csid, wid)), DeliverCmd]
  }

  /** A migrate_task that checks in `csid`: the checkin commands, then the work item commands. */
  lemma CheckedInCommands(env: Env, cfg: Config, h: seq<Cmd>, task: string, info: TaskInfo, csid: string)
    requires Contains(env.out(h + Prelude(env, cfg, task), StatusW), Unresolved)
    requires Rtc.ChangesetId(env.out(h + BeforeCheckin(env, cfg, h, task), CheckinCmd)) == Some(csid)
    ensures var c := BeforeCheckin(env, cfg, h, task) + CheckinCommands(cfg, task, csid);
      TaskMigration(env, cfg, h, task, info).cmds == c + WorkItemCommands(cfg, info, csid, env.out(h + c, NewWorkItem(cfg.rtcProject)))
  {
  }

  /** migrate_task queries no task's status. */
  lemma MigrationQueriesNoStatus(env: Env, cfg: Config, h: seq<Cmd>, task: string, info: TaskInfo)
    ensures StatusTasks(TaskMigration(env, cfg, h, task, info).cmds) == []
  {
    var pre := Prelude(env, cfg, task);
    if !Contains(env.out(h + pre, StatusW), Unresolved) {
      assert TaskMigration(env, cfg, h, task, info).cmds == pre + [StatusW];
      NoStatusTasks(pre + [StatusW]);
    } else {
      match Rtc.ChangesetId(env.out(h + BeforeCheckin(env, cfg, h, task), CheckinCmd))
      case None => MissingChangesetNoStatus(env, cfg, h, task, info);
      case Some(csid) => CheckedInNoStatus(env, cfg, h, task, info, csid);
    }
  }

  /** The status query, addition, update and info queries of a task, then commands that query no status. */
  lemma LeadQueriesTask(spec: string, task: string, rest: seq<Cmd>)
    requires StatusTasks(rest) == []
    ensures StatusTasks(TaskLead(spec, task) + InfoQueries(task) + rest) == [task]
  {
    var st := CcmRun(TaskStatus(task));
    var between := TaskLead(spec, task)[1..] + InfoQueries(task);
    NoStatusTasks(between);
    StatusTasksAppend(between, rest);
    var others := between + rest;
    assert TaskLead(spec, task) + InfoQueries(task) + rest == [st] + others;
    assert ([st] + others)[1..] == others;
  }

  /** One turn of add_tasks queries the status of its task, and of no other. */
  lemma AdditionQueriesItsTask(env: Env, cfg: Config, h: seq<Cmd>, spec: string, task: string)
    ensures StatusTasks(TaskAddition(env, cfg, h, spec, task).cmds) == [task]
  {
    var st := CcmRun(TaskStatus(task));
    if Contains(env.out(h, st), Excluded) {
      assert [st][1..] == [];
    } else {
      var lead := TaskLead(spec, task);
      var g := h + (lead + InfoQueries(task));
      var info := TaskInfoOf(env, h + lead, task);
      MigrationQueriesNoStatus(env, cfg, g, task, info);
      LeadQueriesTask(spec, task, TaskMigration(env, cfg, g, task, info).cmds);
    }
  }

  /** A run of add_tasks that raises nothing queries the status of each task once, in order. */
  lemma {:induction false} ReplayQueriesEachTask(env: Env, cfg: Config, h: seq<Cmd>, spec: string, tasks: seq<string>)
    requires Steps(TaskStep(env, cfg, spec), h, tasks).result.Ok?
    ensures StatusTasks(Steps(TaskStep(env, cfg, spec), h, tasks).cmds) == tasks
    decreases |tasks|
  {
    if tasks != [] {
      var o := TaskStep(env, cfg, spec)(h, tasks[0]);
      AdditionQueriesItsTask(env, cfg, h, spec, tasks[0]);
      var rest := Steps(TaskStep(env, cfg, spec), h + o.cmds, tasks[1..]);
      ReplayQueriesEachTask(env, cfg, h + o.cmds, spec, tasks[1..]);
      StatusTasksAppend(o.cmds, rest.cmds);
      assert tasks == [tasks[0]] + tasks[1..];
    }
  }

  // ---------------------------------------------------------------------------------------
  // align_sandbox (ccm2rtc.py:127-155)

  /** The rsync of the work area onto the sandbox and the change into it. */
  function Mirror(cfg: Config): (r: seq<Cmd>)
    ensures NoScm(r) && NoWorkItem(r)
  {
    [Rsync(cfg.ccmVersions, cfg.workArea, cfg.sandbox), ChDir(cfg.sandbox)]
  }

  /**
   * The commands of align_sandbox, given whether `status -w` reported changes and the change set
   * id the checkin reported.
   */
  function RealignCommands(cfg: Config, baseline: string, changed: bool, id: Option<string>): seq<Cmd> {
    Mirror(cfg) +
      if !changed then [StatusW]
      else
        match id
        case None => [StatusW, CheckinCmd]
        case Some(csid) =>
          [StatusW, CheckinCmd, ScmRun(Comment(csid, "baseline realignment: " + baseline)), ScmRun(Associate(csid, cfg.workItem)), DeliverCmd]
  }

  /** The commands align_sandbox issues after `h`; a missing change set id is only logged. */
  function SandboxAlignment(env: Env, cfg: Config, h: seq<Cmd>, baseline: string): seq<Cmd> {
    var changed := Contains(env.out(h + Mirror(cfg), StatusW), Unresolved);
    var id := if changed then Rtc.ChangesetId(env.out(h + Mirror(cfg) + [StatusW], CheckinCmd)) else None;
    RealignCommands(cfg, baseline, changed, id)
  }

  method AlignSandbox(env: Env, cfg: Config, h: seq<Cmd>, baseline: string) returns (issued: seq<Cmd>)
    ensures issued == SandboxAlignment(env, cfg, h, baseline)
  {
    var m := [Rsync(cfg.ccmVersions, cfg.workArea, cfg.sandbox), ChDir(cfg.sandbox)];
    var status := env.out(h + m, StatusW);
    if !Contains(status, Unresolved) {
      return m + [StatusW];
    }
    var txt := env.out(h + m + [StatusW], CheckinCmd);
    var id := Rtc.ChangesetId(txt);
    if id.None? {
      return m + [StatusW, CheckinCmd];
    }
    issued := m + [StatusW, CheckinCmd, ScmRun(Comment(id.value, "baseline realignment: " + baseline)), ScmRun(Associate(id.value, cfg.workItem)), DeliverCmd];
  }

  /** No work item is created or filled in `a + b` when none is in `a` or `b`. */
  lemma NoWorkItemAppend(a: seq<Cmd>, b: seq<Cmd>)
    requires NoWorkItem(a) && NoWorkItem(b)
    ensures NoWorkItem(a + b)
  {
    forall i | 0 <= i < |a + b| ensures !(a + b)[i].NewWorkItem? && !(a + b)[i].FillWorkItem? {
      if i >= |a| { assert (a + b)[i] == b[i - |a|]; }
    }
  }

  /**
   * align_sandbox never creates a work item, and every change set it associates goes to the
   * umbrella work item, whatever the status and the checkin report.
   */
  lemma AlignSandboxNoWorkItem(cfg: Config, baseline: string, changed: bool, id: Option<string>)
    ensures var t := RealignCommands(cfg, baseline, changed, id);
      && NoWorkItem(t)
      && forall i :: 0 <= i < |t| && t[i].ScmRun? && t[i].scm.Associate? ==> t[i].scm.item == cfg.workItem
  {
    var t := RealignCommands(cfg, baseline, changed, id);
    var m := Mirror(cfg);
    var tail := t[2..];
    assert t == m + tail;
    NoWorkItemAppend(m, tail);
  }

  /**
   * With changes and a change set id, align_sandbox checks in, comments the change set as a
   * realignment to `baseline`, associates it and delivers; these are its only RTC commands
   * after the status.
   */
  lemma AlignSandboxRealigns(cfg: Config, baseline: string, csid: string)
    ensures ScmCommands(RealignCommands(cfg, baseline, true, Some(csid))) ==
      [StatusW, CheckinCmd, ScmRun(Comment(csid, "baseline realignment: " + baseline)), ScmRun(Associate(csid, cfg.workItem)), DeliverCmd]
  {
    var tail := [StatusW, CheckinCmd, ScmRun(Comment(csid, "baseline realignment: " + baseline)), ScmRun(Associate(csid, cfg.workItem)), DeliverCmd];
    ScmCommandsAllScm(Mirror(cfg), tail);
    NoScmCommands(Mirror(cfg));
  }

  /**
   * Without changes nothing but the status is asked of RTC; without a change set id the
   * checkin is the last command: nothing is commented, associated or delivered.
   */
  lemma AlignSandboxStops(cfg: Config, baseline: string, changed: bool, id: Option<string>)
    requires !changed || id.None?
    ensures var t := RealignCommands(cfg, baseline, changed, id);
      ScmCommands(t) == (if changed then [StatusW, CheckinCmd] else [StatusW])
  {
    var tail := if changed then [StatusW, CheckinCmd] else [StatusW];
    ScmCommandsAllScm(Mirror(cfg), tail);
    NoScmCommands(Mirror(cfg));
  }

  // ---------------------------------------------------------------------------------------
  // create_snapshot (rtc.py:71-83)

  /** Create the snapshot; deliver and promote only when the report names it, else RTCError. */
  function SnapshotCreation(env: Env, h: seq<Cmd>, name: string, workspace: string, stream: string): (o: Out<()>)
    ensures |o.cmds| >= 1 && o.cmds[0] == ScmRun(CreateSnapshot(name, workspace))
  {
    var c := ScmRun(CreateSnapshot(name, workspace));
    match Rtc.SnapshotId(env.out(h, c))
    case None => Out([c], Err(RtcError("unable to create snapshot \"" + name + "\" in workspace \"" + workspace + "\"")))
    case Some(ssid) => Out([c, DeliverCmd, ScmRun(Promote(stream, ssid))], Ok(()))
  }

  /** A report `Snapshot (id) ... successfully created` gets delivered and `id` promoted. */
  lemma SnapshotPromotesReported(env: Env, h: seq<Cmd>, name: string, workspace: string, stream: string, id: string, middle: string)
    requires id != "" && forall t :: 0 <= t < |id| ==> Rtc.IsIdChar(id[t])
    requires env.out(h, ScmRun(CreateSnapshot(name, workspace))) == Rtc.SnapshotTag + id + ") " + middle + Rtc.CreatedTag
    ensures SnapshotCreation(env, h, name, workspace, stream) == Out([ScmRun(CreateSnapshot(name, workspace)), DeliverCmd, ScmRun(Promote(stream, id))], Ok(()))
  {
    Rtc.SnapshotIdOf(id, middle);
  }

  /** Without a snapshot report nothing is delivered or promoted, and RTCError is raised. */
  lemma SnapshotMissingRaises(env: Env, h: seq<Cmd>, name: string, workspace: string, stream: string)
    requires forall i: nat, k: nat :: !Rtc.SnapshotMatch(env.out(h, ScmRun(CreateSnapshot(name, workspace))), i, k)
    ensures var o := SnapshotCreation(env, h, name, workspace, stream);
      o.cmds == [ScmRun(CreateSnapshot(name, workspace))] && o.result.Err? && o.result.error.RtcError?
  {
    Rtc.SnapshotIdNone(env.out(h, ScmRun(CreateSnapshot(name, workspace))));
  }

  // ---------------------------------------------------------------------------------------
  // The CCM commands of the baseline loop (ccm.py:68-90, 141-156, 187-220)

  function HierQueries(projs: seq<string>): (r: seq<Cmd>)
    ensures |r| == |projs| && NoScm(r)
  {
    seq(|projs|, i requires 0 <= i < |projs| => CcmRun(Hierarchy(projs[i])))
  }

  /** Hierarchy sizes, each answered after the `baseline -show projects` command. */
  function HierCount(env: Env, h: seq<Cmd>): string -> nat {
    p => |Ccm.StrippedLines(env.out(h, CcmRun(Hierarchy(p))))|
  }

  /** The listing of the baseline's projects, then the hierarchy queries of the first `queried`. */
  function LookupCommands(bl: string, projs: seq<string>, queried: nat): seq<Cmd>
    requires queried <= |projs|
  {
    [CcmRun(ShowProjects(bl))] + HierQueries(projs[..queried])
  }

  /** baseline_project: the project found, and the commands it issues. */
  function BaselineProjectLookup(env: Env, h: seq<Cmd>, bl: string): (Option<string>, seq<Cmd>) {
    var q := CcmRun(ShowProjects(bl));
    var projs := Ccm.StrippedLines(env.out(h, q));
    var sel := Ccm.SelectBaselineProject(projs, HierCount(env, h + [q]));
    (sel.project, LookupCommands(bl, projs, sel.queried))
  }

  /**
   * The lookup lists the baseline's projects once and then queries the hierarchies of the
   * listed projects in order, ending with the one selected; it issues no RTC command.
   */
  lemma LookupQueriesInOrder(bl: string, projs: seq<string>, sel: Ccm.Selection)
    requires sel.queried <= |projs|
    requires sel.project.Some? ==> 1 <= sel.queried && sel.project.value == projs[sel.queried - 1]
    ensures var t := LookupCommands(bl, projs, sel.queried);
      && t[0] == CcmRun(ShowProjects(bl))
      && |t| == sel.queried + 1
      && (forall i :: 1 <= i < |t| ==> t[i] == CcmRun(Hierarchy(projs[i - 1])))
      && (sel.project.Some? ==> t[|t| - 1] == CcmRun(Hierarchy(sel.project.value)))
      && NoScm(t)
  {
    var t := LookupCommands(bl, projs, sel.queried);
    var hq := HierQueries(projs[..sel.queried]);
    forall i | 1 <= i < |t| ensures t[i] == CcmRun(Hierarchy(projs[i - 1])) {
      assert t[i] == hq[i - 1];
    }
    forall i | 0 <= i < |t| ensures !t[i].ScmRun? {
      if i >= 1 { assert t[i] == hq[i - 1]; }
    }
  }

  /** baseline_compare: the membership of both baseline projects, then the two set differences. */
  function TasksComparison(env: Env, h: seq<Cmd>, bl1: string, bl2: string): ((set<string>, set<string>), seq<Cmd>) {
    var p1 := BaselineProjectLookup(env, h, bl1);
    var p2 := BaselineProjectLookup(env, h + p1.1, bl2);
    var c := p1.1 + p2.1;
    var q1 := CcmRun(Members(ShowOpt(p1.0)));
    var q2 := CcmRun(Members(ShowOpt(p2.0)));
    (Ccm.BaselineCompare(env.out(h + c, q1), env.out(h + c + [q1], q2)), c + [q1, q2])
  }

  /** remove_tasks: no command for an empty list, else one removal of all of them and an update. */
  function TaskRemoval(spec: string, tasks: seq<string>): seq<Cmd> {
    if tasks == [] then [] else [CcmRun(RemoveTasks(tasks, spec)), CcmRun(Update(spec))]
  }

  /**
   * baseline_align up to the re-reading of the fields: the lookup, the task listing, the removal
   * of `tasks`, the move to the baseline project found, and the update.
   */
  function AlignmentCommands(lookup: seq<Cmd>, found: Option<string>, spec: string, tasks: seq<string>): seq<Cmd> {
    lookup + [CcmRun(ShowTasks(spec))] + TaskRemoval(spec, tasks) + [CcmRun(ModifyBaselineProject(ShowOpt(found), spec)), CcmRun(Update(spec))]
  }

  /**
   * baseline_align: find the baseline project, remove every task of the working project, point
   * it at the baseline project, update, and re-read its fields.
   */
  function BaselineAlignment(env: Env, h: seq<Cmd>, spec: string, bl: string): Out<Ccm.ProjectFields> {
    var p := BaselineProjectLookup(env, h, bl);
    var tasks := Ccm.TaskSpecs(Split(env.out(h + p.1, CcmRun(ShowTasks(spec))), '\n'));
    var c := AlignmentCommands(p.1, p.0, spec, tasks);
    Out(c + [CcmRun(Info(spec))], Ccm.ParseProjectInfo(env.out(h + c, CcmRun(Info(spec)))))
  }

  /**
   * With tasks in the working project, one removal names all of them and is followed by an
   * update before the project is moved to the baseline project found ("None" when none was).
   */
  lemma AlignmentRemovesTasks(lookup: seq<Cmd>, found: Option<string>, spec: string, tasks: seq<string>)
    requires tasks != []
    ensures AlignmentCommands(lookup, found, spec, tasks) == lookup + [CcmRun(ShowTasks(spec)), CcmRun(RemoveTasks(tasks, spec)),
      CcmRun(Update(spec)), CcmRun(ModifyBaselineProject(ShowOpt(found), spec)), CcmRun(Update(spec))]
  {
  }

  /** Without tasks in the working project, no removal is issued. */
  lemma AlignmentWithoutTasks(lookup: seq<Cmd>, found: Option<string>, spec: string)
    ensures AlignmentCommands(lookup, found, spec, []) == lookup + [CcmRun(ShowTasks(spec)),
      CcmRun(ModifyBaselineProject(ShowOpt(found), spec)), CcmRun(Update(spec))]
  {
    assert lookup + [CcmRun(ShowTasks(spec))] + [] == lookup + [CcmRun(ShowTasks(spec))];
  }

  /**
   * The alignment issues no RTC command, removes no task it was not given, and moves the project
   * to "None" when no baseline project was found.
   */
  lemma AlignmentOutcome(lookup: seq<Cmd>, found: Option<string>, spec: string, tasks: seq<string>)
    requires NoScm(lookup)
    ensures var t := AlignmentCommands(lookup, found, spec, tasks);
      && NoScm(t)
      && (forall i :: 0 <= i < |t| && t[i].CcmRun? && t[i].ccm.RemoveTasks? && i >= |lookup| ==> t[i].ccm.tasks == tasks)
      && (found.None? ==> CcmRun(ModifyBaselineProject("None", spec)) in t)
  {
    var t := AlignmentCommands(lookup, found, spec, tasks);
    var tail := [CcmRun(ShowTasks(spec))] + TaskRemoval(spec, tasks) + [CcmRun(ModifyBaselineProject(ShowOpt(found), spec)), CcmRun(Update(spec))];
    assert t == lookup + tail;
    forall i | 0 <= i < |t| ensures !t[i].ScmRun? {
      if i >= |lookup| { assert t[i] == tail[i - |lookup|]; }
    }
    forall i | 0 <= i < |t| && t[i].CcmRun? && t[i].ccm.RemoveTasks? && i >= |lookup| ensures t[i].ccm.tasks == tasks {
      assert t[i] == tail[i - |lookup|];
    }
    assert t[|t| - 2] == CcmRun(ModifyBaselineProject(ShowOpt(found), spec));
  }

  // ---------------------------------------------------------------------------------------
  // The baseline loop of main (ccm2rtc.py:199-250)

  /**
   * One pair of baselines from the commands and outcomes of its stages: compare, add tasks,
   * snapshot, align, realign the sandbox, each after the ones before, up to the first exception.
   */
  function PairOutcome(compare: seq<Cmd>, added: Out<()>, snapshot: Out<()>, aligned: Out<Ccm.ProjectFields>, realigned: seq<Cmd>): Out<()> {
    if added.result.Err? then After(compare, added)
    else if snapshot.result.Err? then After(compare + added.cmds, snapshot)
    else if aligned.result.Err? then Out(compare + added.cmds + snapshot.cmds + aligned.cmds, Err(aligned.result.error))
    else Out(compare + added.cmds + snapshot.cmds + aligned.cmds + realigned, Ok(()))
  }

  /** One pair of consecutive baselines: compare, add tasks, snapshot, align, realign the sandbox. */
  function PairMigration(env: Env, cfg: Config, h: seq<Cmd>, spec: string, current: string, next: string): Out<()> {
    var c := TasksComparison(env, h, current, next);
    var h1 := h + c.1;
    var a := TaskReplay(env, cfg, h1, spec, env.order(c.0.0));
    var h2 := h1 + a.cmds;
    var s := SnapshotCreation(env, h2, Ccm.RemoveDcmPrefix(next), cfg.workspace, cfg.stream);
    var h3 := h2 + s.cmds;
    var b := BaselineAlignment(env, h3, spec, next);
    PairOutcome(c.1, a, s, b, SandboxAlignment(env, cfg, h3 + b.cmds, next))
  }

  /** One iteration of the baseline loop. */
  method MigratePair(env: Env, cfg: Config, h: seq<Cmd>, spec: string, current: string, next: string) returns (o: Out<()>)
    ensures o == PairMigration(env, cfg, h, spec, current, next)
  {
    var c := TasksComparison(env, h, current, next);
    var h1 := h + c.1;
    var a := AddTasks(env, cfg, h1, spec, env.order(c.0.0));
    if a.result.Err? {
      return Out(c.1 + a.cmds, a.result);
    }
    var h2 := h1 + a.cmds;
    var s := SnapshotCreation(env, h2, Ccm.RemoveDcmPrefix(next), cfg.workspace, cfg.stream);
    if s.result.Err? {
      return Out(c.1 + a.cmds + s.cmds, s.result);
    }
    var h3 := h2 + s.cmds;
    var b := BaselineAlignment(env, h3, spec, next);
    if b.result.Err? {
      return Out(c.1 + a.cmds + s.cmds + b.cmds, Err(b.result.error));
    }
    var r := AlignSandbox(env, cfg, h3 + b.cmds, next);
    o := Out(c.1 + a.cmds + s.cmds + b.cmds + r, Ok(()));
  }

  /**
   * The stages of a pair run in order: each stage's commands follow those of the stages before
   * it, a stage that raises is the last, and only when every stage succeeds is the sandbox
   * realigned, last of all.
   */
  lemma PairStagesInOrder(compare: seq<Cmd>, added: Out<()>, snapshot: Out<()>, aligned: Out<Ccm.ProjectFields>, realigned: seq<Cmd>)
    ensures var o := PairOutcome(compare, added, snapshot, aligned, realigned);
      var ca := compare + added.cmds;
      && |ca| <= |o.cmds| && o.cmds[..|ca|] == ca
      && (added.result.Err? ==> o == After(compare, added))
      && (added.result.Ok? ==> |ca| + |snapshot.cmds| <= |o.cmds| && o.cmds[|ca|..|ca| + |snapshot.cmds|] == snapshot.cmds)
      && (added.result.Ok? && snapshot.result.Err? ==> o.cmds == ca + snapshot.cmds && o.result == snapshot.result)
      && (o.result.Ok? <==> added.result.Ok? && snapshot.result.Ok? && aligned.result.Ok?)
      && (o.result.Ok? ==> o.cmds == ca + snapshot.cmds + aligned.cmds + realigned)
  {
    var o := PairOutcome(compare, added, snapshot, aligned, realigned);
    var ca := compare + added.cmds;
    if added.result.Ok? {
      var rest := if snapshot.result.Err? then [] else if aligned.result.Err? then aligned.cmds else aligned.cmds + realigned;
      assert o.cmds == ca + snapshot.cmds + rest;
      assert o.cmds == ca + (snapshot.cmds + rest);
    }
  }

  /** The snapshot of a pair is named after the later baseline without its DCM prefix. */
  lemma PairSnapshotName(env: Env, cfg: Config, h: seq<Cmd>, spec: string, current: string, next: string)
    ensures var c := TasksComparison(env, h, current, next);
      var a := TaskReplay(env, cfg, h + c.1, spec, env.order(c.0.0));
      var o := PairMigration(env, cfg, h, spec, current, next);
      a.result.Ok? ==> |o.cmds| > |c.1 + a.cmds| && o.cmds[|c.1 + a.cmds|] == ScmRun(CreateSnapshot(Ccm.RemoveDcmPrefix(next), cfg.workspace))
  {
    var c := TasksComparison(env, h, current, next);
    var a := TaskReplay(env, cfg, h + c.1, spec, env.order(c.0.0));
    var s := SnapshotCreation(env, h + c.1 + a.cmds, Ccm.RemoveDcmPrefix(next), cfg.workspace, cfg.stream);
    var b := BaselineAlignment(env, h + c.1 + a.cmds + s.cmds, spec, next);
    var r := SandboxAlignment(env, cfg, h + c.1 + a.cmds + s.cmds + b.cmds, next);
    PairStagesInOrder(c.1, a, s, b, r);
    var o := PairMigration(env, cfg, h, spec, current, next);
    if a.result.Ok? {
      assert o.cmds[|c.1 + a.cmds|] == s.cmds[0];
    }
  }

  /**
   * With `order` iterating sets as Python does, the tasks a pair replays are its add set, each
   * once, and a replay that raises nothing queries the status of each of them exactly once; by
   * the contract of `Ccm.BaselineCompare` that set is T(next) minus T(current).
   */
  lemma PairReplaysAddedTasks(env: Env, cfg: Config, h: seq<Cmd>, spec: string, current: string, next: string)
    requires Enumerates(env)
    ensures var c := TasksComparison(env, h, current, next);
      var tasks := env.order(c.0.0);
      var a := TaskReplay(env, cfg, h + c.1, spec, tasks);
      && multiset(tasks) == multiset(c.0.0)
      && (a.result.Ok? ==> multiset(StatusTasks(a.cmds)) == multiset(c.0.0))
  {
    var c := TasksComparison(env, h, current, next);
    var tasks := env.order(c.0.0);
    assert multiset(tasks) == multiset(c.0.0);
    if tasks != [] {
      var a := TaskReplay(env, cfg, h + c.1, spec, tasks);
      if a.result.Ok? {
        ReplayQueriesEachTask(env, cfg, h + c.1, spec, tasks);
      }
    } else {
      assert StatusTasks([ChDir(cfg.sandbox)]) == [];
    }
  }

  /** The consecutive pairs `(bls[i-1], bls[i])` of the baseline list, in order. */
  function Consecutive(bls: seq<string>): (r: seq<(string, string)>)
    ensures |bls| >= 1 ==> |r| == |bls| - 1
    ensures |bls| == 0 ==> r == []
    ensures forall i :: 0 <= i < |r| ==> r[i] == (bls[i], bls[i + 1])
  {
    if |bls| < 2 then [] else seq(|bls| - 1, i requires 0 <= i < |bls| - 1 => (bls[i], bls[i + 1]))
  }

  function PairStep(env: Env, cfg: Config, spec: string): (seq<Cmd>, (string, string)) -> Out<()> {
    (h: seq<Cmd>, p: (string, string)) => PairMigration(env, cfg, h, spec, p.0, p.1)
  }

  /** `baselines.index(x)` */
  function IndexOf(xs: seq<string>, x: string): (k: nat)
    requires x in xs
    ensures k < |xs| && xs[k] == x && forall j :: 0 <= j < k ==> xs[j] != x
  {
    if xs[0] == x then 0 else 1 + IndexOf(xs[1..], x)
  }

  /**
   * From the list of baselines on: CCMError when the initial baseline is not listed; else the
   * working project is aligned with it and every later pair is migrated in order.
   */
  function Migration(env: Env, cfg: Config, h: seq<Cmd>, spec: string, release: string): Out<()> {
    var q := CcmRun(ListBaselines(release, cfg.purposes));
    match Ccm.BaselineNames(Split(env.out(h, q), '\n'), env.date)
    case Err(e) => Out([q], Err(e))
    case Ok(names) =>
      if cfg.baselineInitial !in names then
        Out([q], Err(CcmError("baseline '" + cfg.baselineInitial + "' not found in '" + cfg.release + "'")))
      else
        var bls := names[IndexOf(names, cfg.baselineInitial)..];
        var a := BaselineAlignment(env, h + [q], spec, bls[0]);
        if a.result.Err? then Out([q] + a.cmds, Err(a.result.error))
        else After([q] + a.cmds, Steps(PairStep(env, cfg, spec), h + [q] + a.cmds, Consecutive(bls)))
  }

  /** The baseline loop of main, after the working project was read. */
  method MigrateBaselines(env: Env, cfg: Config, h: seq<Cmd>, spec: string, release: string) returns (o: Out<()>)
    ensures o == Migration(env, cfg, h, spec, release)
  {
    var q := CcmRun(ListBaselines(release, cfg.purposes));
    var listed := Ccm.Baselines(env.out(h, q), env.date);
    if listed.Err? {
      return Out([q], Err(listed.error));
    }
    var names := listed.value;
    if cfg.baselineInitial !in names {
      return Out([q], Err(CcmError("baseline '" + cfg.baselineInitial + "' not found in '" + cfg.release + "'")));
    }
    var bls := names[IndexOf(names, cfg.baselineInitial)..];
    var a := BaselineAlignment(env, h + [q], spec, bls[0]);
    if a.result.Err? {
      return Out([q] + a.cmds, Err(a.result.error));
    }
    o := MigratePairs(env, cfg, h + [q] + a.cmds, spec, bls);
    o := After([q] + a.cmds, o);
  }

  /** The loop of main over the consecutive pairs of `bls`. */
  method MigratePairs(env: Env, cfg: Config, h: seq<Cmd>, spec: string, bls: seq<string>) returns (o: Out<()>)
    ensures o == Steps(PairStep(env, cfg, spec), h, Consecutive(bls))
  {
    ghost var f := PairStep(env, cfg, spec);
    var pairs := Consecutive(bls);
    var done: seq<Cmd> := [];
    StepsStart(f, h, pairs);
    for i := 0 to |pairs|
      invariant Steps(f, h, pairs) == After(done, Steps(f, h + done, pairs[i..]))
    {
      var p := MigratePair(env, cfg, h + done, spec, pairs[i].0, pairs[i].1);
      StepsNext(f, h, pairs, i, done, p);
      if p.result.Err? {
        return After(done, p);
      }
      done := done + p.cmds;
    }
    StepsEnd(f, h, pairs, done, pairs[|pairs|..]);
    o := Out(done, Ok(()));
  }

  /** An initial baseline that is not listed raises CCMError before any other command. */
  lemma MissingInitialBaseline(env: Env, cfg: Config, h: seq<Cmd>, spec: string, release: string)
    requires var q := CcmRun(ListBaselines(release, cfg.purposes));
      var names := Ccm.BaselineNames(Split(env.out(h, q), '\n'), env.date);
      names.Ok? && cfg.baselineInitial !in names.value
    ensures var o := Migration(env, cfg, h, spec, release);
      o.cmds == [CcmRun(ListBaselines(release, cfg.purposes))] && o.result.Err? && o.result.error.CcmError?
  {
  }

  /**
   * Migration starts at the initial baseline's first position: the working project is aligned
   * with it right after the listing, then the pairs from there on are migrated in order, and
   * when it is the last baseline nothing else happens.
   */
  lemma StartsAtInitial(env: Env, cfg: Config, h: seq<Cmd>, spec: string, release: string)
    requires var q := CcmRun(ListBaselines(release, cfg.purposes));
      var names := Ccm.BaselineNames(Split(env.out(h, q), '\n'), env.date);
      names.Ok? && cfg.baselineInitial in names.value
    ensures var q := CcmRun(ListBaselines(release, cfg.purposes));
      var names := Ccm.BaselineNames(Split(env.out(h, q), '\n'), env.date).value;
      var k := IndexOf(names, cfg.baselineInitial);
      var a := BaselineAlignment(env, h + [q], spec, cfg.baselineInitial);
      var o := Migration(env, cfg, h, spec, release);
      && (forall j :: 0 <= j < k ==> names[j] != cfg.baselineInitial)
      && (a.result.Err? ==> o == Out([q] + a.cmds, Err(a.result.error)))
      && (a.result.Ok? ==> o == After([q] + a.cmds, Steps(PairStep(env, cfg, spec), h + [q] + a.cmds, Consecutive(names[k..]))))
      && (k == |names| - 1 ==> o == Out([q] + a.cmds, if a.result.Err? then Err(a.result.error) else Ok(())))
  {
    var q := CcmRun(ListBaselines(release, cfg.purposes));
    var names := Ccm.BaselineNames(Split(env.out(h, q), '\n'), env.date).value;
    var k := IndexOf(names, cfg.baselineInitial);
    var bls := names[k..];
    assert bls[0] == cfg.baselineInitial;
    if k == |names| - 1 {
      assert |bls| == 1;
      assert [q] + BaselineAlignment(env, h + [q], spec, cfg.baselineInitial).cmds + [] == [q] + BaselineAlignment(env, h + [q], spec, cfg.baselineInitial).cmds;
    }
  }
}
