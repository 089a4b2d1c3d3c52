/**
 * What the program does when a scheduler fires an alarm: `main.py --execute-sequence <name>`
 * loads the sequence file, runs every action in order and, for a one-time alarm
 * (`--delete-after`), removes the native job that fired it. On Linux it edits the user crontab
 * itself (job id first, then scheduled time); on darwin it looks for a launchd plist (the macOS
 * adapter writes cron jobs, which this path never touches); everywhere else it asks the
 * scheduler facade to remove the alarm at the current clock time.
 */
module SelfDelete {
  import opened Wrappers
  import opened Lists
  import opened Strings
  import opened Json
  import opened Alarms
  import opened CronJobs
  import opened Sequences
  import LinuxCron
  import WindowsTasks
  import Facade

  /** The options the alarm path reads; an option that was not given is "" (both are falsy). */
  datatype Args = Args(executeSequence: string, deleteAfter: bool, jobId: string, scheduledTime: string)

  // ---------------------------------------------------------------- loading and running

  /** `<app data>/sequences/<name>.json` (the `temp/` test sequences use the same path). */
  function SequenceFile(appData: string, name: string): string {
    PathJoin(PathJoin(appData, "sequences"), name + ".json")
  }

  /**
   * The file the sequence is loaded from: the sequences folder's file, else `name` itself when it
   * is an absolute path that exists; None is the "Sequence file not found" exit.
   */
  function SequencePath(appData: string, name: string, isFile: string -> bool, isAbs: string -> bool): (r: Option<string>)
    ensures r.None? <==> !isFile(SequenceFile(appData, name)) && !(isAbs(name) && isFile(name))
    ensures r.Some? ==> isFile(r.value) && (r.value == SequenceFile(appData, name) || r.value == name)
  {
    if isFile(SequenceFile(appData, name)) then Some(SequenceFile(appData, name))
    else if isAbs(name) && isFile(name) then Some(name)
    else None
  }

  /** The actions `AlarmSequence.load` produces; `read` is `json.load` of a file (None: it raised). */
  function LoadedActions(args: Args, appData: string, isFile: string -> bool, isAbs: string -> bool,
                         read: string -> Option<Json>): Result<seq<AlarmAction>> {
    match SequencePath(appData, args.executeSequence, isFile, isAbs)
    case None => Err("Sequence file not found")
    case Some(path) =>
      match read(path)
      case None => Err("Failed to load sequence")
      case Some(doc) =>
        match SequenceFromDict(doc)
        case Err(e) => Err(e)
        case Ok((_, actions)) => Ok(actions)
  }

  /** A type `ACTION_HANDLERS.get` can look up; a list or a dictionary raises TypeError there. */
  predicate Hashable(j: Json) {
    !j.JArr? && !j.JObj?
  }

  /** The position of the first action whose lookup raises, which ends the run with exit code 1. */
  function FirstUnhashable(actions: seq<AlarmAction>): Option<nat> {
    FirstIndex(actions, (a: AlarmAction) => !Hashable(a.actionType))
  }

  /** The actions handed to `execute_action`, in order, up to the first one whose lookup raises. */
  function ExecutedActions(actions: seq<AlarmAction>): (r: seq<AlarmAction>)
    ensures FirstUnhashable(actions).None? ==> r == actions
    ensures |r| <= |actions| && r == actions[..|r|]
  {
    match FirstUnhashable(actions)
    case None => actions
    case Some(k) => actions[..k]
  }

  /**
   * The loop over `sequence.actions`: each action is handed to `execute_action` (whose handler
   * errors are caught there); `completed` is false when a lookup raised.
   */
  method RunActions(actions: seq<AlarmAction>) returns (executed: seq<AlarmAction>, completed: bool)
    ensures executed == ExecutedActions(actions)
    ensures completed <==> FirstUnhashable(actions).None?
  {
    var unhashable := (a: AlarmAction) => !Hashable(a.actionType);
    executed := [];
    var i := 0;
    while i < |actions|
      invariant 0 <= i <= |actions|
      invariant executed == actions[..i]
      invariant forall j :: 0 <= j < i ==> !unhashable(actions[j])
    {
      if unhashable(actions[i]) {
        FirstIndexIs(actions, unhashable, i);
        return executed, false;
      }
      executed := executed + [actions[i]];
      i := i + 1;
    }
    assert actions[..i] == actions;
    completed := true;
  }

  // ---------------------------------------------------------------- Linux: the user crontab

  /** The comment strategy 1 looks for. */
  function TargetComment(jobId: string): string {
    Marker + ":" + jobId
  }

  /** The text strategy 1 requires in the command: `--execute-sequence "<name>"`. */
  function SequenceArgument(name: string): string {
    "--execute-sequence " + Quote(name)
  }

  /** Strategy 1: the job carries the alarm's job id and runs this sequence. */
  predicate IdMatch(job: CronJob, name: string, jobId: string) {
    job.comment == TargetComment(jobId) && Contains(job.command, SequenceArgument(name))
  }

  /** Strategy 2: an owned one-time job of this sequence at the scheduled hour and minute. */
  predicate TimeMatch(job: CronJob, name: string, hour: int, minute: int) {
    && IsOwned(job.comment)
    && Contains(job.command, name)
    && Contains(job.command, "--delete-after")
    && job.hour == IntToString(hour)
    && job.minute == IntToString(minute)
  }

  /** Strategy 1's test, as the scan applies it. */
  function IdMatcher(name: string, jobId: string): CronJob -> bool {
    (j: CronJob) => IdMatch(j, name, jobId)
  }

  /** Strategy 2's test, as the scan applies it. */
  function TimeMatcher(name: string, hour: int, minute: int): CronJob -> bool {
    (j: CronJob) => TimeMatch(j, name, hour, minute)
  }

  /** The job strategy 1 removes; it runs only when a job id was given. */
  function ByJobId(jobs: seq<CronJob>, name: string, jobId: string): Option<nat> {
    if jobId == "" then None else FirstIndex(jobs, IdMatcher(name, jobId))
  }

  /** The job strategy 2 removes; it runs only for a scheduled time, and a time that fails to parse finds nothing. */
  function ByTime(jobs: seq<CronJob>, name: string, scheduledTime: string): Option<nat> {
    if scheduledTime == "" then None
    else match ParseTime(scheduledTime)
      case Err(_) => None
      case Ok((h, m)) => FirstIndex(jobs, TimeMatcher(name, h, m))
  }

  /** The one job the Linux branch removes: strategy 1's, else strategy 2's. */
  function CronTarget(jobs: seq<CronJob>, args: Args): (r: Option<nat>)
    ensures r.Some? ==> r.value < |jobs|
    ensures ByJobId(jobs, args.executeSequence, args.jobId).Some? ==> r == ByJobId(jobs, args.executeSequence, args.jobId)
  {
    var byId := ByJobId(jobs, args.executeSequence, args.jobId);
    if byId.Some? then byId else ByTime(jobs, args.executeSequence, args.scheduledTime)
  }

  /** `s` after removing the element at `target`, when there is one. */
  function RemoveTarget<T>(s: seq<T>, target: Option<nat>): seq<T>
    requires target.Some? ==> target.value < |s|
  {
    if target.Some? then RemoveAt(s, target.value) else s
  }

  /**
   * The Linux branch on an open crontab: strategy 1, then strategy 2, each a scan that removes the
   * first match and stops; the crontab is written only when a job was removed.
   */
  method DeleteCronJob(cron: Crontab, args: Args, writeFailure: Option<string>) returns (deleted: bool)
    modifies cron
    ensures deleted <==> CronTarget(old(cron.jobs), args).Some?
    ensures deleted ==> && cron.jobs == RemoveAt(old(cron.jobs), CronTarget(old(cron.jobs), args).value)
                        && cron.writes == old(cron.writes) + 1
                        && cron.saved == (if writeFailure.None? then cron.jobs else old(cron.saved))
    ensures !deleted ==> unchanged(cron)
  {
    var name := args.executeSequence;
    var jobs := cron.jobs;
    var at: Option<nat> := None;
    if args.jobId != "" {
      at := Scan(jobs, IdMatcher(name, args.jobId));
    }
    if at.None? && args.scheduledTime != "" {
      var parsed := ParseTime(args.scheduledTime);
      if parsed.Ok? {
        at := Scan(jobs, TimeMatcher(name, parsed.value.0, parsed.value.1));
      }
    }
    assert at == CronTarget(jobs, args);
    deleted := at.Some?;
    if deleted {
      cron.Remove(at.value);
      cron.Write(writeFailure);
    }
  }

  /** The command of a one-time Linux job contains strategy 1's sequence argument and the one-time flag. */
  lemma {:induction false} OneTimeCommandMarks(uid: nat, l: Launcher, name: string, jobId: string, t: DateTime)
    requires t.Valid()
    ensures Contains(LinuxCron.LinuxCommand(uid, l, name, true, jobId, t), SequenceArgument(name))
    ensures Contains(LinuxCron.LinuxCommand(uid, l, name, true, jobId, t), "--delete-after")
  {
    var prefix := LinuxCron.EnvPrefix(uid);
    var lead := prefix + Invocation(l) + " ";
    var suffix := OneTimeSuffix(jobId, t);
    BaseCommandArgument(prefix, l, name);
    assert LinuxCron.LinuxCommand(uid, l, name, true, jobId, t) == BaseCommand(prefix, l, name) + suffix;
    assert LinuxCron.LinuxCommand(uid, l, name, true, jobId, t) == lead + SequenceArgument(name) + suffix;
    ContainsMiddle(lead, SequenceArgument(name), suffix);
    OneTimeFlagged(prefix, l, name, jobId, t, "--delete-after");
  }

  /** The base command ends with the sequence argument, after a space. */
  lemma {:induction false} BaseCommandArgument(prefix: string, l: Launcher, name: string)
    ensures BaseCommand(prefix, l, name) == prefix + Invocation(l) + " " + SequenceArgument(name)
  {
  }

  /**
   * Strategy 1 finds the job a one-time Linux `add_alarm` created, given the options that job's
   * command passes back; with a job id no earlier job carries, it removes exactly that job.
   */
  lemma AddedJobFoundById(jobs: seq<CronJob>, t: DateTime, name: string, days: seq<string>, jobId: string, uid: nat, l: Launcher)
    requires t.Valid() && jobId != ""
    ensures var job := LinuxCron.LinuxJob(t, name, days, true, jobId, uid, l);
            var r := CronTarget(jobs + [job], Args(name, true, jobId, HHMM(t)));
            && r.Some? && r.value <= |jobs|
            && ((forall j :: 0 <= j < |jobs| ==> jobs[j].comment != TargetComment(jobId)) ==> r.value == |jobs|)
  {
    var job := LinuxCron.LinuxJob(t, name, days, true, jobId, uid, l);
    var all := jobs + [job];
    OneTimeCommandMarks(uid, l, name, jobId, t);
    assert all[|jobs|] == job;
    assert IdMatcher(name, jobId)(all[|jobs|]);
    var r := FirstIndex(all, IdMatcher(name, jobId));
    assert r.Some?;
  }

  /** Strategy 2 alone (no job id, or none that matches) also finds the job a one-time Linux `add_alarm` created. */
  lemma AddedJobFoundByTime(jobs: seq<CronJob>, t: DateTime, name: string, days: seq<string>, jobId: string, uid: nat, l: Launcher)
    requires t.Valid()
    ensures var job := LinuxCron.LinuxJob(t, name, days, true, jobId, uid, l);
            var r := ByTime(jobs + [job], name, HHMM(t));
            r.Some? && r.value <= |jobs|
  {
    var job := LinuxCron.LinuxJob(t, name, days, true, jobId, uid, l);
    var all := jobs + [job];
    OneTimeCommandMarks(uid, l, name, jobId, t);
    NameInCommand(LinuxCron.EnvPrefix(uid), l, name, true, jobId, t);
    HHMMParses(t);
    assert IntToString(t.hour) == NatToString(t.hour) && IntToString(t.minute) == NatToString(t.minute);
    assert all[|jobs|] == job;
    assert TimeMatcher(name, t.hour, t.minute)(all[|jobs|]);
    var r := FirstIndex(all, TimeMatcher(name, t.hour, t.minute));
    assert r.Some?;
  }

  // ---------------------------------------------------------------- darwin: launchd plists

  const LabelPrefix: string := "com.juke32.pycronvideoalarm"

  /** A file of ~/Library/LaunchAgents; `env` is its EnvironmentVariables (empty when absent), None when it cannot be read. */
  datatype Plist = Plist(fileName: string, env: Option<map<string, string>>)

  /** `<label prefix>.<job id>.plist` */
  function PlistFileName(jobId: string): string {
    LabelPrefix + "." + jobId + ".plist"
  }

  /** The names `glob("<label prefix>.*.plist")` returns. */
  predicate Globbed(fileName: string) {
    |fileName| >= |LabelPrefix| + 7 && StartsWith(fileName, LabelPrefix + ".") && EndsWith(fileName, ".plist")
  }

  /** A one-time plist of this sequence. */
  predicate OneTimePlist(p: Plist, name: string) {
    && Globbed(p.fileName) && p.env.Some?
    && "PCVA_SEQUENCE" in p.env.value && p.env.value["PCVA_SEQUENCE"] == name
    && "PCVA_ONE_TIME" in p.env.value && p.env.value["PCVA_ONE_TIME"] == "1"
  }

  /** The plist the darwin branch removes: the job id's file when it exists, else the first one-time plist of the sequence. */
  function PlistTarget(plists: seq<Plist>, name: string, jobId: string): (r: Option<nat>)
    ensures r.Some? ==> r.value < |plists|
    ensures r.Some? ==> plists[r.value].fileName == PlistFileName(jobId) || OneTimePlist(plists[r.value], name)
  {
    var byId := if jobId == "" then None else FirstIndex(plists, (p: Plist) => p.fileName == PlistFileName(jobId));
    if byId.Some? then byId else FirstIndex(plists, (p: Plist) => OneTimePlist(p, name))
  }

  /** The launch agents folder, as a list of files in the order glob returns them. */
  class LaunchAgents {
    var plists: seq<Plist>

    constructor (plists: seq<Plist>)
      ensures this.plists == plists
    {
      this.plists := plists;
    }
  }

  /** The darwin branch: `launchctl unload` and remove the job id's plist, else scan for the sequence's one-time plist. */
  method DeletePlist(agents: LaunchAgents, name: string, jobId: string) returns (deleted: bool)
    modifies agents
    ensures deleted <==> PlistTarget(old(agents.plists), name, jobId).Some?
    ensures agents.plists == RemoveTarget(old(agents.plists), PlistTarget(old(agents.plists), name, jobId))
  {
    var plists := agents.plists;
    deleted := false;
    if jobId != "" {
      var byId := (p: Plist) => p.fileName == PlistFileName(jobId);
      var found := FirstIndex(plists, byId);
      if found.Some? {
        agents.plists := RemoveAt(plists, found.value);
        deleted := true;
      }
    }
    if !deleted {
      var oneTime := (p: Plist) => OneTimePlist(p, name);
      var i := 0;
      while i < |plists|
        invariant 0 <= i <= |plists|
        invariant agents.plists == plists && !deleted
        invariant forall j :: 0 <= j < i ==> !oneTime(plists[j])
      {
        if oneTime(plists[i]) {
          FirstIndexIs(plists, oneTime, i);
          agents.plists := RemoveAt(plists, i);
          deleted := true;
          break;
        }
        i := i + 1;
      }
    }
  }

  // ---------------------------------------------------------------- other platforms: the facade

  /** `f"{now.hour}:{now.minute:02d}"`, read from the clock after the actions ran. */
  function NowText(now: DateTime): string {
    IntToString(now.hour) + ":" + Pad2(now.minute)
  }

  /**
   * The remaining branch: a new `AlarmScheduler()` and `remove_alarm(name, time_str)`; the reply
   * is only logged. A crontab is never involved, since this branch is not taken on `linux*`.
   */
  method DeleteViaScheduler(platform: string, importFails: bool, hasWin32: bool, root: Option<seq<WindowsTasks.Task>>,
                            folder: Option<seq<WindowsTasks.Task>>, createFails: bool, name: string, now: DateTime)
    returns (scheduler: Facade.AlarmScheduler)
    requires !StartsWith(platform, "linux") && now.Valid()
    ensures fresh(scheduler) && scheduler.linux == null
    ensures scheduler.windows != null <==> platform == "win32" && !importFails
    ensures scheduler.windows != null ==> (scheduler.windows.hasRoot <==> hasWin32 && root.Some?)
    ensures scheduler.windows != null && scheduler.windows.hasRoot ==>
              var w := scheduler.windows;
              var inFolder := if w.hasFolder then WindowsTasks.FirstHit(folder.GetOr([]), false, name, NowText(now), now.hour, now.minute) else None;
              var inRoot := WindowsTasks.FirstHit(root.value, true, name, NowText(now), now.hour, now.minute);
              if inFolder.Some? then
                w.folderTasks == RemoveAt(folder.GetOr([]), inFolder.value) && w.rootTasks == root.value
              else if inRoot.Some? then
                w.rootTasks == RemoveAt(root.value, inRoot.value) && w.folderTasks == folder.GetOr([])
              else
                w.folderTasks == folder.GetOr([]) && w.rootTasks == root.value
  {
    scheduler := new Facade.AlarmScheduler(platform, importFails, None, hasWin32, root, folder, createFails);
    var timeStr := NowText(now);
    WindowsTasks.UnpaddedTimeParses(now);
    assert ParseTime(timeStr) == Ok((now.hour, now.minute));
    var w := scheduler.windows;
    if w != null && w.hasRoot {
      assert w.rootTasks == root.value && w.folderTasks == folder.GetOr([]);
    }
    var _ := scheduler.RemoveAlarm(name, timeStr, "", None);
  }

  /**
   * When the clock still reads the alarm's minute, the removal finds the task a Windows
   * `add_alarm` registered for that time (by its name, since the hour is not zero-padded here),
   * or an earlier task that matches as well.
   */
  lemma AddedTaskFoundSameMinute(tasks: seq<WindowsTasks.Task>, i: nat, t: DateTime, name: string, oneTime: bool,
                                 mask: bv16, l: Launcher, now: DateTime)
    requires t.Valid() && now.Valid() && now.hour == t.hour && now.minute == t.minute
    requires i < |tasks| && tasks[i] == WindowsTasks.NewTask(t, name, oneTime, mask, l)
    ensures var r := WindowsTasks.FirstHit(tasks, false, name, NowText(now), now.hour, now.minute);
            r.Some? && r.value <= i
  {
    WindowsTasks.NewTaskMatches(t, name, oneTime, mask, l);
    assert WindowsTasks.Hit(tasks[i], false, name, NowText(now), now.hour, now.minute);
  }

  // ---------------------------------------------------------------- the whole alarm path

  /** The deletion step runs: the sequence loaded, every action was handed over, and the alarm is one-time. */
  predicate DeletionRuns(args: Args, appData: string, isFile: string -> bool, isAbs: string -> bool, read: string -> Option<Json>) {
    var loaded := LoadedActions(args, appData, isFile, isAbs, read);
    loaded.Ok? && FirstUnhashable(loaded.value).None? && args.deleteAfter
  }

  /** What the deletion step leaves behind, by platform (the state before it is the old state). */
  twostate predicate OneTimeDeleted(args: Args, platform: string, cron: Crontab?, cronWriteFailure: Option<string>,
                                    agents: LaunchAgents, importFails: bool, new scheduler: Facade.AlarmScheduler?)
    reads cron, agents
  {
    if platform == "darwin" then
      && (cron != null ==> unchanged(cron)) && scheduler == null
      && agents.plists == RemoveTarget(old(agents.plists), PlistTarget(old(agents.plists), args.executeSequence, args.jobId))
    else if StartsWith(platform, "linux") then
      && unchanged(agents) && scheduler == null
      && (cron != null ==>
            var target := CronTarget(old(cron.jobs), args);
            && cron.jobs == RemoveTarget(old(cron.jobs), target)
            && cron.writes == old(cron.writes) + (if target.Some? then 1 else 0)
            && cron.saved == (if target.Some? && cronWriteFailure.None? then cron.jobs else old(cron.saved)))
    else
      && unchanged(agents) && (cron != null ==> unchanged(cron))
      && scheduler != null && fresh(scheduler) && scheduler.linux == null
      && (scheduler.windows != null <==> platform == "win32" && !importFails)
  }

  /** The `if args.delete_after:` block: one platform branch, whose failures are only logged. */
  method DeleteOneTime(args: Args, platform: string, cron: Crontab?, cronWriteFailure: Option<string>,
                       agents: LaunchAgents, importFails: bool, hasWin32: bool, root: Option<seq<WindowsTasks.Task>>,
                       folder: Option<seq<WindowsTasks.Task>>, createFails: bool, now: DateTime)
    returns (scheduler: Facade.AlarmScheduler?)
    requires now.Valid()
    modifies cron, agents
    ensures OneTimeDeleted(args, platform, cron, cronWriteFailure, agents, importFails, scheduler)
  {
    scheduler := null;
    if platform == "darwin" {
      var _ := DeletePlist(agents, args.executeSequence, args.jobId);
    } else if StartsWith(platform, "linux") {
      if cron != null {
        var _ := DeleteCronJob(cron, args, cronWriteFailure);
      }
    } else {
      scheduler := DeleteViaScheduler(platform, importFails, hasWin32, root, folder, createFails, args.executeSequence, now);
    }
  }

  /**
   * `main()` on the `--execute-sequence` path. `isFile`, `isAbs` and `read` stand for the file
   * system, `cron` for `CronTab(user=True)` (null when it raised) and `agents` for the launch
   * agents folder; the remaining parameters are what a new facade finds on this platform.
   * The exit code is 1 when the sequence cannot be found or loaded, or an action type cannot be
   * looked up; deletion problems are only logged. The deletion step starts only after every
   * action has been handed over.
   */
  method ExecuteSequence(args: Args, platform: string, appData: string, isFile: string -> bool, isAbs: string -> bool,
                         read: string -> Option<Json>, cron: Crontab?, cronWriteFailure: Option<string>,
                         agents: LaunchAgents, importFails: bool, hasWin32: bool, root: Option<seq<WindowsTasks.Task>>,
                         folder: Option<seq<WindowsTasks.Task>>, createFails: bool, now: DateTime)
    returns (exitCode: int, executed: seq<AlarmAction>, scheduler: Facade.AlarmScheduler?)
    requires args.executeSequence != "" && now.Valid()
    modifies cron, agents
    ensures var loaded := LoadedActions(args, appData, isFile, isAbs, read);
            && (loaded.Err? ==> exitCode == 1 && executed == [])
            && (loaded.Ok? ==> executed == ExecutedActions(loaded.value)
                               && exitCode == (if FirstUnhashable(loaded.value).None? then 0 else 1))
    ensures !DeletionRuns(args, appData, isFile, isAbs, read) ==>
              unchanged(agents) && (cron != null ==> unchanged(cron)) && scheduler == null
    ensures DeletionRuns(args, appData, isFile, isAbs, read) ==>
              OneTimeDeleted(args, platform, cron, cronWriteFailure, agents, importFails, scheduler)
  {
    scheduler := null;
    var path := SequencePath(appData, args.executeSequence, isFile, isAbs);
    if path.None? {
      return 1, [], null;
    }
    var doc := read(path.value);
    if doc.None? {
      return 1, [], null;
    }
    var sequence := AlarmSequence.FromDict(doc.value);
    if sequence.Err? {
      return 1, [], null;
    }
    assert LoadedActions(args, appData, isFile, isAbs, read) == Ok(sequence.value.actions);
    var completed;
    executed, completed := RunActions(sequence.value.actions);
    if !completed {
      return 1, executed, null;
    }
    exitCode := 0;
    if args.deleteAfter {
      scheduler := DeleteOneTime(args, platform, cron, cronWriteFailure, agents, importFails, hasWin32, root, folder, createFails, now);
    }
  }
}
