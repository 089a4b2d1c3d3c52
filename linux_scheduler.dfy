/**
 * The Linux adapter: every alarm is a job of the user crontab whose comment carries the
 * application marker and whose command starts the application with `--execute-sequence`.
 */
module LinuxCron {
  import opened Wrappers
  import opened Lists
  import opened Strings
  import opened Alarms
  import opened CronJobs

  /** The text whose presence in a command marks a one-time job on Linux (with its leading space). */
  const OnceFlag: string := " --delete-after"

  /** The environment assignments every Linux command starts with, so that cron jobs can open windows. */
  function EnvPrefix(uid: nat): string {
    "DISPLAY=:0 XDG_RUNTIME_DIR=/run/user/" + NatToString(uid) + " XDG_CURRENT_DESKTOP=KDE "
  }

  /** The tokens the environment prefix splits into. */
  function EnvTokens(uid: nat): (r: seq<string>)
    ensures "--execute-sequence" !in r
  {
    var dir := "XDG_RUNTIME_DIR=/run/user/" + NatToString(uid);
    assert dir[0] == 'X';
    ["DISPLAY=:0", dir, "XDG_CURRENT_DESKTOP=KDE"]
  }

  /** The command `add_alarm` schedules on Linux. */
  function LinuxCommand(uid: nat, l: Launcher, name: string, oneTime: bool, jobId: string, t: DateTime): string
    requires t.Valid()
  {
    JobCommand(EnvPrefix(uid), l, name, oneTime, jobId, t)
  }

  /** The job `add_alarm` creates on Linux. */
  function LinuxJob(t: DateTime, name: string, days: seq<string>, oneTime: bool, jobId: string, uid: nat, l: Launcher): CronJob
    requires t.Valid()
  {
    NewJob(t, LinuxCommand(uid, l, name, oneTime, jobId, t), CommentFor(oneTime, jobId), days, oneTime)
  }

  /**
   * The lines `get_debug_info` joins; only jobs with exactly the bare marker are tagged. `user` is
   * what `getpass.getuser()` gives, or the message of the exception it raised, which replaces the
   * remaining header lines.
   */
  function DebugLines(user: Result<string>, uid: nat, env: map<string, string>, jobs: Option<seq<CronJob>>,
                      render: CronJob -> string): seq<string> {
    ["=== Linux Crontab Debug Info ==="]
    + (match user
       case Ok(u) =>
         ["User: " + u + " (UID: " + NatToString(uid) + ")",
          "HOME: " + EnvOr(env, "HOME"),
          "DISPLAY: " + EnvOr(env, "DISPLAY"),
          "XDG_RUNTIME_DIR: " + EnvOr(env, "XDG_RUNTIME_DIR"),
          "CronTab available: " + BoolText(jobs.Some?)]
       case Err(e) => ["Error getting user info: " + e])
    + match jobs
      case None => ["\nCrontab not accessible"]
      case Some(js) => ["\nAll crontab entries:"] + EntryLines(js, render, (j: CronJob) => j.comment == Marker)
  }

  /**
   * When the user cannot be found, the dump has the error in place of the five header lines and
   * the same crontab part as when it can.
   */
  lemma UserFailureSkipsHeader(e: string, u: string, uid: nat, env: map<string, string>, jobs: Option<seq<CronJob>>,
                               render: CronJob -> string)
    ensures var failed := DebugLines(Err(e), uid, env, jobs, render);
            var found := DebugLines(Ok(u), uid, env, jobs, render);
            && |failed| + 4 == |found|
            && failed[1] == "Error getting user info: " + e
            && failed[2..] == found[6..]
  {
  }

  class LinuxScheduler {
    /** The user crontab, or null when python-crontab is missing or the crontab could not be read. */
    const cron: Crontab?

    /** `userCrontab` is None when the import or `CronTab(user=True)` failed. */
    constructor (userCrontab: Option<seq<CronJob>>)
      ensures userCrontab.None? <==> cron == null
      ensures cron != null ==> fresh(cron) && cron.jobs == userCrontab.value && cron.saved == userCrontab.value && cron.writes == 0
    {
      if userCrontab.None? {
        cron := null;
      } else {
        cron := new Crontab(userCrontab.value);
      }
    }

    /**
     * `add_alarm`: appends the job, writes the crontab, and reports. A failed write leaves the job
     * in the in-memory crontab but not in the saved one.
     */
    method AddAlarm(t: DateTime, name: string, days: seq<string>, oneTime: bool, jobId: string, uid: nat, l: Launcher,
                    writeFailure: Option<string>) returns (r: Reply)
      requires t.Valid()
      modifies cron
      ensures cron == null ==> r == Reply(false, "Crontab not available. Check logs for details.")
      ensures cron != null ==> cron.jobs == old(cron.jobs) + [LinuxJob(t, name, days, oneTime, jobId, uid, l)]
      ensures cron != null ==> cron.writes == old(cron.writes) + 1
      ensures cron != null ==> cron.saved == if writeFailure.None? then cron.jobs else old(cron.saved)
      ensures cron != null ==> r == if writeFailure.None? then Reply(true, "Alarm set for " + HHMM(t) + " via Cron")
                                    else Reply(false, "Crontab Error: " + writeFailure.value)
    {
      if cron == null {
        return Reply(false, "Crontab not available. Check logs for details.");
      }
      cron.New(LinuxJob(t, name, days, oneTime, jobId, uid, l));
      cron.Write(writeFailure);
      if writeFailure.None? {
        r := Reply(true, "Alarm set for " + HHMM(t) + " via Cron");
      } else {
        r := Reply(false, "Crontab Error: " + writeFailure.value);
      }
    }

    /** `list_alarms`: the application's jobs in crontab order; `tokenize` stands for shlex.split. */
    method ListAlarms(tokenize: string -> Option<seq<string>>) returns (alarms: seq<ListedAlarm>)
      ensures cron == null ==> alarms == []
      ensures cron != null ==> alarms == Listing(cron.jobs, tokenize, OnceFlag)
    {
      alarms := [];
      if cron == null {
        return;
      }
      var jobs := cron.jobs;
      var i := 0;
      while i < |jobs|
        invariant 0 <= i <= |jobs|
        invariant alarms == Listing(jobs[..i], tokenize, OnceFlag)
      {
        assert jobs[..i + 1][..i] == jobs[..i];
        alarms := alarms + EntryOf(jobs[i], tokenize, OnceFlag);
        i := i + 1;
      }
      assert jobs[..i] == jobs;
    }

    /**
     * `remove_alarm`: deletes the first owned job at the given time whose command contains the name
     * (and whose days read as `daysStr` when that is not empty), then writes the crontab.
     */
    method RemoveAlarm(name: string, timeStr: string, daysStr: string, writeFailure: Option<string>) returns (r: Reply)
      modifies cron
      ensures cron == null ==> r == Reply(false, "Crontab not available")
      ensures cron != null && ParseTime(timeStr).Err? ==>
                unchanged(cron) && r == Reply(false, "Remove Error: " + ParseTime(timeStr).message)
      ensures cron != null && ParseTime(timeStr).Ok? ==>
                var (h, m) := ParseTime(timeStr).value;
                match FirstMatch(old(cron.jobs), name, h, m, daysStr, OnceFlag)
                case None =>
                  unchanged(cron) && r == Reply(false, "Alarm '" + name + "' at " + timeStr + " not found in crontab.")
                case Some(i) =>
                  && cron.jobs == RemoveAt(old(cron.jobs), i)
                  && cron.writes == old(cron.writes) + 1
                  && cron.saved == (if writeFailure.None? then cron.jobs else old(cron.saved))
                  && r == if writeFailure.None? then Reply(true, "Removed alarm: " + name)
                          else Reply(false, "Remove Error: " + writeFailure.value)
    {
      if cron == null {
        return Reply(false, "Crontab not available");
      }
      var parsed := ParseTime(timeStr);
      if parsed.Err? {
        return Reply(false, "Remove Error: " + parsed.message);
      }
      var (h, m) := parsed.value;
      var jobs := cron.jobs;
      var removed := false;
      ghost var at := 0;
      var i := 0;
      while i < |jobs|
        invariant 0 <= i <= |jobs|
        invariant cron.jobs == jobs && !removed
        invariant forall j :: 0 <= j < i ==> !RemoveMatch(jobs[j], name, h, m, daysStr, OnceFlag)
      {
        if RemoveMatch(jobs[i], name, h, m, daysStr, OnceFlag) {
          cron.Remove(i);
          removed := true;
          at := i;
          break;
        }
        i := i + 1;
      }
      if removed {
        assert FirstMatch(jobs, name, h, m, daysStr, OnceFlag) == Some(at) by {
          var k := FirstMatch(jobs, name, h, m, daysStr, OnceFlag);
          assert k.Some? && k.value <= at;
        }
        cron.Write(writeFailure);
        if writeFailure.None? {
          r := Reply(true, "Removed alarm: " + name);
        } else {
          r := Reply(false, "Remove Error: " + writeFailure.value);
        }
      } else {
        r := Reply(false, "Alarm '" + name + "' at " + timeStr + " not found in crontab.");
      }
    }

    /** `get_debug_info`; `render` is python-crontab's rendering of one job as a crontab line. */
    method DebugInfo(user: Result<string>, uid: nat, env: map<string, string>, render: CronJob -> string) returns (info: string)
      ensures info == Join(DebugLines(user, uid, env, if cron == null then None else Some(cron.jobs), render), "\n")
    {
      var jobs := if cron == null then None else Some(cron.jobs);
      info := Join(DebugLines(user, uid, env, jobs, render), "\n");
    }
  }

  /**
   * Add-then-list on Linux: after a successful `add_alarm` the listing is the old listing followed by
   * the new alarm, provided shlex splits the command into its words and neither the paths nor the
   * name carry the one-time flag or the `--execute-sequence` token.
   */
  lemma AddThenList(jobs: seq<CronJob>, t: DateTime, name: string, days: seq<string>, oneTime: bool, jobId: string,
                    uid: nat, l: Launcher, tokenize: string -> Option<seq<string>>)
    requires t.Valid()
    requires tokenize(LinuxCommand(uid, l, name, oneTime, jobId, t)) == Some(CommandTokens(EnvTokens(uid), l, name, oneTime, jobId, t))
    requires "--execute-sequence" !in InvocationTokens(l)
    requires !oneTime ==> !Contains(BaseCommand(EnvPrefix(uid), l, name), OnceFlag)
    ensures Listing(jobs + [LinuxJob(t, name, days, oneTime, jobId, uid, l)], tokenize, OnceFlag)
         == Listing(jobs, tokenize, OnceFlag)
            + [ListedAlarm(NatToString(t.hour) + ":" + Pad2(t.minute), name, DayList(ExpectedDays(days, oneTime)), true)]
  {
    AddedJobListing(jobs, t, EnvPrefix(uid), EnvTokens(uid), l, name, days, oneTime, jobId, tokenize, OnceFlag);
  }

  /**
   * Remove-after-add on Linux: removing with the listed time and days of a job `add_alarm` created
   * deletes that job or an earlier one matching the same request.
   */
  lemma RemoveAfterAdd(jobs: seq<CronJob>, t: DateTime, name: string, days: seq<string>, oneTime: bool, jobId: string,
                       uid: nat, l: Launcher)
    requires t.Valid()
    ensures var job := LinuxJob(t, name, days, oneTime, jobId, uid, l);
            var r := FirstMatch(jobs + [job], name, t.hour, t.minute, Join(JobDays(job, OnceFlag), ", "), OnceFlag);
            && ParseTime(JobTime(job)) == Ok((t.hour, t.minute))
            && r.Some? && r.value <= |jobs|
  {
    var job := LinuxJob(t, name, days, oneTime, jobId, uid, l);
    NameInCommand(EnvPrefix(uid), l, name, oneTime, jobId, t);
    ListedJobRemovable(jobs + [job], |jobs|, OnceFlag, name, t.hour, t.minute);
  }
}
