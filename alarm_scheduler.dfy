/**
 * The platform-independent `AlarmScheduler`: it picks one adapter when it is built, from the
 * platform name, and forwards every call to it, answering with fixed defaults when there is none.
 */
module Facade {
  import opened Wrappers
  import opened Lists
  import opened Strings
  import opened Alarms
  import opened CronJobs
  import LinuxCron
  import WindowsTasks

  /** Which adapter the constructor tries to build. */
  datatype Choice = UseLinux | UseWindows | NoAdapter

  /** The choice made from `sys.platform`: only `linux*` and `win32` have an adapter; darwin has none. */
  function ChoiceFor(platform: string): (c: Choice)
    ensures c == UseLinux <==> StartsWith(platform, "linux")
    ensures c == UseWindows <==> platform == "win32"
    ensures c == NoAdapter <==> !StartsWith(platform, "linux") && platform != "win32"
  {
    if StartsWith(platform, "linux") then
      assert platform[0] == platform[..5][0] == 'l';
      UseLinux
    else if platform == "win32" then UseWindows
    else NoAdapter
  }

  /** The macOS adapter is never chosen, whatever the macOS platform name looks like. */
  lemma DarwinHasNoAdapter()
    ensures ChoiceFor("darwin") == NoAdapter
  {
    assert "darwin"[0] != "linux"[0];
  }

  const NoScheduler: string := "No platform scheduler available"
  const NoDebugInfo: string := "Debug info not available for this platform."

  class AlarmScheduler {
    /** `platform_scheduler` when it is a LinuxScheduler */
    const linux: LinuxCron.LinuxScheduler?
    /** `platform_scheduler` when it is a WindowsScheduler */
    const windows: WindowsTasks.WindowsScheduler?

    /** `platform_scheduler` holds at most one adapter. */
    predicate Valid()
      reads this
    {
      linux == null || windows == null
    }

    /**
     * `platform` is `sys.platform`; `importFails` stands for an ImportError raised while loading the
     * chosen adapter's module; the remaining parameters are what that adapter's own constructor
     * finds (see LinuxCron.LinuxScheduler and WindowsTasks.WindowsScheduler).
     */
    constructor (platform: string, importFails: bool, userCrontab: Option<seq<CronJob>>,
                 hasWin32: bool, root: Option<seq<WindowsTasks.Task>>, folder: Option<seq<WindowsTasks.Task>>,
                 createFails: bool)
      ensures Valid()
      ensures linux != null <==> ChoiceFor(platform) == UseLinux && !importFails
      ensures windows != null <==> ChoiceFor(platform) == UseWindows && !importFails
      ensures linux != null ==> fresh(linux) && (linux.cron == null <==> userCrontab.None?)
      ensures linux != null && linux.cron != null ==> fresh(linux.cron) && linux.cron.jobs == userCrontab.value
      ensures windows != null ==> fresh(windows) && (windows.hasRoot <==> hasWin32 && root.Some?)
      ensures windows != null ==> (windows.hasFolder <==> windows.hasRoot && (folder.Some? || !createFails))
      ensures windows != null && windows.hasRoot ==> windows.rootTasks == root.value
      ensures windows != null && windows.hasFolder ==> windows.folderTasks == folder.GetOr([])
      ensures windows != null && !windows.hasFolder ==> windows.folderTasks == []
    {
      var choice := ChoiceFor(platform);
      if choice == UseLinux && !importFails {
        linux := new LinuxCron.LinuxScheduler(userCrontab);
        windows := null;
      } else if choice == UseWindows && !importFails {
        linux := null;
        windows := new WindowsTasks.WindowsScheduler(hasWin32, root, folder, createFails);
      } else {
        linux := null;
        windows := null;
      }
    }

    /**
     * `add_alarm`, forwarded with `days or []`. `jobId`, `uid`, `l` and `writeFailure` are what the
     * Linux adapter reads from uuid4, the process and python-crontab; `registerFailure` is what
     * the Task Scheduler reports.
     */
    method AddAlarm(t: DateTime, name: string, days: Option<seq<string>>, oneTime: bool,
                    jobId: string, uid: nat, l: Launcher, writeFailure: Option<string>,
                    registerFailure: Option<string>) returns (r: Reply)
      requires Valid() && t.Valid()
      modifies if linux != null then {linux.cron} else {}, windows
      ensures linux == null && windows == null ==> r == Reply(false, NoScheduler)
      ensures linux != null && linux.cron == null ==> r == Reply(false, "Crontab not available. Check logs for details.")
      ensures linux != null && linux.cron != null ==>
                && linux.cron.jobs == old(linux.cron.jobs) + [LinuxCron.LinuxJob(t, name, days.GetOr([]), oneTime, jobId, uid, l)]
                && linux.cron.saved == (if writeFailure.None? then linux.cron.jobs else old(linux.cron.saved))
                && r == if writeFailure.None? then Reply(true, "Alarm set for " + HHMM(t) + " via Cron")
                        else Reply(false, "Crontab Error: " + writeFailure.value)
      ensures windows != null ==> windows.rootTasks == old(windows.rootTasks)
      ensures windows != null && (!windows.hasFolder || registerFailure.Some?) ==> windows.folderTasks == old(windows.folderTasks)
      ensures windows != null && !windows.hasFolder ==> r == Reply(false, "Scheduler not initialized")
      ensures windows != null && windows.hasFolder && registerFailure.Some? ==>
                r == Reply(false, "Failed to create task: " + registerFailure.value)
      ensures windows != null && windows.hasFolder && registerFailure.None? ==>
                && windows.folderTasks == WindowsTasks.Registered(old(windows.folderTasks),
                     WindowsTasks.NewTask(t, name, oneTime, WindowsTasks.WeeklyMask(days.GetOr([])), l))
                && r == Reply(true, "Alarm set for " + HHMM(t))
    {
      if linux != null {
        r := linux.AddAlarm(t, name, days.GetOr([]), oneTime, jobId, uid, l, writeFailure);
      } else if windows != null {
        r := windows.AddAlarm(t, name, days.GetOr([]), oneTime, l, registerFailure);
      } else {
        r := Reply(false, NoScheduler);
      }
    }

    /** `list_alarms`, forwarded; `tokenize` is shlex.split as the Linux adapter uses it. */
    method ListAlarms(tokenize: string -> Option<seq<string>>) returns (alarms: seq<ListedAlarm>)
      requires Valid()
      ensures linux == null && windows == null ==> alarms == []
      ensures linux != null ==> alarms == if linux.cron == null then [] else Listing(linux.cron.jobs, tokenize, LinuxCron.OnceFlag)
      ensures windows != null ==>
                alarms == (if windows.hasFolder then WindowsTasks.FolderListing(windows.folderTasks, false) else [])
                          + (if windows.hasRoot then WindowsTasks.FolderListing(windows.rootTasks, true) else [])
    {
      if linux != null {
        alarms := linux.ListAlarms(tokenize);
      } else if windows != null {
        alarms := windows.ListAlarms();
      } else {
        alarms := [];
      }
    }

    /** `remove_alarm`, forwarded with `days_str`; the Windows adapter accepts it and ignores it. */
    method RemoveAlarm(name: string, timeStr: string, daysStr: string, writeFailure: Option<string>) returns (r: Reply)
      requires Valid()
      modifies if linux != null then {linux.cron} else {}, windows
      ensures linux == null && windows == null ==> r == Reply(false, NoScheduler)
      ensures linux != null && linux.cron == null ==> r == Reply(false, "Crontab not available")
      ensures linux != null && linux.cron != null && ParseTime(timeStr).Err? ==>
                unchanged(linux.cron) && r == Reply(false, "Remove Error: " + ParseTime(timeStr).message)
      ensures linux != null && linux.cron != null && ParseTime(timeStr).Ok? ==>
                var (h, m) := ParseTime(timeStr).value;
                match FirstMatch(old(linux.cron.jobs), name, h, m, daysStr, LinuxCron.OnceFlag)
                case None =>
                  unchanged(linux.cron) && r == Reply(false, "Alarm '" + name + "' at " + timeStr + " not found in crontab.")
                case Some(i) =>
                  && linux.cron.jobs == RemoveAt(old(linux.cron.jobs), i)
                  && linux.cron.saved == (if writeFailure.None? then linux.cron.jobs else old(linux.cron.saved))
                  && r == if writeFailure.None? then Reply(true, "Removed alarm: " + name)
                          else Reply(false, "Remove Error: " + writeFailure.value)
      ensures windows != null && !windows.hasRoot ==> r == Reply(false, "Scheduler not initialized") && unchanged(windows)
      ensures windows != null && windows.hasRoot && ParseTime(timeStr).Err? ==>
                r == Reply(false, "Error removing alarm: " + ParseTime(timeStr).message) && unchanged(windows)
      ensures windows != null && windows.hasRoot && ParseTime(timeStr).Ok? ==>
                var (hh, mm) := ParseTime(timeStr).value;
                var inFolder := if windows.hasFolder then WindowsTasks.FirstHit(old(windows.folderTasks), false, name, timeStr, hh, mm) else None;
                var inRoot := WindowsTasks.FirstHit(old(windows.rootTasks), true, name, timeStr, hh, mm);
                if inFolder.Some? then
                  && windows.folderTasks == RemoveAt(old(windows.folderTasks), inFolder.value)
                  && windows.rootTasks == old(windows.rootTasks)
                  && r == WindowsTasks.DeletedReply(old(windows.folderTasks)[inFolder.value],
                            WindowsTasks.TaskMatch(old(windows.folderTasks)[inFolder.value], name, timeStr, hh, mm).value)
                else if inRoot.Some? then
                  && windows.rootTasks == RemoveAt(old(windows.rootTasks), inRoot.value)
                  && windows.folderTasks == old(windows.folderTasks)
                  && r == WindowsTasks.DeletedReply(old(windows.rootTasks)[inRoot.value],
                            WindowsTasks.TaskMatch(old(windows.rootTasks)[inRoot.value], name, timeStr, hh, mm).value)
                else
                  unchanged(windows) && r == Reply(false, "Alarm '" + name + "' at " + timeStr + " not found.")
    {
      if linux != null {
        r := linux.RemoveAlarm(name, timeStr, daysStr, writeFailure);
      } else if windows != null {
        r := windows.RemoveAlarm(name, timeStr);
      } else {
        r := Reply(false, NoScheduler);
      }
    }

    /** `get_debug_info`, forwarded (both adapters have one); the parameters are each adapter's oracles. */
    method DebugInfo(user: Result<string>, uid: nat, env: map<string, string>, render: CronJob -> string,
                     status: WindowsTasks.Task -> (int, string)) returns (info: string)
      requires Valid()
      ensures linux == null && windows == null ==> info == NoDebugInfo
      ensures linux != null ==>
                info == Join(LinuxCron.DebugLines(user, uid, env, if linux.cron == null then None else Some(linux.cron.jobs), render), "\n")
      ensures windows != null && !windows.hasRoot ==> info == "Windows Scheduler not initialized."
      ensures windows != null && windows.hasRoot ==>
                info == Join(["=== Windows Scheduler Debug Info ==="]
                             + (if windows.hasFolder then ["\n[PYCRON FOLDER]"] + WindowsTasks.TaskLines(windows.folderTasks, false, status) else [])
                             + ["\n[ROOT COMMANDS]"] + WindowsTasks.TaskLines(windows.rootTasks, true, status), "\n")
    {
      if linux != null {
        info := linux.DebugInfo(user, uid, env, render);
      } else if windows != null {
        info := windows.DebugInfo(status);
      } else {
        info := NoDebugInfo;
      }
    }
  }
}
