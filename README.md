# PyCronVideoAlarm — a verified model of the alarm scheduling core

PyCronVideoAlarm is a desktop alarm clock. At an alarm's time it runs a user-defined *sequence*
of actions: play a video, open a URL, change the volume, and so on. The application runs no
daemon of its own. Every alarm is a job in the operating system's scheduler:

- a cron entry in the user crontab on Linux (and in the macOS adapter);
- a Task Scheduler task on Windows.

Each job carries a marker that proves the application owns it. A one-time alarm removes its
own job after it fires: the scheduler starts `main.py --execute-sequence <name> --delete-after`,
which runs the sequence and then finds and deletes the job.

This Dafny project models that core and proves what it promises:

- **`CronJobs`**: the cron record and the crontab store (`Crontab`, a class whose `jobs` are
  changed by `New`, `Remove` and `Write`). It also holds the ownership marker
  (`#PyCronVideoAlarm` or `#PyCronVideoAlarm:<uuid>`) and the day-of-week encoding and its
  decoding. Finally it holds the listing and match-then-remove rules that both cron adapters share.
- **`LinuxCron` and `MacOSCron`**: the two cron adapters, as classes over a `Crontab`. They
  differ in the command (an environment prefix on Linux), in the one-time flag the listing
  looks for (` --delete-after` or `--delete-after`), and in the debug dump's `[OURS]` tag.
- **`WindowsTasks`**: the Task Scheduler adapter, over two task lists (the application's folder
  and the root folder). It holds the weekday bitmask (SUN=1 … SAT=64) and the `PyCron|seq|HH:MM`
  description metadata with its legacy `seq_HH_MM` name fallback. It also holds the author
  filter on root-folder tasks.
- **`Facade`**: `AlarmScheduler`, which picks an adapter from the platform name and forwards to
  it. Without an adapter it answers with fixed defaults. It never builds the macOS adapter.
- **`SelfDelete`**: the `--execute-sequence` path of `main`. It loads the sequence and runs
  every action, then deletes the one-time job:
  - on Linux, by job id first, then by scheduled time;
  - on darwin, by launchd plist;
  - elsewhere, through the facade, at the current clock time.
- **`Sequences`**: `AlarmSequence` and its editing operations, validation, the dictionary round
  trip and the sanitised file name.
- **`Config`**: `ConfigManager`, covering the recursive settings merge, `get`/`set` and the
  single instance.
- **`Version`**: the line parser and cache for `version.txt`.
- **`TimeEntry`**: the main window's time fields, covering 12h/24h synchronisation, the
  per-field reduction, the days checkboxes, the days text of an edited alarm, the one-time
  decision and the sleep offset clamp.
- **`MediaUtils`**: `ensure_time_format` on strings, the player priority, the mpv settings and
  the mpv flag list.
- **`Actions`**: the action tables, the templates, dispatch, and the file filter of the
  random-video action.
- **`Components`**: the action card's style, its text height, the expand/collapse state and
  the release decision of a drag.
- **`Session`**: `ensure_cron_environment` as an update of an environment map.

Shared helpers live in `Wrappers` (Option, Result), `Lists` (removal, insertion, first index
and a scanning method), `Strings` (the Python string operations used, on ASCII) and `Json`
(JSON values with Python truthiness). `Alarms` holds the date-time, reply and listed-alarm
records.

Everything the program gets from outside is a parameter of the operation that uses it:

- the uuid of a new job and the clock;
- the user name (`getpass.getuser()`, or the message it raised), the user id and the environment;
- which paths exist, and what `json.load` reads;
- `shlex.split`, the tokenizer;
- whether `cron.write`, `RegisterTaskDefinition` or a settings save fails;
- what a handler does to the machine.

A native failure is an `Option<string>` whose value stands for the exception text.

Three behaviours of the code that the model keeps:

- The facade builds no adapter on darwin, so the macOS adapter is modelled but unreachable
  through the facade (`Facade.DarwinHasNoAdapter`).
- The darwin self-delete branch deletes launchd plists, while the macOS adapter writes cron
  entries. This path therefore never removes a job that the macOS adapter created.
- Windows one-time tasks carry no job id. The Windows self-delete runs through the facade with
  the clock read after the actions ran, and with an unpadded hour.

## Model

| member | source | states |
|---|---|---|
| CronJobs.CommentFor | src/platforms/linux/scheduler.py:101-108 | the comment is owned: `#PyCronVideoAlarm:<id>` for a one-time job, the bare marker for a recurring one |
| CronJobs.CronDayNumber | src/platforms/linux/scheduler.py:122-123 | every day name, known or not, maps to a cron weekday number in 0..6 |
| CronJobs.CronDayRoundTrip | src/platforms/linux/scheduler.py:122-123 | the number a day name encodes to decodes back to that name (1 for an unknown name reads back as MON) |
| CronJobs.DayNumberTexts | src/platforms/linux/scheduler.py:122-124 | each day becomes one digit 0..6, which `day_rev_map` reads back as the day's canonical name (MON for an unknown name) |
| CronJobs.CanonicalDays | src/platforms/linux/scheduler.py:156-164 | each day reads back as a weekday name with the same cron number |
| CronJobs.ByCronNumberSorted | src/platforms/linux/scheduler.py:122-124 | the days python-crontab renders are in ascending cron number |
| CronJobs.ByCronNumberPermutes | src/platforms/linux/scheduler.py:122-124 | that ordering keeps every day, as often as it was given |
| CronJobs.DowRoundTrip | src/platforms/linux/scheduler.py:122-124 | decoding the dow field written for a day list gives the canonical day names in ascending cron number (SUN first), repeats kept, whatever the input order |
| CronJobs.ListingAppend | src/platforms/linux/scheduler.py:144-176 | the listing of two job lists is the concatenation of their listings, so it goes job by job |
| CronJobs.SkippedJobInvisible | src/platforms/linux/scheduler.py:146-174 | a job that is not owned, or fails to parse, adds nothing to the listing, wherever it stands |
| CronJobs.ListingFromOwned | src/platforms/linux/scheduler.py:146 | every listed alarm comes from an owned job of the crontab |
| CronJobs.DaysTextIsListedDays | src/platforms/linux/scheduler.py:204-213 | the days text a removal compares with is the listed days joined by ", " |
| CronJobs.SequenceOfTokens | src/platforms/linux/scheduler.py:148-151 | the sequence name is the token after the first `--execute-sequence` |
| CronJobs.NewJobDays | src/platforms/linux/scheduler.py:116-164 | a recurring job lists as Daily for 0 or 7 days, and otherwise as the canonical day names sorted by cron number |
| CronJobs.ListedDaysOrdered | src/platforms/linux/scheduler.py:116-164 | a recurring job on some days lists one weekday name per day given, all kept, in ascending cron number |
| CronJobs.MondaySundayListed | src/platforms/linux/scheduler.py:122-164 | Monday and Sunday, selected in that order, list as SUN then MON |
| CronJobs.OneTimeFlagged | src/platforms/linux/scheduler.py:103-159 | a one-time command contains the one-time flag that the listing looks for |
| CronJobs.FlagBetween | src/platforms/macos/scheduler.py:62-115 | a command carrying ` --delete-after` contains the macOS flag `--delete-after` too |
| CronJobs.NewJobEntry | src/platforms/linux/scheduler.py:101-171 | a created job lists with its sequence, `H:MM` time and Once, Daily or its days sorted by cron number, enabled |
| CronJobs.AddedJobListing | src/platforms/linux/scheduler.py:111-176 | after `cron.new`, the listing is the old listing plus the new job's entry, whose days are sorted by cron number (SUN first) |
| CronJobs.FirstMatch | src/platforms/linux/scheduler.py:195-221 | the index found is the first job that matches the removal; None means no job matches |
| CronJobs.JobTimeParses | src/platforms/linux/scheduler.py:153-187 | a listed `H:MM` time parses back to its hour and minute |
| CronJobs.ListedJobMatches | src/platforms/linux/scheduler.py:187-216 | a listed job matches a removal for its own name, time and days text |
| CronJobs.ListedJobRemovable | src/platforms/linux/scheduler.py:195-221 | removing with a listed alarm's own fields finds that job or an earlier match |
| CronJobs.NameInCommand | src/platforms/linux/scheduler.py:95-200 | the sequence name occurs in the command written for its job |
| CronJobs.Crontab.constructor | src/platforms/linux/scheduler.py:56-60 | a crontab opened with its jobs, saved as they are, not yet written |
| CronJobs.Crontab.New | src/platforms/linux/scheduler.py:111 | `cron.new` appends one job and writes nothing |
| CronJobs.Crontab.Remove | src/platforms/linux/scheduler.py:218 | `cron.remove` deletes exactly the job at that position and writes nothing |
| CronJobs.Crontab.Write | src/platforms/linux/scheduler.py:127 | a successful write saves the jobs; a failed one leaves the saved crontab as it was |
| LinuxCron.EnvTokens | src/platforms/linux/scheduler.py:93 | the environment prefix never contains the `--execute-sequence` token |
| LinuxCron.LinuxScheduler.constructor | src/platforms/linux/scheduler.py:39-67 | no crontab when opening the user crontab failed; otherwise its jobs as found |
| LinuxCron.LinuxScheduler.AddAlarm | src/platforms/linux/scheduler.py:69-136 | no crontab: "Crontab not available…" and nothing changes; else exactly one job is appended with its marker comment and its day numbers rendered in ascending order, and a failed write reports "Crontab Error" |
| LinuxCron.LinuxScheduler.ListAlarms | src/platforms/linux/scheduler.py:138-176 | `[]` without a crontab; otherwise the listing of the owned jobs that parse, in crontab order |
| LinuxCron.LinuxScheduler.RemoveAlarm | src/platforms/linux/scheduler.py:178-231 | a bad time is an error and nothing changes; no match gives "…not found in crontab." and no write; otherwise only the first matching job is removed, then written |
| LinuxCron.LinuxScheduler.DebugInfo | src/platforms/linux/scheduler.py:233-255 | the dump lists every job, tagging `[OURS]` only on the bare marker comment; a failing `getuser` gives "Error getting user info: …" instead of the header lines |
| LinuxCron.UserFailureSkipsHeader | src/platforms/linux/scheduler.py:237-245 | when `getpass.getuser()` raises, its error line takes the place of the five header lines and the crontab part is the same |
| LinuxCron.AddThenList | src/platforms/linux/scheduler.py:101-171 | after a successful add, listing shows the new alarm, with its sequence, time and days sorted by cron number (SUN first), after the old entries |
| LinuxCron.RemoveAfterAdd | src/platforms/linux/scheduler.py:101-227 | the added job is removed by its listed time and days, unless an earlier job matches first |
| MacOSCron.MacOSScheduler.constructor | src/platforms/macos/scheduler.py:29-40 | no crontab when opening it failed; otherwise its jobs as found |
| MacOSCron.MacOSScheduler.AddAlarm | src/platforms/macos/scheduler.py:42-91 | as on Linux with no environment prefix: one appended job with its day numbers rendered in ascending order, and a write whose failure is reported |
| MacOSCron.MacOSScheduler.ListAlarms | src/platforms/macos/scheduler.py:93-131 | `[]` without a crontab; otherwise the owned jobs that parse, with Once detected by `--delete-after` |
| MacOSCron.MacOSScheduler.RemoveAlarm | src/platforms/macos/scheduler.py:133-180 | at most the first matching job is removed; the crontab is written only on success |
| MacOSCron.MacOSScheduler.DebugInfo | src/platforms/macos/scheduler.py:182-195 | every job is listed, tagged `[OURS]` whenever the marker occurs in its comment; a failing `getuser` gives "Error: …" instead of the header lines |
| MacOSCron.UserFailureSkipsHeader | src/platforms/macos/scheduler.py:184-189 | when `getpass.getuser()` raises, its error line takes the place of the three header lines and the crontab part is the same |
| MacOSCron.AddThenList | src/platforms/macos/scheduler.py:50-131 | after a successful add, listing shows the new alarm, its days sorted by cron number, after the old entries |
| MacOSCron.RemoveAfterAdd | src/platforms/macos/scheduler.py:50-176 | the added job is removed by its listed time and days, unless an earlier job matches first |
| WindowsTasks.DayBitOf | src/platforms/windows/scheduler.py:113 | a day name sets the k-th weekday bit exactly when it is that weekday's name |
| WindowsTasks.OrHasBit | src/platforms/windows/scheduler.py:117 | `mask \|= bit` sets a weekday bit when either operand had it |
| WindowsTasks.OrBitsBit | src/platforms/windows/scheduler.py:114-117 | the OR-ed mask has a weekday's bit exactly when some day of the list names it, in any case |
| WindowsTasks.SelectedMeaning | src/platforms/windows/scheduler.py:174-181 | the selected days are exactly the weekdays the list names, once each, in SUN..SAT order |
| WindowsTasks.DecodeOrBits | src/platforms/windows/scheduler.py:113-181 | decoding the OR-ed mask gives the selected days |
| WindowsTasks.DecodeAll | src/platforms/windows/scheduler.py:115-181 | the mask 127 decodes to all seven days |
| WindowsTasks.WeeklyDaysRoundTrip | src/platforms/windows/scheduler.py:113-182 | a weekly trigger reads back as "Daily" for no days or all seven, and otherwise as the days named, in SUN..SAT order |
| WindowsTasks.IndexOfName | src/platforms/windows/scheduler.py:145-147 | the first task with that name, or None when no task has it |
| WindowsTasks.Registered | src/platforms/windows/scheduler.py:145-147 | the registered task is in the folder afterwards |
| WindowsTasks.RegisteredKeepsOthers | src/platforms/windows/scheduler.py:145-147 | registering keeps every task of another name and adds nothing but the new task |
| WindowsTasks.TaskListed | src/platforms/windows/scheduler.py:208-219 | every parseable task the scan considers shows in its folder's listing |
| WindowsTasks.RootListingAuthored | src/platforms/windows/scheduler.py:214-217 | every root-folder entry comes from a task whose author is the application |
| WindowsTasks.NewTaskEntry | src/platforms/windows/scheduler.py:86-184 | a registered task parses by its description to its `HH:MM`, its sequence and its Once/Daily/day text |
| WindowsTasks.RegisteredListed | src/platforms/windows/scheduler.py:145-222 | after registering, the folder's listing shows the new alarm |
| WindowsTasks.PipeNameMisread | src/platforms/windows/scheduler.py:160-167 | a sequence whose name is `a`, a vertical bar, then `b` lists as the sequence `a` at the time `b`, which is why the add-then-list lemmas need a name without that bar |
| WindowsTasks.FirstHit | src/platforms/windows/scheduler.py:240-272 | the first considered task that matches the removal; None when there is none |
| WindowsTasks.NewTaskMatches | src/platforms/windows/scheduler.py:251-271 | a registered task matches a removal at its `HH:MM` (by metadata) and at `H:MM` (by name) |
| WindowsTasks.UnpaddedTimeParses | src/platforms/windows/scheduler.py:229 | an `H:MM` time parses to its hour and minute |
| WindowsTasks.NewTaskNameMatches | src/platforms/windows/scheduler.py:142-267 | the task name splits into the sequence (spaces as `_`) and integer hour and minute fields |
| WindowsTasks.WindowsScheduler.constructor | src/platforms/windows/scheduler.py:23-41 | no root folder without pywin32 or after a failed connect; the application folder is opened or created |
| WindowsTasks.WindowsScheduler.AddAlarm | src/platforms/windows/scheduler.py:80-153 | uninitialised: "Scheduler not initialized"; a failed registration reports "Failed to create task" and changes nothing; otherwise the folder gains the task built with the OR-ed or 127 mask |
| WindowsTasks.WindowsScheduler.ListAlarms | src/platforms/windows/scheduler.py:202-222 | the application folder's listing followed by the root folder's own tasks |
| WindowsTasks.WindowsScheduler.ListFolder | src/platforms/windows/scheduler.py:211-219 | the scan of one folder collects its listing in task order |
| WindowsTasks.WindowsScheduler.RemoveAlarm | src/platforms/windows/scheduler.py:224-280 | only the first matching task of the folder, else of the root folder, is deleted; otherwise "…not found." and nothing changes |
| WindowsTasks.WindowsScheduler.ScanFolder | src/platforms/windows/scheduler.py:240-272 | the scan stops at the first task to delete |
| WindowsTasks.WindowsScheduler.DebugInfo | src/platforms/windows/scheduler.py:43-78 | "not initialized" without a root folder; otherwise the folder's tasks, then the root's own tasks |
| Facade.ChoiceFor | src/logic/scheduler.py:12-25 | an adapter is chosen exactly for `linux*` and `win32` |
| Facade.DarwinHasNoAdapter | src/logic/scheduler.py:12-25 | darwin gets no adapter |
| Facade.AlarmScheduler.constructor | src/logic/scheduler.py:9-25 | at most one adapter, built only when its import succeeds |
| Facade.AlarmScheduler.AddAlarm | src/logic/scheduler.py:27-31 | forwarded with `days or []`; with no adapter, "No platform scheduler available" |
| Facade.AlarmScheduler.ListAlarms | src/logic/scheduler.py:33-36 | the adapter's listing, or `[]` |
| Facade.AlarmScheduler.RemoveAlarm | src/logic/scheduler.py:38-42 | forwarded with `days_str`; with no adapter, "No platform scheduler available"; each adapter's outcomes are restated, on Windows with the reply naming the deleted task and how it matched |
| Facade.AlarmScheduler.DebugInfo | src/logic/scheduler.py:44-48 | the adapter's dump, or the fixed "Debug info not available" text |
| SelfDelete.SequencePath | src/main.py:113-128 | the sequences folder's file, else an existing absolute path; None is the exit with code 1 |
| SelfDelete.ExecutedActions | src/main.py:134-136 | every action runs, in order, unless a type cannot be looked up; then the run stops there |
| SelfDelete.RunActions | src/main.py:134-136 | the loop hands over each action in order and reports whether it reached the end |
| SelfDelete.CronTarget | src/main.py:195-223 | the job-id match wins when there is one; a time match is tried only otherwise |
| SelfDelete.DeleteCronJob | src/main.py:190-232 | at most one job is removed, the crontab is written only then, and nothing changes when none matches |
| SelfDelete.OneTimeCommandMarks | src/platforms/linux/scheduler.py:95-108 | a one-time Linux command carries `--execute-sequence "<name>"` and `--delete-after` |
| SelfDelete.AddedJobFoundById | src/main.py:196-205 | strategy 1 finds the job a one-time add created; with a fresh job id it is exactly that job |
| SelfDelete.AddedJobFoundByTime | src/main.py:208-223 | strategy 2 alone also finds the job a one-time add created |
| SelfDelete.PlistTarget | src/main.py:155-181 | the plist named by the job id, else the first one-time plist of that sequence |
| SelfDelete.LaunchAgents.constructor | src/main.py:151 | the launch agents folder with its plists |
| SelfDelete.DeletePlist | src/main.py:145-186 | deleted exactly when a target exists; only that plist is removed |
| SelfDelete.DeleteViaScheduler | src/main.py:233-239 | a new facade removes at most one task at the unpadded current time |
| SelfDelete.AddedTaskFoundSameMinute | src/main.py:237-239 | within the alarm's minute, the removal finds the task a Windows add registered, or an earlier match |
| SelfDelete.DeleteOneTime | src/main.py:141-241 | one platform branch runs and its failures are only logged |
| SelfDelete.ExecuteSequence | src/main.py:105-245 | exit 1 when loading fails or a type cannot be looked up; deletion only after every action ran, and only with `--delete-after` |
| Sequences.ActionFromDict | src/logic/sequence.py:19-22 | succeeds exactly for a dictionary with "type" and "config", and keeps both |
| Sequences.ActionRoundTrip | src/logic/sequence.py:12-22 | reading back an action's dictionary gives the action |
| Sequences.ActionDicts | src/logic/sequence.py:65 | one dictionary per action, in order |
| Sequences.SequenceFromDict | src/logic/sequence.py:68-78 | the name defaults to "Untitled" and actions to none |
| Sequences.ActionsRoundTrip | src/logic/sequence.py:61-78 | decoding the actions' dictionaries gives the same ordered list |
| Sequences.SequenceRoundTrip | src/logic/sequence.py:61-78 | `from_dict(to_dict(s))` keeps the name and the ordered (type, config) list |
| Sequences.FromEmptyDict | src/logic/sequence.py:72-75 | an empty document loads as an empty sequence called "Untitled" |
| Sequences.InsertPosition | src/logic/sequence.py:34-36 | Python's `list.insert` clamping: in range as given, negative from the end, otherwise at an end |
| Sequences.MovedIsPermutation | src/logic/sequence.py:43-47 | a move keeps every action and puts the moved one at `to_index` |
| Sequences.FirstProblemMeaning | src/logic/sequence.py:55-59 | no problem is reported exactly when every action has a type and a dictionary config |
| Sequences.ValidMeaning | src/logic/sequence.py:49-59 | `validate` passes exactly for a non-empty name and non-empty, well-formed actions |
| Sequences.SaveFileName | src/logic/sequence.py:82-86 | the saved file name holds only alphanumerics and `._- ` |
| Sequences.SanitizeKeepsSafeNames | src/logic/sequence.py:86 | a name of allowed characters is kept as it is |
| Sequences.AlarmSequence.constructor | src/logic/sequence.py:26-28 | a new sequence has its name and no actions |
| Sequences.AlarmSequence.AddAction | src/logic/sequence.py:30-32 | the action is appended |
| Sequences.AlarmSequence.InsertAction | src/logic/sequence.py:34-36 | the action is inserted at the clamped position |
| Sequences.AlarmSequence.RemoveAction | src/logic/sequence.py:38-41 | an in-range index removes exactly that action; any other index changes nothing |
| Sequences.AlarmSequence.MoveAction | src/logic/sequence.py:43-47 | both indices in range: the move; otherwise nothing changes |
| Sequences.AlarmSequence.Validate | src/logic/sequence.py:49-59 | the loop reports the first problem, as `ValidationError` defines it |
| Sequences.AlarmSequence.FromDict | src/logic/sequence.py:68-78 | fails exactly when decoding fails; otherwise a new sequence with the decoded name and actions |
| Sequences.ErrorPersists | src/logic/sequence.py:76-77 | once an entry fails to decode, loading fails |
| Config.Merge | src/core/config.py:95-101 | the merged keys are the base's and the update's |
| Config.MergeRules | src/core/config.py:95-101 | base-only keys stay; non-dictionaries and `extensions` are overwritten; other dictionaries merge recursively |
| Config.MergeEmpty | src/core/config.py:95-101 | an empty update changes nothing |
| Config.MergeIntoEmpty | src/core/config.py:95-101 | an update merged into nothing is the update |
| Config.MergeIdempotent | src/core/config.py:95-101 | merging the same update twice is merging it once |
| Config.Loaded | src/core/config.py:53-65 | a missing or unreadable file leaves the settings as they are |
| Config.GetAfterSet | src/core/config.py:76-90 | `get` returns what `set` stored |
| Config.SetKeepsOthers | src/core/config.py:85-90 | `set` changes only `settings[section][key]` |
| Config.GetMissingSection | src/core/config.py:76-83 | a missing section gives None for every key |
| Config.ConfigManager.constructor | src/core/config.py:46-51 | the defaults, then `load()` |
| Config.ConfigManager.Load | src/core/config.py:53-65 | merges the file; a missing file is created from the settings |
| Config.ConfigManager.Save | src/core/config.py:67-74 | writes the settings unless the write fails |
| Config.ConfigManager.Set | src/core/config.py:85-90 | creates a missing section and assigns the key |
| Config.Singleton.constructor | src/core/config.py:44 | no instance yet |
| Config.Singleton.GetConfig | src/core/config.py:46-105 | the first call creates and loads the instance; later calls return it |
| Config.OneInstance | src/core/config.py:46-51 | two calls give the same instance |
| Version.LastTagged | src/core/version.py:37-41 | None exactly when no line has the tag |
| Version.LastTaggedAppend | src/core/version.py:37-43 | a tagged line later in the file overrides earlier ones |
| Version.LastTaggedWins | src/core/version.py:37-43 | the last tagged line gives the value |
| Version.InfoOf | src/core/version.py:37-43 | "Dev Build" without `Built:` and None without `Archive:` |
| Version.FromCandidates | src/core/version.py:32-52 | the first readable candidate decides; none gives ("Dev Build", None) |
| Version.LineStep | src/core/version.py:37-41 | `Built:` keeps the whole stripped line; `Archive:` keeps the stripped rest; no line is both |
| Version.ParseLines | src/core/version.py:35-43 | the loop over lines computes `InfoOf` |
| Version.BothLines | src/core/version.py:4-43 | a file with both lines gives both values |
| Version.VersionCache.constructor | src/core/version.py:14-15 | nothing cached |
| Version.VersionCache.Read | src/core/version.py:18-52 | a cached value returns without rereading; otherwise the candidates decide and are cached |
| Version.VersionCache.BuildVersion | src/core/version.py:55-56 | the cached or freshly read version |
| Version.VersionCache.ArchiveName | src/core/version.py:59-61 | the cached or freshly read archive name |
| Version.ReadTwice | src/core/version.py:20-21 | a second read returns the first read's values |
| TimeEntry.Wrapped | src/ui/main_window.py:1751-1759 | the subtraction loop ends within the bound and keeps values already in range |
| TimeEntry.Reduced | src/ui/main_window.py:1749-1759 | hours into 0..23 or 1..12, minutes into 0..59; in-range values are kept |
| TimeEntry.ValidateAndAdjust | src/ui/main_window.py:1737-1774 | the field shows two digits, "00" for an empty or non-numeric value on focus-out, and nothing otherwise |
| TimeEntry.Normalised12 | src/ui/main_window.py:1790-1792 | a 12h hour is brought into 1..12 |
| TimeEntry.CappedMinute | src/ui/main_window.py:1793-1811 | minutes are capped at 59 |
| TimeEntry.To24 | src/ui/main_window.py:1799-1801 | a 12h hour with its period gives a 24h hour in 0..23 |
| TimeEntry.From24 | src/ui/main_window.py:1816-1821 | PM exactly for h ≥ 12, and a 12h hour in 1..12 |
| TimeEntry.To24From24 | src/ui/main_window.py:1799-1821 | 24h to 12h and back is the identity on 0..23 |
| TimeEntry.From24To24 | src/ui/main_window.py:1799-1821 | 12h to 24h and back is the identity on 1..12 with AM/PM |
| TimeEntry.EditShowsTime | src/ui/main_window.py:1466-1473 | an edited `H:MM` shows in both formats, and they agree |
| TimeEntry.Pad2Reads | src/ui/main_window.py:1795-1814 | a padded field reads back as its number |
| TimeEntry.SyncedFrom24Stays | src/ui/main_window.py:1805-1824 | syncing again after a 24h sync changes nothing |
| TimeEntry.SyncedFrom12Stays | src/ui/main_window.py:1784-1804 | syncing again after a 12h sync changes nothing |
| TimeEntry.Synced12Hour | src/ui/main_window.py:1799-1803 | a 12h sync leaves a valid 24h hour |
| TimeEntry.JoinSpaced | src/ui/main_window.py:1544 | joining with ", " is joining the spaced days with "," |
| TimeEntry.TokensOfJoin | src/ui/main_window.py:1489-1544 | splitting a joined days text and stripping gives the days back |
| TimeEntry.DaysTextRoundTrip | src/ui/main_window.py:1479-1544 | the days an alarm lists are exactly the boxes its edit checks |
| TimeEntry.JoinedDaysPlain | src/ui/main_window.py:1482-1490 | a joined day list is neither "Daily" nor "Once" nor empty, and parses back to its days |
| TimeEntry.DaysFromTokens | src/ui/main_window.py:1489-1492 | a day's box is checked exactly when its name is a token |
| TimeEntry.Checked | src/ui/main_window.py:1425 | the selected days are exactly the checked ones |
| TimeEntry.ClampOffset | src/ui/main_window.py:368 | the sleep offset is clamped to -120..120 |
| TimeEntry.SavedOffsetReads | src/ui/main_window.py:368-371 | the saved offset reads back clamped |
| TimeEntry.TimeForm.constructor | src/ui/main_window.py:998-1085 | 07:30 AM in both formats, no day checked, no sequence |
| TimeEntry.TimeForm.SyncTimeFormats | src/ui/main_window.py:1782-1827 | the direction chosen by the edited widget, normalising both formats |
| TimeEntry.TimeForm.Sync12 | src/ui/main_window.py:1784-1804 | the 12h fields normalised, and the 24h fields from them |
| TimeEntry.TimeForm.Sync24 | src/ui/main_window.py:1805-1824 | the 24h fields normalised, and the 12h fields and period from them |
| TimeEntry.TimeForm.HandleAmpmChange | src/ui/main_window.py:1829-1844 | the 12h hour normalised and the 24h hour from the new period |
| TimeEntry.TimeForm.ToggleAllDays | src/ui/main_window.py:1528-1532 | all unchecked if all were checked, otherwise all checked |
| TimeEntry.TimeForm.SetAllDays | src/ui/main_window.py:1480-1483 | every day box gets the value |
| TimeEntry.TimeForm.CheckDays | src/ui/main_window.py:1489-1492 | exactly the known tokens are checked |
| TimeEntry.TimeForm.SetDays | src/ui/main_window.py:1479-1492 | all days for "Daily", none for "Once" or empty, else the known comma-separated days |
| TimeEntry.TimeForm.EditAlarm | src/ui/main_window.py:1448-1500 | the time, sequence and days of the selected alarm are filled in |
| TimeEntry.TimeForm.SetTime | src/ui/main_window.py:1466-1473 | a parseable time fills both formats; another leaves them |
| TimeEntry.TimeForm.Request | src/ui/main_window.py:1400-1446 | no sequence, invalid time, or the alarm with the checked days, one-time exactly when none is checked |
| TimeEntry.TimeForm.SaveSleepOffset | src/ui/main_window.py:365-382 | a number is clamped, shown and stored; anything else changes nothing |
| MediaUtils.EnsureTimeFormat | src/logic/media_utils.py:12-31 | None exactly for the empty string |
| MediaUtils.MinutesSecondsValue | src/logic/media_utils.py:21-26 | digit `M:S` gives the seconds `M*60+S` in decimal |
| MediaUtils.MinutesSecondsParse | src/logic/media_utils.py:21-26 | those seconds read back as the number `M*60+S` |
| MediaUtils.OtherColonUnchanged | src/logic/media_utils.py:21-31 | any other colon string comes back unchanged |
| MediaUtils.NoColonAsFloat | src/logic/media_utils.py:28-31 | without a colon: the float text, or the string itself when it is not a number |
| MediaUtils.PlayerPriority | src/logic/media_utils.py:38-40 | always `["mpv"]` |
| MediaUtils.SettingsOf | src/logic/media_utils.py:90-100 | defaults for no config (fullscreen, gain 0, no volume); the config's own values otherwise |
| MediaUtils.MpvCommand | src/logic/media_utils.py:112-127 | `--fs` iff fullscreen, the Linux fixes iff both, `--no-terminal` always, `--ontop` unless Linux fullscreen |
| Actions.Template | src/logic/actions.py:605-686 | the type's template, or the "No template available" comment |
| Actions.TemplatesCommented | src/logic/actions.py:607-685 | every template carries a `#comment` |
| Actions.TablesAgree | src/logic/actions.py:573-685 | a listed type has both a handler and a template, and only listed types have them |
| Actions.RequireKey | src/logic/actions.py:100-122 | a config without the key raises or returns False |
| Actions.ExtensionsOf | src/logic/actions.py:72 | a list gives its strings, a string its characters, a dictionary its keys; anything else raises |
| Actions.Included | src/logic/actions.py:80-81 | keeps exactly the files that mention the include filter |
| Actions.Excluded | src/logic/actions.py:83-84 | drops exactly the files that mention the exclude filter |
| Actions.RandomFiles | src/logic/actions.py:72-84 | the candidates are exactly the files with a listed extension that pass both filters |
| Actions.RandomVideo | src/logic/actions.py:62-70 | a missing directory returns False |
| Actions.RandomVideoBody | src/logic/actions.py:73-95 | every exception in the body means False |
| Actions.NoCandidateFails | src/logic/actions.py:86-88 | no candidate after filtering returns False |
| Actions.ExecuteAction | src/logic/actions.py:590-602 | True exactly when the type has a handler and that handler returned True; False for an unknown type or a handler that raised |
| Actions.MissingKeyFails | src/logic/actions.py:100-122 | without `file`, `url` or `command` the handler returns False |
| Actions.PlayVideoPlays | src/logic/actions.py:98-103 | `play_video` succeeds exactly when the player does |
| Components.CardStyle | src/ui/components.py:87-95 | audio or sound, else video, else wait or delay, else plain, on the lower-cased type |
| Components.StyleOfType | src/ui/components.py:87 | an absent `type` gives the plain style, a string type is styled by `CardStyle`, and any other JSON value raises |
| Components.PlayPrefix | src/ui/components.py:88-90 | the `play_…` tests add nothing to the plain substring tests |
| Components.AudioCards | src/ui/components.py:88-89 | the audio actions get the audio style |
| Components.LabelStyleOf | src/ui/components.py:112 | the label style is the frame style with `.TFrame` replaced by `.TLabel` |
| Components.ReplaceAfter | src/ui/components.py:112 | replacing a suffix pattern replaces that suffix |
| Components.NewLines | src/ui/components.py:170-205 | zero exactly for a text without newlines |
| Components.HeightFor | src/ui/components.py:170-207 | `max(3, min(30, lines))` |
| Components.TextHeightClamps | src/ui/components.py:170-172 | a one-line text gets height 3, a long one 30 |
| Components.DropTarget | src/ui/components.py:265-283 | the first card under the pointer, else the last slot when below the last card, else -1 |
| Components.FindDropTarget | src/ui/components.py:265-283 | the loop over the children finds `DropTarget` |
| Components.ReleaseOf | src/ui/components.py:244-291 | no drag: nothing; under 5 pixels both ways: a click; otherwise a move exactly when the drop target is another card and a `move_to` callback exists |
| Components.Abs | src/ui/components.py:251-252 | the absolute value |
| Components.ActionCard.constructor | src/ui/components.py:80-98 | collapsed, no body, style from the type |
| Components.ActionCard.CreateBody | src/ui/components.py:161-188 | the body exists and its height comes from the JSON text |
| Components.ActionCard.ToggleExpand | src/ui/components.py:190-198 | expansion flips, the button text follows, and the body is created on first expand |
| Components.ActionCard.AdjustHeight | src/ui/components.py:200-212 | the height comes from the content |
| Components.ActionCard.StartDrag | src/ui/components.py:227-238 | a press on the button does nothing; otherwise the drag starts at the pointer |
| Components.ActionCard.EndDrag | src/ui/components.py:244-291 | the drag ends; a click toggles, relabels the button and creates the body on first expansion; a move is recorded; otherwise the button, body and height stay, and the press point never changes |
| Components.ToggleTwice | src/ui/components.py:190-198 | toggling twice restores the expansion |
| Session.Fill | src/platforms/linux/session.py:21-42 | a variable is set only when it is unset and its file exists |
| Session.FillKeeps | src/platforms/linux/session.py:21-42 | a step changes no other variable |
| Session.CronEnvironment | src/platforms/linux/session.py:12-42 | other variables untouched; DISPLAY always set, to `:0` when missing |
| Session.FillKeepsSet | src/platforms/linux/session.py:21-42 | a variable that is set keeps its value |
| Session.KeepsSetValues | src/platforms/linux/session.py:21-39 | an existing variable is never overwritten |
| Session.RuntimeDirFilled | src/platforms/linux/session.py:21-24 | XDG_RUNTIME_DIR becomes `/run/user/<uid>` exactly when missing and that path exists |
| Session.WaylandFilled | src/platforms/linux/session.py:29-32 | WAYLAND_DISPLAY is set exactly when missing and its socket exists |
| Session.DbusFilled | src/platforms/linux/session.py:39-42 | the D-Bus address is set exactly when missing and its socket exists |
| Session.CronEnvironmentIdempotent | src/platforms/linux/session.py:12-42 | running the setup twice changes nothing more |
| Session.KeepsOrUnset | src/platforms/linux/session.py:21-42 | a variable unset afterwards was unset before |
| Session.EnsureCronEnvironment | src/platforms/linux/session.py:12-42 | the environment afterwards is `CronEnvironment` of the one before |
| Alarms.HHMM | src/platforms/linux/scheduler.py:129-132 | five characters with a colon in the middle |
| Alarms.ParseTime | src/platforms/linux/scheduler.py:187 | succeeds exactly for two integer fields split by ':' |
| Alarms.ParseTimeOfPair | src/platforms/linux/scheduler.py:187 | two integer texts joined by ':' parse to their values |
| Alarms.HHMMParses | src/platforms/windows/scheduler.py:229 | an `HH:MM` time parses back to its hour and minute |

## Left out

- The shlex tokenizer is a parameter. The add-then-list lemmas assume only that it returns the
  sequence name right after the first `--execute-sequence` token.
- python-crontab's parsing of a crontab file is not modelled. Each job's schedule fields are
  kept as the text python-crontab renders for them. The day-of-week field of a new job is
  rendered with its numbers sorted (SUN first), repeats kept, as python-crontab's slice
  rendering does. Its collapsing of ranges and step values does not arise for the values
  the adapters set.
- COM failures of the Task Scheduler beyond registration are left out, as are `DeleteTask` and
  `os.remove` failures; a deletion is assumed to succeed.
- Windows task names are compared case-sensitively (Task Scheduler ignores case).
- Exception texts (`str(e)`) are oracle strings after the fixed prefixes.
- Logging is left out everywhere.
- Floating point is left out: the float branch of `ensure_time_format` (only its outcome is a
  parameter), the mpv start/end/gain flags, numeric time values, and the gain value.
- Strings are ASCII: `isdigit`, `isalnum`, `upper`, `lower` and `int` are not Unicode-aware here.
- `int` without underscore separators: Python reads "7_5" as 75, while `Strings.ParseInt`
  refuses it. This reaches the removal time, the self-delete scheduled time and the legacy
  Windows name fields only for text the application does not write itself.
- `ConfigManager` settings are values, so aliasing of the shared `DEFAULT_SETTINGS` dictionary
  (a shallow copy) is left out, as is a merge that raises half-way (it is treated as changing
  nothing).
- The drag geometry is a parameter (the sibling widgets' positions), and the context menu is left
  out.
- The one-time date bump in `set_alarm` (tomorrow when the time has passed) uses the clock and
  is not modelled.
- Reading `version.txt` (`splitlines`) is a parameter: each candidate is its lines, or None.
- The macOS debug notes and launchctl unloading are left out.
- Windows one-time tasks carry no job id, so none is modelled.
- The clock of the Windows self-delete is a parameter.
- A non-string sequence name in `save` is left out.
- Components.ActionCard.constructor: takes the action type as a string. A sequence file whose action `type` is another JSON value makes card construction raise `AttributeError`; `StyleOfType` models that raise, the constructor does not.
- A Tk `TclError` reading a variable is seen as None.
- `validate_and_adjust`'s unused `extra_hours` counter is not modelled.
- Handler side effects (players, browser, shell, camera, journal, brightness, volume) are the
  `World` parameter; `random.choice` is `playOneOf`.
- `os.path.exists` on a non-string directory is treated as raising.
- ExtensionsOf: a list of file types holding a non-string is treated as raising at once;
  Python's `endswith` raises only when it reaches that element, after the earlier suffixes
  failed to match. Either way the action reports failure unless an earlier suffix matches.
- `ScrollableFrame`, `save_changes` (JSON parsing of the editor), the subprocess start of
  `execute_media`/`play_video_mpv` and `get_video_duration` are UI or I/O and are left out.
- Races on the shared crontab or task folders, and the main window's threads, are left out.
- Config.Loaded: states only that a missing or unreadable file changes nothing; the document
  case is its merge, proved through `MergeRules`.
- Actions.RandomVideo: states only the missing-directory case; the rest is `RandomVideoBody`
  and `RandomFiles`.
