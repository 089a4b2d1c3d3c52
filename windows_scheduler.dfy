/**
 * The Windows adapter: every alarm is a Task Scheduler task in the application's own folder,
 * identified by its description (`PyCron|<sequence>|<HH:MM>`) or, for older tasks, by its name
 * (`<sequence with underscores>_<HH>_<MM>`). Tasks of the root folder count only when the
 * application is their author.
 */
module WindowsTasks {
  import opened Wrappers
  import opened Lists
  import opened Strings
  import opened Alarms

  const TaskFolderName: string := "\\PyCronVideoAlarm"
  const TaskAuthor: string := "PyCronVideoAlarm"

  /** The first trigger of a task: a one-time trigger (type 1), a weekly one (type 3) or another kind. */
  datatype Trigger =
    | TimeTrigger(start: DateTime)
    | WeeklyTrigger(start: DateTime, daysOfWeek: bv16)
    | OtherTrigger(kind: int)

  /**
   * A registered task as the service reports it. A property that raised when read is None;
   * `trigger` is None when the task has no first trigger.
   */
  datatype Task = Task(
    name: string,
    author: Option<string>,
    description: Option<string>,
    trigger: Option<Trigger>,
    path: string,
    arguments: string,
    enabled: bool)

  // ---------------------------------------------------------------- weekday mask

  /** The weekdays in the order of the DaysOfWeek bits. */
  const WinOrder: seq<string> := ["SUN", "MON", "TUE", "WED", "THU", "FRI", "SAT"]

  /** `day_map.get(d, 0)`: SUN=1, MON=2, ..., SAT=64 */
  function WinDayBit(d: string): bv16 {
    if d == "SUN" then 1
    else if d == "MON" then 2
    else if d == "TUE" then 4
    else if d == "WED" then 8
    else if d == "THU" then 16
    else if d == "FRI" then 32
    else if d == "SAT" then 64
    else 0
  }

  /** The DaysOfWeek bit of the `k`-th weekday of `WinOrder`. */
  function Bit(k: nat): bv16
    requires k < 7
  {
    if k == 0 then 1 else if k == 1 then 2 else if k == 2 then 4 else if k == 3 then 8
    else if k == 4 then 16 else if k == 5 then 32 else 64
  }

  /** `mask & bit != 0` for the `k`-th weekday's bit */
  predicate HasBit(mask: bv16, k: nat)
    requires k < 7
  {
    mask & Bit(k) != 0
  }

  lemma DayBitOf(d: string, k: nat)
    requires k < 7
    ensures HasBit(WinDayBit(d), k) <==> d == WinOrder[k]
  {
  }

  lemma OrBit(a: bv16, b: bv16, c: bv16)
    requires c == 1 || c == 2 || c == 4 || c == 8 || c == 16 || c == 32 || c == 64
    ensures ((a | b) & c != 0) <==> (a & c != 0) || (b & c != 0)
  {
  }

  lemma OrHasBit(a: bv16, b: bv16, k: nat)
    requires k < 7
    ensures HasBit(a | b, k) <==> HasBit(a, k) || HasBit(b, k)
  {
    OrBit(a, b, Bit(k));
  }

  /** The bits the loop `mask |= day_map.get(d.upper(), 0)` accumulates. */
  function OrBits(days: seq<string>): bv16
    decreases |days|
  {
    if |days| == 0 then 0 else OrBits(days[..|days| - 1]) | WinDayBit(Upper(days[|days| - 1]))
  }

  /** The DaysOfWeek `add_alarm` gives a weekly trigger: every day for an empty list. */
  function WeeklyMask(days: seq<string>): bv16 {
    if |days| == 0 then 127 else OrBits(days)
  }

  /** Some day of the list names `n`, ignoring case. */
  predicate Present(days: seq<string>, n: string) {
    exists i :: 0 <= i < |days| && Upper(days[i]) == n
  }

  lemma PresentSnoc(days: seq<string>, n: string)
    requires |days| > 0
    ensures Present(days, n) <==> Present(days[..|days| - 1], n) || Upper(days[|days| - 1]) == n
  {
    var init := days[..|days| - 1];
    if Present(init, n) {
      var i :| 0 <= i < |init| && Upper(init[i]) == n;
      assert days[i] == init[i];
    }
    if Present(days, n) && Upper(days[|days| - 1]) != n {
      var i :| 0 <= i < |days| && Upper(days[i]) == n;
      assert i < |init| && init[i] == days[i];
    }
  }

  lemma {:induction false} OrBitsBit(days: seq<string>, k: nat)
    requires k < 7
    ensures HasBit(OrBits(days), k) <==> Present(days, WinOrder[k])
    decreases |days|
  {
    if |days| > 0 {
      var init := days[..|days| - 1];
      var a := OrBits(init);
      var b := WinDayBit(Upper(days[|days| - 1]));
      OrBitsBit(init, k);
      DayBitOf(Upper(days[|days| - 1]), k);
      OrHasBit(a, b, k);
      PresentSnoc(days, WinOrder[k]);
    }
  }

  /** The weekday names whose bits are set, from the `k`-th on, in SUN..SAT order. */
  function DecodeFrom(mask: bv16, k: nat): seq<string>
    requires k <= 7
    decreases 7 - k
  {
    if k == 7 then [] else (if HasBit(mask, k) then [WinOrder[k]] else []) + DecodeFrom(mask, k + 1)
  }

  /** The weekday names the list mentions, from the `k`-th on, in SUN..SAT order. */
  function Selected(days: seq<string>, k: nat): seq<string>
    requires k <= 7
    decreases 7 - k
  {
    if k == 7 then [] else (if Present(days, WinOrder[k]) then [WinOrder[k]] else []) + Selected(days, k + 1)
  }

  /** `Selected` holds exactly the weekdays the list names, each once. */
  lemma {:induction false} SelectedMeaning(days: seq<string>, k: nat)
    requires k <= 7
    ensures |Selected(days, k)| <= 7 - k
    ensures forall j :: 0 <= j < |Selected(days, k)| ==> Selected(days, k)[j] in WinOrder[k..] && Present(days, Selected(days, k)[j])
    ensures forall j :: k <= j < 7 && Present(days, WinOrder[j]) ==> WinOrder[j] in Selected(days, k)
    decreases 7 - k
  {
    if k < 7 {
      SelectedMeaning(days, k + 1);
      var rest := Selected(days, k + 1);
      assert WinOrder[k..] == [WinOrder[k]] + WinOrder[k + 1..];
      forall j | 0 <= j < |rest|
        ensures rest[j] in WinOrder[k..]
      {
      }
    }
  }

  lemma {:induction false} DecodeOrBits(days: seq<string>, k: nat)
    requires k <= 7
    ensures DecodeFrom(OrBits(days), k) == Selected(days, k)
    decreases 7 - k
  {
    if k < 7 {
      OrBitsBit(days, k);
      DecodeOrBits(days, k + 1);
    }
  }

  /** The mask 127 decodes to all seven days. */
  lemma {:induction false} DecodeAll(k: nat)
    requires k <= 7
    ensures DecodeFrom(127, k) == WinOrder[k..]
    decreases 7 - k
  {
    if k < 7 {
      assert HasBit(127, k);
      DecodeAll(k + 1);
      assert WinOrder[k..] == [WinOrder[k]] + WinOrder[k + 1..];
    }
  }

  /** The days text `_parse_task` shows for a task's first trigger. */
  function DaysDisplay(trigger: Option<Trigger>): string {
    match trigger
    case None => "?"
    case Some(TimeTrigger(_)) => "Once"
    case Some(WeeklyTrigger(_, mask)) =>
      var d := DecodeFrom(mask, 0);
      if |d| < 7 then Join(d, ",") else "Daily"
    case Some(OtherTrigger(_)) => "?"
  }

  /**
   * Weekly round trip: a weekly trigger built from a day list reads back as "Daily" when the list is
   * empty or names all seven days (in any case), and otherwise as the days it names, in SUN..SAT order.
   */
  lemma {:induction false} WeeklyDaysRoundTrip(start: DateTime, days: seq<string>)
    ensures DaysDisplay(Some(WeeklyTrigger(start, WeeklyMask(days))))
         == if |days| == 0 || |Selected(days, 0)| == 7 then "Daily" else Join(Selected(days, 0), ",")
  {
    var mask := WeeklyMask(days);
    if |days| == 0 {
      assert mask == 127;
      DecodeAll(0);
      assert WinOrder[0..] == WinOrder;
      DisplayOfDecoded(start, mask, WinOrder);
    } else {
      assert mask == OrBits(days);
      DecodeOrBits(days, 0);
      SelectedMeaning(days, 0);
      DisplayOfDecoded(start, mask, Selected(days, 0));
    }
  }

  /** A weekly trigger shows the days its mask decodes to, or "Daily" for all seven. */
  lemma {:induction false} DisplayOfDecoded(start: DateTime, mask: bv16, d: seq<string>)
    requires DecodeFrom(mask, 0) == d
    ensures DaysDisplay(Some(WeeklyTrigger(start, mask))) == if |d| < 7 then Join(d, ",") else "Daily"
  {
  }

  // ---------------------------------------------------------------- what add_alarm registers

  /** `f"PyCron|{sequence_name}|{HH:MM}"` */
  function Description(name: string, t: DateTime): string
    requires t.Valid()
  {
    "PyCron|" + name + "|" + HHMM(t)
  }

  /** `f"{sequence_name.replace(' ', '_')}_{HH}_{MM}"` */
  function TaskName(name: string, t: DateTime): string
    requires t.Valid()
  {
    ReplaceChar(name, ' ', '_') + "_" + Pad2(t.hour) + "_" + Pad2(t.minute)
  }

  /** The action's arguments: `["script"] --execute-sequence "<name>" [--delete-after]` */
  function Arguments(l: Launcher, name: string, oneTime: bool): string {
    (if l.frozen then "" else Quote(l.scriptPath) + " ")
    + "--execute-sequence " + Quote(name)
    + (if oneTime then " --delete-after" else "")
  }

  /** The task definition `add_alarm` registers; `mask` is the weekly DaysOfWeek. */
  function NewTask(t: DateTime, name: string, oneTime: bool, mask: bv16, l: Launcher): Task
    requires t.Valid()
  {
    Task(TaskName(name, t), Some(TaskAuthor), Some(Description(name, t)),
         Some(if oneTime then TimeTrigger(t) else WeeklyTrigger(t, mask)),
         l.executable, Arguments(l, name, oneTime), true)
  }

  /** The position of the first task called `name`. */
  function IndexOfName(tasks: seq<Task>, name: string): (r: Option<nat>)
    ensures r.Some? ==> r.value < |tasks| && tasks[r.value].name == name
    ensures r.None? ==> forall j :: 0 <= j < |tasks| ==> tasks[j].name != name
    decreases |tasks|
  {
    if |tasks| == 0 then None
    else if tasks[0].name == name then Some(0)
    else match IndexOfName(tasks[1..], name)
      case None => None
      case Some(k) => Some(k + 1)
  }

  /** `RegisterTaskDefinition(name, def, 6, ...)`: flag 6 creates the task or replaces the one of that name. */
  function Registered(tasks: seq<Task>, task: Task): (r: seq<Task>)
    ensures task in r
  {
    match IndexOfName(tasks, task.name)
    case None => tasks + [task]
    case Some(i) => assert tasks[i := task][i] == task; tasks[i := task]
  }

  /** Registering a task keeps every task of another name, and adds only the new one. */
  lemma RegisteredKeepsOthers(tasks: seq<Task>, task: Task)
    ensures forall x :: x in tasks && x.name != task.name ==> x in Registered(tasks, task)
    ensures forall x :: x in Registered(tasks, task) ==> x == task || x in tasks
    ensures IndexOfName(tasks, task.name).None? ==> Registered(tasks, task) == tasks + [task]
  {
    var r := Registered(tasks, task);
    match IndexOfName(tasks, task.name)
    case None =>
    case Some(i) =>
      forall x | x in tasks && x.name != task.name
        ensures x in r
      {
        var j :| 0 <= j < |tasks| && tasks[j] == x;
        assert r[j] == x;
      }
      forall x | x in r
        ensures x == task || x in tasks
      {
        var j :| 0 <= j < |r| && r[j] == x;
        if j != i {
          assert tasks[j] == x;
        }
      }
  }

  // ---------------------------------------------------------------- listing

  /** Strategy 1 of `_parse_task`: the description metadata. */
  function MetadataEntry(t: Task): Option<ListedAlarm> {
    match t.description
    case None => None
    case Some(desc) =>
      if desc != "" && StartsWith(desc, "PyCron|") && |Split(desc, '|')| >= 3 then
        var parts := Split(desc, '|');
        Some(ListedAlarm(parts[2], parts[1], DayText(DaysDisplay(t.trigger)), t.enabled))
      else None
  }

  /** Strategy 2 of `_parse_task`: a legacy name `<sequence>_<hh>_<mm>` with integer fields. */
  function FilenameEntry(t: Task): Option<ListedAlarm> {
    var parts := RSplit2(t.name, '_');
    if Contains(t.name, "_") && |parts| == 3 && ParseInt(parts[1]).Some? && ParseInt(parts[2]).Some? then
      var days := if t.trigger.Some? && t.trigger.value.TimeTrigger? then "Once" else "?";
      Some(ListedAlarm(parts[1] + ":" + parts[2], parts[0], DayText(days), t.enabled))
    else None
  }

  /** `_parse_task`: the metadata if it parses, otherwise the legacy name, otherwise nothing. */
  function ParseTask(t: Task): Option<ListedAlarm> {
    if MetadataEntry(t).Some? then MetadataEntry(t) else FilenameEntry(t)
  }

  /** Root-folder safety: a root task counts only when its author is the application. */
  predicate Considered(t: Task, isRoot: bool) {
    !isRoot || t.author == Some(TaskAuthor)
  }

  function TaskEntry(t: Task, isRoot: bool): seq<ListedAlarm> {
    if Considered(t, isRoot) && ParseTask(t).Some? then [ParseTask(t).value] else []
  }

  /** What the scan of one folder contributes to `list_alarms`, in folder order. */
  function FolderListing(tasks: seq<Task>, isRoot: bool): seq<ListedAlarm>
    decreases |tasks|
  {
    if |tasks| == 0 then [] else FolderListing(tasks[..|tasks| - 1], isRoot) + TaskEntry(tasks[|tasks| - 1], isRoot)
  }

  /** Every parseable task of a folder that the scan considers shows in the folder's listing. */
  lemma {:induction false} TaskListed(tasks: seq<Task>, isRoot: bool, i: nat)
    requires i < |tasks| && Considered(tasks[i], isRoot) && ParseTask(tasks[i]).Some?
    ensures ParseTask(tasks[i]).value in FolderListing(tasks, isRoot)
    decreases |tasks|
  {
    if i < |tasks| - 1 {
      var init := tasks[..|tasks| - 1];
      assert init[i] == tasks[i];
      TaskListed(init, isRoot, i);
    }
  }

  /** Every entry of a root-folder listing comes from a task the application authored. */
  lemma {:induction false} RootListingAuthored(tasks: seq<Task>, k: nat)
    requires k < |FolderListing(tasks, true)|
    ensures exists i :: 0 <= i < |tasks| && tasks[i].author == Some(TaskAuthor) && ParseTask(tasks[i]) == Some(FolderListing(tasks, true)[k])
    decreases |tasks|
  {
    var init := tasks[..|tasks| - 1];
    if k < |FolderListing(init, true)| {
      RootListingAuthored(init, k);
      var i :| 0 <= i < |init| && init[i].author == Some(TaskAuthor) && ParseTask(init[i]) == Some(FolderListing(init, true)[k]);
      assert tasks[i] == init[i];
    } else {
      assert tasks[|tasks| - 1].author == Some(TaskAuthor);
    }
  }

  /**
   * Add-then-list: the task `add_alarm` registers lists with the alarm's `HH:MM`, its sequence name,
   * its days text and enabled, provided the name has no `|` in it.
   */
  lemma NewTaskEntry(t: DateTime, name: string, oneTime: bool, days: seq<string>, l: Launcher)
    requires t.Valid()
    requires Free(name, '|')
    ensures ParseTask(NewTask(t, name, oneTime, WeeklyMask(days), l))
         == Some(ListedAlarm(HHMM(t), name,
                  DayText(if oneTime then "Once"
                          else if |days| == 0 || |Selected(days, 0)| == 7 then "Daily"
                          else Join(Selected(days, 0), ",")),
                  true))
  {
    var desc := Description(name, t);
    assert Free("PyCron", '|');
    assert Free(HHMM(t), '|') by {
      assert HHMM(t) == Pad2(t.hour) + ":" + Pad2(t.minute);
      assert IsDigits(Pad2(t.hour)) && IsDigits(Pad2(t.minute));
    }
    SplitJoin(["PyCron", name, HHMM(t)], '|');
    assert Join([name, HHMM(t)], "|") == name + "|" + HHMM(t);
    assert Join(["PyCron", name, HHMM(t)], "|") == "PyCron" + "|" + (name + "|" + HHMM(t));
    assert desc == "PyCron" + "|" + (name + "|" + HHMM(t));
    assert StartsWith(desc, "PyCron|") by {
      assert desc[..7] == "PyCron|";
    }
    if !oneTime {
      WeeklyDaysRoundTrip(t, days);
    }
  }

  /**
   * Why the name must be free of `|`: the description of a sequence called `a|b` splits on
   * every `|`, so the listing reads it back as the sequence `a` at the time `b`.
   */
  lemma {:induction false} PipeNameMisread(t: DateTime, oneTime: bool, mask: bv16, l: Launcher)
    requires t.Valid()
    ensures var e := ParseTask(NewTask(t, "a|b", oneTime, mask, l));
            e.Some? && e.value.sequence == "a" && e.value.time == "b"
  {
    PipeDescriptionParts(t);
  }

  lemma {:induction false} PipeDescriptionParts(t: DateTime)
    requires t.Valid()
    ensures Split(Description("a|b", t), '|') == ["PyCron", "a", "b", HHMM(t)]
    ensures StartsWith(Description("a|b", t), "PyCron|")
  {
    var desc := Description("a|b", t);
    assert Free(HHMM(t), '|') by {
      assert HHMM(t) == Pad2(t.hour) + ":" + Pad2(t.minute);
      assert IsDigits(Pad2(t.hour)) && IsDigits(Pad2(t.minute));
    }
    var parts := ["PyCron", "a", "b", HHMM(t)];
    SplitJoin(parts, '|');
    var p1, p2, p3 := ["a", "b", HHMM(t)], ["b", HHMM(t)], [HHMM(t)];
    assert parts[1..] == p1 && p1[1..] == p2 && p2[1..] == p3;
    assert Join(p2, "|") == "b" + "|" + HHMM(t);
    assert Join(p1, "|") == "a" + "|" + ("b" + "|" + HHMM(t));
    assert Join(parts, "|") == "PyCron" + "|" + ("a" + "|" + ("b" + "|" + HHMM(t)));
    assert desc == Join(parts, "|");
    assert desc[..7] == "PyCron|";
  }

  /** Add-then-list on the application folder: after registering, the folder's listing shows the new alarm. */
  lemma RegisteredListed(tasks: seq<Task>, t: DateTime, name: string, oneTime: bool, days: seq<string>, l: Launcher)
    requires t.Valid()
    requires Free(name, '|')
    ensures ParseTask(NewTask(t, name, oneTime, WeeklyMask(days), l)).Some?
    ensures ParseTask(NewTask(t, name, oneTime, WeeklyMask(days), l)).value
            in FolderListing(Registered(tasks, NewTask(t, name, oneTime, WeeklyMask(days), l)), false)
  {
    var task := NewTask(t, name, oneTime, WeeklyMask(days), l);
    var r := Registered(tasks, task);
    NewTaskEntry(t, name, oneTime, days, l);
    var i :| 0 <= i < |r| && r[i] == task;
    TaskListed(r, false, i);
  }

  // ---------------------------------------------------------------- removal

  /** How a task matched a removal request. */
  datatype MatchKind = Metadata | Filename

  /** The match `remove_alarm` tests on one task, metadata first; a name field that is not an integer is no match. */
  function TaskMatch(t: Task, name: string, timeStr: string, hh: int, mm: int): Option<MatchKind> {
    if t.description.Some? && t.description.value != "" && StartsWith(t.description.value, "PyCron|" + name + "|" + timeStr) then
      Some(Metadata)
    else
      var parts := RSplit2(t.name, '_');
      if Contains(t.name, "_") && |parts| == 3
         && ParseInt(parts[1]) == Some(hh) && ParseInt(parts[2]) == Some(mm)
         && (parts[0] == name || parts[0] == ReplaceChar(name, ' ', '_'))
      then Some(Filename)
      else None
  }

  predicate Hit(t: Task, isRoot: bool, name: string, timeStr: string, hh: int, mm: int) {
    Considered(t, isRoot) && TaskMatch(t, name, timeStr, hh, mm).Some?
  }

  /** The position of the first task of a folder that the scan deletes. */
  function FirstHit(tasks: seq<Task>, isRoot: bool, name: string, timeStr: string, hh: int, mm: int): (r: Option<nat>)
    ensures r.Some? ==> r.value < |tasks| && Hit(tasks[r.value], isRoot, name, timeStr, hh, mm)
    ensures r.Some? ==> forall j :: 0 <= j < r.value ==> !Hit(tasks[j], isRoot, name, timeStr, hh, mm)
    ensures r.None? ==> forall j :: 0 <= j < |tasks| ==> !Hit(tasks[j], isRoot, name, timeStr, hh, mm)
  {
    FirstIndex(tasks, t => Hit(t, isRoot, name, timeStr, hh, mm))
  }

  /** The reply for a deletion. */
  function DeletedReply(t: Task, kind: MatchKind): Reply {
    Reply(true, "Deleted " + t.name + (if kind == Metadata then " (Metadata Match)" else " (Filename Match)"))
  }

  /**
   * Remove-after-add: a task `add_alarm` registered matches a removal for its sequence name at its
   * `HH:MM` (by metadata), and also at the unpadded `H:MM` the self-deleting run passes (by name).
   */
  lemma NewTaskMatches(t: DateTime, name: string, oneTime: bool, mask: bv16, l: Launcher)
    requires t.Valid()
    ensures ParseTime(HHMM(t)) == Ok((t.hour, t.minute))
    ensures TaskMatch(NewTask(t, name, oneTime, mask, l), name, HHMM(t), t.hour, t.minute) == Some(Metadata)
    ensures ParseTime(IntToString(t.hour) + ":" + Pad2(t.minute)) == Ok((t.hour, t.minute))
    ensures TaskMatch(NewTask(t, name, oneTime, mask, l), name, IntToString(t.hour) + ":" + Pad2(t.minute), t.hour, t.minute).Some?
  {
    HHMMParses(t);
    var desc := Description(name, t);
    assert StartsWith(desc, "PyCron|" + name + "|" + HHMM(t));
    UnpaddedTimeParses(t);
    NewTaskNameMatches(t, name);
  }

  lemma {:induction false} UnpaddedTimeParses(t: DateTime)
    requires t.Valid()
    ensures ParseTime(IntToString(t.hour) + ":" + Pad2(t.minute)) == Ok((t.hour, t.minute))
  {
    var hs := NatToString(t.hour);
    var mm := Pad2(t.minute);
    assert IntToString(t.hour) == hs;
    Pad2Parses(t.minute);
    ParseIntOfNat(t.hour);
    assert Free(hs, ':') && Free(mm, ':');
    ParseTimeOfPair(hs, mm, t.hour, t.minute);
  }

  /** The name `add_alarm` gives a task passes the legacy name match for its own sequence and time. */
  lemma NewTaskNameMatches(t: DateTime, name: string)
    requires t.Valid()
    ensures var parts := RSplit2(TaskName(name, t), '_');
            && Contains(TaskName(name, t), "_") && |parts| == 3
            && ParseInt(parts[1]) == Some(t.hour) && ParseInt(parts[2]) == Some(t.minute)
            && parts[0] == ReplaceChar(name, ' ', '_')
  {
    var hh := Pad2(t.hour);
    var mm := Pad2(t.minute);
    var safe := ReplaceChar(name, ' ', '_');
    assert IsDigits(hh) && IsDigits(mm);
    assert Free(hh, '_') && Free(mm, '_');
    assert TaskName(name, t) == safe + ['_'] + hh + ['_'] + mm;
    RSplit2Fields(safe, '_', hh, mm);
    assert TaskName(name, t) == safe + "_" + (hh + "_" + mm);
    ContainsMiddle(safe, "_", hh + "_" + mm);
    Pad2Parses(t.hour);
    Pad2Parses(t.minute);
  }

  // ---------------------------------------------------------------- the adapter

  class WindowsScheduler {
    /** `self.root_folder` was obtained */
    const hasRoot: bool
    /** `self.task_folder` was obtained or created (so the service object exists too) */
    const hasFolder: bool
    /** The tasks of the root folder `\` */
    var rootTasks: seq<Task>
    /** The tasks of the application's folder */
    var folderTasks: seq<Task>

    /**
     * `native` is false without pywin32 or off win32; `root` is None when dispatching, connecting or
     * opening the root folder failed; `folder` is None when the application folder does not exist,
     * in which case it is created empty unless `createFails`.
     */
    constructor (native: bool, root: Option<seq<Task>>, folder: Option<seq<Task>>, createFails: bool)
      ensures hasRoot <==> native && root.Some?
      ensures hasFolder <==> hasRoot && (folder.Some? || !createFails)
      ensures hasRoot ==> rootTasks == root.value
      ensures hasFolder ==> folderTasks == folder.GetOr([])
      ensures !hasFolder ==> folderTasks == []
    {
      if native && root.Some? {
        hasRoot := true;
        rootTasks := root.value;
        if folder.Some? {
          hasFolder := true;
          folderTasks := folder.value;
        } else if !createFails {
          hasFolder := true;
          folderTasks := [];
        } else {
          hasFolder := false;
          folderTasks := [];
        }
      } else {
        hasRoot := false;
        hasFolder := false;
        rootTasks := [];
        folderTasks := [];
      }
    }

    /**
     * `add_alarm`: builds the definition (the weekly mask in a loop over the days) and registers it
     * in the application folder under its name, replacing a task of the same name.
     */
    method AddAlarm(t: DateTime, name: string, days: seq<string>, oneTime: bool, l: Launcher,
                    registerFailure: Option<string>) returns (r: Reply)
      requires t.Valid()
      modifies this
      ensures rootTasks == old(rootTasks)
      ensures !hasFolder ==> r == Reply(false, "Scheduler not initialized") && folderTasks == old(folderTasks)
      ensures hasFolder && registerFailure.Some? ==>
                r == Reply(false, "Failed to create task: " + registerFailure.value) && folderTasks == old(folderTasks)
      ensures hasFolder && registerFailure.None? ==>
                r == Reply(true, "Alarm set for " + HHMM(t))
                && folderTasks == Registered(old(folderTasks), NewTask(t, name, oneTime, WeeklyMask(days), l))
    {
      if !hasFolder {
        return Reply(false, "Scheduler not initialized");
      }
      var mask: bv16 := 0;
      if |days| == 0 {
        mask := 127;
      } else {
        var i := 0;
        while i < |days|
          invariant 0 <= i <= |days|
          invariant mask == OrBits(days[..i])
        {
          assert days[..i + 1][..i] == days[..i];
          mask := mask | WinDayBit(Upper(days[i]));
          i := i + 1;
        }
        assert days[..i] == days;
      }
      if registerFailure.Some? {
        return Reply(false, "Failed to create task: " + registerFailure.value);
      }
      folderTasks := Registered(folderTasks, NewTask(t, name, oneTime, mask, l));
      r := Reply(true, "Alarm set for " + HHMM(t));
    }

    /** `list_alarms`: the application folder's tasks, then the root folder's own tasks. */
    method ListAlarms() returns (alarms: seq<ListedAlarm>)
      ensures alarms == (if hasFolder then FolderListing(folderTasks, false) else [])
                        + (if hasRoot then FolderListing(rootTasks, true) else [])
    {
      var fromFolder: seq<ListedAlarm> := [];
      var fromRoot: seq<ListedAlarm> := [];
      if hasFolder {
        fromFolder := ListFolder(folderTasks, false);
      }
      if hasRoot {
        fromRoot := ListFolder(rootTasks, true);
      }
      alarms := fromFolder + fromRoot;
    }

    /** The scan of one folder inside `list_alarms`. */
    static method ListFolder(tasks: seq<Task>, isRoot: bool) returns (alarms: seq<ListedAlarm>)
      ensures alarms == FolderListing(tasks, isRoot)
    {
      alarms := [];
      var i := 0;
      while i < |tasks|
        invariant 0 <= i <= |tasks|
        invariant alarms == FolderListing(tasks[..i], isRoot)
      {
        assert tasks[..i + 1][..i] == tasks[..i];
        if Considered(tasks[i], isRoot) {
          var alarm := ParseTask(tasks[i]);
          if alarm.Some? {
            alarms := alarms + [alarm.value];
          }
        }
        i := i + 1;
      }
      assert tasks[..i] == tasks;
    }

    /**
     * `remove_alarm`: deletes the first task that matches, scanning the application folder and then
     * the root folder's own tasks, and reports how it matched.
     */
    method RemoveAlarm(name: string, timeStr: string) returns (r: Reply)
      modifies this
      ensures !hasRoot ==> r == Reply(false, "Scheduler not initialized") && unchanged(this)
      ensures hasRoot && ParseTime(timeStr).Err? ==>
                r == Reply(false, "Error removing alarm: " + ParseTime(timeStr).message) && unchanged(this)
      ensures hasRoot && ParseTime(timeStr).Ok? ==>
                var (hh, mm) := ParseTime(timeStr).value;
                var inFolder := if hasFolder then FirstHit(old(folderTasks), false, name, timeStr, hh, mm) else None;
                var inRoot := FirstHit(old(rootTasks), true, name, timeStr, hh, mm);
                if inFolder.Some? then
                  && folderTasks == RemoveAt(old(folderTasks), inFolder.value) && rootTasks == old(rootTasks)
                  && r == DeletedReply(old(folderTasks)[inFolder.value], TaskMatch(old(folderTasks)[inFolder.value], name, timeStr, hh, mm).value)
                else if inRoot.Some? then
                  && rootTasks == RemoveAt(old(rootTasks), inRoot.value) && folderTasks == old(folderTasks)
                  && r == DeletedReply(old(rootTasks)[inRoot.value], TaskMatch(old(rootTasks)[inRoot.value], name, timeStr, hh, mm).value)
                else
                  unchanged(this) && r == Reply(false, "Alarm '" + name + "' at " + timeStr + " not found.")
    {
      if !hasRoot {
        return Reply(false, "Scheduler not initialized");
      }
      var parsed := ParseTime(timeStr);
      if parsed.Err? {
        return Reply(false, "Error removing alarm: " + parsed.message);
      }
      var (hh, mm) := parsed.value;
      if hasFolder {
        var at := ScanFolder(folderTasks, false, name, timeStr, hh, mm);
        if at.Some? {
          var task := folderTasks[at.value];
          folderTasks := RemoveAt(folderTasks, at.value);
          return DeletedReply(task, TaskMatch(task, name, timeStr, hh, mm).value);
        }
      }
      var at := ScanFolder(rootTasks, true, name, timeStr, hh, mm);
      if at.Some? {
        var task := rootTasks[at.value];
        rootTasks := RemoveAt(rootTasks, at.value);
        return DeletedReply(task, TaskMatch(task, name, timeStr, hh, mm).value);
      }
      r := Reply(false, "Alarm '" + name + "' at " + timeStr + " not found.");
    }

    /** The scan of one folder inside `remove_alarm`: the first task to delete. */
    static method ScanFolder(tasks: seq<Task>, isRoot: bool, name: string, timeStr: string, hh: int, mm: int) returns (at: Option<nat>)
      ensures at == FirstHit(tasks, isRoot, name, timeStr, hh, mm)
    {
      at := Scan(tasks, t => Hit(t, isRoot, name, timeStr, hh, mm));
    }

    /**
     * `get_debug_info`; `status(t)` is the task's State and NextRunTime as the service reports them.
     */
    method DebugInfo(status: Task -> (int, string)) returns (info: string)
      ensures !hasRoot ==> info == "Windows Scheduler not initialized."
      ensures hasRoot ==> info == Join(["=== Windows Scheduler Debug Info ==="]
                                       + (if hasFolder then ["\n[PYCRON FOLDER]"] + TaskLines(folderTasks, false, status) else [])
                                       + ["\n[ROOT COMMANDS]"] + TaskLines(rootTasks, true, status), "\n")
    {
      if !hasRoot {
        return "Windows Scheduler not initialized.";
      }
      var folderPart := if hasFolder then ["\n[PYCRON FOLDER]"] + TaskLines(folderTasks, false, status) else [];
      info := Join(["=== Windows Scheduler Debug Info ==="] + folderPart + ["\n[ROOT COMMANDS]"] + TaskLines(rootTasks, true, status), "\n");
    }
  }

  /** The debug lines of one folder's tasks; root tasks not authored by the application are skipped. */
  function TaskLines(tasks: seq<Task>, isRoot: bool, status: Task -> (int, string)): seq<string>
    decreases |tasks|
  {
    if |tasks| == 0 then []
    else
      var t := tasks[0];
      (if Considered(t, isRoot) then TaskDetail(t, status) else []) + TaskLines(tasks[1..], isRoot, status)
  }

  /** Name and state always; author, description and next run time while the properties can be read. */
  function TaskDetail(t: Task, status: Task -> (int, string)): seq<string> {
    ["  - Name: " + t.name,
     "    State: " + IntToString(status(t).0) + " (Enabled: " + BoolText(t.enabled) + ")"]
    + match t.author
      case None => []
      case Some(a) =>
        ["    Author: " + a]
        + match t.description
          case None => []
          case Some(d) => ["    Desc: " + d, "    Next Run: " + status(t).1]
  }
}
