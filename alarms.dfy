/** Values shared by every scheduler adapter: the alarm time, replies and the listing contract. */
module Alarms {
  import opened Wrappers
  import opened Strings

  /** A local wall-clock date and time (Python's datetime, to the minute). */
  datatype DateTime = DateTime(year: int, month: int, day: int, hour: int, minute: int) {
    /** The ranges Python's datetime guarantees for its fields. */
    predicate Valid() {
      1 <= year && 1 <= month <= 12 && 1 <= day <= 31 && 0 <= hour < 24 && 0 <= minute < 60
    }
  }

  /** `t.strftime('%H:%M')` */
  function HHMM(t: DateTime): (s: string)
    requires t.Valid()
    ensures |s| == 5 && s[2] == ':'
  {
    Pad2(t.hour) + ":" + Pad2(t.minute)
  }

  /** The text of the ValueError `int(p)` raises. */
  function IntError(p: string): string {
    "invalid literal for int() with base 10: '" + p + "'"
  }

  /**
   * `hour, minute = map(int, time_str.split(":"))`: the conversions run left to right and the
   * unpacking stops at the first failure, so the error is the first bad part or the wrong count.
   */
  function ParseTime(s: string): (r: Result<(int, int)>)
    ensures r.Ok? <==> |Split(s, ':')| == 2 && ParseInt(Split(s, ':')[0]).Some? && ParseInt(Split(s, ':')[1]).Some?
    ensures r.Ok? ==> r.value == (ParseInt(Split(s, ':')[0]).value, ParseInt(Split(s, ':')[1]).value)
  {
    var parts := Split(s, ':');
    match ParseInt(parts[0])
    case None => Err(IntError(parts[0]))
    case Some(h) =>
      if |parts| < 2 then Err("not enough values to unpack (expected 2, got 1)")
      else match ParseInt(parts[1])
        case None => Err(IntError(parts[1]))
        case Some(m) =>
          if |parts| == 2 then Ok((h, m))
          else if ParseInt(parts[2]).None? then Err(IntError(parts[2]))
          else Err("too many values to unpack (expected 2)")
  }

  /** Two colon-free parts that `int` accepts read back as that hour and minute. */
  lemma {:induction false} ParseTimeOfPair(hh: string, mm: string, h: int, m: int)
    requires Free(hh, ':') && Free(mm, ':')
    requires ParseInt(hh) == Some(h) && ParseInt(mm) == Some(m)
    ensures ParseTime(hh + ":" + mm) == Ok((h, m))
  {
    assert hh + ":" + mm == hh + [':'] + mm;
    SplitTwo(hh, ':', mm);
  }

  /** `t.strftime('%H:%M')` reads back as the time's hour and minute. */
  lemma {:induction false} HHMMParses(t: DateTime)
    requires t.Valid()
    ensures ParseTime(HHMM(t)) == Ok((t.hour, t.minute))
  {
    var hh := Pad2(t.hour);
    var mm := Pad2(t.minute);
    Pad2Parses(t.hour);
    Pad2Parses(t.minute);
    assert Free(hh, ':') && Free(mm, ':');
    ParseTimeOfPair(hh, mm, t.hour, t.minute);
  }

  /** `"True"` / `"False"` as Python prints a boolean */
  function BoolText(b: bool): string {
    if b then "True" else "False"
  }

  /** `os.environ.get(key, 'not set')` */
  function EnvOr(env: map<string, string>, key: string): string {
    if key in env then env[key] else "not set"
  }

  /** The `(success, message)` tuple every adapter operation returns. */
  datatype Reply = Reply(ok: bool, message: string)

  /** The `days` value of a listed alarm: a list on the cron adapters, one string on Task Scheduler. */
  datatype Days = DayList(names: seq<string>) | DayText(text: string)

  /** One entry of `list_alarms()`: `{time, sequence, days, enabled}`. */
  datatype ListedAlarm = ListedAlarm(time: string, sequence: string, days: Days, enabled: bool)

  /** How the application was started: as a frozen bundle, or as `python main.py`. */
  datatype Launcher = Launcher(frozen: bool, executable: string, scriptPath: string)
}
