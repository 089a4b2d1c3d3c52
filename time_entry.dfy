/**
 * The alarm form of the main window: the 24-hour and 12-hour time entries kept in step, the
 * per-entry validation, the seven day check boxes, the request `set_alarm` builds from them,
 * and the clamped sleep offset saved to the settings.
 */
module TimeEntry {
  import opened Wrappers
  import opened Strings
  import opened Json
  import opened Alarms
  import Config

  /** The keys of `day_vars`, in the order the check boxes are created */
  const DayNames: seq<string> := ["MON", "TUE", "WED", "THU", "FRI", "SAT", "SUN"]

  /** The value `while num > top: num -= size` leaves in `num`. */
  function Wrapped(n: nat, size: nat, top: nat): (r: nat)
    requires 0 < size <= top + 1
    ensures r <= top && (n <= top ==> r == n)
    decreases n
  {
    if n > top then Wrapped(n - size, size, top) else n
  }

  /** The value the reduction loops of `validate_and_adjust` leave in `num`. */
  function Reduced(n: nat, isHour: bool, is24Hour: bool): (r: nat)
    ensures isHour && is24Hour ==> r < 24 && (n < 24 ==> r == n)
    ensures isHour && !is24Hour ==> 1 <= r <= 12 && (1 <= n <= 12 ==> r == n)
    ensures !isHour ==> r < 60 && (n < 60 ==> r == n)
  {
    if !isHour then Wrapped(n, 60, 59)
    else if is24Hour then Wrapped(n, 24, 23)
    else
      var r := Wrapped(n, 12, 12);
      if r == 0 then 12 else r
  }

  /**
   * What `validate_and_adjust` leaves in an entry holding `value`: None when the entry is left as
   * it is. The non-digits are dropped; an entry with no digit is reset to "00" on focus-out only.
   */
  function Adjusted(value: string, isHour: bool, is24Hour: bool, focusOut: bool): Option<string> {
    var digits := Keep(value, IsDigit);
    if digits == "" then (if focusOut then Some("00") else None)
    else Some(Pad2(Reduced(DigitsValue(digits), isHour, is24Hour)))
  }

  /** `validate_and_adjust`, bound to one entry (`is_hour`, `is_24hour`) and fired by `event`. */
  method ValidateAndAdjust(value: string, isHour: bool, is24Hour: bool, focusOut: bool) returns (text: Option<string>)
    ensures text == Adjusted(value, isHour, is24Hour, focusOut)
    ensures text.None? <==> !focusOut && Keep(value, IsDigit) == ""
    ensures text.Some? ==> |text.value| == 2 && IsDigits(text.value)
  {
    if value == "" {
      return if focusOut then Some("00") else None;
    }
    var digits := Keep(value, IsDigit);
    if digits == "" {
      // int("") raises ValueError
      return if focusOut then Some("00") else None;
    }
    var n := DigitsValue(digits);
    var num := n;
    if isHour {
      if is24Hour {
        while num >= 24
          invariant Wrapped(num, 24, 23) == Wrapped(n, 24, 23)
        {
          num := num - 24;
        }
      } else {
        while num > 12
          invariant Wrapped(num, 12, 12) == Wrapped(n, 12, 12)
        {
          num := num - 12;
        }
        if num == 0 {
          num := 12;
        }
      }
    } else {
      var extraHours := 0;
      while num >= 60
        invariant Wrapped(num, 60, 59) == Wrapped(n, 60, 59)
      {
        num := num - 60;
        extraHours := extraHours + 1;
      }
    }
    assert num == Reduced(n, isHour, is24Hour);
    text := Some(Pad2(num));
  }

  /** The entries of the form. */
  datatype Fields = Fields(militaryHour: string, militaryMinute: string, ampmHour: string, ampmMinute: string, period: string)

  /** `int(text or default)` */
  function IntOr(text: string, default: int): Option<int> {
    if text == "" then Some(default) else ParseInt(text)
  }

  /** The 12-hour normalisation of `sync_time_formats` and `handle_ampm_change`. */
  function Normalised12(h: int): (r: int)
    ensures 1 <= r <= 12
    ensures 1 <= h <= 12 ==> r == h
  {
    var h1 := if h < 1 then 12 else if h > 12 then h % 12 else h;
    if h1 == 0 then 12 else h1
  }

  function CappedMinute(m: int): (r: int)
    ensures r <= 59 && (m <= 59 ==> r == m)
  {
    if m > 59 then 59 else m
  }

  /** The 12-hour reading of a 12-hour clock hour and period, as a 24-hour hour. */
  function To24(h: int, period: string): (r: int)
    ensures 1 <= h <= 12 ==> 0 <= r <= 23
  {
    if period == "PM" && h < 12 then h + 12
    else if period == "AM" && h == 12 then 0
    else h
  }

  /** The 24-hour hour shown on the 12-hour clock, with its period. */
  function From24(h: int): (r: (int, string))
    ensures 0 <= h <= 23 ==> 1 <= r.0 <= 12
    ensures r.1 == "PM" <==> h >= 12
    ensures r.1 == "AM" <==> h < 12
  {
    if h >= 12 then (if h > 12 then h - 12 else h, "PM")
    else (if h == 0 then 12 else h, "AM")
  }

  /** Converting 24h to 12h and back is the identity on 0..23. */
  lemma To24From24(h: int)
    requires 0 <= h <= 23
    ensures To24(From24(h).0, From24(h).1) == h
  {
  }

  /** Converting 12h to 24h and back is the identity on 1..12 AM/PM. */
  lemma From24To24(h: int, period: string)
    requires 1 <= h <= 12 && (period == "AM" || period == "PM")
    ensures From24(To24(h, period)) == (h, period)
  {
  }

  /** `sync_time_formats` fired from a 12-hour entry: the 24-hour entries follow them. */
  function Synced12(f: Fields): Fields {
    var h0, m0 := IntOr(f.ampmHour, 12), IntOr(f.ampmMinute, 0);
    if h0.None? || m0.None? then f else Shown12(h0.value, m0.value, f.period)
  }

  /** The entries the 12h to 24h branch writes for the hour, minute and period it read. */
  function Shown12(h0: int, m0: int, period: string): Fields {
    var h := Normalised12(h0);
    var m := CappedMinute(m0);
    Fields(Pad2(To24(h, period)), Pad2(m), Pad2(h), Pad2(m), period)
  }

  /** The entries the 24h to 12h branch writes for the hour and minute it read. */
  function Shown24(h0: int, m0: int): Fields {
    var h := if h0 > 23 then h0 % 24 else h0;
    var m := CappedMinute(m0);
    Fields(Pad2(h), Pad2(m), Pad2(From24(h).0), Pad2(m), From24(h).1)
  }

  /** `sync_time_formats` otherwise: the 12-hour entries and the period follow the 24-hour entries. */
  function Synced24(f: Fields): Fields {
    var h0, m0 := IntOr(f.militaryHour, 0), IntOr(f.militaryMinute, 0);
    if h0.None? || m0.None? then f else Shown24(h0.value, m0.value)
  }

  /** `handle_ampm_change`: only the hours are rewritten. */
  function AmpmChanged(f: Fields): Fields {
    match IntOr(f.ampmHour, 12)
    case Some(h0) =>
      var h := Normalised12(h0);
      f.(ampmHour := Pad2(h), militaryHour := Pad2(To24(h, f.period)))
    case None => f
  }

  /** The time entries after `edit_selected_alarm` reads an alarm's "HH:MM": a time that does not parse leaves them as they were. */
  function TimeEdited(f: Fields, timeStr: string): Fields {
    match ParseTime(timeStr)
    case Ok((h, m)) => Synced24(f.(militaryHour := Pad2(h), militaryMinute := Pad2(m)))
    case Err(_) => f
  }

  /** Editing an alarm at a valid time shows that time on the 24-hour clock and the same instant on the 12-hour clock. */
  lemma EditShowsTime(f: Fields, timeStr: string, h: int, m: int)
    requires ParseTime(timeStr) == Ok((h, m)) && 0 <= h <= 23 && 0 <= m <= 59
    ensures TimeEdited(f, timeStr) == Fields(Pad2(h), Pad2(m), Pad2(From24(h).0), Pad2(m), From24(h).1)
    ensures To24(From24(h).0, From24(h).1) == h
  {
    var g := f.(militaryHour := Pad2(h), militaryMinute := Pad2(m));
    TimeEditedParsed(f, timeStr, h, m);
    Pad2Reads(h, 0);
    Pad2Reads(m, 0);
    assert IntOr(g.militaryHour, 0) == Some(h) && IntOr(g.militaryMinute, 0) == Some(m);
    assert Synced24(g) == Shown24(h, m);
  }

  lemma TimeEditedParsed(f: Fields, timeStr: string, h: int, m: int)
    requires ParseTime(timeStr) == Ok((h, m))
    ensures TimeEdited(f, timeStr) == Synced24(f.(militaryHour := Pad2(h), militaryMinute := Pad2(m)))
  {
  }

  lemma Pad2Reads(n: nat, default: int)
    ensures IntOr(Pad2(n), default) == Some(n)
  {
    Pad2Parses(n);
  }

  /** Once the 12-hour entries follow the 24-hour ones, syncing from the 12-hour side changes nothing. */
  lemma SyncedFrom24Stays(f: Fields)
    requires IntOr(f.militaryHour, 0).Some? && IntOr(f.militaryHour, 0).value >= 0
    requires IntOr(f.militaryMinute, 0).Some? && IntOr(f.militaryMinute, 0).value >= 0
    ensures Synced12(Synced24(f)) == Synced24(f)
  {
    var h0, m0 := IntOr(f.militaryHour, 0).value, IntOr(f.militaryMinute, 0).value;
    var h := if h0 > 23 then h0 % 24 else h0;
    var m := CappedMinute(m0);
    var h12, period := From24(h).0, From24(h).1;
    var g := Synced24(f);
    assert g == Fields(Pad2(h), Pad2(m), Pad2(h12), Pad2(m), period);
    Pad2Reads(h12, 12);
    Pad2Reads(m, 0);
    assert Normalised12(h12) == h12 && CappedMinute(m) == m;
    To24From24(h);
    assert Synced12(g) == Fields(Pad2(To24(h12, period)), Pad2(m), Pad2(h12), Pad2(m), period);
  }

  /** Once the 24-hour entries follow the 12-hour ones, syncing from the 24-hour side changes nothing. */
  lemma {:induction false} SyncedFrom12Stays(f: Fields)
    requires f.period == "AM" || f.period == "PM"
    requires IntOr(f.ampmHour, 12).Some?
    requires IntOr(f.ampmMinute, 0).Some? && IntOr(f.ampmMinute, 0).value >= 0
    ensures Synced24(Synced12(f)) == Synced12(f)
  {
    var h := Normalised12(IntOr(f.ampmHour, 12).value);
    var m := CappedMinute(IntOr(f.ampmMinute, 0).value);
    var h24 := To24(h, f.period);
    var g := Synced12(f);
    assert g == Fields(Pad2(h24), Pad2(m), Pad2(h), Pad2(m), f.period);
    Pad2Reads(h24, 0);
    Pad2Reads(m, 0);
    From24To24(h, f.period);
    assert Synced24(g) == Shown24(h24, m);
    assert CappedMinute(m) == m;
  }

  /** Every 24-hour hour the 12-hour side writes is a valid hour. */
  lemma Synced12Hour(f: Fields)
    requires IntOr(f.ampmHour, 12).Some? && IntOr(f.ampmMinute, 0).Some?
    ensures var h := ParseInt(Synced12(f).militaryHour); h.Some? && 0 <= h.value <= 23
  {
    var h := Normalised12(IntOr(f.ampmHour, 12).value);
    Pad2Parses(To24(h, f.period));
  }

  /** The days `edit_selected_alarm` checks for a listed days string: its comma-separated parts, stripped and upper-cased. */
  function DayTokens(daysStr: string): seq<string> {
    var parts := Split(daysStr, ',');
    seq(|parts|, i requires 0 <= i < |parts| => Upper(Strip(parts[i])))
  }

  /** The check boxes after `edit_selected_alarm` reads a days string. */
  function DaysFrom(daysStr: string): map<string, bool> {
    map d | d in DayNames :: DayChecked(daysStr, d)
  }

  predicate DayChecked(daysStr: string, d: string) {
    if Contains(daysStr, "Daily") then true
    else if Contains(daysStr, "Once") || daysStr == "" then false
    else d in DayTokens(daysStr)
  }

  /** `", ".join(days)` as a join on "," of the parts after the first prefixed with a space */
  function Spaced(days: seq<string>): (r: seq<string>)
    ensures |r| == |days|
    ensures forall i :: 0 < i < |days| ==> r[i] == " " + days[i]
    ensures |days| > 0 ==> r[0] == days[0]
  {
    if |days| == 0 then [] else [days[0]] + seq(|days| - 1, i requires 0 <= i < |days| - 1 => " " + days[i + 1])
  }

  lemma {:induction false} JoinSpaced(days: seq<string>)
    ensures Join(days, ", ") == Join(Spaced(days), ",")
    decreases |days|
  {
    if |days| > 1 {
      var rest := days[1..];
      JoinSpaced(rest);
      var sp := Spaced(days);
      assert sp[1..] == [" " + rest[0]] + Spaced(rest)[1..];
      assert Join(days, ", ") == days[0] + ", " + Join(rest, ", ");
      assert Join(sp, ",") == days[0] + "," + Join(sp[1..], ",");
      if |rest| == 1 {
        assert Join(sp[1..], ",") == " " + rest[0];
      } else {
        assert Join(sp[1..], ",") == " " + rest[0] + "," + Join(Spaced(rest)[1..], ",");
        assert Join(Spaced(rest), ",") == rest[0] + "," + Join(Spaced(rest)[1..], ",");
      }
    }
  }

  /** Three upper-case letters, as every day name is. */
  predicate Word(d: string) {
    |d| == 3 && forall k :: 0 <= k < 3 ==> 'A' <= d[k] <= 'Z'
  }

  lemma DayNamesAreWords(d: string)
    requires d in DayNames
    ensures Word(d)
  {
  }

  /** A day name, with or without the space `", ".join` puts before it, reads back as itself. */
  lemma {:induction false} WordToken(p: string, d: string)
    requires Word(d) && (p == d || p == " " + d)
    ensures Free(p, ',') && Upper(Strip(p)) == d
  {
    assert !IsSpace(d[0]) && !IsSpace(d[2]);
    assert TrimLeft(d) == d;
    if p != d {
      assert p[1..] == d;
    }
    assert TrimLeft(p) == d;
    assert TrimRight(d) == d;
    assert Upper(d) == d;
  }

  lemma {:induction false} WordFree(d: string, c: char)
    requires Word(d) && !('A' <= c <= 'Z')
    ensures Free(d, c)
  {
  }

  /** The stripped, upper-cased parts of `", ".join(days)` are the days themselves. */
  lemma {:induction false} SpacedWord(days: seq<string>, i: nat)
    requires i < |days| && Word(days[i])
    ensures Free(Spaced(days)[i], ',') && Upper(Strip(Spaced(days)[i])) == days[i]
  {
    WordToken(Spaced(days)[i], days[i]);
  }

  lemma {:induction false} TokensOfJoin(days: seq<string>)
    requires |days| > 0 && forall i :: 0 <= i < |days| ==> Word(days[i])
    ensures DayTokens(Join(days, ", ")) == days
  {
    var sp := Spaced(days);
    var s := Join(days, ", ");
    JoinSpaced(days);
    forall i | 0 <= i < |sp|
      ensures Free(sp[i], ',')
    {
      SpacedWord(days, i);
    }
    SplitJoin(sp, ',');
    assert Split(s, ',') == sp;
    var t := DayTokens(s);
    assert |t| == |days|;
    forall i | 0 <= i < |t|
      ensures t[i] == days[i]
    {
      SpacedWord(days, i);
      assert t[i] == Upper(Strip(sp[i]));
    }
  }

  /** A listed days string made of day names (`", ".join(alarm['days'])`) checks exactly those days. */
  lemma {:induction false} DaysTextRoundTrip(days: seq<string>)
    requires |days| > 0 && forall i :: 0 <= i < |days| ==> days[i] in DayNames
    ensures forall d :: d in DayNames ==> (DaysFrom(Join(days, ", "))[d] <==> d in days)
  {
    AllWords(days);
    JoinedDaysPlain(days);
    DaysFromTokens(Join(days, ", "), days);
  }

  lemma {:induction false} AllWords(days: seq<string>)
    requires forall i :: 0 <= i < |days| ==> days[i] in DayNames
    ensures forall i :: 0 <= i < |days| ==> Word(days[i])
  {
    forall i | 0 <= i < |days|
      ensures Word(days[i])
    {
      DayNamesAreWords(days[i]);
    }
  }

  /** A join of words on `", "` holds no character a word cannot hold. */
  lemma {:induction false} JoinedWordsFree(days: seq<string>, c: char)
    requires forall i :: 0 <= i < |days| ==> Word(days[i])
    requires !('A' <= c <= 'Z') && c != ',' && c != ' '
    ensures Free(Join(days, ", "), c)
  {
    forall i | 0 <= i < |days|
      ensures Free(days[i], c)
    {
      WordFree(days[i], c);
    }
    JoinFree(days, ", ", c);
  }

  /** Such a string is not empty, mentions neither `Daily` nor `Once`, and splits back into the days. */
  lemma {:induction false} JoinedDaysPlain(days: seq<string>)
    requires |days| > 0 && forall i :: 0 <= i < |days| ==> Word(days[i])
    ensures var s := Join(days, ", ");
            s != "" && !Contains(s, "Daily") && !Contains(s, "Once") && DayTokens(s) == days
  {
    var s := Join(days, ", ");
    TokensOfJoin(days);
    JoinedWordsFree(days, 'a');
    JoinedWordsFree(days, 'n');
    MissingChar(s, "Daily", 'a');
    MissingChar(s, "Once", 'n');
    assert s != "" by {
      assert Split("", ',') == [""];
    }
  }

  /** A plain days string checks exactly the days among its tokens. */
  lemma {:induction false} DaysFromTokens(s: string, days: seq<string>)
    requires s != "" && !Contains(s, "Daily") && !Contains(s, "Once") && DayTokens(s) == days
    ensures forall d :: d in DayNames ==> (DaysFrom(s)[d] <==> d in days)
  {
    forall d | d in DayNames
      ensures DaysFrom(s)[d] <==> d in days
    {
      assert DayChecked(s, d) == (d in DayTokens(s));
    }
  }

  /** The days `set_alarm` passes: the checked boxes, in `day_vars` order. */
  function Checked(dayVars: map<string, bool>, names: seq<string>): (r: seq<string>)
    ensures forall d :: d in r <==> d in names && d in dayVars && dayVars[d]
    ensures |r| <= |names|
  {
    if names == [] then []
    else (if names[0] in dayVars && dayVars[names[0]] then [names[0]] else []) + Checked(dayVars, names[1..])
  }

  /** The arguments `set_alarm` gives `add_alarm`; the date is left out. */
  datatype AlarmRequest = AlarmRequest(sequence: string, hour: nat, minute: nat, days: seq<string>, oneTime: bool)

  /** The sleep offset `save_sleep_offset` stores. */
  function ClampOffset(v: int): (r: int)
    ensures -120 <= r <= 120
    ensures -120 <= v <= 120 ==> r == v
    ensures v < -120 ==> r == -120
    ensures v > 120 ==> r == 120
  {
    if v < -120 then -120 else if v > 120 then 120 else v
  }

  class TimeForm {
    var militaryHour: string
    var militaryMinute: string
    var ampmHour: string
    var ampmMinute: string
    /** `time_format`, "AM" or "PM" */
    var period: string
    /** `sequence_var` */
    var sequence: string
    var dayVars: map<string, bool>
    /** `sleep_offset_var` */
    var sleepOffset: int

    function Current(): Fields
      reads this
    {
      Fields(militaryHour, militaryMinute, ampmHour, ampmMinute, period)
    }

    /** Every day has its check box. */
    ghost predicate Valid()
      reads this
    {
      forall d :: d in dayVars <==> d in DayNames
    }

    /** The form as `create_alarms_tab` builds it: 07:30 AM on both clocks, no day checked. */
    constructor (offset: int)
      ensures Valid()
      ensures Current() == Fields("07", "30", "07", "30", "AM")
      ensures forall d :: d in DayNames ==> !dayVars[d]
      ensures sequence == "" && sleepOffset == offset
    {
      militaryHour, militaryMinute, ampmHour, ampmMinute, period := "07", "30", "07", "30", "AM";
      sequence := "";
      sleepOffset := offset;
      dayVars := map d | d in DayNames :: false;
    }

    /** `sync_time_formats`; `from12` says the event came from a 12-hour entry. */
    method SyncTimeFormats(from12: bool)
      modifies this
      ensures Current() == if from12 then Synced12(old(Current())) else Synced24(old(Current()))
      ensures dayVars == old(dayVars) && sequence == old(sequence) && sleepOffset == old(sleepOffset)
    {
      if from12 {
        Sync12();
      } else {
        Sync24();
      }
    }

    /** The 12h to 24h branch of `sync_time_formats` */
    method Sync12()
      modifies this
      ensures Current() == Synced12(old(Current()))
      ensures dayVars == old(dayVars) && sequence == old(sequence) && sleepOffset == old(sleepOffset)
    {
      ghost var before := Current();
      var h0, m0 := IntOr(ampmHour, 12), IntOr(ampmMinute, 0);
      if h0.None? || m0.None? {
        assert Synced12(before) == before;
        return;
      }
      var shown := Shown12(h0.value, m0.value, period);
      assert shown == Synced12(before);
      ampmHour, ampmMinute := shown.ampmHour, shown.ampmMinute;
      militaryHour, militaryMinute := shown.militaryHour, shown.militaryMinute;
    }

    /** The 24h to 12h branch of `sync_time_formats` */
    method Sync24()
      modifies this
      ensures Current() == Synced24(old(Current()))
      ensures dayVars == old(dayVars) && sequence == old(sequence) && sleepOffset == old(sleepOffset)
    {
      ghost var before := Current();
      var h0, m0 := IntOr(militaryHour, 0), IntOr(militaryMinute, 0);
      if h0.None? || m0.None? {
        assert Synced24(before) == before;
        return;
      }
      var shown := Shown24(h0.value, m0.value);
      assert shown == Synced24(before);
      militaryHour, militaryMinute := shown.militaryHour, shown.militaryMinute;
      period := shown.period;
      ampmHour, ampmMinute := shown.ampmHour, shown.ampmMinute;
      assert Current() == shown;
    }

    /** `handle_ampm_change` */
    method HandleAmpmChange()
      modifies this
      ensures Current() == AmpmChanged(old(Current()))
      ensures dayVars == old(dayVars) && sequence == old(sequence) && sleepOffset == old(sleepOffset)
    {
      var h0 := IntOr(ampmHour, 12);
      if h0.Some? {
        var h := Normalised12(h0.value);
        ampmHour := Pad2(h);
        militaryHour := Pad2(To24(h, period));
      }
    }

    /** `toggle_all_days`: all unchecked when all were checked, otherwise all checked. */
    method ToggleAllDays()
      requires Valid()
      modifies this
      ensures Valid()
      ensures var all := forall d :: d in DayNames ==> old(dayVars)[d];
              forall d :: d in DayNames ==> dayVars[d] == !all
      ensures Current() == old(Current()) && sequence == old(sequence) && sleepOffset == old(sleepOffset)
    {
      var allChecked := forall d :: d in DayNames ==> dayVars[d];
      SetAllDays(!allChecked);
    }

    /** `for var in self.day_vars.values(): var.set(value)` */
    method SetAllDays(value: bool)
      requires Valid()
      modifies this
      ensures Valid() && forall d :: d in DayNames ==> dayVars[d] == value
      ensures Current() == old(Current()) && sequence == old(sequence) && sleepOffset == old(sleepOffset)
    {
      for i := 0 to |DayNames|
        invariant forall d :: d in dayVars <==> d in DayNames
        invariant forall k :: 0 <= k < i ==> dayVars[DayNames[k]] == value
        invariant Current() == old(Current()) && sequence == old(sequence) && sleepOffset == old(sleepOffset)
      {
        dayVars := dayVars[DayNames[i] := value];
      }
    }

    /** The loop over the comma-separated parts: each known day among them is checked. */
    method CheckDays(tokens: seq<string>)
      requires Valid() && forall d :: d in DayNames ==> !dayVars[d]
      modifies this
      ensures Valid() && forall d :: d in DayNames ==> (dayVars[d] <==> d in tokens)
      ensures Current() == old(Current()) && sequence == old(sequence) && sleepOffset == old(sleepOffset)
    {
      for j := 0 to |tokens|
        invariant forall d :: d in dayVars <==> d in DayNames
        invariant forall d :: d in DayNames ==> (dayVars[d] <==> d in tokens[..j])
        invariant Current() == old(Current()) && sequence == old(sequence) && sleepOffset == old(sleepOffset)
      {
        if tokens[j] in dayVars {
          dayVars := dayVars[tokens[j] := true];
        }
        assert tokens[..j + 1] == tokens[..j] + [tokens[j]];
      }
      assert tokens[..|tokens|] == tokens;
    }

    /** Step 3 of `edit_selected_alarm`: every box reset, then the listed days checked. */
    method SetDays(daysStr: string)
      requires Valid()
      modifies this
      ensures Valid() && dayVars == DaysFrom(daysStr)
      ensures Current() == old(Current()) && sequence == old(sequence) && sleepOffset == old(sleepOffset)
    {
      SetAllDays(false);
      if Contains(daysStr, "Daily") {
        SetAllDays(true);
      } else if !(Contains(daysStr, "Once") || daysStr == "") {
        CheckDays(DayTokens(daysStr));
      }
      assert forall d :: d in DayNames ==> dayVars[d] == DayChecked(daysStr, d);
      assert dayVars.Keys == DaysFrom(daysStr).Keys;
    }

    /**
     * `edit_selected_alarm` for a listed row: the time is copied into the 24-hour entries (and
     * the 12-hour ones follow) when it reads as two integers, then the sequence and the days.
     */
    method EditAlarm(timeStr: string, sequenceName: string, daysStr: string)
      requires Valid()
      modifies this
      ensures Current() == TimeEdited(old(Current()), timeStr)
      ensures Valid() && sequence == sequenceName && dayVars == DaysFrom(daysStr) && sleepOffset == old(sleepOffset)
    {
      SetTime(timeStr);
      sequence := sequenceName;
      SetDays(daysStr);
    }

    /** The time part of `edit_selected_alarm`: a parsable time goes into the 24h fields, which then drive the 12h ones. */
    method SetTime(timeStr: string)
      requires Valid()
      modifies this
      ensures Valid() && Current() == TimeEdited(old(Current()), timeStr)
      ensures dayVars == old(dayVars) && sequence == old(sequence) && sleepOffset == old(sleepOffset)
    {
      match ParseTime(timeStr)
      case Ok((h, m)) =>
        militaryHour, militaryMinute := Pad2(h), Pad2(m);
        SyncTimeFormats(false);
      case Err(_) =>
    }

    /** The request `set_alarm` makes of the scheduler, or the message box it shows instead. */
    function Request(): (r: Result<AlarmRequest>)
      reads this
      ensures sequence == "" ==> r == Err("No sequence selected to set alarm for.")
      ensures r.Ok? ==> r.value.sequence == sequence && r.value.hour < 24 && r.value.minute < 60
      ensures r.Ok? ==> Some(r.value.hour as int) == ParseInt(militaryHour) && Some(r.value.minute as int) == ParseInt(militaryMinute)
      ensures r.Ok? ==> r.value.days == Checked(dayVars, DayNames) && (r.value.oneTime <==> r.value.days == [])
      ensures sequence != "" && r.Err? ==> r == Err("Invalid time")
    {
      if sequence == "" then Err("No sequence selected to set alarm for.")
      else match (ParseInt(militaryHour), ParseInt(militaryMinute))
        case (Some(h), Some(m)) =>
          if 0 <= h < 24 && 0 <= m < 60 then
            var days := Checked(dayVars, DayNames);
            Ok(AlarmRequest(sequence, h, m, days, |days| == 0))
          else Err("Invalid time")
        case _ => Err("Invalid time")
    }

    /** `save_sleep_offset`: `value` is what reading `sleep_offset_var` gives, None when that raises. */
    method SaveSleepOffset(value: Option<int>, config: Config.ConfigManager, saveFails: bool)
      modifies this, config
      ensures value.None? ==> unchanged(this) && unchanged(config)
      ensures value.Some? ==>
                && sleepOffset == ClampOffset(value.value)
                && config.settings == Config.Assigned(old(config.settings), "alarms", "sleep_offset_minutes", JInt(sleepOffset))
                && config.file == (if saveFails then old(config.file) else Config.Document(JObj(config.settings)))
      ensures Current() == old(Current()) && dayVars == old(dayVars) && sequence == old(sequence)
    {
      if value.Some? {
        var v := ClampOffset(value.value);
        sleepOffset := v;
        config.Set("alarms", "sleep_offset_minutes", JInt(v));
        config.Save(saveFails);
      }
    }
  }

  /** After `save_sleep_offset`, the settings give back the clamped offset. */
  lemma SavedOffsetReads(settings: map<string, Json>, v: int)
    requires "alarms" in settings ==> settings["alarms"].JObj?
    ensures Config.Setting(Config.Assigned(settings, "alarms", "sleep_offset_minutes", JInt(ClampOffset(v))), "alarms", "sleep_offset_minutes")
            == JInt(ClampOffset(v))
  {
    Config.GetAfterSet(settings, "alarms", "sleep_offset_minutes", JInt(ClampOffset(v)));
  }
}
