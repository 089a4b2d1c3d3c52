/**
 * The user crontab as python-crontab presents it to the two cron adapters (Linux and macOS),
 * and the job-identity protocol they share: the ownership marker, the weekday encoding,
 * the command line a job runs, how a job is read back for listing and how one job is matched for removal.
 */
module CronJobs {
  import opened Wrappers
  import opened Lists
  import opened Strings
  import opened Alarms

  /** The application marker every job it creates carries in its comment. */
  const Marker: string := "#PyCronVideoAlarm"

  /**
   * One crontab entry. Each schedule field holds the text python-crontab renders for it
   * (`str(job.hour)`, `str(job.dow)`, ...), "*" when the field was never set.
   */
  datatype CronJob = CronJob(
    comment: string,
    command: string,
    minute: string,
    hour: string,
    day: string,
    month: string,
    dow: string,
    enabled: bool)

  // ---------------------------------------------------------------- ownership

  /** `job.comment and (job.comment == MARKER or job.comment.startswith(MARKER + ":"))` */
  predicate IsOwned(comment: string) {
    comment != "" && (comment == Marker || StartsWith(comment, Marker + ":"))
  }

  /** The comment `add_alarm` gives a job: the bare marker, or `marker:<job id>` for a one-time alarm. */
  function CommentFor(oneTime: bool, jobId: string): (c: string)
    ensures IsOwned(c)
    ensures oneTime ==> StartsWith(c, Marker + ":") && c[|Marker| + 1..] == jobId
    ensures !oneTime ==> c == Marker
  {
    if oneTime then Marker + ":" + jobId else Marker
  }

  // ---------------------------------------------------------------- weekdays

  /** The weekday names the user interface offers, in its order. */
  const WeekdayNames: seq<string> := ["MON", "TUE", "WED", "THU", "FRI", "SAT", "SUN"]

  predicate IsWeekday(d: string) {
    d in WeekdayNames
  }

  /** `day_map.get(d, 1)`: MON=1 .. SAT=6, SUN=0, every other name 1 */
  function CronDayNumber(d: string): (n: nat)
    ensures n <= 6
  {
    if d == "MON" then 1
    else if d == "TUE" then 2
    else if d == "WED" then 3
    else if d == "THU" then 4
    else if d == "FRI" then 5
    else if d == "SAT" then 6
    else if d == "SUN" then 0
    else 1
  }

  /** `day_rev_map.get(key)`: "0" .. "6" back to SUN .. SAT */
  function CronDayName(key: string): Option<string> {
    if key == "1" then Some("MON")
    else if key == "2" then Some("TUE")
    else if key == "3" then Some("WED")
    else if key == "4" then Some("THU")
    else if key == "5" then Some("FRI")
    else if key == "6" then Some("SAT")
    else if key == "0" then Some("SUN")
    else None
  }

  /** The day a name reads back as after a crontab round trip: itself if known, MON otherwise. */
  function CronCanonicalDay(d: string): string {
    if IsWeekday(d) then d else "MON"
  }

  lemma CronDayRoundTrip(d: string)
    ensures CronDayName(NatToString(CronDayNumber(d))) == Some(CronCanonicalDay(d))
  {
  }

  /** The canonical name of each day, position by position. */
  function CanonicalDays(days: seq<string>): (r: seq<string>)
    ensures |r| == |days|
    ensures forall i :: 0 <= i < |r| ==> IsWeekday(r[i]) && CronDayNumber(r[i]) == CronDayNumber(days[i])
  {
    seq(|days|, i requires 0 <= i < |days| => CronCanonicalDay(days[i]))
  }

  /** Days listed in ascending cron number: SUN first, SAT last. */
  predicate InCronOrder(days: seq<string>) {
    forall i, j :: 0 <= i < j < |days| ==> CronDayNumber(days[i]) <= CronDayNumber(days[j])
  }

  /** The days whose cron number is `k`, in their order. */
  function DaysNumbered(days: seq<string>, k: nat): (r: seq<string>)
    ensures forall i :: 0 <= i < |r| ==> CronDayNumber(r[i]) == k
    decreases |days|
  {
    if |days| == 0 then []
    else DaysNumbered(days[..|days| - 1], k) + (if CronDayNumber(days[|days| - 1]) == k then [days[|days| - 1]] else [])
  }

  /** The days whose cron number is `k` or more, grouped by number in ascending order. */
  function DaysFrom(days: seq<string>, k: nat): (r: seq<string>)
    ensures forall i :: 0 <= i < |r| ==> k <= CronDayNumber(r[i])
    decreases 7 - k
  {
    if k > 6 then [] else DaysNumbered(days, k) + DaysFrom(days, k + 1)
  }

  /**
   * The days in the order python-crontab renders a slice's values: it sorts them, so the
   * numbers come out ascending (SUN first) with repeated numbers kept.
   */
  function ByCronNumber(days: seq<string>): seq<string> {
    DaysFrom(days, 0)
  }

  lemma {:induction false} DaysFromSorted(days: seq<string>, k: nat)
    ensures InCronOrder(DaysFrom(days, k))
    decreases 7 - k
  {
    if k <= 6 {
      DaysFromSorted(days, k + 1);
      var a, b := DaysNumbered(days, k), DaysFrom(days, k + 1);
      forall i, j | 0 <= i < j < |a + b|
        ensures CronDayNumber((a + b)[i]) <= CronDayNumber((a + b)[j])
      {
        if j < |a| {
          assert (a + b)[i] == a[i] && (a + b)[j] == a[j];
        } else if i < |a| {
          assert (a + b)[i] == a[i] && (a + b)[j] == b[j - |a|];
        } else {
          assert (a + b)[i] == b[i - |a|] && (a + b)[j] == b[j - |a|];
        }
      }
    }
  }

  /** Sorting keeps the days in ascending cron number. */
  lemma ByCronNumberSorted(days: seq<string>)
    ensures InCronOrder(ByCronNumber(days))
  {
    DaysFromSorted(days, 0);
  }

  lemma {:induction false} DaysFromEmpty(k: nat)
    ensures DaysFrom([], k) == []
    decreases 7 - k
  {
    if k <= 6 {
      DaysFromEmpty(k + 1);
    }
  }

  lemma {:induction false} DaysFromSnoc(days: seq<string>, d: string, k: nat)
    ensures multiset(DaysFrom(days + [d], k))
         == multiset(DaysFrom(days, k)) + (if k <= CronDayNumber(d) then multiset{d} else multiset{})
    decreases 7 - k
  {
    if k <= 6 {
      DaysFromSnoc(days, d, k + 1);
      var all := days + [d];
      assert all[..|all| - 1] == days && all[|all| - 1] == d;
      assert DaysNumbered(all, k) == DaysNumbered(days, k) + (if CronDayNumber(d) == k then [d] else []);
    }
  }

  /** Sorting is a permutation: every day is kept, as often as it was given. */
  lemma ByCronNumberPermutes(days: seq<string>)
    ensures multiset(ByCronNumber(days)) == multiset(days)
    ensures |ByCronNumber(days)| == |days|
  {
    DaysFromPermutes(days);
    assert |multiset(ByCronNumber(days))| == |multiset(days)|;
  }

  lemma {:induction false} DaysFromPermutes(days: seq<string>)
    ensures multiset(DaysFrom(days, 0)) == multiset(days)
    decreases |days|
  {
    if |days| == 0 {
      DaysFromEmpty(0);
    } else {
      var init, last := days[..|days| - 1], days[|days| - 1];
      assert init + [last] == days;
      DaysFromPermutes(init);
      SortedSnoc(init, last);
    }
  }

  lemma SortedSnoc(init: seq<string>, last: string)
    ensures multiset(DaysFrom(init + [last], 0)) == multiset(DaysFrom(init, 0)) + multiset{last}
  {
    DaysFromSnoc(init, last, 0);
  }

  lemma {:induction false} DaysNumberedCanonical(days: seq<string>, k: nat)
    ensures DaysNumbered(CanonicalDays(days), k) == CanonicalDays(DaysNumbered(days, k))
    decreases |days|
  {
    if |days| > 0 {
      var init, last := days[..|days| - 1], days[|days| - 1];
      DaysNumberedCanonical(init, k);
      var c := CanonicalDays(days);
      assert c[..|c| - 1] == CanonicalDays(init);
      CanonicalAppend(DaysNumbered(init, k), if CronDayNumber(last) == k then [last] else []);
    }
  }

  lemma {:induction false} DaysFromCanonical(days: seq<string>, k: nat)
    ensures DaysFrom(CanonicalDays(days), k) == CanonicalDays(DaysFrom(days, k))
    decreases 7 - k
  {
    if k <= 6 {
      DaysFromCanonical(days, k + 1);
      DaysNumberedCanonical(days, k);
      CanonicalAppend(DaysNumbered(days, k), DaysFrom(days, k + 1));
    } else {
      assert CanonicalDays([]) == [];
    }
  }

  lemma CanonicalAppend(a: seq<string>, b: seq<string>)
    ensures CanonicalDays(a + b) == CanonicalDays(a) + CanonicalDays(b)
  {
    var l, r := CanonicalDays(a + b), CanonicalDays(a) + CanonicalDays(b);
    forall i | 0 <= i < |l|
      ensures l[i] == r[i]
    {
      if i < |a| {
        assert (a + b)[i] == a[i];
      } else {
        assert (a + b)[i] == b[i - |a|];
      }
    }
  }

  /** The text `job.dow.on(*cron_days)` renders: the day numbers in ascending order joined by commas. */
  function DowOn(days: seq<string>): string {
    Join(DayNumberTexts(ByCronNumber(days)), ",")
  }

  /** Each day's cron number as one digit, which `day_rev_map` reads back as the day's canonical name. */
  function DayNumberTexts(days: seq<string>): (r: seq<string>)
    ensures |r| == |days|
    ensures forall i :: 0 <= i < |r| ==> |r[i]| == 1 && '0' <= r[i][0] <= '6' && CronDayName(r[i]) == Some(CronCanonicalDay(days[i]))
  {
    seq(|days|, i requires 0 <= i < |days| => NatToString(CronDayNumber(days[i])))
  }

  /** `[day_rev_map.get(d.strip(), d) for d in dow_str.split(",")]` */
  function DowNames(parts: seq<string>): (r: seq<string>)
    ensures |r| == |parts|
    ensures forall i :: 0 <= i < |parts| ==> r[i] == CronDayName(Strip(parts[i])).GetOr(parts[i])
  {
    seq(|parts|, i requires 0 <= i < |parts| => CronDayName(Strip(parts[i])).GetOr(parts[i]))
  }

  /**
   * Decoding an encoded day list gives the canonical names (MON for an unknown one) in
   * ascending cron number, SUN first, whatever order they were given in.
   */
  lemma {:induction false} DowRoundTrip(days: seq<string>)
    requires |days| > 0
    ensures DowNames(Split(DowOn(days), ',')) == ByCronNumber(CanonicalDays(days))
  {
    var sorted := ByCronNumber(days);
    ByCronNumberPermutes(days);
    var texts := DayNumberTexts(sorted);
    forall i | 0 <= i < |texts|
      ensures Free(texts[i], ',')
    {
      assert |texts[i]| == 1 && IsDigit(texts[i][0]);
    }
    SplitJoin(texts, ',');
    forall i | 0 <= i < |sorted|
      ensures DowNames(texts)[i] == CanonicalDays(sorted)[i]
    {
      assert |texts[i]| == 1 && IsDigit(texts[i][0]);
      StripDigits(texts[i]);
    }
    DaysFromCanonical(days, 0);
  }

  // ---------------------------------------------------------------- commands

  /** The quoted interpreter (and script) the job starts. */
  function Invocation(l: Launcher): string {
    if l.frozen then Quote(l.executable) else Quote(l.executable) + " " + Quote(l.scriptPath)
  }

  /** The command line before the one-time flags: `<prefix>"exe" ["script"] --execute-sequence "<name>"` */
  function BaseCommand(prefix: string, l: Launcher, name: string): string {
    prefix + Invocation(l) + " " + ("--execute-sequence " + Quote(name))
  }

  /** The flags a one-time alarm's command ends with. */
  function OneTimeSuffix(jobId: string, t: DateTime): string
    requires t.Valid()
  {
    " --delete-after" + (" --job-id " + jobId + " --scheduled-time " + HHMM(t))
  }

  /** The command line `add_alarm` schedules. */
  function JobCommand(prefix: string, l: Launcher, name: string, oneTime: bool, jobId: string, t: DateTime): string
    requires t.Valid()
  {
    BaseCommand(prefix, l, name) + (if oneTime then OneTimeSuffix(jobId, t) else "")
  }

  /** The job `cron.new(command, comment)` creates once `add_alarm` has set its schedule fields. */
  function NewJob(t: DateTime, command: string, comment: string, days: seq<string>, oneTime: bool): CronJob
    requires t.Valid()
  {
    CronJob(
      comment, command, NatToString(t.minute), NatToString(t.hour),
      if oneTime then NatToString(t.day) else "*",
      if oneTime then NatToString(t.month) else "*",
      if oneTime || |days| == 7 || |days| == 0 then "*" else DowOn(days),
      true)
  }

  // ---------------------------------------------------------------- listing

  /**
   * The sequence name `list_alarms` recovers from a command: the token after the first
   * `--execute-sequence` token of `shlex.split(command)`. `tokenize` stands for shlex.split;
   * None is the ValueError it raises on unbalanced quotes.
   */
  function SequenceOf(command: string, tokenize: string -> Option<seq<string>>): Option<string> {
    match tokenize(command)
    case None => None
    case Some(args) =>
      match IndexOf(args, "--execute-sequence")
      case None => None
      case Some(k) => if k + 1 < |args| then Some(args[k + 1]) else None
  }

  /** `f"{job.hour}:{str(job.minute).zfill(2)}"` */
  function JobTime(job: CronJob): string {
    job.hour + ":" + Zfill2(job.minute)
  }

  /** The days a job lists with; `onceFlag` is the text whose presence in the command means "one-time". */
  function JobDays(job: CronJob, onceFlag: string): seq<string> {
    if Contains(job.command, onceFlag) then ["Once"]
    else if job.dow == "*" then ["Daily"]
    else DowNames(Split(job.dow, ','))
  }

  /** The entry one job contributes to `list_alarms`, None when it is foreign or does not parse. */
  function ListEntry(job: CronJob, tokenize: string -> Option<seq<string>>, onceFlag: string): Option<ListedAlarm> {
    if !IsOwned(job.comment) then None
    else match SequenceOf(job.command, tokenize)
      case None => None
      case Some(name) => Some(ListedAlarm(JobTime(job), name, DayList(JobDays(job, onceFlag)), job.enabled))
  }

  function EntryOf(job: CronJob, tokenize: string -> Option<seq<string>>, onceFlag: string): seq<ListedAlarm> {
    match ListEntry(job, tokenize, onceFlag)
    case None => []
    case Some(a) => [a]
  }

  /** What `list_alarms` returns for a crontab holding `jobs`, in crontab order. */
  function Listing(jobs: seq<CronJob>, tokenize: string -> Option<seq<string>>, onceFlag: string): seq<ListedAlarm>
    decreases |jobs|
  {
    if |jobs| == 0 then []
    else Listing(jobs[..|jobs| - 1], tokenize, onceFlag) + EntryOf(jobs[|jobs| - 1], tokenize, onceFlag)
  }

  /** Listing a crontab is listing its parts one after the other. */
  lemma {:induction false} ListingAppend(a: seq<CronJob>, b: seq<CronJob>, tokenize: string -> Option<seq<string>>, onceFlag: string)
    ensures Listing(a + b, tokenize, onceFlag) == Listing(a, tokenize, onceFlag) + Listing(b, tokenize, onceFlag)
    decreases |b|
  {
    if |b| == 0 {
      assert a + b == a;
    } else {
      var c, init, last := a + b, b[..|b| - 1], b[|b| - 1];
      assert c[..|c| - 1] == a + init;
      assert c[|c| - 1] == last;
      var e := EntryOf(last, tokenize, onceFlag);
      assert Listing(c, tokenize, onceFlag) == Listing(a + init, tokenize, onceFlag) + e;
      assert Listing(b, tokenize, onceFlag) == Listing(init, tokenize, onceFlag) + e;
      ListingAppend(a, init, tokenize, onceFlag);
    }
  }

  /**
   * Ownership filtering: a job without the marker (or one whose command does not parse)
   * never shows in the listing, wherever it sits among the others.
   */
  lemma {:induction false} SkippedJobInvisible(a: seq<CronJob>, job: CronJob, b: seq<CronJob>, tokenize: string -> Option<seq<string>>, onceFlag: string)
    requires !IsOwned(job.comment) || SequenceOf(job.command, tokenize).None?
    ensures Listing(a + [job] + b, tokenize, onceFlag) == Listing(a + b, tokenize, onceFlag)
  {
    var aj := a + [job];
    var la := Listing(a, tokenize, onceFlag);
    var lb := Listing(b, tokenize, onceFlag);
    assert aj[..|aj| - 1] == a && aj[|aj| - 1] == job;
    assert EntryOf(job, tokenize, onceFlag) == [];
    assert Listing(aj, tokenize, onceFlag) == la + EntryOf(job, tokenize, onceFlag);
    assert Listing(aj, tokenize, onceFlag) == la;
    ListingAppend(aj, b, tokenize, onceFlag);
    ListingAppend(a, b, tokenize, onceFlag);
    assert Listing(a + [job] + b, tokenize, onceFlag) == la + lb;
  }

  /** Every listed entry comes from an owned job of the crontab. */
  lemma {:induction false} ListingFromOwned(jobs: seq<CronJob>, tokenize: string -> Option<seq<string>>, onceFlag: string, k: nat)
    requires k < |Listing(jobs, tokenize, onceFlag)|
    ensures exists i :: 0 <= i < |jobs| && IsOwned(jobs[i].comment) && ListEntry(jobs[i], tokenize, onceFlag) == Some(Listing(jobs, tokenize, onceFlag)[k])
    decreases |jobs|
  {
    var init := jobs[..|jobs| - 1];
    var last := jobs[|jobs| - 1];
    if k < |Listing(init, tokenize, onceFlag)| {
      ListingFromOwned(init, tokenize, onceFlag, k);
      var i :| 0 <= i < |init| && IsOwned(init[i].comment) && ListEntry(init[i], tokenize, onceFlag) == Some(Listing(init, tokenize, onceFlag)[k]);
      assert jobs[i] == init[i];
    } else {
      assert IsOwned(last.comment);
    }
  }

  /** A job's days string as `remove_alarm` rebuilds it for comparison with the user interface's. */
  function JobDaysText(job: CronJob, onceFlag: string): string {
    if Contains(job.command, onceFlag) then "Once"
    else if job.dow == "*" then "Daily"
    else Join(DowNames(Split(job.dow, ',')), ", ")
  }

  /** The days string `remove_alarm` compares is the listing's days joined as the user interface joins them. */
  lemma DaysTextIsListedDays(job: CronJob, onceFlag: string)
    ensures JobDaysText(job, onceFlag) == Join(JobDays(job, onceFlag), ", ")
  {
  }

  /** The tokens shlex.split yields for a command built by `JobCommand` from names without quotes or escapes. */
  function CommandTokens(prefixTokens: seq<string>, l: Launcher, name: string, oneTime: bool, jobId: string, t: DateTime): seq<string>
    requires t.Valid()
  {
    prefixTokens + InvocationTokens(l) + ["--execute-sequence", name]
    + (if oneTime then ["--delete-after", "--job-id", jobId, "--scheduled-time", HHMM(t)] else [])
  }

  function InvocationTokens(l: Launcher): seq<string> {
    if l.frozen then [l.executable] else [l.executable, l.scriptPath]
  }

  /** The listing finds the name right after the first `--execute-sequence` token. */
  lemma SequenceOfTokens(command: string, tokenize: string -> Option<seq<string>>, lead: seq<string>, name: string, tail: seq<string>)
    requires tokenize(command) == Some(lead + ["--execute-sequence", name] + tail)
    requires "--execute-sequence" !in lead
    ensures SequenceOf(command, tokenize) == Some(name)
  {
    var args := lead + ["--execute-sequence", name] + tail;
    assert args[|lead|] == "--execute-sequence" && args[|lead| + 1] == name;
    var k := IndexOf(args, "--execute-sequence");
    assert k.Some?;
    assert k.value == |lead|;
  }

  /** The days a freshly added job reads back with. */
  function ExpectedDays(days: seq<string>, oneTime: bool): seq<string> {
    if oneTime then ["Once"]
    else if |days| == 0 || |days| == 7 then ["Daily"]
    else ByCronNumber(CanonicalDays(days))
  }

  /**
   * A recurring job on some days lists one weekday name per day given (MON for an unknown
   * name), every one of them kept, in ascending cron number (SUN first).
   */
  lemma {:induction false} ListedDaysOrdered(days: seq<string>)
    requires |days| != 0 && |days| != 7
    ensures var r := ExpectedDays(days, false);
            && |r| == |days|
            && multiset(r) == multiset(CanonicalDays(days))
            && InCronOrder(r)
            && forall i :: 0 <= i < |r| ==> IsWeekday(r[i])
  {
    var c := CanonicalDays(days);
    ByCronNumberPermutes(c);
    ByCronNumberSorted(c);
    PermutedWeekdays(c, ByCronNumber(c));
  }

  lemma {:induction false} PermutedWeekdays(c: seq<string>, r: seq<string>)
    requires forall i :: 0 <= i < |c| ==> IsWeekday(c[i])
    requires multiset(r) == multiset(c)
    ensures forall i :: 0 <= i < |r| ==> IsWeekday(r[i])
  {
    forall i | 0 <= i < |r|
      ensures IsWeekday(r[i])
    {
      assert r[i] in multiset(c);
    }
  }

  /** The user interface's MON..SUN order is not what the listing shows: Monday and Sunday list Sunday first. */
  lemma MondaySundayListed()
    ensures ExpectedDays(["MON", "SUN"], false) == ["SUN", "MON"]
  {
    var c := CanonicalDays(["MON", "SUN"]);
    assert c == ["MON", "SUN"];
    assert DaysNumbered(c, 0) == ["SUN"] by {
      assert c[..1] == ["MON"];
      assert DaysNumbered(c[..1], 0) == [] by { assert c[..1][..0] == []; }
    }
    assert DaysNumbered(c, 1) == ["MON"] by {
      assert c[..1] == ["MON"];
      assert DaysNumbered(c[..1], 1) == ["MON"] by { assert c[..1][..0] == []; }
    }
    forall k: nat | 2 <= k <= 6
      ensures DaysNumbered(c, k) == []
    {
      assert c[..1] == ["MON"];
      assert DaysNumbered(c[..1], k) == [] by { assert c[..1][..0] == []; }
    }
    assert DaysFrom(c, 2) == [] by {
      assert DaysFrom(c, 7) == [];
      assert DaysFrom(c, 6) == [];
      assert DaysFrom(c, 5) == [];
      assert DaysFrom(c, 4) == [];
      assert DaysFrom(c, 3) == [];
    }
  }

  /** A recurring job's day field decodes to the canonical day names, sorted by cron number. */
  lemma NewJobDays(t: DateTime, command: string, comment: string, days: seq<string>, onceFlag: string)
    requires t.Valid()
    requires !Contains(command, onceFlag)
    ensures JobDays(NewJob(t, command, comment, days, false), onceFlag) == ExpectedDays(days, false)
  {
    if |days| != 0 && |days| != 7 {
      DowRoundTrip(days);
    }
  }

  /** A one-time job's command carries the one-time flag, in either adapter's spelling. */
  lemma {:induction false} OneTimeFlagged(prefix: string, l: Launcher, name: string, jobId: string, t: DateTime, onceFlag: string)
    requires t.Valid()
    requires onceFlag == " --delete-after" || onceFlag == "--delete-after"
    ensures Contains(JobCommand(prefix, l, name, true, jobId, t), onceFlag)
  {
    var base := BaseCommand(prefix, l, name);
    var rest := " --job-id " + jobId + " --scheduled-time " + HHMM(t);
    assert OneTimeSuffix(jobId, t) == " --delete-after" + rest;
    assert JobCommand(prefix, l, name, true, jobId, t) == base + " --delete-after" + rest;
    FlagBetween(base, rest, onceFlag);
  }

  lemma {:induction false} FlagBetween(base: string, rest: string, onceFlag: string)
    requires onceFlag == " --delete-after" || onceFlag == "--delete-after"
    ensures Contains(base + " --delete-after" + rest, onceFlag)
  {
    var flag := " --delete-after";
    var cmd := base + flag + rest;
    var at := if onceFlag == flag then 0 else 1;
    assert flag[at..] == onceFlag;
    assert cmd[|base| + at..|base| + at + |onceFlag|] == flag[at..];
    ContainsAt(cmd, onceFlag, |base| + at);
  }

  /** The entry a freshly added job contributes to the listing. */
  lemma NewJobEntry(t: DateTime, prefix: string, prefixTokens: seq<string>, l: Launcher,
                    name: string, days: seq<string>, oneTime: bool, jobId: string,
                    tokenize: string -> Option<seq<string>>, onceFlag: string)
    requires t.Valid()
    requires onceFlag == " --delete-after" || onceFlag == "--delete-after"
    requires tokenize(JobCommand(prefix, l, name, oneTime, jobId, t)) == Some(CommandTokens(prefixTokens, l, name, oneTime, jobId, t))
    requires "--execute-sequence" !in prefixTokens + InvocationTokens(l)
    requires !oneTime ==> !Contains(BaseCommand(prefix, l, name), onceFlag)
    ensures ListEntry(NewJob(t, JobCommand(prefix, l, name, oneTime, jobId, t), CommentFor(oneTime, jobId), days, oneTime), tokenize, onceFlag)
         == Some(ListedAlarm(NatToString(t.hour) + ":" + Pad2(t.minute), name, DayList(ExpectedDays(days, oneTime)), true))
  {
    var cmd := JobCommand(prefix, l, name, oneTime, jobId, t);
    var tail: seq<string> := if oneTime then ["--delete-after", "--job-id", jobId, "--scheduled-time", HHMM(t)] else [];
    assert CommandTokens(prefixTokens, l, name, oneTime, jobId, t) == (prefixTokens + InvocationTokens(l)) + ["--execute-sequence", name] + tail;
    SequenceOfTokens(cmd, tokenize, prefixTokens + InvocationTokens(l), name, tail);
    assert Zfill2(NatToString(t.minute)) == Pad2(t.minute);
    if oneTime {
      OneTimeFlagged(prefix, l, name, jobId, t, onceFlag);
    } else {
      assert cmd == BaseCommand(prefix, l, name);
      NewJobDays(t, cmd, CommentFor(oneTime, jobId), days, onceFlag);
    }
  }

  /**
   * Add-then-list round trip: listing the crontab after `add_alarm` appends one entry with the
   * alarm's time (hour unpadded, minute padded), its sequence name, its days and enabled,
   * and leaves the entries of the jobs already there as they were.
   */
  lemma AddedJobListing(jobs: seq<CronJob>, t: DateTime, prefix: string, prefixTokens: seq<string>, l: Launcher,
                        name: string, days: seq<string>, oneTime: bool, jobId: string,
                        tokenize: string -> Option<seq<string>>, onceFlag: string)
    requires t.Valid()
    requires onceFlag == " --delete-after" || onceFlag == "--delete-after"
    requires tokenize(JobCommand(prefix, l, name, oneTime, jobId, t)) == Some(CommandTokens(prefixTokens, l, name, oneTime, jobId, t))
    requires "--execute-sequence" !in prefixTokens + InvocationTokens(l)
    requires !oneTime ==> !Contains(BaseCommand(prefix, l, name), onceFlag)
    ensures Listing(jobs + [NewJob(t, JobCommand(prefix, l, name, oneTime, jobId, t), CommentFor(oneTime, jobId), days, oneTime)], tokenize, onceFlag)
         == Listing(jobs, tokenize, onceFlag)
            + [ListedAlarm(NatToString(t.hour) + ":" + Pad2(t.minute), name, DayList(ExpectedDays(days, oneTime)), true)]
  {
    var job := NewJob(t, JobCommand(prefix, l, name, oneTime, jobId, t), CommentFor(oneTime, jobId), days, oneTime);
    NewJobEntry(t, prefix, prefixTokens, l, name, days, oneTime, jobId, tokenize, onceFlag);
    var both := jobs + [job];
    assert both[..|both| - 1] == jobs && both[|both| - 1] == job;
  }

  // ---------------------------------------------------------------- removal

  /** A job `remove_alarm` may delete: owned, at the given time, naming the sequence, and on the given days if any. */
  predicate RemoveMatch(job: CronJob, name: string, hour: int, minute: int, daysStr: string, onceFlag: string) {
    && IsOwned(job.comment)
    && job.hour == IntToString(hour)
    && job.minute == IntToString(minute)
    && Contains(job.command, name)
    && (daysStr != "" ==> JobDaysText(job, onceFlag) == daysStr)
  }

  /** The position of the first job `remove_alarm` matches, in scan order. */
  function FirstMatch(jobs: seq<CronJob>, name: string, hour: int, minute: int, daysStr: string, onceFlag: string): (r: Option<nat>)
    ensures r.Some? ==> r.value < |jobs| && RemoveMatch(jobs[r.value], name, hour, minute, daysStr, onceFlag)
    ensures r.Some? ==> forall j :: 0 <= j < r.value ==> !RemoveMatch(jobs[j], name, hour, minute, daysStr, onceFlag)
    ensures r.None? ==> forall j :: 0 <= j < |jobs| ==> !RemoveMatch(jobs[j], name, hour, minute, daysStr, onceFlag)
  {
    FirstIndex(jobs, job => RemoveMatch(job, name, hour, minute, daysStr, onceFlag))
  }

  /** The time a job lists with parses back to the job's hour and minute. */
  lemma {:induction false} JobTimeParses(h: nat, m: nat)
    ensures ParseTime(NatToString(h) + ":" + Zfill2(NatToString(m))) == Ok((h, m))
  {
    var hh := NatToString(h);
    var mm := Zfill2(NatToString(m));
    Zfill2OfNat(m);
    ParseIntOfNat(h);
    assert Free(hh, ':') && Free(mm, ':');
    ParseTimeOfPair(hh, mm, h, m);
  }

  /** A job read back from a crontab matches a removal for the time and days the listing shows for it. */
  lemma ListedJobMatches(job: CronJob, onceFlag: string, name: string, h: nat, m: nat)
    requires job.hour == NatToString(h) && job.minute == NatToString(m) && IsOwned(job.comment)
    requires Contains(job.command, name)
    ensures ParseTime(JobTime(job)) == Ok((h, m))
    ensures RemoveMatch(job, name, h, m, Join(JobDays(job, onceFlag), ", "), onceFlag)
  {
    JobTimeParses(h, m);
    DaysTextIsListedDays(job, onceFlag);
  }

  /**
   * Remove-after-list: passing back the time and days a listed job shows, with a name its command
   * contains, makes `remove_alarm` delete that job or an earlier matching one.
   */
  lemma ListedJobRemovable(jobs: seq<CronJob>, i: nat, onceFlag: string, name: string, h: nat, m: nat)
    requires i < |jobs|
    requires jobs[i].hour == NatToString(h) && jobs[i].minute == NatToString(m) && IsOwned(jobs[i].comment)
    requires Contains(jobs[i].command, name)
    ensures ParseTime(JobTime(jobs[i])) == Ok((h, m))
    ensures var r := FirstMatch(jobs, name, h, m, Join(JobDays(jobs[i], onceFlag), ", "), onceFlag);
            r.Some? && r.value <= i
  {
    ListedJobMatches(jobs[i], onceFlag, name, h, m);
  }

  /** Every command `add_alarm` builds contains the sequence name, so removal by name finds it. */
  lemma {:induction false} NameInCommand(prefix: string, l: Launcher, name: string, oneTime: bool, jobId: string, t: DateTime)
    requires t.Valid()
    ensures Contains(JobCommand(prefix, l, name, oneTime, jobId, t), name)
  {
    var front := prefix + Invocation(l) + " " + "--execute-sequence ";
    var lead := front + "\"";
    var tail := if oneTime then OneTimeSuffix(jobId, t) else "";
    var rest := "\"" + tail;
    assert BaseCommand(prefix, l, name) == front + Quote(name);
    assert JobCommand(prefix, l, name, oneTime, jobId, t) == front + Quote(name) + tail;
    assert front + Quote(name) + tail == lead + name + rest;
    ContainsMiddle(lead, name, rest);
  }

  // ---------------------------------------------------------------- debug dump

  /** `f"  {job}{marker}"` for every job, where `render` is python-crontab's `str(job)` and `ours` picks the tag. */
  function EntryLines(jobs: seq<CronJob>, render: CronJob -> string, ours: CronJob -> bool): (r: seq<string>)
    ensures |r| == |jobs|
    ensures forall i :: 0 <= i < |jobs| ==> r[i] == "  " + render(jobs[i]) + (if ours(jobs[i]) then " [OURS]" else "")
  {
    seq(|jobs|, i requires 0 <= i < |jobs| => "  " + render(jobs[i]) + (if ours(jobs[i]) then " [OURS]" else ""))
  }

  // ---------------------------------------------------------------- the store

  /**
   * The user crontab object: `jobs` is what the CronTab object holds in memory,
   * `saved` what the crontab file holds, `writes` how many times `cron.write()` was called.
   */
  class Crontab {
    var jobs: seq<CronJob>
    var saved: seq<CronJob>
    var writes: nat

    /** `CronTab(user=True)` reading the user's crontab */
    constructor (initial: seq<CronJob>)
      ensures jobs == initial && saved == initial && writes == 0
    {
      jobs := initial;
      saved := initial;
      writes := 0;
    }

    /** `cron.new(command=..., comment=...)` with its schedule fields set */
    method New(job: CronJob)
      modifies this
      ensures jobs == old(jobs) + [job]
      ensures saved == old(saved) && writes == old(writes)
    {
      jobs := jobs + [job];
    }

    /** `cron.remove(job)` for the job at position `i` of the scan */
    method Remove(i: nat)
      requires i < |jobs|
      modifies this
      ensures jobs == RemoveAt(old(jobs), i)
      ensures saved == old(saved) && writes == old(writes)
    {
      jobs := RemoveAt(jobs, i);
    }

    /** `cron.write()`; `failure` is the error the crontab command reports, if any */
    method Write(failure: Option<string>)
      modifies this
      ensures jobs == old(jobs) && writes == old(writes) + 1
      ensures saved == if failure.None? then jobs else old(saved)
    {
      writes := writes + 1;
      if failure.None? {
        saved := jobs;
      }
    }
  }
}
