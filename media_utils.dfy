/**
 * Media playback helpers: the time values handed to the player, the player priority and the
 * command line `play_video_mpv` builds for mpv.
 */
module MediaUtils {
  import opened Wrappers
  import opened Strings
  import opened Json

  /** A `"M:S"` string whose two parts are digits, as `ensure_time_format` recognises it. */
  predicate MinutesSeconds(t: string) {
    var parts := Split(t, ':');
    |parts| == 2 && IsDigits(parts[0]) && IsDigits(parts[1])
  }

  /**
   * `ensure_time_format` on a string. `asFloat` is what `f"{float(t):.2f}"` gives, None when
   * `float` raises ValueError; `float` never accepts a string holding a colon, so a colon string
   * of another shape ends in the `str(time_value)` fallback, that is the string itself.
   */
  function EnsureTimeFormat(t: string, asFloat: Option<string>): (r: Option<string>)
    ensures r.None? <==> t == ""
  {
    if t == "" then None
    else if ':' in t && MinutesSeconds(t) then
      var parts := Split(t, ':');
      Some(NatToString(DigitsValue(parts[0]) * 60 + DigitsValue(parts[1])))
    else if ':' in t then Some(t)
    else Some(asFloat.GetOr(t))
  }

  /** `"M:S"` with digit parts is the number of seconds `M*60+S`, written in decimal. */
  lemma {:induction false} MinutesSecondsValue(m: string, s: string, asFloat: Option<string>)
    requires IsDigits(m) && IsDigits(s)
    ensures EnsureTimeFormat(m + ":" + s, asFloat) == Some(NatToString(DigitsValue(m) * 60 + DigitsValue(s)))
  {
    var t := m + ":" + s;
    SplitPair(m, s);
    assert ':' in t by { assert t[|m|] == ':'; }
    assert MinutesSeconds(t);
  }

  /** The player reads those seconds back as the number `M*60+S`. */
  lemma {:induction false} MinutesSecondsParse(m: string, s: string, asFloat: Option<string>)
    requires IsDigits(m) && IsDigits(s)
    ensures ParseInt(EnsureTimeFormat(m + ":" + s, asFloat).value) == Some(DigitsValue(m) * 60 + DigitsValue(s))
  {
    var n := DigitsValue(m) * 60 + DigitsValue(s);
    MinutesSecondsValue(m, s, asFloat);
    ParseIntOfNat(n);
    assert EnsureTimeFormat(m + ":" + s, asFloat).value == NatToString(n);
  }

  lemma {:induction false} SplitPair(m: string, s: string)
    requires IsDigits(m) && IsDigits(s)
    ensures Split(m + ":" + s, ':') == [m, s]
  {
    assert Free(m, ':') && Free(s, ':');
    assert m + ":" + s == m + [':'] + s;
    SplitTwo(m, ':', s);
  }

  /** Any other colon string comes back unchanged, whatever `float` would have made of it. */
  lemma {:induction false} OtherColonUnchanged(t: string, asFloat: Option<string>)
    requires ':' in t && !MinutesSeconds(t)
    ensures EnsureTimeFormat(t, asFloat) == Some(t)
  {
  }

  /** A string without a colon is formatted as a float, or returned as it is when it is not a number. */
  lemma {:induction false} NoColonAsFloat(t: string, asFloat: Option<string>)
    requires t != "" && ':' !in t
    ensures EnsureTimeFormat(t, asFloat) == if asFloat.Some? then asFloat else Some(t)
  {
  }

  /** `get_player_priority`: mpv only, whatever the file. */
  function PlayerPriority(filePath: string): (r: seq<string>)
    ensures |r| == 1 && r[0] == "mpv"
  {
    ["mpv"]
  }

  /** The three settings `play_video_mpv` reads from an action's config before building the command. */
  datatype PlayerSettings = PlayerSettings(fullscreen: bool, gain: Json, systemVolume: Json)

  /**
   * The settings for `config`: the defaults (fullscreen, gain 0, no system volume) for an empty
   * or missing config, the config's own values otherwise; `fullscreen` is read for its truth.
   * A non-empty config that is not a dictionary raises, which `play_video_mpv` reports as a failure.
   */
  function SettingsOf(config: Json): (r: Result<PlayerSettings>)
    ensures !Truthy(config) ==> r == Ok(PlayerSettings(true, JInt(0), JNull))
    ensures Truthy(config) && !config.JObj? ==> r.Err?
    ensures config.JObj? && |config.fields| > 0 ==>
              && r.Ok?
              && r.value.gain == Get(config.fields, "gain", JInt(0))
              && r.value.systemVolume == Get(config.fields, "system_volume", JNull)
              && (r.value.fullscreen <==> "fullscreen" !in config.fields || Truthy(config.fields["fullscreen"]))
  {
    if !Truthy(config) then Ok(PlayerSettings(true, JInt(0), JNull))
    else match config
      case JObj(fields) =>
        Ok(PlayerSettings(Truthy(Get(fields, "fullscreen", JBool(true))), Get(fields, "gain", JInt(0)),
                          Get(fields, "system_volume", JNull)))
      case _ => Err("config has no get")
  }

  /**
   * The command `play_video_mpv` starts, up to the start, end and gain flags: the player and
   * the file, then the flags appended one by one.
   */
  method MpvCommand(mpvPath: string, filePath: string, fullscreen: bool, linux: bool) returns (cmd: seq<string>)
    ensures |cmd| >= 3 && cmd[..2] == [mpvPath, filePath]
    ensures "--fs" in cmd[2..] <==> fullscreen
    ensures "--geometry=100%x100%" in cmd[2..] <==> fullscreen && linux
    ensures "--x11-bypass-compositor=no" in cmd[2..] <==> fullscreen && linux
    ensures "--no-terminal" in cmd[2..]
    ensures "--ontop" in cmd[2..] <==> !(linux && fullscreen)
    ensures fullscreen ==> cmd[2] == "--fs"
    ensures cmd[|cmd| - 1] == if linux && fullscreen then "--no-terminal" else "--ontop"
  {
    cmd := [mpvPath, filePath];
    if fullscreen {
      cmd := cmd + ["--fs"];
      if linux {
        cmd := cmd + ["--geometry=100%x100%"];
        cmd := cmd + ["--x11-bypass-compositor=no"];
      }
    }
    cmd := cmd + ["--no-terminal"];
    if !(linux && fullscreen) {
      cmd := cmd + ["--ontop"];
    }
    assert cmd[2..] == if fullscreen && linux then ["--fs", "--geometry=100%x100%", "--x11-bypass-compositor=no", "--no-terminal"]
                       else if fullscreen then ["--fs", "--no-terminal", "--ontop"]
                       else ["--no-terminal", "--ontop"];
  }
}
