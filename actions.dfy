/**
 * The registry of alarm actions: the supported type names, the handler each type runs, the
 * default configuration each type starts from, and the dispatch `execute_action` performs.
 * What a handler does to the machine (players, browser, shell, camera) is a parameter.
 */
module Actions {
  import opened Wrappers
  import opened Strings
  import opened Lists
  import opened Json

  /** ACTION_TYPES */
  const ActionTypes: seq<string> := [
    "play_audio", "play_video", "play_random_audio", "play_random_video", "open_url", "wait_action",
    "set_brightness", "set_system_volume", "kill_black_screen", "monitor_control", "run_command",
    "open_journal", "take_photo", "record_audio"]

  /** The handler functions of the module. */
  datatype Handler =
    | PlayVideo | PlayAudio | PlayRandomVideo | PlayRandomAudio | OpenUrl | WaitAction | SetSystemVolume
    | SetBrightness | KillBlackScreen | MonitorControl | RunCommand | OpenJournal | TakePhoto | RecordAudio

  /** ACTION_HANDLERS */
  const Handlers: map<string, Handler> := map[
    "play_video" := PlayVideo,
    "play_audio" := PlayAudio,
    "play_random_video" := PlayRandomVideo,
    "play_random_audio" := PlayRandomAudio,
    "open_url" := OpenUrl,
    "wait_action" := WaitAction,
    "set_system_volume" := SetSystemVolume,
    "set_brightness" := SetBrightness,
    "kill_black_screen" := KillBlackScreen,
    "monitor_control" := MonitorControl,
    "run_command" := RunCommand,
    "open_journal" := OpenJournal,
    "take_photo" := TakePhoto,
    "record_audio" := RecordAudio]

  const MediaComment: string :=
    "gain: Audio amplification in dB (-50 to +50). system_volume: set system vol (0-100, null=no change)"

  /** The `templates` dictionary of `get_action_template` */
  const Templates: map<string, map<string, Json>> := map[
    "play_audio" := map[
      "file" := JStr("audio/example.mp3"), "gain" := JInt(0), "system_volume" := JNull,
      "from" := JStr("00:00"), "to" := JStr("00:00"), "#comment" := JStr(MediaComment)],
    "play_video" := map[
      "file" := JStr("video/example.mp4"), "fullscreen" := JBool(true), "gain" := JInt(0),
      "system_volume" := JNull, "from" := JStr("00:00"), "to" := JStr("00:00"),
      "#comment" := JStr(MediaComment)],
    "play_random_audio" := map[
      "directory" := JStr("audio"),
      "file_types" := JArr([JStr("mp3"), JStr("wav"), JStr("ogg"), JStr("flac")]),
      "gain" := JInt(0), "system_volume" := JNull,
      "#comment" := JStr("gain: Audio amplification in dB. system_volume: set system vol (0-100, null=no change)")],
    "play_random_video" := map[
      "directory" := JStr("video"),
      "file_types" := JArr([JStr("mp4"), JStr("mkv"), JStr("webm"), JStr("avi")]),
      "fullscreen" := JBool(true), "gain" := JInt(0), "system_volume" := JNull,
      "include_filter" := JStr(""), "exclude_filter" := JStr(""),
      "#comment" := JStr("filters: simple keyword matching in filename")],
    "open_url" := map[
      "url" := JStr("https://example.com"), "browser" := JStr("default"), "#comment" := JStr("Open a website")],
    "wait_action" := map["duration" := JInt(5), "#comment" := JStr("Wait for X seconds")],
    "set_brightness" := map["level" := JInt(100), "#comment" := JStr("Set screen brightness (0-100)")],
    "set_system_volume" := map["volume" := JInt(50), "#comment" := JStr("Set system volume (0-100)")],
    "kill_black_screen" := map["#comment" := JStr("Close the black overlay window")],
    "monitor_control" := map["state" := JStr("off"), "#comment" := JStr("Turn monitor 'on' or 'off'")],
    "run_command" := map[
      "command" := JStr("echo 'Hello'"), "wait" := JBool(false),
      "#comment" := JStr("Execute shell command. Use with caution!")],
    "open_journal" := map["directory" := JStr("journals"), "#comment" := JStr("Open/Create daily markdown journal")],
    "take_photo" := map[
      "directory" := JStr("captures"), "camera_index" := JInt(0), "#comment" := JStr("Take photo from webcam")],
    "record_audio" := map[
      "directory" := JStr("captures"), "duration" := JInt(10), "#comment" := JStr("Record X seconds of audio")]]

  const NoTemplate: map<string, Json> := map["#comment" := JStr("No template available")]

  /** `get_action_template`: the type's template, or a bare comment for a type without one. */
  function Template(actionType: string): (r: map<string, Json>)
    ensures actionType in Templates ==> r == Templates[actionType]
    ensures actionType !in Templates ==> r == map["#comment" := JStr("No template available")]
    ensures "#comment" in r
  {
    if actionType in Templates then
      TemplatesCommented(actionType);
      Templates[actionType]
    else NoTemplate
  }

  lemma TemplatesCommented(t: string)
    requires t in Templates
    ensures "#comment" in Templates[t]
  {
  }

  /** The registry is consistent: every listed type has a handler and a template, and nothing else has either. */
  lemma TablesAgree(t: string)
    ensures t in ActionTypes <==> t in Handlers
    ensures t in ActionTypes <==> t in Templates
  {
  }

  /** What calling a handler ends in: its return value, or an exception. */
  datatype Outcome = Returned(value: bool) | Raised

  /**
   * The machine the handlers act on. `play` is `execute_media(file, config)`, `playOneOf` the
   * same for a random choice among the files of a directory, `pathExists` `os.path.exists`,
   * `listing` `os.listdir`, and `effect` the rest of a handler once its own checks pass.
   */
  datatype World = World(
    play: (Json, Json) -> Outcome,
    playOneOf: (string, seq<string>, Json) -> Outcome,
    pathExists: string -> bool,
    listing: string -> Option<seq<string>>,
    effect: (Handler, Json) -> Outcome)

  /** `value = config.get(key)`, then `if not value: return False`, then the handler goes on. */
  function RequireKey(config: Json, key: string, next: Json -> Outcome): (r: Outcome)
    ensures Lookup(config, key).Err? ==> r == Raised
    ensures Lookup(config, key).Ok? && !Truthy(Lookup(config, key).value) ==> r == Returned(false)
  {
    match Lookup(config, key)
    case Err(_) => Raised
    case Ok(v) => if Truthy(v) then next(v) else Returned(false)
  }

  /**
   * The suffixes `tuple(config.get("file_types", ...))` hands to `endswith`: the strings of a
   * list, the characters of a string, the keys of a dictionary; any other value raises. Only
   * which suffixes there are matters to `endswith`, so they are a set.
   */
  function ExtensionsOf(j: Json): (r: Option<set<string>>)
    ensures j.JStr? ==> r.Some? && (forall e :: e in r.value ==> |e| == 1) && forall c :: [c] in r.value <==> c in j.s
    ensures j.JObj? ==> r.Some? && forall e :: e in r.value <==> e in j.fields
    ensures j.JArr? ==> (r.Some? <==> forall i :: 0 <= i < |j.items| ==> j.items[i].JStr?)
    ensures j.JArr? && r.Some? ==> forall e :: e in r.value <==> JStr(e) in j.items
    ensures !j.JStr? && !j.JObj? && !j.JArr? ==> r.None?
  {
    match j
    case JStr(s) => Some(set c | c in s :: [c])
    case JArr(items) =>
      if forall i :: 0 <= i < |items| ==> items[i].JStr? then
        Some(set x | x in items && x.JStr? :: x.s)
      else None
    case JObj(fields) => Some(fields.Keys)
    case _ => None
  }

  /** `name.endswith(extensions)` for a tuple of suffixes */
  predicate EndsWithAny(name: string, extensions: set<string>) {
    exists e :: e in extensions && EndsWith(name, e)
  }

  /** The extension test of `handle_play_random_video`: the lower-cased name ends in one of the extensions. */
  predicate HasExtension(f: string, extensions: set<string>) {
    EndsWithAny(Lower(f), extensions)
  }

  /** `pattern.lower() in f.lower()` */
  predicate Mentions(f: string, pattern: string) {
    Contains(Lower(f), Lower(pattern))
  }

  /** A file the stripped include and exclude filters let through; an empty filter lets everything through. */
  predicate PassesFilters(f: string, includeFilter: string, excludeFilter: string) {
    && (Strip(includeFilter) == "" || Mentions(f, Strip(includeFilter)))
    && (Strip(excludeFilter) == "" || !Mentions(f, Strip(excludeFilter)))
  }

  /** `files = [f for f in files if ...]` for a non-empty include filter, else the files unchanged */
  function Included(files: seq<string>, inc: string): (r: seq<string>)
    ensures forall f :: f in r <==> f in files && (inc == "" || Mentions(f, inc))
  {
    if inc != "" then Filter(files, f => Mentions(f, inc)) else files
  }

  /** `files = [f for f in files if ... not in ...]` for a non-empty exclude filter, else the files unchanged */
  function Excluded(files: seq<string>, exc: string): (r: seq<string>)
    ensures forall f :: f in r <==> f in files && (exc == "" || !Mentions(f, exc))
  {
    if exc != "" then Filter(files, f => !Mentions(f, exc)) else files
  }

  /**
   * The files `handle_play_random_video` chooses from: those whose lower-cased name ends in
   * one of the extensions, narrowed by the stripped include filter and the stripped exclude
   * filter, both compared without case.
   */
  function RandomFiles(listing: seq<string>, extensions: set<string>, includeFilter: string, excludeFilter: string): (r: seq<string>)
    ensures forall f :: f in r <==> f in listing && HasExtension(f, extensions) && PassesFilters(f, includeFilter, excludeFilter)
  {
    Excluded(Included(Filter(listing, f => HasExtension(f, extensions)), Strip(includeFilter)), Strip(excludeFilter))
  }

  /** `handle_play_random_video` */
  function RandomVideo(config: Json, w: World): (r: Outcome)
    ensures config.JObj? ==>
              var directory := Get(config.fields, "directory", JStr("video"));
              directory.JStr? && !w.pathExists(directory.s) ==> r == Returned(false)
  {
    match Lookup(config, "directory")
    case Err(_) => Raised
    case Ok(_) =>
      var directory := Get(config.fields, "directory", JStr("video"));
      if !directory.JStr? then Raised
      else if !w.pathExists(directory.s) then Returned(false)
      else match ExtensionsOf(Get(config.fields, "file_types", JArr([JStr("mp4"), JStr("mkv"), JStr("webm"), JStr("avi")])))
        case None => Raised
        case Some(extensions) =>
          RandomVideoBody(config, directory.s, extensions, w)
  }

  /** The `try` block of `handle_play_random_video`, where every exception means False. */
  function RandomVideoBody(config: Json, directory: string, extensions: set<string>, w: World): (r: Outcome)
    requires config.JObj?
    ensures r.Returned?
  {
    var includeFilter, excludeFilter := Get(config.fields, "include_filter", JStr("")), Get(config.fields, "exclude_filter", JStr(""));
    match w.listing(directory)
    case None => Returned(false)
    case Some(listing) =>
      if !includeFilter.JStr? || !excludeFilter.JStr? then Returned(false)
      else
        var files := RandomFiles(listing, extensions, includeFilter.s, excludeFilter.s);
        if files == [] then Returned(false)
        else match w.playOneOf(directory, files, config)
          case Raised => Returned(false)
          case Returned(b) => Returned(b)
  }

  /** No candidate after filtering means the action fails without playing anything. */
  lemma NoCandidateFails(config: Json, directory: string, extensions: set<string>, w: World, listing: seq<string>)
    requires config.JObj? && w.listing(directory) == Some(listing)
    requires Get(config.fields, "include_filter", JStr("")).JStr? && Get(config.fields, "exclude_filter", JStr("")).JStr?
    requires RandomFiles(listing, extensions, Get(config.fields, "include_filter", JStr("")).s,
                         Get(config.fields, "exclude_filter", JStr("")).s) == []
    ensures RandomVideoBody(config, directory, extensions, w) == Returned(false)
  {
  }

  /** The handler for `h` on `config`, with the checks each handler makes before acting. */
  function Handle(h: Handler, config: Json, w: World): Outcome {
    match h
    case PlayVideo => RequireKey(config, "file", file => w.play(file, config))
    case PlayAudio => RequireKey(config, "file", file => w.play(file, config))
    case PlayRandomVideo => RandomVideo(config, w)
    case OpenUrl => RequireKey(config, "url", url => w.effect(h, config))
    case RunCommand => RequireKey(config, "command", command => w.effect(h, config))
    case _ => w.effect(h, config)
  }

  /** `execute_action`: the handler's result; False for a type without a handler or a handler that raised. */
  function ExecuteAction(actionType: string, config: Json, w: World): (r: bool)
    ensures actionType !in Handlers ==> !r
    ensures actionType in Handlers && Handle(Handlers[actionType], config, w) == Raised ==> !r
    ensures r <==> actionType in Handlers && Handle(Handlers[actionType], config, w) == Returned(true)
  {
    if actionType !in Handlers then false
    else match Handle(Handlers[actionType], config, w)
      case Returned(b) => b
      case Raised => false
  }

  /** Without a `file`, `url` or `command`, the handlers needing one report failure and touch nothing. */
  lemma MissingKeyFails(actionType: string, fields: map<string, Json>, w: World)
    requires actionType in {"play_video", "play_audio", "open_url", "run_command"}
    requires var key := if actionType == "open_url" then "url" else if actionType == "run_command" then "command" else "file";
             key !in fields || !Truthy(fields[key])
    ensures !ExecuteAction(actionType, JObj(fields), w)
  {
    assert actionType in Handlers;
  }

  /** A real media file with a working player is what makes `play_video` succeed. */
  lemma PlayVideoPlays(fields: map<string, Json>, w: World)
    requires "file" in fields && Truthy(fields["file"])
    ensures ExecuteAction("play_video", JObj(fields), w) == (w.play(fields["file"], JObj(fields)) == Returned(true))
  {
    assert Handlers["play_video"] == PlayVideo;
  }
}
