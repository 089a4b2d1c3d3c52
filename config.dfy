/**
 * The settings store: one `ConfigManager` per process holding a two-level dictionary of
 * sections, started from the defaults and merged with `settings.json` when that file exists.
 */
module Config {
  import opened Wrappers
  import opened Json

  /** DEFAULT_SETTINGS */
  const DefaultSettings: map<string, Json> := map[
    "system" := JObj(map[
      "brightness_method" := JStr("auto"),
      "volume_method" := JStr("auto"),
      "linux_brightness_device" := JStr(""),
      "windows_nircmd_path" := JStr("nircmd.exe")]),
    "ui" := JObj(map[
      "theme" := JStr("Dark (Default)"),
      "start_minimized" := JBool(false),
      "time_format" := JStr("Both")]),
    "alarms" := JObj(map["sleep_offset_minutes" := JInt(15)]),
    "logging" := JObj(map[
      "file_logging_enabled" := JBool(false),
      "log_directory" := JStr("logs"),
      "log_file_format" := JStr("video_alarm_{date}.log")])]

  /** `d.get(k, {})`, the value `_update_nested` recurses into */
  function Base(d: map<string, Json>, k: string): Json {
    if k in d then d[k] else JObj(map[])
  }

  /** The keys `_update_nested` merges into instead of overwriting. */
  predicate MergesInto(k: string, v: Json) {
    v.JObj? && k != "extensions"
  }

  /**
   * `_update_nested(d, u)` runs to the end: assigning a key of a non-empty update into a value
   * that is not a dictionary raises TypeError.
   */
  predicate Mergeable(d: Json, u: Json)
    requires u.JObj?
    decreases u
  {
    && (!d.JObj? ==> |u.fields| == 0)
    && (d.JObj? ==> forall k :: k in u.fields && MergesInto(k, u.fields[k]) ==> Mergeable(Base(d.fields, k), u.fields[k]))
  }

  /**
   * The value `_update_nested(d, u)` leaves in `d`: every key of `u` is written, dictionaries
   * (except under `extensions`) by merging into the existing value, everything else by overwriting.
   */
  function Merge(d: Json, u: Json): (r: Json)
    requires u.JObj? && Mergeable(d, u)
    ensures d.JObj? ==> r.JObj? && r.fields.Keys == d.fields.Keys + u.fields.Keys
    ensures !d.JObj? ==> r == d
    decreases u
  {
    if !d.JObj? then d
    else JObj(map k | k in d.fields.Keys + u.fields.Keys ::
                if k !in u.fields then d.fields[k]
                else if MergesInto(k, u.fields[k]) then Merge(Base(d.fields, k), u.fields[k])
                else u.fields[k])
  }

  /** The three merge rules of `_update_nested`, key by key. */
  lemma MergeRules(d: map<string, Json>, u: map<string, Json>, k: string)
    requires Mergeable(JObj(d), JObj(u))
    ensures k in d && k !in u ==> Merge(JObj(d), JObj(u)).fields[k] == d[k]
    ensures k in u && !MergesInto(k, u[k]) ==> Merge(JObj(d), JObj(u)).fields[k] == u[k]
    ensures k in u && MergesInto(k, u[k]) ==> Merge(JObj(d), JObj(u)).fields[k] == Merge(Base(d, k), u[k])
  {
  }

  /** An empty update changes nothing. */
  lemma MergeEmpty(d: Json)
    ensures Mergeable(d, JObj(map[])) && Merge(d, JObj(map[])) == d
  {
    if d.JObj? {
      assert Merge(d, JObj(map[])).fields == d.fields;
    }
  }

  /** Merging into an empty dictionary yields the update itself. */
  lemma {:induction false} MergeIntoEmpty(u: Json)
    requires u.JObj?
    ensures Mergeable(JObj(map[]), u) && Merge(JObj(map[]), u) == u
    decreases u
  {
    forall k | k in u.fields && MergesInto(k, u.fields[k])
      ensures Mergeable(JObj(map[]), u.fields[k]) && Merge(JObj(map[]), u.fields[k]) == u.fields[k]
    {
      MergeIntoEmpty(u.fields[k]);
    }
    assert Base(map[], "") == JObj(map[]);
    var r := Merge(JObj(map[]), u);
    forall k | k in u.fields
      ensures r.fields[k] == u.fields[k]
    {
      assert Base(map[], k) == JObj(map[]);
    }
    assert r.fields == u.fields;
  }

  /** Loading the same file twice gives what loading it once gave. */
  lemma {:induction false} MergeIdempotent(d: Json, u: Json)
    requires u.JObj? && Mergeable(d, u)
    ensures Mergeable(Merge(d, u), u) && Merge(Merge(d, u), u) == Merge(d, u)
    decreases u
  {
    if d.JObj? {
      var r := Merge(d, u);
      forall k | k in u.fields && MergesInto(k, u.fields[k])
        ensures Base(r.fields, k) == Merge(Base(d.fields, k), u.fields[k])
        ensures Mergeable(Base(r.fields, k), u.fields[k])
        ensures Merge(Base(r.fields, k), u.fields[k]) == Base(r.fields, k)
      {
        MergeIdempotent(Base(d.fields, k), u.fields[k]);
      }
      var rr := Merge(r, u);
      forall k | k in rr.fields
        ensures rr.fields[k] == r.fields[k]
      {
      }
      assert rr.fields == r.fields;
    }
  }

  /** `settings.json` as `load` finds it. */
  datatype SettingsFile = Missing | Unreadable | Document(doc: Json)

  /** The settings after `load` reads `file`; a document that is not a dictionary, or whose merge raises, is only logged. */
  function Loaded(settings: map<string, Json>, file: SettingsFile): (r: map<string, Json>)
    ensures !file.Document? ==> r == settings
  {
    match file
    case Document(doc) =>
      if doc.JObj? && Mergeable(JObj(settings), doc) then Merge(JObj(settings), doc).fields else settings
    case _ => settings
  }

  /**
   * `get(section, key)`: the stored value, `null` (Python's None) when the section or key is
   * absent or the section is not a dictionary; a falsy key returns the whole section.
   */
  function Setting(settings: map<string, Json>, section: string, key: string): Json {
    if key == "" then Get(settings, section, JNull)
    else match Get(settings, section, JObj(map[]))
      case JObj(fields) => Get(fields, key, JNull)
      case _ => JNull
  }

  /** The settings after `set(section, key, value)`; assigning into a section that is not a dictionary raises and changes nothing. */
  function Assigned(settings: map<string, Json>, section: string, key: string, value: Json): map<string, Json> {
    if section !in settings then settings[section := JObj(map[key := value])]
    else match settings[section]
      case JObj(fields) => settings[section := JObj(fields[key := value])]
      case _ => settings
  }

  /** After `set`, `get` of the same section and key returns the value set. */
  lemma GetAfterSet(settings: map<string, Json>, section: string, key: string, value: Json)
    requires key != "" && (section in settings ==> settings[section].JObj?)
    ensures Setting(Assigned(settings, section, key, value), section, key) == value
  {
  }

  /** `set` changes only `settings[section][key]`. */
  lemma SetKeepsOthers(settings: map<string, Json>, section: string, key: string, value: Json, s: string, k: string)
    requires s != section || (k != key && k != "")
    ensures Setting(Assigned(settings, section, key, value), s, k) == Setting(settings, s, k)
  {
  }

  /** `get` on a missing section is None for every key. */
  lemma GetMissingSection(settings: map<string, Json>, section: string, key: string)
    requires section !in settings
    ensures Setting(settings, section, key) == JNull
  {
  }

  class ConfigManager {
    var settings: map<string, Json>
    /** The content of `settings.json` */
    var file: SettingsFile

    /** `ConfigManager.__new__` for the first instance: the defaults, then `load()`. */
    constructor (file: SettingsFile, saveFails: bool)
      ensures settings == Loaded(DefaultSettings, file)
      ensures this.file == if file.Missing? && !saveFails then Document(JObj(DefaultSettings)) else file
    {
      settings := DefaultSettings;
      this.file := file;
      new;
      Load(saveFails);
    }

    /** `load`: merges the file into the settings; a missing file is created from the current settings. */
    method Load(saveFails: bool)
      modifies this
      ensures settings == Loaded(old(settings), old(file))
      ensures file == if old(file).Missing? && !saveFails then Document(JObj(settings)) else old(file)
    {
      match file
      case Missing =>
        Save(saveFails);
      case Unreadable =>
      case Document(doc) =>
        if doc.JObj? && Mergeable(JObj(settings), doc) {
          settings := Merge(JObj(settings), doc).fields;
        }
    }

    /** `save`: writes the settings as JSON; a failed write is only logged. */
    method Save(saveFails: bool)
      modifies this
      ensures settings == old(settings)
      ensures file == if saveFails then old(file) else Document(JObj(settings))
    {
      if !saveFails {
        file := Document(JObj(settings));
      }
    }

    /** `get` */
    function Get(section: string, key: string): Json
      reads this
    {
      Setting(settings, section, key)
    }

    /** `set` */
    method Set(section: string, key: string, value: Json)
      modifies this
      ensures settings == Assigned(old(settings), section, key, value)
      ensures file == old(file)
    {
      if section !in settings {
        settings := settings[section := JObj(map[])];
      }
      match settings[section]
      case JObj(fields) =>
        settings := settings[section := JObj(fields[key := value])];
      case _ =>
    }
  }

  /** `ConfigManager._instance`, the class attribute holding the one instance. */
  class Singleton {
    var instance: ConfigManager?

    constructor ()
      ensures instance == null
    {
      instance := null;
    }

    /** `ConfigManager()` / `get_config()`: the existing instance, or a new one on the first call. */
    method GetConfig(file: SettingsFile, saveFails: bool) returns (c: ConfigManager)
      modifies this
      ensures instance == c
      ensures old(instance) != null ==> c == old(instance)
      ensures old(instance) == null ==> fresh(c) && c.settings == Loaded(DefaultSettings, file)
    {
      if instance == null {
        instance := new ConfigManager(file, saveFails);
      }
      c := instance;
    }
  }

  /** Two calls, whatever the file holds in between, give the same instance. */
  method OneInstance(holder: Singleton, first: SettingsFile, second: SettingsFile) returns (a: ConfigManager, b: ConfigManager)
    modifies holder
    ensures a == b
  {
    a := holder.GetConfig(first, false);
    b := holder.GetConfig(second, false);
  }
}
