/**
 * The session variables a cron-started alarm needs on Linux: `ensure_cron_environment` fills in
 * the runtime directory, the Wayland display, the X display and the D-Bus address when they are
 * unset, looking for the files the session leaves. Which paths exist is a parameter.
 */
module Session {
  import opened Strings

  const Xdg: string := "XDG_RUNTIME_DIR"
  const Wayland: string := "WAYLAND_DISPLAY"
  const Display: string := "DISPLAY"
  const Dbus: string := "DBUS_SESSION_BUS_ADDRESS"

  lemma DistinctNames()
    ensures Xdg != Wayland && Xdg != Display && Xdg != Dbus && Wayland != Display && Wayland != Dbus && Display != Dbus
  {
    assert Xdg[0] == 'X' && Wayland[0] == 'W' && Display[0] == 'D' && Dbus[0] == 'D' && |Display| != |Dbus|;
  }

  /** `not os.environ.get(key)`: the variable is absent or empty. */
  predicate Unset(vars: map<string, string>, key: string) {
    key !in vars || vars[key] == ""
  }

  /** `/run/user/<uid>` */
  function RuntimeDir(uid: nat): string {
    "/run/user/" + NatToString(uid)
  }

  /** `os.environ.get(key, default)`: an empty value is returned as it is. */
  function GetOr(vars: map<string, string>, key: string, default: string): string {
    if key in vars then vars[key] else default
  }

  /** One guarded step: `key` is set to `value` when it is unset and `found` holds; nothing else changes. */
  function Fill(vars: map<string, string>, key: string, found: bool, value: string): (r: map<string, string>)
    ensures Unset(vars, key) && found ==> key in r && r[key] == value
    ensures !(Unset(vars, key) && found) ==> r == vars
  {
    if Unset(vars, key) && found then vars[key := value] else vars
  }

  /** A step changes no other variable. */
  lemma FillKeeps(vars: map<string, string>, key: string, found: bool, value: string, k: string)
    requires k != key
    ensures var r := Fill(vars, key, found, value); (k in r <==> k in vars) && (k in vars ==> r[k] == vars[k])
  {
  }

  /** The environment after the first step: the runtime directory, when unset and present. */
  function WithRuntimeDir(vars: map<string, string>, uid: nat, existing: set<string>): map<string, string> {
    Fill(vars, Xdg, RuntimeDir(uid) in existing, RuntimeDir(uid))
  }

  /** The runtime directory the later steps look in. */
  function RuntimeDirUsed(vars: map<string, string>, uid: nat, existing: set<string>): string {
    GetOr(WithRuntimeDir(vars, uid, existing), Xdg, RuntimeDir(uid))
  }

  /**
   * The environment `ensure_cron_environment` leaves: each of the four variables is written only
   * when it was unset, DISPLAY always (to `:0`), the others only when the file they name exists.
   */
  function CronEnvironment(vars: map<string, string>, uid: nat, existing: set<string>): (r: map<string, string>)
    ensures forall k :: k != Xdg && k != Wayland && k != Display && k != Dbus ==>
              (k in r <==> k in vars) && (k in vars ==> r[k] == vars[k])
    ensures Display in r && r[Display] != ""
    ensures Unset(vars, Display) ==> r[Display] == ":0"
  {
    var v1 := WithRuntimeDir(vars, uid, existing);
    var xdg := RuntimeDirUsed(vars, uid, existing);
    var sock, bus := PathJoin(xdg, "wayland-0"), PathJoin(xdg, "bus");
    var v2 := Fill(v1, Wayland, sock in existing, "wayland-0");
    var v3 := Fill(v2, Display, true, ":0");
    var r := Fill(v3, Dbus, bus in existing, "unix:path=" + bus);
    DistinctNames();
    assert forall k :: k != Xdg && k != Wayland && k != Display && k != Dbus ==>
             (k in r <==> k in vars) && (k in vars ==> r[k] == vars[k]) by {
      forall k | k != Xdg && k != Wayland && k != Display && k != Dbus
        ensures (k in r <==> k in vars) && (k in vars ==> r[k] == vars[k])
      {
        FillKeeps(vars, Xdg, RuntimeDir(uid) in existing, RuntimeDir(uid), k);
        FillKeeps(v1, Wayland, sock in existing, "wayland-0", k);
        FillKeeps(v2, Display, true, ":0", k);
        FillKeeps(v3, Dbus, bus in existing, "unix:path=" + bus, k);
      }
    }
    FillKeeps(v3, Dbus, bus in existing, "unix:path=" + bus, Display);
    r
  }

  /** A step leaves a variable that is set as it was. */
  lemma FillKeepsSet(vars: map<string, string>, key: string, found: bool, value: string, k: string)
    requires k in vars && vars[k] != ""
    ensures var r := Fill(vars, key, found, value); k in r && r[k] == vars[k]
  {
  }

  /** A variable that is already set keeps its value. */
  lemma KeepsSetValues(vars: map<string, string>, uid: nat, existing: set<string>, k: string)
    requires k in vars && vars[k] != ""
    ensures var r := CronEnvironment(vars, uid, existing); k in r && r[k] == vars[k]
  {
    var v1 := WithRuntimeDir(vars, uid, existing);
    var xdg := RuntimeDirUsed(vars, uid, existing);
    var sock, bus := PathJoin(xdg, "wayland-0"), PathJoin(xdg, "bus");
    var v2 := Fill(v1, Wayland, sock in existing, "wayland-0");
    var v3 := Fill(v2, Display, true, ":0");
    FillKeepsSet(vars, Xdg, RuntimeDir(uid) in existing, RuntimeDir(uid), k);
    FillKeepsSet(v1, Wayland, sock in existing, "wayland-0", k);
    FillKeepsSet(v2, Display, true, ":0", k);
    FillKeepsSet(v3, Dbus, bus in existing, "unix:path=" + bus, k);
  }

  /** The runtime directory is filled in exactly when it is unset and `/run/user/<uid>` exists. */
  lemma RuntimeDirFilled(vars: map<string, string>, uid: nat, existing: set<string>)
    requires Unset(vars, Xdg)
    ensures var r := CronEnvironment(vars, uid, existing);
            && (RuntimeDir(uid) in existing ==> Xdg in r && r[Xdg] == RuntimeDir(uid))
            && (RuntimeDir(uid) !in existing ==> (Xdg in r <==> Xdg in vars) && (Xdg in vars ==> r[Xdg] == vars[Xdg]))
  {
    DistinctNames();
  }

  /** WAYLAND_DISPLAY is filled in exactly when it is unset and the runtime directory holds `wayland-0`. */
  lemma WaylandFilled(vars: map<string, string>, uid: nat, existing: set<string>)
    requires Unset(vars, Wayland)
    ensures var r, sock := CronEnvironment(vars, uid, existing), PathJoin(RuntimeDirUsed(vars, uid, existing), "wayland-0");
            && (sock in existing ==> Wayland in r && r[Wayland] == "wayland-0")
            && (sock !in existing ==> (Wayland in r <==> Wayland in vars) && (Wayland in vars ==> r[Wayland] == vars[Wayland]))
  {
    DistinctNames();
  }

  /** The D-Bus address is filled in exactly when it is unset and the runtime directory holds `bus`. */
  lemma DbusFilled(vars: map<string, string>, uid: nat, existing: set<string>)
    requires Unset(vars, Dbus)
    ensures var r, bus := CronEnvironment(vars, uid, existing), PathJoin(RuntimeDirUsed(vars, uid, existing), "bus");
            && (bus in existing ==> Dbus in r && r[Dbus] == "unix:path=" + bus)
            && (bus !in existing ==> (Dbus in r <==> Dbus in vars) && (Dbus in vars ==> r[Dbus] == vars[Dbus]))
  {
    DistinctNames();
  }

  /** Running the setup a second time changes nothing. */
  lemma CronEnvironmentIdempotent(vars: map<string, string>, uid: nat, existing: set<string>)
    ensures CronEnvironment(CronEnvironment(vars, uid, existing), uid, existing) == CronEnvironment(vars, uid, existing)
  {
    DistinctNames();
    var xdg := RuntimeDirUsed(vars, uid, existing);
    var sock, bus := PathJoin(xdg, "wayland-0"), PathJoin(xdg, "bus");
    var r := CronEnvironment(vars, uid, existing);
    KeepsOrUnset(vars, uid, existing, Xdg);
    assert WithRuntimeDir(r, uid, existing) == r;
    assert RuntimeDirUsed(r, uid, existing) == xdg;
    KeepsOrUnset(vars, uid, existing, Wayland);
    if Unset(r, Wayland) {
      WaylandFilled(vars, uid, existing);
    }
    assert Fill(r, Wayland, sock in existing, "wayland-0") == r;
    assert Fill(r, Display, true, ":0") == r;
    KeepsOrUnset(vars, uid, existing, Dbus);
    if Unset(r, Dbus) {
      DbusFilled(vars, uid, existing);
    }
    assert Fill(r, Dbus, bus in existing, "unix:path=" + bus) == r;
  }

  /** A variable unset afterwards was unset before. */
  lemma KeepsOrUnset(vars: map<string, string>, uid: nat, existing: set<string>, k: string)
    ensures Unset(CronEnvironment(vars, uid, existing), k) ==> Unset(vars, k)
  {
    if k in vars && vars[k] != "" {
      KeepsSetValues(vars, uid, existing, k);
    }
  }

  /** `os.environ` */
  class Environment {
    var vars: map<string, string>

    constructor (vars: map<string, string>)
      ensures this.vars == vars
    {
      this.vars := vars;
    }
  }

  /** `ensure_cron_environment` for the user `uid`; `existing` holds the paths `os.path.exists` accepts. */
  method EnsureCronEnvironment(env: Environment, uid: nat, existing: set<string>)
    modifies env
    ensures env.vars == CronEnvironment(old(env.vars), uid, existing)
  {
    DistinctNames();
    ghost var v0 := env.vars;
    if Unset(env.vars, Xdg) {
      var xdgPath := RuntimeDir(uid);
      if xdgPath in existing {
        env.vars := env.vars[Xdg := xdgPath];
      }
    }
    ghost var v1 := env.vars;
    assert v1 == WithRuntimeDir(v0, uid, existing);
    var xdg := GetOr(env.vars, Xdg, RuntimeDir(uid));
    assert xdg == RuntimeDirUsed(v0, uid, existing);
    if Unset(env.vars, Wayland) {
      var waylandSock := PathJoin(xdg, "wayland-0");
      if waylandSock in existing {
        env.vars := env.vars[Wayland := "wayland-0"];
      }
    }
    ghost var v2 := env.vars;
    assert v2 == Fill(v1, Wayland, PathJoin(xdg, "wayland-0") in existing, "wayland-0");
    if Unset(env.vars, Display) {
      env.vars := env.vars[Display := ":0"];
    }
    ghost var v3 := env.vars;
    assert v3 == Fill(v2, Display, true, ":0");
    if Unset(env.vars, Dbus) {
      var dbusPath := PathJoin(xdg, "bus");
      if dbusPath in existing {
        env.vars := env.vars[Dbus := "unix:path=" + dbusPath];
      }
    }
    assert env.vars == Fill(v3, Dbus, PathJoin(xdg, "bus") in existing, "unix:path=" + PathJoin(xdg, "bus"));
  }
}
