/**
 * The recipe `deploy.php`: the five custom tasks, the two ordered task lists
 * and the choice between them, the addon extension point, the `deploy` group,
 * the SSH options added to every host, and the rsync exclude list.
 *
 * Every `run()` is an action in the session's log; what the host answers is
 * the session's `remote`, an input of the model.
 */
module Recipe {
  import opened Wrappers
  import opened Php
  import opened Deployer

  // ---------------------------------------------------------------------
  // Commands and markers
  // ---------------------------------------------------------------------

  const EeVersionCmd := "ee --version"
  /** What EasyEngine 3 prints in its version string. */
  const V3Marker := "EasyEngine v3"
  /** What EasyEngine 4 prints in its version string. */
  const Ee4Marker := "EE 4"
  const DeployPath := "{{deploy_path}}"

  const PhpMajorCmd := "cd {{deploy_path}} && ee shell --command=\"php -r 'echo PHP_MAJOR_VERSION;'\" --skip-tty"
  /** The version assumed when the EE 4 shell cannot report one. */
  const FallbackPhpVersion: real := 7.4
  /** From this PHP major version on, cachetool 8.4.0 is downloaded instead of 5.1.3. */
  const PhpThreshold: nat := 8
  const Cachetool513Cmd := "wget https://github.com/gordalina/cachetool/releases/download/5.1.3/cachetool.phar -O {{release_path}}/cachetool.phar"
  const Cachetool840Cmd := "wget https://github.com/gordalina/cachetool/releases/download/8.4.0/cachetool.phar -O {{release_path}}/cachetool.phar"

  const OpcacheResetV3Cmd := "php {{release_path}}/cachetool.phar opcache:reset --fcgi=127.0.0.1:9070"
  const OpcacheResetEe4Cmd := "ee shell --command=\"php current/cachetool.phar opcache:reset --fcgi=127.0.0.1:9000\" --skip-tty"

  const CoreDbUpdateV3Cmd := "cd {{release_path}} && wp core update-db"
  const CoreDbUpdateEe4Cmd := "cd current && ee shell --command=\"wp core update-db\" --skip-tty"

  /** The parts of the `wp:config` command: a test for an existing `wp-config.php`, the link, and an `echo ""` fallback. */
  const WpConfigGuard := "[ ! -f {{release_path}}/../wp-config.php ]"
  const WpConfigLink := "cd {{release_path}}/../ && ln -sn ../wp-config.php && echo \"Created Symlink for wp-config.php.\""
  const WpConfigFallback := "echo \"\""
  const WpConfigCmd := WpConfigGuard + " && " + WpConfigLink + " || " + WpConfigFallback
  const PermissionsSetCmd := "chown -R www-data:www-data {{deploy_path}}"

  // ---------------------------------------------------------------------
  // The EasyEngine probe
  // ---------------------------------------------------------------------

  /** Which control panel the `ee --version` output names. */
  datatype Panel = EasyEngineV3 | EasyEngine4 | NoPanel

  /**
   * The if / elseif / else on the probe output: "EasyEngine v3" is tried
   * first, so an output naming both panels counts as version 3.
   */
  function Detect(version: string): (p: Panel)
    ensures p == EasyEngineV3 <==> exists i: nat :: OccursAt(version, V3Marker, i)
    ensures p == EasyEngine4 <==>
              (forall i: nat :: !OccursAt(version, V3Marker, i)) && exists i: nat :: OccursAt(version, Ee4Marker, i)
    ensures p == NoPanel <==>
              (forall i: nat :: !OccursAt(version, V3Marker, i)) && forall i: nat :: !OccursAt(version, Ee4Marker, i)
  {
    if Contains(version, V3Marker) then EasyEngineV3
    else if Contains(version, Ee4Marker) then EasyEngine4
    else NoPanel
  }

  /** A probe runs inside a caught block on a variable preset to the empty string, so a failed probe reads as "". */
  function ProbeText(r: Reply): string {
    match r
    case Output(t) => t
    case Failed => ""
  }

  /** The panel the current host reports. */
  function DetectedPanel(remote: Remote): Panel {
    Detect(ProbeText(remote(EeVersionCmd)))
  }

  // ---------------------------------------------------------------------
  // opcache:reset and core_db:update
  // ---------------------------------------------------------------------

  /** The commands `opcache:reset` issues after the probe. */
  function OpcacheResetSteps(p: Panel): seq<Action> {
    match p
    case EasyEngineV3 => [Exec(OpcacheResetV3Cmd)]
    case EasyEngine4 => [ChangeDir(DeployPath), Exec(OpcacheResetEe4Cmd)]
    case NoPanel => []
  }

  function OpcacheResetTrace(remote: Remote): Trace {
    Then([Exec(EeVersionCmd)], Script(remote, OpcacheResetSteps(DetectedPanel(remote))))
  }

  /** The commands `core_db:update` issues after the probe. */
  function CoreDbUpdateSteps(p: Panel): seq<Action> {
    match p
    case EasyEngineV3 => [Exec(CoreDbUpdateV3Cmd)]
    case EasyEngine4 => [ChangeDir(DeployPath), Exec(CoreDbUpdateEe4Cmd)]
    case NoPanel => []
  }

  function CoreDbUpdateTrace(remote: Remote): Trace {
    Then([Exec(EeVersionCmd)], Script(remote, CoreDbUpdateSteps(DetectedPanel(remote))))
  }

  /** The `ee --version` probe three of the tasks open with; its failure is caught and leaves the version empty. */
  method ProbeEeVersion(s: Session) returns (eeVersion: string)
    modifies s
    ensures s.log == old(s.log) + [Exec(EeVersionCmd)]
    ensures eeVersion == ProbeText(s.remote(EeVersionCmd))
  {
    eeVersion := "";
    var probe := s.Run(EeVersionCmd);
    if probe.Output? {
      eeVersion := probe.text;
    }
  }

  /** The `opcache:reset` task body. */
  method OpcacheReset(s: Session) returns (ok: bool)
    modifies s
    ensures s.log == old(s.log) + OpcacheResetTrace(s.remote).actions
    ensures ok == OpcacheResetTrace(s.remote).completed
  {
    ghost var before := s.log;
    var eeVersion := ProbeEeVersion(s);
    OpcacheResetCommands(s.remote);
    if Contains(eeVersion, V3Marker) {
      var r := s.Run(OpcacheResetV3Cmd);
      ok := r.Output?;
      assert s.log == before + [Exec(EeVersionCmd), Exec(OpcacheResetV3Cmd)];
    } else if Contains(eeVersion, Ee4Marker) {
      s.Cd(DeployPath);
      var r := s.Run(OpcacheResetEe4Cmd);
      ok := r.Output?;
      assert s.log == before + [Exec(EeVersionCmd), ChangeDir(DeployPath), Exec(OpcacheResetEe4Cmd)];
    } else {
      ok := true;
    }
  }

  /** The `core_db:update` task body. */
  method CoreDbUpdate(s: Session) returns (ok: bool)
    modifies s
    ensures s.log == old(s.log) + CoreDbUpdateTrace(s.remote).actions
    ensures ok == CoreDbUpdateTrace(s.remote).completed
  {
    ghost var before := s.log;
    var eeVersion := ProbeEeVersion(s);
    CoreDbUpdateCommands(s.remote);
    if Contains(eeVersion, V3Marker) {
      var r := s.Run(CoreDbUpdateV3Cmd);
      ok := r.Output?;
      assert s.log == before + [Exec(EeVersionCmd), Exec(CoreDbUpdateV3Cmd)];
    } else if Contains(eeVersion, Ee4Marker) {
      s.Cd(DeployPath);
      var r := s.Run(CoreDbUpdateEe4Cmd);
      ok := r.Output?;
      assert s.log == before + [Exec(EeVersionCmd), ChangeDir(DeployPath), Exec(CoreDbUpdateEe4Cmd)];
    } else {
      ok := true;
    }
  }

  /** A probe that throws leaves the version string empty, which names no panel: only the probe is issued. */
  lemma FailedProbeSkips(remote: Remote)
    requires remote(EeVersionCmd) == Failed
    ensures DetectedPanel(remote) == NoPanel
    ensures OpcacheResetTrace(remote) == Trace([Exec(EeVersionCmd)], true)
    ensures CoreDbUpdateTrace(remote) == Trace([Exec(EeVersionCmd)], true)
  {
    assert !Contains("", V3Marker) && !Contains("", Ee4Marker);
  }

  /** What version strings of each kind select. */
  lemma DetectExamples()
    ensures Detect("EasyEngine v3.8.1") == EasyEngineV3
    ensures Detect("EasyEngine v3.8.1 (EE 4 ready)") == EasyEngineV3
    ensures Detect("EE 4.6.6") == EasyEngine4
    ensures Detect("") == NoPanel
  {
    assert OccursAt("EasyEngine v3.8.1", V3Marker, 0);
    assert OccursAt("EasyEngine v3.8.1 (EE 4 ready)", V3Marker, 0);
    assert OccursAt("EE 4.6.6", Ee4Marker, 0);
  }

  /**
   * `opcache:reset` after the probe: version 3 resets through the FastCGI
   * pool on port 9070; EasyEngine 4 moves to the deploy path and resets
   * through `ee shell` on port 9000; anything else issues nothing more and
   * completes.
   */
  lemma OpcacheResetCommands(remote: Remote)
    ensures DetectedPanel(remote) == EasyEngineV3 ==>
              OpcacheResetTrace(remote) == Trace([Exec(EeVersionCmd), Exec(OpcacheResetV3Cmd)], remote(OpcacheResetV3Cmd).Output?)
    ensures DetectedPanel(remote) == EasyEngine4 ==>
              OpcacheResetTrace(remote)
              == Trace([Exec(EeVersionCmd), ChangeDir(DeployPath), Exec(OpcacheResetEe4Cmd)], remote(OpcacheResetEe4Cmd).Output?)
    ensures DetectedPanel(remote) == NoPanel ==> OpcacheResetTrace(remote) == Trace([Exec(EeVersionCmd)], true)
  {
    match DetectedPanel(remote)
    case EasyEngineV3 => ScriptOfOne(remote, OpcacheResetV3Cmd);
    case EasyEngine4 => ScriptOfCdThenOne(remote, DeployPath, OpcacheResetEe4Cmd);
    case NoPanel =>
  }

  /**
   * `core_db:update` after the probe: version 3 runs `wp core update-db` in
   * the new release; EasyEngine 4 runs it through `ee shell` in `current`;
   * anything else issues nothing more and completes.
   */
  lemma CoreDbUpdateCommands(remote: Remote)
    ensures DetectedPanel(remote) == EasyEngineV3 ==>
              CoreDbUpdateTrace(remote) == Trace([Exec(EeVersionCmd), Exec(CoreDbUpdateV3Cmd)], remote(CoreDbUpdateV3Cmd).Output?)
    ensures DetectedPanel(remote) == EasyEngine4 ==>
              CoreDbUpdateTrace(remote)
              == Trace([Exec(EeVersionCmd), ChangeDir(DeployPath), Exec(CoreDbUpdateEe4Cmd)], remote(CoreDbUpdateEe4Cmd).Output?)
    ensures DetectedPanel(remote) == NoPanel ==> CoreDbUpdateTrace(remote) == Trace([Exec(EeVersionCmd)], true)
  {
    match DetectedPanel(remote)
    case EasyEngineV3 => ScriptOfOne(remote, CoreDbUpdateV3Cmd);
    case EasyEngine4 => ScriptOfCdThenOne(remote, DeployPath, CoreDbUpdateEe4Cmd);
    case NoPanel =>
  }

  // ---------------------------------------------------------------------
  // cachetool:download
  // ---------------------------------------------------------------------

  /** The probes `cachetool:download` issues and the value `$php_version` then holds. */
  datatype Resolution = Resolution(probes: seq<Action>, version: Value)

  function ResolvePhpVersion(env: Option<string>, remote: Remote): Resolution {
    var fromEnv := FromEnv(env);
    if !Empty(fromEnv) then Resolution([], fromEnv)
    else if !Contains(ProbeText(remote(EeVersionCmd)), Ee4Marker) then Resolution([Exec(EeVersionCmd)], fromEnv)
    else
      Resolution([Exec(EeVersionCmd), Exec(PhpMajorCmd)],
                 match remote(PhpMajorCmd)
                 case Output(t) => Str(t)
                 case Failed => Float(FallbackPhpVersion))
  }

  /** The resolved version is one the model can compare with 8. */
  predicate ComparableVersion(env: Option<string>, remote: Remote) {
    Comparable(ResolvePhpVersion(env, remote).version)
  }

  /** The download command for a resolved `$php_version`. */
  function CachetoolCmdFor(v: Value): string
    requires Comparable(v)
  {
    if LessThan(v, PhpThreshold) then Cachetool513Cmd else Cachetool840Cmd
  }

  function CachetoolTrace(env: Option<string>, remote: Remote): Trace
    requires ComparableVersion(env, remote)
  {
    var res := ResolvePhpVersion(env, remote);
    Then(res.probes, Script(remote, [Exec(CachetoolCmdFor(res.version))]))
  }

  /** The first half of `cachetool:download`: settle `$php_version`, probing the host when the variable is empty. */
  method ResolvePhpVersionOn(s: Session, env: Option<string>) returns (phpVersion: Value)
    modifies s
    ensures phpVersion == ResolvePhpVersion(env, s.remote).version
    ensures s.log == old(s.log) + ResolvePhpVersion(env, s.remote).probes
  {
    phpVersion := FromEnv(env);
    if Empty(phpVersion) {
      var eeVersion := ProbeEeVersion(s);
      if Contains(eeVersion, Ee4Marker) {
        var major := s.Run(PhpMajorCmd);
        if major.Output? {
          phpVersion := Str(major.text);
        } else {
          phpVersion := Float(FallbackPhpVersion);
        }
      }
    }
  }

  /** The `cachetool:download` task body; `env` is `getenv('PHP_VERSION')`. */
  method CachetoolDownload(s: Session, env: Option<string>) returns (ok: bool)
    requires ComparableVersion(env, s.remote)
    modifies s
    ensures s.log == old(s.log) + CachetoolTrace(env, s.remote).actions
    ensures ok == CachetoolTrace(env, s.remote).completed
  {
    var phpVersion := ResolvePhpVersionOn(s, env);
    var r := Download(s, phpVersion);
    ok := r.Output?;
    ScriptOfOne(s.remote, CachetoolCmdFor(phpVersion));
  }

  /** The second half of `cachetool:download`: below PHP 8 fetch cachetool 5.1.3, otherwise 8.4.0. */
  method Download(s: Session, phpVersion: Value) returns (r: Reply)
    requires Comparable(phpVersion)
    modifies s
    ensures s.log == old(s.log) + [Exec(CachetoolCmdFor(phpVersion))]
    ensures r == s.remote(CachetoolCmdFor(phpVersion))
  {
    if LessThan(phpVersion, PhpThreshold) {
      r := s.Run(Cachetool513Cmd);
    } else {
      r := s.Run(Cachetool840Cmd);
    }
  }

  /** `PHP_VERSION` is empty in PHP's sense: unset, "" or "0". */
  predicate NoEnvVersion(env: Option<string>) {
    Empty(FromEnv(env))
  }

  /** A non-empty `PHP_VERSION` is used as given: no probe, and its major version alone picks the phar. */
  lemma CachetoolFromEnv(s: string, remote: Remote)
    requires s != "" && s != "0" && IsDecimal(s)
    ensures ResolvePhpVersion(Some(s), remote) == Resolution([], Str(s))
    ensures CachetoolTrace(Some(s), remote)
            == Trace([Exec(if Major(s) < PhpThreshold then Cachetool513Cmd else Cachetool840Cmd)],
                     remote(if Major(s) < PhpThreshold then Cachetool513Cmd else Cachetool840Cmd).Output?)
  {
    ScriptOfOne(remote, CachetoolCmdFor(Str(s)));
  }

  /** Without `PHP_VERSION` and without EasyEngine 4, the probe is the only extra command and 5.1.3 is fetched. */
  lemma CachetoolWithoutEe4(env: Option<string>, remote: Remote)
    requires NoEnvVersion(env) && ComparableVersion(env, remote)
    requires !Contains(ProbeText(remote(EeVersionCmd)), Ee4Marker)
    ensures CachetoolTrace(env, remote) == Trace([Exec(EeVersionCmd), Exec(Cachetool513Cmd)], remote(Cachetool513Cmd).Output?)
  {
    if env == Some("0") {
      assert StrPos("0", ".") == None by {
        assert !OccursAt("0", ".", 0);
      }
      assert IntValue("0") == IntValue("0"[..0]) * 10 + DigitValue('0');
    }
    ScriptOfOne(remote, Cachetool513Cmd);
  }

  /**
   * Without `PHP_VERSION` on EasyEngine 4 the version comes from `ee shell`;
   * when that throws, 7.4 is assumed and 5.1.3 is fetched.
   */
  lemma CachetoolOnEe4(env: Option<string>, remote: Remote)
    requires NoEnvVersion(env) && ComparableVersion(env, remote)
    requires Contains(ProbeText(remote(EeVersionCmd)), Ee4Marker)
    ensures ResolvePhpVersion(env, remote).probes == [Exec(EeVersionCmd), Exec(PhpMajorCmd)]
    ensures remote(PhpMajorCmd) == Failed ==>
              CachetoolTrace(env, remote)
              == Trace([Exec(EeVersionCmd), Exec(PhpMajorCmd), Exec(Cachetool513Cmd)], remote(Cachetool513Cmd).Output?)
    ensures remote(PhpMajorCmd).Output? && remote(PhpMajorCmd).text != "" ==>
              (CachetoolTrace(env, remote).actions[2] == Exec(Cachetool840Cmd)
               <==> Major(remote(PhpMajorCmd).text) >= PhpThreshold)
    ensures remote(PhpMajorCmd) == Output("") ==> CachetoolTrace(env, remote).actions[2] == Exec(Cachetool513Cmd)
  {
    ScriptOfOne(remote, Cachetool513Cmd);
    ScriptOfOne(remote, CachetoolCmdFor(ResolvePhpVersion(env, remote).version));
  }

  /** Whatever the inputs, exactly one download is issued, after the probes, and it is one of the two phars. */
  lemma CachetoolDownloadsOnce(env: Option<string>, remote: Remote)
    requires ComparableVersion(env, remote)
    ensures var t := CachetoolTrace(env, remote);
            var n := |ResolvePhpVersion(env, remote).probes|;
            |t.actions| == n + 1 && n <= 2
            && (t.actions[n] == Exec(Cachetool513Cmd) || t.actions[n] == Exec(Cachetool840Cmd))
  {
    ScriptOfOne(remote, CachetoolCmdFor(ResolvePhpVersion(env, remote).version));
  }

  // ---------------------------------------------------------------------
  // wp:config and permissions:set
  // ---------------------------------------------------------------------

  function WpConfigTrace(remote: Remote): Trace {
    Script(remote, [Exec(WpConfigCmd)])
  }

  /** The `wp:config` task body: one guarded shell command. */
  method WpConfig(s: Session) returns (ok: bool)
    modifies s
    ensures s.log == old(s.log) + WpConfigTrace(s.remote).actions
    ensures ok == WpConfigTrace(s.remote).completed
  {
    var r := s.Run(WpConfigCmd);
    ok := r.Output?;
  }

  function PermissionsSetTrace(remote: Remote): Trace {
    Script(remote, [Exec(PermissionsSetCmd)])
  }

  /** The `permissions:set` task body: hand the deploy path to www-data. */
  method PermissionsSet(s: Session) returns (ok: bool)
    modifies s
    ensures s.log == old(s.log) + PermissionsSetTrace(s.remote).actions
    ensures ok == PermissionsSetTrace(s.remote).completed
  {
    var r := s.Run(PermissionsSetCmd);
    ok := r.Output?;
  }

  /**
   * `wp:config` is one command that opens with the test for an existing
   * `wp-config.php` and ends in `|| echo ""`.
   */
  lemma WpConfigCommand(remote: Remote)
    ensures WpConfigTrace(remote) == Trace([Exec(WpConfigCmd)], remote(WpConfigCmd).Output?)
    ensures WpConfigGuard + " && " <= WpConfigCmd
    ensures WpConfigCmd[|WpConfigCmd| - |" || " + WpConfigFallback|..] == " || " + WpConfigFallback
  {
    var head := WpConfigGuard + " && ";
    var tail := " || " + WpConfigFallback;
    assert WpConfigCmd == head + (WpConfigLink + tail);
    ScriptOfOne(remote, WpConfigCmd);
  }

  /** `permissions:set` issues its one `chown` whatever the host is running. */
  lemma PermissionsSetCommand(remote: Remote)
    ensures PermissionsSetTrace(remote) == Trace([Exec(PermissionsSetCmd)], remote(PermissionsSetCmd).Output?)
  {
    ScriptOfOne(remote, PermissionsSetCmd);
  }

  // ---------------------------------------------------------------------
  // The task lists and the deploy group
  // ---------------------------------------------------------------------

  /** The full list, for a WordPress site. */
  const WpTasks: seq<string> := [
    "deploy:prepare",
    "deploy:unlock",
    "deploy:lock",
    "deploy:release",
    "rsync",
    "wp:config",
    "cachetool:download",
    "deploy:shared",
    "deploy:symlink",
    "permissions:set",
    "opcache:reset",
    "core_db:update",
    "deploy:unlock",
    "cleanup"
  ]

  /** The reduced list, used when `SKIP_WP_TASKS` is "true". */
  const NonWpTasks: seq<string> := [
    "deploy:prepare",
    "deploy:unlock",
    "deploy:lock",
    "deploy:release",
    "rsync",
    "deploy:shared",
    "deploy:symlink",
    "deploy:unlock",
    "cleanup"
  ]

  /** The tasks this recipe defines itself. */
  const RecipeLeaves: map<string, TaskDef> := map[
    "cachetool:download" := Callback,
    "opcache:reset" := Callback,
    "core_db:update" := Callback,
    "wp:config" := Callback,
    "permissions:set" := Callback
  ]

  /** The tasks the required Deployer recipes (common and rsync) define. */
  const EngineTasks: set<string> := {
    "deploy:prepare", "deploy:unlock", "deploy:lock", "deploy:release", "rsync",
    "deploy:shared", "deploy:symlink", "cleanup", "success"
  }

  const DeployTask := "deploy"
  const SuccessTask := "success"

  /** `'true' === getenv('SKIP_WP_TASKS')`: only the exact string "true" selects the reduced list. */
  function SelectTasks(skip: Option<string>): (tasks: seq<string>)
    ensures tasks == NonWpTasks <==> skip == Some("true")
    ensures tasks == WpTasks <==> skip != Some("true")
  {
    if skip == Some("true") then NonWpTasks else WpTasks
  }

  /** Unset, upper case and "1" are not "true": the comparison is exact and not a boolean cast. */
  lemma SkipFlagIsExact()
    ensures SelectTasks(Some("true")) == NonWpTasks
    ensures SelectTasks(None) == SelectTasks(Some("TRUE")) == SelectTasks(Some("1")) == SelectTasks(Some("")) == WpTasks
  {
  }

  /** `s` with every name in `drop` removed; the rest keep their order and their repetitions. */
  function Without(s: seq<string>, drop: set<string>): seq<string> {
    if s == [] then []
    else if s[0] in drop then Without(s[1..], drop)
    else [s[0]] + Without(s[1..], drop)
  }

  /** Removal keeps exactly the names outside `drop`. */
  lemma {:induction false} WithoutMembers(s: seq<string>, drop: set<string>)
    ensures forall x :: x in Without(s, drop) <==> x in s && x !in drop
  {
    if s != [] {
      WithoutMembers(s[1..], drop);
      assert forall x :: x in s <==> x == s[0] || x in s[1..];
    }
  }

  /** Removal keeps every other name as often as it occurred: duplicates are not merged. */
  lemma {:induction false} WithoutKeepsCounts(s: seq<string>, drop: set<string>, x: string)
    requires x !in drop
    ensures multiset(Without(s, drop))[x] == multiset(s)[x]
  {
    if s != [] {
      WithoutKeepsCounts(s[1..], drop, x);
      assert s == [s[0]] + s[1..];
    }
  }

  /** A prefix with nothing to drop survives whole, in front of what is left of the rest. */
  lemma {:induction false} WithoutKeptPrefix(k: seq<string>, rest: seq<string>, drop: set<string>)
    requires forall i :: 0 <= i < |k| ==> k[i] !in drop
    ensures Without(k + rest, drop) == k + Without(rest, drop)
  {
    if k == [] {
      assert k + rest == rest;
    } else {
      assert (k + rest)[1..] == k[1..] + rest;
      WithoutKeptPrefix(k[1..], rest, drop);
      assert k == [k[0]] + k[1..];
    }
  }

  /** A prefix made only of dropped names vanishes. */
  lemma {:induction false} WithoutDroppedPrefix(d: seq<string>, rest: seq<string>, drop: set<string>)
    requires forall i :: 0 <= i < |d| ==> d[i] in drop
    ensures Without(d + rest, drop) == Without(rest, drop)
  {
    if d == [] {
      assert d + rest == rest;
    } else {
      assert (d + rest)[1..] == d[1..] + rest;
      WithoutDroppedPrefix(d[1..], rest, drop);
    }
  }

  /** The WordPress-only steps: exactly the tasks this recipe defines. */
  const WpOnlyTasks: set<string> := {"wp:config", "cachetool:download", "permissions:set", "opcache:reset", "core_db:update"}

  lemma WpOnlyTasksAreRecipeLeaves()
    ensures WpOnlyTasks == RecipeLeaves.Keys
  {
  }

  /** Positions 0-4, 7-8 and 12-13 of the full list hold steps both lists share. */
  lemma SharedPositions()
    ensures forall i :: 0 <= i < 5 ==> WpTasks[i] !in WpOnlyTasks
    ensures forall i :: 7 <= i < 9 ==> WpTasks[i] !in WpOnlyTasks
    ensures forall i :: 12 <= i < 14 ==> WpTasks[i] !in WpOnlyTasks
  {
  }

  /** Positions 5-6 and 9-11 of the full list hold the WordPress-only steps. */
  lemma WpOnlyPositions()
    ensures forall i :: 5 <= i < 7 ==> WpTasks[i] in WpOnlyTasks
    ensures forall i :: 9 <= i < 12 ==> WpTasks[i] in WpOnlyTasks
  {
  }

  /**
   * The reduced list is the full list with the five WordPress steps taken
   * out, everything else in the same order: 14 entries become 9.
   */
  lemma ReducedListIsFullListWithoutWpSteps()
    ensures NonWpTasks == Without(WpTasks, WpOnlyTasks)
    ensures |WpTasks| == 14 && |NonWpTasks| == 9
  {
    var s := WpTasks;
    var tail := s[12..];
    var r3 := s[9..12] + tail;
    var r2 := s[7..9] + r3;
    var r1 := s[5..7] + r2;
    assert s == s[..5] + r1;
    SharedPositions();
    WpOnlyPositions();
    WithoutKeptPrefix(tail, [], WpOnlyTasks);
    assert tail + [] == tail;
    WithoutDroppedPrefix(s[9..12], tail, WpOnlyTasks);
    WithoutKeptPrefix(s[7..9], r3, WpOnlyTasks);
    WithoutDroppedPrefix(s[5..7], r2, WpOnlyTasks);
    WithoutKeptPrefix(s[..5], r1, WpOnlyTasks);
    ReducedListSlices();
  }

  /** The reduced list is positions 0-4, 7-8 and 12-13 of the full list. */
  lemma ReducedListSlices()
    ensures NonWpTasks == WpTasks[..5] + (WpTasks[7..9] + WpTasks[12..])
  {
    assert NonWpTasks[..5] == WpTasks[..5];
    assert NonWpTasks[5..7] == WpTasks[7..9];
    assert NonWpTasks[7..] == WpTasks[12..];
    assert NonWpTasks == NonWpTasks[..5] + (NonWpTasks[5..7] + NonWpTasks[7..]);
  }

  /** The reduced list keeps both `deploy:unlock` entries of the full list. */
  lemma ReducedListKeepsDuplicates()
    ensures multiset(NonWpTasks)["deploy:unlock"] == multiset(WpTasks)["deploy:unlock"]
  {
    ReducedListIsFullListWithoutWpSteps();
    WithoutKeepsCounts(WpTasks, WpOnlyTasks, "deploy:unlock");
  }

  /** Opens with `deploy:prepare`, closes with `deploy:unlock`, `cleanup`, and unlocks twice. */
  predicate Framed(tasks: seq<string>) {
    |tasks| >= 2 && tasks[0] == "deploy:prepare" && tasks[|tasks| - 2..] == ["deploy:unlock", "cleanup"]
    && multiset(tasks)["deploy:unlock"] == 2
  }

  /** `deploy:unlock` is at positions 1 and 12 of the full list and nowhere else. */
  lemma UnlockPositions()
    ensures WpTasks[1] == WpTasks[12] == "deploy:unlock"
    ensures WpTasks[0] != "deploy:unlock" && WpTasks[13] != "deploy:unlock"
    ensures forall i :: 2 <= i < 12 ==> WpTasks[i] != "deploy:unlock"
  {
  }

  lemma WpTasksFramed()
    ensures Framed(WpTasks)
  {
    var s := WpTasks;
    UnlockPositions();
    assert s == [s[0]] + [s[1]] + s[2..12] + [s[12]] + [s[13]];
    assert "deploy:unlock" !in s[2..12];
  }

  lemma NonWpTasksFramed()
    ensures Framed(NonWpTasks)
  {
  }

  /** Whichever list is selected has the same frame. */
  lemma SelectedListFramed(skip: Option<string>)
    ensures Framed(SelectTasks(skip))
  {
    WpTasksFramed();
    NonWpTasksFramed();
  }

  /** `s` with `ins` placed right after the first `anchor`; unchanged when `anchor` is absent. */
  function InsertAfter(s: seq<string>, anchor: string, ins: seq<string>): seq<string> {
    if s == [] then []
    else if s[0] == anchor then [s[0]] + ins + s[1..]
    else [s[0]] + InsertAfter(s[1..], anchor, ins)
  }

  /** When the first `anchor` is at `i`, the insertion goes between positions `i` and `i + 1`. */
  lemma {:induction false} InsertAfterAt(s: seq<string>, anchor: string, ins: seq<string>, i: nat)
    requires i < |s| && s[i] == anchor
    requires forall j :: 0 <= j < i ==> s[j] != anchor
    ensures InsertAfter(s, anchor, ins) == s[..i + 1] + ins + s[i + 1..]
  {
    if i > 0 {
      InsertAfterAt(s[1..], anchor, ins, i - 1);
      assert s[..i + 1] == [s[0]] + s[1..][..i];
      assert s[i + 1..] == s[1..][i..];
    }
  }

  /** Dropped names spliced between two lists with nothing to drop vanish again. */
  lemma WithoutSplice(front: seq<string>, ins: seq<string>, back: seq<string>, drop: set<string>)
    requires forall j :: 0 <= j < |front| ==> front[j] !in drop
    requires forall j :: 0 <= j < |ins| ==> ins[j] in drop
    requires forall j :: 0 <= j < |back| ==> back[j] !in drop
    ensures Without(front + ins + back, drop) == front + back
  {
    assert front + ins + back == front + (ins + back);
    WithoutKeptPrefix(front, ins + back, drop);
    WithoutDroppedPrefix(ins, back, drop);
    WithoutKeptPrefix(back, [], drop);
    assert back + [] == back;
  }

  /** Removing what was inserted gives the original list back. */
  lemma RemoveInserted(s: seq<string>, anchor: string, ins: seq<string>, i: nat, drop: set<string>)
    requires i < |s| && s[i] == anchor
    requires forall j :: 0 <= j < i ==> s[j] != anchor
    requires forall j :: 0 <= j < |ins| ==> ins[j] in drop
    requires forall j :: 0 <= j < |s| ==> s[j] !in drop
    ensures Without(InsertAfter(s, anchor, ins), drop) == s
  {
    var front, back := s[..i + 1], s[i + 1..];
    InsertAfterAt(s, anchor, ins, i);
    assert forall j :: 0 <= j < |front| ==> front[j] == s[j];
    assert forall j :: 0 <= j < |back| ==> back[j] == s[i + 1 + j];
    WithoutSplice(front, ins, back, drop);
    assert s == front + back;
  }

  /**
   * The `require`d addon file: the tasks it registers, and what it leaves in
   * `$tasks` given what the recipe had put there.
   */
  datatype Addon = Addon(defined: map<string, TaskDef>, edit: seq<string> -> seq<string>)

  /** The list registered as `deploy`: the selected one, or whatever the addon made of it. */
  function DeployList(skip: Option<string>, addon: Option<Addon>): seq<string> {
    match addon
    case None => SelectTasks(skip)
    case Some(a) => a.edit(SelectTasks(skip))
  }

  /**
   * An addon that assigns `$tasks` outright, whatever it held before, decides
   * the `deploy` group alone: `SKIP_WP_TASKS` then makes no difference.
   */
  lemma ReplacingAddonOverridesSelection(a: Addon, skip: Option<string>, skip': Option<string>)
    requires forall l :: a.edit(l) == a.edit([])
    ensures DeployList(skip, Some(a)) == DeployList(skip', Some(a)) == a.edit([])
  {
    assert a.edit(SelectTasks(skip)) == a.edit([]);
    assert a.edit(SelectTasks(skip')) == a.edit([]);
  }

  /** Without an addon `deploy` gets the selected list, so the two values of the flag give different groups. */
  lemma NoAddonKeepsSelection()
    ensures DeployList(Some("true"), None) == NonWpTasks
    ensures DeployList(None, None) == WpTasks
    ensures DeployList(Some("true"), None) != DeployList(None, None)
  {
    ReducedListIsFullListWithoutWpSteps();
  }

  function AddonTasks(addon: Option<Addon>): map<string, TaskDef> {
    match addon
    case None => map[]
    case Some(a) => a.defined
  }

  /** The registry once the recipe has run. */
  function LoadedTasks(tasks: map<string, TaskDef>, skip: Option<string>, addon: Option<Addon>): map<string, TaskDef> {
    (tasks + RecipeLeaves + AddonTasks(addon))[DeployTask := Group(DeployList(skip, addon))]
  }

  /** Every member of `group` is registered, so Deployer can run it. */
  predicate Resolvable(tasks: map<string, TaskDef>, group: string) {
    group in tasks && tasks[group].Group? && forall n :: n in tasks[group].members ==> n in tasks
  }

  /** The five `task()` calls that register the recipe's own closures. */
  method DefineTasks(reg: Registry)
    modifies reg
    ensures reg.tasks == old(reg.tasks) + RecipeLeaves
    ensures reg.hooks == old(reg.hooks)
  {
    RecipeLeavesOneByOne(reg.tasks);
    reg.Task("cachetool:download", Callback);
    reg.Task("opcache:reset", Callback);
    reg.Task("core_db:update", Callback);
    reg.Task("wp:config", Callback);
    reg.Task("permissions:set", Callback);
  }

  /** Registering the recipe's tasks one by one, in source order, adds exactly `RecipeLeaves`. */
  lemma RecipeLeavesOneByOne(m: map<string, TaskDef>)
    ensures m + RecipeLeaves
            == m["cachetool:download" := Callback]["opcache:reset" := Callback]["core_db:update" := Callback]
                ["wp:config" := Callback]["permissions:set" := Callback]
  {
  }

  /** The top level of the recipe, from the task definitions to `after('deploy', 'success')`. */
  method Load(reg: Registry, skip: Option<string>, addon: Option<Addon>)
    modifies reg
    ensures reg.tasks == LoadedTasks(old(reg.tasks), skip, addon)
    ensures reg.hooks == old(reg.hooks) + [After(DeployTask, SuccessTask)]
  {
    DefineTasks(reg);
    var tasks: seq<string>;
    if skip == Some("true") {
      tasks := NonWpTasks;
    } else {
      tasks := WpTasks;
    }
    if addon.Some? {
      reg.TaskAll(addon.value.defined);
      tasks := addon.value.edit(tasks);
    }
    reg.Task(DeployTask, Group(tasks));
    reg.After(DeployTask, SuccessTask);
  }

  /** With Deployer's recipes loaded and no addon, every name in `deploy` is a registered task. */
  lemma DeployResolvable(tasks: map<string, TaskDef>, skip: Option<string>)
    requires EngineTasks <= tasks.Keys
    ensures Resolvable(LoadedTasks(tasks, skip, None), DeployTask)
  {
    var loaded := LoadedTasks(tasks, skip, None);
    assert forall i :: 0 <= i < |WpTasks| ==> WpTasks[i] in loaded;
    assert forall i :: 0 <= i < |NonWpTasks| ==> NonWpTasks[i] in loaded;
  }

  // ---------------------------------------------------------------------
  // SSH options of every host
  // ---------------------------------------------------------------------

  const KnownHostsOption := "UserKnownHostsFile"
  const StrictHostKeyOption := "StrictHostKeyChecking"

  /** The two options the recipe adds: no known-hosts file, no host-key check. */
  function InjectedSshOptions(o: map<string, string>): (r: map<string, string>)
    ensures KnownHostsOption in r && r[KnownHostsOption] == "/dev/null"
    ensures StrictHostKeyOption in r && r[StrictHostKeyOption] == "no"
    ensures r.Keys == o.Keys + {KnownHostsOption, StrictHostKeyOption}
    ensures forall k :: k in o && k != KnownHostsOption && k != StrictHostKeyOption ==> r[k] == o[k]
  {
    o[KnownHostsOption := "/dev/null"][StrictHostKeyOption := "no"]
  }

  /** Adding the options to a host that already has them changes nothing. */
  lemma InjectedSshOptionsIdempotent(o: map<string, string>)
    ensures InjectedSshOptions(InjectedSshOptions(o)) == InjectedSshOptions(o)
  {
  }

  /** The chained `addSshOption` calls on one host. */
  method SecureHost(h: Host)
    modifies h
    ensures h.sshOptions == InjectedSshOptions(old(h.sshOptions))
    ensures h.config == old(h.config)
  {
    h.AddSshOption(KnownHostsOption, "/dev/null");
    h.AddSshOption(StrictHostKeyOption, "no");
  }

  /**
   * One pass of the loop body: secure the host, then `set()` it under its
   * hostname, where it already is, so the collection keeps its names, their
   * order and its hosts.
   */
  method SecureAndRestore(c: HostCollection, h: Host)
    requires c.Valid() && h.hostname in c.hosts && c.hosts[h.hostname] == h
    modifies c, h
    ensures c.Valid() && c.names == old(c.names) && c.hosts == old(c.hosts)
    ensures h.sshOptions == InjectedSshOptions(old(h.sshOptions)) && h.config == old(h.config)
  {
    SecureHost(h);
    c.Set(h.hostname, h);
  }

  /**
   * The `foreach` over `$deployer->hosts`: afterwards every host carries the
   * two options, keeps its other options and settings, and is still filed
   * under its own hostname, in the same order.
   */
  method InjectSshOptions(c: HostCollection)
    requires c.Valid()
    modifies c, c.hosts.Values
    ensures c.Valid() && c.names == old(c.names) && c.hosts == old(c.hosts)
    ensures forall k :: k in c.hosts ==>
              c.hosts[k].sshOptions == InjectedSshOptions(old(c.hosts[k].sshOptions))
              && c.hosts[k].config == old(c.hosts[k].config)
  {
    var snapshot := c.hosts;
    var order := c.names;
    ghost var done: set<string> := {};
    var i := 0;
    while i < |order|
      invariant 0 <= i <= |order|
      invariant c.Valid() && c.names == order && c.hosts == snapshot
      invariant forall k :: k in order[..i] ==> k in done
      invariant forall k :: k in snapshot ==> snapshot[k].config == old(snapshot[k].config)
      invariant forall k :: k in snapshot ==>
                  snapshot[k].sshOptions == if k in done then InjectedSshOptions(old(snapshot[k].sshOptions))
                                            else old(snapshot[k].sshOptions)
    {
      var host := snapshot[order[i]];
      if order[i] in done {
        InjectedSshOptionsIdempotent(old(host.sshOptions));
      }
      SecureAndRestore(c, host);
      assert order[..i + 1] == order[..i] + [order[i]];
      done := done + {order[i]};
      i := i + 1;
    }
    assert order[..i] == order;
  }

  // ---------------------------------------------------------------------
  // rsync
  // ---------------------------------------------------------------------

  /** The `exclude` entry of the `rsync` setting, as written (with `package.json` twice). */
  const RsyncExclude: seq<string> := [
    ".git",
    ".github",
    "deploy.php",
    "composer.lock",
    ".env",
    ".env.example",
    ".gitignore",
    ".gitlab-ci.yml",
    "Gruntfile.js",
    "package.json",
    "README.md",
    "gulpfile.js",
    ".circleci",
    "package-lock.json",
    "package.json",
    "phpcs.xml"
  ]

  /** The exclude list with its second `package.json` (position 14) left out. */
  function DistinctExcludes(): seq<string> {
    RsyncExclude[..14] + RsyncExclude[15..]
  }

  /**
   * 16 entries, 15 distinct values: the second `package.json` repeats the
   * tenth entry and excludes nothing more.
   */
  lemma RsyncExcludeValues()
    ensures |RsyncExclude| == 16 && |DistinctExcludes()| == 15
    ensures RsyncExclude[9] == RsyncExclude[14] == "package.json"
    ensures Distinct(DistinctExcludes())
    ensures (set x | x in RsyncExclude) == (set x | x in DistinctExcludes())
  {
    var d := DistinctExcludes();
    forall x | x in RsyncExclude
      ensures x in d
    {
      var i :| 0 <= i < 16 && RsyncExclude[i] == x;
      if i < 14 {
        assert d[i] == x;
      } else if i == 14 {
        assert d[9] == x;
      } else {
        assert d[14] == x;
      }
    }
  }
}
