/**
 * `setup_bot`, `restore_bot_from_backup` and `get_storage_plugin`
 * (errbot/bootstrap.py:86-266) as a pure function from the configuration and
 * the behaviour of the opaque collaborators to a call trace and an outcome.
 *
 * Every collaborator step is a `Call`; the `World` says which of them raise
 * (and with what message), whether the plugin directory already exists,
 * whether the bot already has installed repositories and which plugins fail
 * to load. A call that raises is recorded in the trace and ends its phase.
 */
module Bootstrap {
  import opened Values
  import opened Config
  import opened Coercions
  import opened Lines

  /** The collaborator steps of setup_bot, in source order. */
  datatype Call =
    // optional telemetry imports (lines 102-173), each guarded by its option
    | ImportLogstash | ImportSentry | ImportSentryFlask | ImportSentryTransport
    // before the try block (lines 175-204)
    | SetLogLevel | ResolveStorage | LoadStorage | LocatePluginsDir | MakePluginsDir
    | ResolveBackend | CreateRepoManager
    // inside the try block (lines 207-217)
    | LoadBackend | CreatePluginManager | AttachStorage | AttachRepoManager
    | AttachPluginManager | InitializeBackendStorage
    // restore_bot_from_backup (lines 250-252)
    | ReadRestoreScript | ExecRestoreScript | CloseStorage
    // plugin loading (line 230)
    | GetAllReposPaths | UpdatePluginPlaces

  /** Position of a call in the source text. */
  function Rank(c: Call): nat
  {
    match c
    case ImportLogstash => 0
    case ImportSentry => 1
    case ImportSentryFlask => 2
    case ImportSentryTransport => 3
    case SetLogLevel => 4
    case ResolveStorage => 5
    case LoadStorage => 6
    case LocatePluginsDir => 7
    case MakePluginsDir => 8
    case ResolveBackend => 9
    case CreateRepoManager => 10
    case LoadBackend => 11
    case CreatePluginManager => 12
    case AttachStorage => 13
    case AttachRepoManager => 14
    case AttachPluginManager => 15
    case InitializeBackendStorage => 16
    case ReadRestoreScript => 17
    case ExecRestoreScript => 18
    case CloseStorage => 19
    case GetAllReposPaths => 20
    case UpdatePluginPlaces => 21
  }

  /** A call made before the try block, whose exception propagates to the caller. */
  predicate BeforeTry(c: Call)
  {
    4 <= Rank(c) <= 10
  }

  /** Calls strictly in source order: each at most once, none out of turn. */
  predicate InSourceOrder(s: seq<Call>)
  {
    forall i, j :: 0 <= i < j < |s| ==> Rank(s[i]) < Rank(s[j])
  }

  /** Every call of `s` has a rank in `lo..hi`. */
  predicate Within(s: seq<Call>, lo: nat, hi: nat)
  {
    forall i :: 0 <= i < |s| ==> lo <= Rank(s[i]) <= hi
  }

  /**
   * The environment: which collaborator calls raise and with which message,
   * whether `BOT_DATA_DIR/plugins` exists, whether `'repos' in bot` holds, and
   * the `(plugin name, message)` entries of the error dict that
   * `update_plugin_places` returns, in insertion order.
   */
  datatype World = World(
    failures: map<Call, string>,
    pluginsDirExists: bool,
    hasRepos: bool,
    loadErrors: seq<(string, string)>)

  /** Reading a mandatory option the normaliser does not default raises AttributeError. */
  function MissingAttribute(name: string): string
  {
    "AttributeError: " + name
  }

  /**
   * The calls that raise once the configuration is known: those of the world,
   * plus the ones that read BOT_LOG_LEVEL, BOT_DATA_DIR or BOT_EXTRA_PLUGIN_DIR
   * when that option is missing (lines 175, 180 and 209).
   */
  function EffectiveFailures(c: Config, w: World): (f: map<Call, string>)
    ensures f.Keys == w.failures.Keys
      + (if BotLogLevel in c then {} else {SetLogLevel})
      + (if BotDataDir in c then {} else {LocatePluginsDir})
      + (if BotExtraPluginDir in c then {} else {CreatePluginManager})
    // a missing option raises AttributeError naming it at the call that reads it
    ensures BotLogLevel !in c ==> f[SetLogLevel] == MissingAttribute("BOT_LOG_LEVEL")
    ensures BotDataDir !in c ==> f[LocatePluginsDir] == MissingAttribute("BOT_DATA_DIR")
    ensures BotExtraPluginDir !in c ==> f[CreatePluginManager] == MissingAttribute("BOT_EXTRA_PLUGIN_DIR")
    // every other failure of the world stands as given
    ensures forall k ::
      (&& k in w.failures
       && !(k == SetLogLevel && BotLogLevel !in c)
       && !(k == LocatePluginsDir && BotDataDir !in c)
       && !(k == CreatePluginManager && BotExtraPluginDir !in c))
      ==> f[k] == w.failures[k]
  {
    var f1 := if BotLogLevel in c then w.failures
      else w.failures[SetLogLevel := MissingAttribute(BotLogLevel.Name())];
    var f2 := if BotDataDir in c then f1
      else f1[LocatePluginsDir := MissingAttribute(BotDataDir.Name())];
    if BotExtraPluginDir in c then f2
    else f2[CreatePluginManager := MissingAttribute(BotExtraPluginDir.Name())]
  }

  /** The calls of one phase that were attempted, and the message of the one that raised. */
  datatype Attempt = Attempt(done: seq<Call>, failure: Option<string>)

  /**
   * Runs `calls` in order until one raises: the attempted calls are a prefix of
   * `calls`, every one but a raising last one succeeded, and the phase
   * succeeds exactly when no call of it raises.
   */
  function RunCalls(f: map<Call, string>, calls: seq<Call>): (a: Attempt)
    ensures |a.done| <= |calls| && a.done == calls[..|a.done|]
    ensures a.failure.None? <==> forall i :: 0 <= i < |calls| ==> calls[i] !in f
    ensures a.failure.None? ==> a.done == calls
    ensures a.failure.Some? ==>
      |a.done| > 0 && a.done[|a.done| - 1] in f && a.failure.value == f[a.done[|a.done| - 1]]
    ensures forall i :: 0 <= i < |a.done| - 1 ==> a.done[i] !in f
  {
    if |calls| == 0 then Attempt([], None)
    else if calls[0] in f then Attempt([calls[0]], Some(f[calls[0]]))
    else
      var rest := RunCalls(f, calls[1..]);
      Attempt([calls[0]] + rest.done, rest.failure)
  }

  /** The telemetry imports that the configuration switches on (lines 102-173). */
  function TelemetryCalls(c: Config): seq<Call>
  {
    (if Enabled(c, BotLogLogstash) then [ImportLogstash] else [])
    + (if Enabled(c, BotLogSentry) then
         [ImportSentry]
         + (if Enabled(c, BotLogSentryFlask) then [ImportSentryFlask] else [])
         + (if SentryTransport in c && c[SentryTransport].VTuple? then [ImportSentryTransport] else [])
       else [])
  }

  /** The calls between the telemetry set-up and the try block (lines 175-204). */
  function PreTryCalls(w: World): seq<Call>
  {
    [SetLogLevel, ResolveStorage, LoadStorage, LocatePluginsDir]
    + (if w.pluginsDirExists then [] else [MakePluginsDir])
    + [ResolveBackend, CreateRepoManager]
  }

  /** Loading the backend and wiring it up (lines 207-217). */
  const WiringCalls: seq<Call> :=
    [LoadBackend, CreatePluginManager, AttachStorage, AttachRepoManager,
     AttachPluginManager, InitializeBackendStorage]

  /** restore_bot_from_backup: open and read the script, execute it, close the storage. */
  const RestoreCalls: seq<Call> := [ReadRestoreScript, ExecRestoreScript, CloseStorage]

  /** Collecting the repository paths, then loading the plugins from them (line 230). */
  const LoadCalls: seq<Call> := [GetAllReposPaths, UpdatePluginPlaces]

  /** restore_bot_from_backup (lines 250-252): `close_storage` only after the script ran. */
  function RestoreBotFromBackup(f: map<Call, string>): (a: Attempt)
    ensures CloseStorage in a.done ==> ExecRestoreScript in a.done && ExecRestoreScript !in f
    ensures a.failure.None? <==> ReadRestoreScript !in f && ExecRestoreScript !in f && CloseStorage !in f
  {
    RunCalls(f, RestoreCalls)
  }

  /** The storage plugin as get_storage_plugin resolves it (lines 255-266). */
  datatype StoragePlugin = StoragePlugin(name: Value, extraDir: Value)

  /** What BotRepoManager is constructed with (lines 202-204). */
  datatype RepoManager = RepoManager(storage: StoragePlugin, dataDir: Value, indexes: Value)

  /** What BotPluginManager is constructed with (lines 208-213). */
  datatype PluginManager = PluginManager(
    storage: StoragePlugin, extraPluginDir: Value, autoinstallDeps: Value,
    corePlugins: Value, callbackOrder: Value)

  /** The bot setup_bot returns, with the collaborators attached to it. */
  datatype Bot = Bot(
    backend: string,
    extraBackendDirs: Value,
    storage: StoragePlugin,
    repoManager: RepoManager,
    pluginManager: PluginManager,
    pluginErrorsDuringStartup: Option<string>)

  /**
   * Why setup_bot raised instead of returning or exiting. The ValueError for a
   * missing BOT_ADMINS leaves the caller's configuration module partly
   * defaulted, since the defaults are written in place; `partial` is that state.
   */
  datatype Error =
    | ConfigError(message: string, partial: Config)
    | CallError(call: Call, message: string)

  datatype Outcome =
    | Returned(bot: Bot)
    | Exit(code: int)
    | Raised(error: Error)

  /** The attempted calls in order, and how setup_bot ended. */
  datatype Run = Run(trace: seq<Call>, outcome: Outcome)

  /** The messages of the plugin error dict, in insertion order (`errors.values()`). */
  function Messages(errs: seq<(string, string)>): (ms: seq<string>)
    ensures |ms| == |errs| && forall i :: 0 <= i < |errs| ==> ms[i] == errs[i].1
  {
    seq(|errs|, i requires 0 <= i < |errs| => errs[i].1)
  }

  /**
   * The bot as wired from a normalised configuration (lines 177-217, 230-234).
   * BOT_DATA_DIR and BOT_EXTRA_PLUGIN_DIR are read without a default; when one
   * is missing an earlier call raises, so the `None` here is never observed
   * (ReturnedBotOptions).
   */
  function WireBot(backendName: string, c: Config, w: World): (bot: Bot)
    ensures bot.backend == backendName
    // the storage plugin is shared by the bot, its repo manager and its plugin manager
    ensures bot.repoManager.storage == bot.storage && bot.pluginManager.storage == bot.storage
    // the error report is set exactly when some plugin failed to load
    ensures bot.pluginErrorsDuringStartup.None? <==> |w.loadErrors| == 0
    ensures BotDataDir in c ==> bot.repoManager.dataDir == c[BotDataDir]
    ensures BotExtraPluginDir in c ==> bot.pluginManager.extraPluginDir == c[BotExtraPluginDir]
  {
    var storage := StoragePlugin(StorageName(c), ExtraStoragePluginsDir(c));
    Bot(backendName,
        ExtraBackendDirs(c),
        storage,
        RepoManager(storage, GetAttr(c, BotDataDir, VNone), PluginIndexes(c)),
        PluginManager(storage, GetAttr(c, BotExtraPluginDir, VNone), GetAttr(c, Defaulted(AutoinstallDeps), VNone),
                      CorePluginList(c), CallbackOrder(c)),
        if |w.loadErrors| == 0 then None else Some(JoinLines(Messages(w.loadErrors))))
  }

  /**
   * The try block (lines 206-237) with the failures `f` in force: any call
   * there that raises ends in `exit(-1)`, as do a refused restore and a
   * failed restore script; a completed restore ends in `exit(0)`.
   */
  function TryBlock(backendName: string, c: Config, f: map<Call, string>, restore: Value, w: World): (r: Run)
    ensures !r.outcome.Raised?
    ensures r.outcome.Exit? ==> r.outcome.code in {0, -1}
    ensures r.outcome.Returned? ==> !Truthy(restore)
  {
    var wiring := RunCalls(f, WiringCalls);
    if wiring.failure.Some? then Run(wiring.done, Exit(-1))
    else if Truthy(restore) then
      if w.hasRepos then Run(wiring.done, Exit(-1))
      else
        var rs := RestoreBotFromBackup(f);
        Run(wiring.done + rs.done, if rs.failure.Some? then Exit(-1) else Exit(0))
    else
      var load := RunCalls(f, LoadCalls);
      if load.failure.Some? then Run(wiring.done + load.done, Exit(-1))
      else Run(wiring.done + load.done, Returned(WireBot(backendName, c, w)))
  }

  /**
   * setup_bot once bot_config_defaults has produced `c` (lines 90-237), with
   * the failures `f` in force: a failed telemetry import exits with -1, an
   * exception before the try block propagates, the try block decides the rest.
   */
  function SetupNormalised(backendName: string, c: Config, f: map<Call, string>, restore: Value, w: World): (r: Run)
    ensures !(r.outcome.Raised? && r.outcome.error.ConfigError?)
    ensures r.outcome.Returned? ==> !Truthy(restore)
  {
    var telemetry := RunCalls(f, TelemetryCalls(c));
    if telemetry.failure.Some? then Run(telemetry.done, Exit(-1))
    else
      var pre := RunCalls(f, PreTryCalls(w));
      if pre.failure.Some? then
        Run(telemetry.done + pre.done,
            Raised(CallError(pre.done[|pre.done| - 1], pre.failure.value)))
      else
        var t := TryBlock(backendName, c, f, restore, w);
        Run(telemetry.done + pre.done + t.trace, t.outcome)
  }

  /**
   * setup_bot (lines 86-237): a configuration without BOT_ADMINS raises before
   * any collaborator is called, and never yields a bot. The caller's module
   * then holds the user's options plus the defaults written before line 78.
   */
  function SetupBot(backendName: string, config: Config, restore: Value, w: World): (r: Run)
    ensures r.outcome.Raised? && r.outcome.error.ConfigError? <==> BotAdmins !in config
    ensures BotAdmins !in config ==> r.trace == [] && r.outcome.error.message == AdminsMissingMessage
    ensures BotAdmins !in config ==>
      && (forall k :: k in r.outcome.error.partial <==> k in config || IsEarly(k))
      && (forall k :: k in config ==> r.outcome.error.partial[k] == config[k])
    ensures r.outcome.Returned? ==> !Truthy(restore)
  {
    match Normalise(config)
    case MissingAdmins(partial) => Run([], Raised(ConfigError(AdminsMissingMessage, partial)))
    case Complete(c) => SetupNormalised(backendName, c, EffectiveFailures(c, w), restore, w)
  }
}
