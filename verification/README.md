# errbot bootstrap, modelled in Dafny

This project models the start-up core of errbot, a chat bot framework. The
core is `errbot/bootstrap.py` and has three parts:

- **`bot_config_defaults`** completes the user's `config.py` module in place.
  - About thirty options get a literal default when absent.
  - A missing `BOT_ADMINS` raises `ValueError`.
  - A missing `BOT_ADMINS_NOTIFICATIONS` becomes the admin list.
- **The option coercions** in `setup_bot` and `get_storage_plugin`.
  - Plugin indexes and extra backend directories get a default when absent.
  - A bare string in either of them becomes a one-element tuple or list.
  - The storage name and the extra storage directory get a default when absent.
- **The control flow of `setup_bot` and `restore_bot_from_backup`** is modelled as a pure function. It maps the configuration and the behaviour of the opaque collaborators to a call trace and an outcome. The outcome is one of:
  - the returned bot;
  - `exit(code)`;
  - a propagated exception.

The configuration is a finite map from option keys to a small Python value
datatype (`Values.Value`, with Python truthiness).

The collaborators are the backend and storage plugin managers, the repo manager, the plugin manager and the restore script. Each of them is a named `Call`. A `World` describes the environment:

- which calls raise, and with what message;
- whether the plugin directory exists;
- whether the bot already has repositories (`'repos' in bot`);
- which plugins fail to load.

Each phase runs its calls in order until one raises (`Bootstrap.RunCalls`).

**The script.** For a given configuration, the *script* is every call `setup_bot` makes when nothing raises (`Scripts.Script`). It serves as the reference definition. The main theorems are:

- Every run follows the script: the run is a prefix of it, only the last call can have raised, and the run is the whole script when nothing raised.
- The outcome is determined by where the run stopped (`Scripts.ExpectedOutcome`).

**Modules.**

- `Values`: the value datatype.
- `Config`: the normaliser.
- `Coercions`: the coercions.
- `Lines`: the joining of plugin error messages and its inverse.
- `Bootstrap`: the state machine.
- Lemma modules, split by theme:
  - `CallSequences`: prefix reasoning;
  - `Scripts`: the script and its order;
  - `Phases`: what each phase calls;
  - `TryBlockRuns` and `SetupRuns`: runs against the script;
  - `RestorePath` and `ReturnedBot`: the restore path and the returned bot;
  - `WiredOptions`: options read through normalisation.
- `BootstrapProperties`: the statements about `SetupBot` on a raw configuration.

**Two behaviours of setup_bot that are easy to misread:**

- These calls come before the `try` at line 206, so an exception from them propagates to the caller of `setup_bot` (`Raised`). They do not end in `exit(-1)`.
  - `logger.setLevel`;
  - storage plugin resolution and loading;
  - the plugin directory check and `makedirs`;
  - backend plugin resolution;
  - the repo manager construction.
- `restore_bot_from_backup` has no `finally`. `close_storage` runs only after the restore script executed without raising.

## Model

| member | source | states |
|---|---|---|
| Config.Normalise | errbot/bootstrap.py:23-83 | Fails exactly when BOT_ADMINS is absent. On success: options already set keep their values; the options present afterwards are the old ones plus every defaulted option plus BOT_ADMINS_NOTIFICATIONS; each new option holds its literal default; an absent notification list becomes BOT_ADMINS. On failure: the 27 options before line 78 are already filled in, and TEXT_COLOR_THEME and BOT_ADMINS_NOTIFICATIONS are not |
| Config.BotConfigDefaults | errbot/bootstrap.py:23-83 | The statement-by-statement version (one guarded assignment per option in source order, then the BOT_ADMINS check, then the theme and notification defaults) computes exactly the declarative `Normalise` |
| Config.EarlyOptionsExact | errbot/bootstrap.py:24-81 | The options defaulted before the BOT_ADMINS check are all the defaulted options except TEXT_COLOR_THEME |
| Config.NormaliseIdempotent | errbot/bootstrap.py:23-83 | Normalising an already normalised configuration changes nothing |
| Config.NormalisePassesThrough | errbot/bootstrap.py:23-83 | An option with no default (other than the notification list) is present after normalisation iff it was before, with the same value |
| Config.NormaliseDefaultAt | errbot/bootstrap.py:24-81 | After normalisation every defaulted option is present and holds the user's value, or else its literal default |
| Coercions.PluginIndexes | errbot/bootstrap.py:184-186 | The indexes are never a bare string. Absent gives `('https://errbot.io/repos.json',)`, a string `s` gives `(s,)`, any other value passes through |
| Coercions.ExtraBackendDirs | errbot/bootstrap.py:189-191 | Never a bare string. Absent gives `[]`, a string `s` gives `[s]`, any other value passes through |
| Coercions.CoercionsIdempotent | errbot/bootstrap.py:184-191 | Writing a coerced value back and coercing again yields the same value |
| Coercions.StorageName | errbot/bootstrap.py:261 | The storage name is `'Shelf'` when STORAGE is absent, the configured value otherwise |
| Coercions.ExtraStoragePluginsDir | errbot/bootstrap.py:262 | The extra storage directory is `None` when absent and is never promoted |
| Coercions.CorePluginList | errbot/bootstrap.py:211 | The core plugin list is `None` when CORE_PLUGINS is absent, the configured value otherwise |
| Coercions.CallbackOrder | errbot/bootstrap.py:213 | The callback order is `(None,)` when PLUGINS_CALLBACK_ORDER is absent, the configured value otherwise |
| Lines.JoinLines | errbot/bootstrap.py:233 | `"\n".join`: no messages join to the empty string and one message to itself; Lines.SplitJoin shows splitting inverts it |
| Lines.SplitJoin | errbot/bootstrap.py:231-233 | Splitting the `'\n'`-joined report at newlines gives back exactly the (newline-free) messages, in order |
| Bootstrap.Messages | errbot/bootstrap.py:231-233 | The report lists the values of the error dict, one per entry, in insertion order |
| Bootstrap.RunCalls | errbot/bootstrap.py:207-217 | Sequential calls stop at the first that raises. The attempted calls are a prefix of the phase, all but a raising last one succeeded, the phase succeeds iff none of its calls raises, and the failure message is that of the last call |
| Bootstrap.EffectiveFailures | errbot/bootstrap.py:175-209 | Reading a missing BOT_LOG_LEVEL, BOT_DATA_DIR or BOT_EXTRA_PLUGIN_DIR makes `setLevel`, the plugin directory step or the plugin manager construction raise an AttributeError naming the option. No other call changes whether it raises, and every other failure keeps the world's message, including those of these three calls when their option is configured |
| Bootstrap.RestoreBotFromBackup | errbot/bootstrap.py:240-252 | `close_storage` is reached only after the script executed without raising. The restore fails iff reading, executing or closing raises |
| Bootstrap.TryBlock | errbot/bootstrap.py:206-237 | The try block never lets an exception escape. It exits only with 0 or -1, and returns a bot only when no restore was requested |
| Bootstrap.SetupNormalised | errbot/bootstrap.py:90-237 | After normalisation, setup_bot never raises a configuration error, and returns a bot only when no restore was requested |
| Bootstrap.SetupBot | errbot/bootstrap.py:86-237 | Raises the BOT_ADMINS ValueError iff BOT_ADMINS is absent, and then before any collaborator call. The configuration left behind then holds the user's options unchanged plus exactly the 27 defaults written before line 78. Returns a bot only when no restore was requested |
| Bootstrap.WireBot | errbot/bootstrap.py:177-234 | The returned bot's backend is the requested one, and one storage plugin is shared by the bot, its repo manager and its plugin manager. The repo manager gets BOT_DATA_DIR and the plugin manager BOT_EXTRA_PLUGIN_DIR. The error report is set iff some plugin failed to load |
| Phases.TelemetryImports | errbot/bootstrap.py:102-173 | The Logstash import happens iff BOT_LOG_LOGSTASH is truthy; the Sentry import iff BOT_LOG_SENTRY is; the Flask integration iff both BOT_LOG_SENTRY and BOT_LOG_SENTRY_FLASK are; the transport import iff BOT_LOG_SENTRY is truthy and SENTRY_TRANSPORT is a tuple |
| Phases.PreTryShape | errbot/bootstrap.py:175-204 | Before the try block, `setLevel` comes first and the repo manager construction last. The plugin directory is created iff it does not exist |
| Phases.ScriptContents | errbot/bootstrap.py:206-252 | When nothing raises, the backend is always loaded; plugins are loaded iff no restore is requested; the restore script is executed iff a restore is requested onto a bot without repositories |
| Scripts.ExpectedOutcome | errbot/bootstrap.py:175-237 | Only a raising call before the try block propagates, with its own message. Exit codes are 0 and -1. exit(0) and a returned bot both need the last call to have succeeded; exit(0) also needs a restore onto a bot without repositories, and a returned bot needs that no restore was requested |
| Scripts.ScriptInSourceOrder | errbot/bootstrap.py:102-230 | The script has each call at most once, in the order of the source text |
| Scripts.NoRestoreInScript | errbot/bootstrap.py:220-226 | Without a restore to perform (no restore requested, or the bot has repositories), the script contains none of restore_bot_from_backup's calls |
| Scripts.RestoreEndsScript | errbot/bootstrap.py:220-252 | With a restore to perform, the script ends with executing the script and then `close_storage`, and `close_storage` occurs nowhere else |
| TryBlockRuns.TryBlockFollowsScript | errbot/bootstrap.py:206-237 | A run of the try block is a prefix of its script in which only the last call can have raised, and is the whole script when nothing raised |
| TryBlockRuns.TryBlockOutcome | errbot/bootstrap.py:206-237 | A raising call anywhere in the try block (backend load, plugin manager, attach, storage initialisation, plugin loading, restore) ends in exit(-1). Otherwise: a bot is returned without restore, exit(-1) for a non-empty bot, exit(0) after a restore |
| SetupRuns.SetupFollowsScript | errbot/bootstrap.py:90-237 | After normalisation, a run of setup_bot follows its script |
| SetupRuns.SetupOutcome | errbot/bootstrap.py:90-237 | After normalisation, the outcome is the one the trace determines. A raising call before the try propagates its exception. A raising telemetry import or try-block call exits with -1. Otherwise the restore flag and repositories decide |
| RestorePath.SetupRestoreRefused | errbot/bootstrap.py:220-224 | Restoring onto a bot with repositories reads, executes and closes nothing, and neither succeeds nor returns a bot |
| RestorePath.SetupCloseAfterExec | errbot/bootstrap.py:250-252 | `close_storage` is called only after the restore script executed without raising |
| RestorePath.SetupExecRaises | errbot/bootstrap.py:226-252 | A raising restore script ends in exit(-1) and `close_storage` is not called |
| RestorePath.SetupRestoreCompletes | errbot/bootstrap.py:226-228 | setup_bot exits with 0 iff `close_storage` was called and did not raise |
| ReturnedBot.SetupReturned | errbot/bootstrap.py:206-234 | A returned bot ran the whole script with nothing raising. The last eight calls are the wiring (backend load, plugin manager, the three attaches, storage initialisation) and then plugin loading. The bot is the one wired from the configuration |
| ReturnedBot.SetupPluginErrors | errbot/bootstrap.py:230-234 | Plugin load errors change neither the trace nor whether a bot is returned; they change nothing but the bot's error report |
| ReturnedBot.SetupReturnedReadOptions | errbot/bootstrap.py:175-209 | A bot is only returned when BOT_DATA_DIR and BOT_EXTRA_PLUGIN_DIR are configured |
| WiredOptions.CoercionsAgree | errbot/bootstrap.py:184-262 | Each coercion depends only on its own option: two configurations that agree on that one option coerce alike, whatever else differs |
| WiredOptions.NormaliseKeepsWiring | errbot/bootstrap.py:23-83 | Normalisation leaves every option the wiring reads as the user wrote it. The exception is AUTOINSTALL_DEPS, which becomes true when absent |
| WiredOptions.WireBotAfterNormalise | errbot/bootstrap.py:177-213 | The bot wired from the normalised configuration carries the user's coerced options, data and plugin directories, and AUTOINSTALL_DEPS (default true) |
| BootstrapProperties.SetupBotFollowsScript | errbot/bootstrap.py:86-237 | For any configuration with BOT_ADMINS, the trace follows the script of the normalised configuration |
| BootstrapProperties.SetupBotOutcome | errbot/bootstrap.py:86-237 | For any configuration with BOT_ADMINS, the outcome is the one the trace determines |
| BootstrapProperties.SetupBotInSourceOrder | errbot/bootstrap.py:86-237 | Whatever raises, the calls setup_bot attempts are in source order and each happens at most once. So the attaches precede storage initialisation, which precedes the restore check and plugin loading |
| BootstrapProperties.RestoreRefusedOnNonEmptyBot | errbot/bootstrap.py:220-224 | A restore onto a bot with repositories never executes the script, never closes the storage, and never exits with 0 or returns |
| BootstrapProperties.CloseStorageOnlyAfterScript | errbot/bootstrap.py:240-252 | `close_storage` is called only after the restore script was executed and did not raise |
| BootstrapProperties.RaisingScriptLeavesStorageOpen | errbot/bootstrap.py:226-252 | A raising restore script ends in exit(-1) without `close_storage` |
| BootstrapProperties.RestoreCompletes | errbot/bootstrap.py:226-228 | exit(0) iff `close_storage` was called and returned normally |
| BootstrapProperties.ReturnedAfterWiringAndLoading | errbot/bootstrap.py:206-234 | A returned bot had BOT_ADMINS and ran its whole script with nothing raising. It ended with the wiring and then plugin loading |
| BootstrapProperties.PluginErrorsAreNonFatal | errbot/bootstrap.py:230-234 | Plugin load errors do not change the trace or the outcome. A returned bot is the one returned without errors, except that its error report is the `'\n'`-joined messages when there are any |
| BootstrapProperties.ReturnedBotOptions | errbot/bootstrap.py:177-213 | A returned bot carries these options from the user's configuration: the backend name; the coerced backend directories and plugin indexes; the storage name and extra directory; BOT_DATA_DIR (which must be configured); BOT_EXTRA_PLUGIN_DIR (which must be configured); AUTOINSTALL_DEPS (default true); CORE_PLUGINS; PLUGINS_CALLBACK_ORDER |
| BootstrapProperties.PluginErrorReportSplits | errbot/bootstrap.py:230-234 | A returned bot has an error report iff some plugin failed to load. When no failure message contains a newline, the report splits at newlines back into exactly the failure messages, in order |

## Left out

- Logging set-up is left out (lines 92-100, 114-117): formatters, the log file handler, the Logstash handler. It is a side effect on the logging library.
- Sentry initialisation is left out (lines 122-173), apart from the optional imports it needs.
  - Each optional Logstash or Sentry import is an abstract call whose failure ends in exit(-1).
  - Missing SENTRY_LOGLEVEL, SENTRY_EVENTLEVEL or SENTRY_DSN attributes are not modelled. The `getattr` on the transport module and `sentry_sdk.init` are not modelled either.
- The internals of BackendPluginManager, BotRepoManager, BotPluginManager and ErrBot are opaque. Their code is not part of this model. Each is a call that succeeds or raises, and the wired bot records what they were constructed with.
- The plugin directory is `BOT_DATA_DIR` joined with PLUGINS_SUBDIR (line 180). errbot/utils.py is not part of this model, so the repo manager records BOT_DATA_DIR itself. Creating the directory is an abstract step taken when the world says it is absent.
- The restore script's `exec` (lines 250-251) is arbitrary code, so it is modelled only as succeeding or raising. The `print` and log lines of the restore path are left out.
- `'repos' in bot` (line 222) is a flag of the world, because the bot's storage is opaque.
- The lambda passed to BotPluginManager (line 212) is not recorded, because it only builds plugin instances.
- `bootstrap` and the serve loop (lines 269 onwards) are left out. They are the long-running service, not start-up.
- Bootstrap.WireBot: BOT_DATA_DIR and BOT_EXTRA_PLUGIN_DIR are read with `None` as a stand-in when absent. A missing one makes an earlier call raise, so no returned bot ever carries the stand-in (BootstrapProperties.ReturnedBotOptions).
- Config.Key: `Custom(name)` stands for any other attribute of `config.py`. By convention its name never spells one of the options bootstrap reads. Dafny does not enforce this.
- Bootstrap.SetupBot: the defaults are written in place into the caller's configuration module. On a missing BOT_ADMINS the partly defaulted module travels with the error (`ConfigError.partial`). On every other path the caller's module is the completed `Normalise(config).config`, which the result does not repeat.
- Config.Normalise: line 83 binds BOT_ADMINS_NOTIFICATIONS to the same Python object as BOT_ADMINS. Values here have no identity, so that sharing is not modelled. Nothing in setup_bot mutates either list.
