/**
 * What setup_bot (errbot/bootstrap.py:86-237) promises for any configuration:
 * the order of its calls, how a raising call decides the outcome, the restore
 * path, the returned bot and the plugin error report.
 */
module BootstrapProperties {
  import opened Values
  import opened Config
  import opened Coercions
  import opened Lines
  import opened Bootstrap
  import opened CallSequences
  import opened Scripts
  import opened SetupRuns
  import opened RestorePath
  import opened ReturnedBot
  import opened WiredOptions

  /** The failures in force once a configuration with BOT_ADMINS is normalised. */
  function Failures(config: Config, w: World): map<Call, string>
    requires BotAdmins in config
  {
    EffectiveFailures(Normalise(config).config, w)
  }

  /** With BOT_ADMINS present, setup_bot is its normalised run. */
  lemma Unfold(b: string, config: Config, restore: Value, w: World)
    requires BotAdmins in config
    ensures SetupBot(b, config, restore, w)
      == SetupNormalised(b, Normalise(config).config, Failures(config, w), restore, w)
  {
  }

  /** Restore steps raise exactly when the world says so. */
  lemma RestoreFailuresAsGiven(config: Config, w: World)
    requires BotAdmins in config
    ensures ExecRestoreScript in Failures(config, w) <==> ExecRestoreScript in w.failures
    ensures CloseStorage in Failures(config, w) <==> CloseStorage in w.failures
  {
  }

  /**
   * setup_bot follows its script until a call raises: the trace is a prefix
   * of the script, only its last call can have raised, and it is the whole
   * script when none did.
   */
  lemma SetupBotFollowsScript(b: string, config: Config, restore: Value, w: World)
    requires BotAdmins in config
    ensures FollowsScript(Failures(config, w), SetupBot(b, config, restore, w).trace,
                          Script(Normalise(config).config, restore, w))
  {
    Unfold(b, config, restore, w);
    SetupFollowsScript(b, Normalise(config).config, Failures(config, w), restore, w);
  }

  /**
   * The trace decides how setup_bot ends: a raising call before the try block
   * propagates, any other raising call ends in exit(-1), and otherwise the
   * restore flag and the repositories decide.
   */
  lemma SetupBotOutcome(b: string, config: Config, restore: Value, w: World)
    requires BotAdmins in config
    ensures var r := SetupBot(b, config, restore, w);
      r.outcome == ExpectedOutcome(r.trace, b, Normalise(config).config, Failures(config, w), restore, w)
  {
    Unfold(b, config, restore, w);
    SetupOutcome(b, Normalise(config).config, Failures(config, w), restore, w);
  }

  /** Whatever happens, the calls setup_bot attempts are in source order, each at most once. */
  lemma SetupBotInSourceOrder(b: string, config: Config, restore: Value, w: World)
    ensures InSourceOrder(SetupBot(b, config, restore, w).trace)
  {
    if BotAdmins in config {
      var s := Script(Normalise(config).config, restore, w);
      SetupBotFollowsScript(b, config, restore, w);
      ScriptInSourceOrder(Normalise(config).config, restore, w);
      PrefixInOrder(SetupBot(b, config, restore, w).trace, s);
    }
  }

  /** Restoring onto a bot that already has repositories runs none of the restore and never succeeds. */
  lemma RestoreRefusedOnNonEmptyBot(b: string, config: Config, restore: Value, w: World)
    requires Truthy(restore) && w.hasRepos
    ensures var r := SetupBot(b, config, restore, w);
      ReadRestoreScript !in r.trace && ExecRestoreScript !in r.trace && CloseStorage !in r.trace
      && r.outcome != Exit(0) && !r.outcome.Returned?
  {
    if BotAdmins in config {
      Unfold(b, config, restore, w);
      SetupRestoreRefused(b, Normalise(config).config, Failures(config, w), restore, w);
    }
  }

  /** close_storage is called only after the restore script executed without raising. */
  lemma CloseStorageOnlyAfterScript(b: string, config: Config, restore: Value, w: World)
    ensures var r := SetupBot(b, config, restore, w);
      CloseStorage in r.trace ==> ExecRestoreScript in r.trace && ExecRestoreScript !in w.failures
  {
    if BotAdmins in config {
      Unfold(b, config, restore, w);
      RestoreFailuresAsGiven(config, w);
      SetupCloseAfterExec(b, Normalise(config).config, Failures(config, w), restore, w);
    }
  }

  /** A raising restore script ends in exit(-1) and leaves the storage open. */
  lemma RaisingScriptLeavesStorageOpen(b: string, config: Config, restore: Value, w: World)
    ensures var r := SetupBot(b, config, restore, w);
      ExecRestoreScript in r.trace && ExecRestoreScript in w.failures ==>
        r.outcome == Exit(-1) && CloseStorage !in r.trace
  {
    if BotAdmins in config {
      Unfold(b, config, restore, w);
      RestoreFailuresAsGiven(config, w);
      SetupExecRaises(b, Normalise(config).config, Failures(config, w), restore, w);
    }
  }

  /** setup_bot exits with 0 exactly when the restore closed the storage without raising. */
  lemma RestoreCompletes(b: string, config: Config, restore: Value, w: World)
    ensures var r := SetupBot(b, config, restore, w);
      r.outcome == Exit(0) <==> CloseStorage in r.trace && CloseStorage !in w.failures
  {
    if BotAdmins in config {
      Unfold(b, config, restore, w);
      RestoreFailuresAsGiven(config, w);
      SetupRestoreCompletes(b, Normalise(config).config, Failures(config, w), restore, w);
    }
  }

  /**
   * A returned bot went through the whole script, nothing raising, and was
   * last attached, initialised and loaded with its plugins in source order.
   */
  lemma ReturnedAfterWiringAndLoading(b: string, config: Config, restore: Value, w: World)
    ensures var r := SetupBot(b, config, restore, w);
      r.outcome.Returned? ==>
        && BotAdmins in config
        && NoFailure(Failures(config, w), r.trace)
        && r.trace == Script(Normalise(config).config, restore, w)
        && |r.trace| >= 8 && r.trace[|r.trace| - 8..] == WiringCalls + LoadCalls
  {
    if BotAdmins in config {
      Unfold(b, config, restore, w);
      SetupReturned(b, Normalise(config).config, Failures(config, w), restore, w);
    }
  }

  /** Plugin load errors are not fatal: they change nothing but the bot's error report. */
  lemma PluginErrorsAreNonFatal(b: string, config: Config, restore: Value, w: World)
    ensures var r := SetupBot(b, config, restore, w);
      var r0 := SetupBot(b, config, restore, w.(loadErrors := []));
      r.trace == r0.trace
      && (r.outcome.Returned? <==> r0.outcome.Returned?)
      && (!r.outcome.Returned? ==> r.outcome == r0.outcome)
      && (r.outcome.Returned? ==>
            r0.outcome.bot.pluginErrorsDuringStartup == None
            && r.outcome.bot == r0.outcome.bot.(pluginErrorsDuringStartup :=
                 if |w.loadErrors| == 0 then None else Some(JoinLines(Messages(w.loadErrors)))))
  {
    if BotAdmins in config {
      var w0 := w.(loadErrors := []);
      assert w0.failures == w.failures;
      Unfold(b, config, restore, w);
      Unfold(b, config, restore, w0);
      SetupPluginErrors(b, Normalise(config).config, Failures(config, w), restore, w);
    }
  }

  /** The returned bot is wired with the configured (and coerced) options. */
  lemma ReturnedBotOptions(b: string, config: Config, restore: Value, w: World)
    ensures var r := SetupBot(b, config, restore, w);
      r.outcome.Returned? ==>
        var bot := r.outcome.bot;
        && bot.backend == b
        && bot.extraBackendDirs == ExtraBackendDirs(config)
        && bot.storage == StoragePlugin(StorageName(config), ExtraStoragePluginsDir(config))
        && BotDataDir in config
        && bot.repoManager == RepoManager(bot.storage, config[BotDataDir], PluginIndexes(config))
        && BotExtraPluginDir in config
        && bot.pluginManager == PluginManager(
             bot.storage, config[BotExtraPluginDir],
             if Defaulted(AutoinstallDeps) in config then config[Defaulted(AutoinstallDeps)] else VBool(true),
             CorePluginList(config), CallbackOrder(config))
  {
    if BotAdmins in config {
      var c := Normalise(config).config;
      Unfold(b, config, restore, w);
      SetupReturned(b, c, Failures(config, w), restore, w);
      SetupReturnedReadOptions(b, c, w, restore);
      NormalisePassesThrough(config, BotDataDir);
      NormalisePassesThrough(config, BotExtraPluginDir);
      if BotDataDir in config && BotExtraPluginDir in config {
        WireBotAfterNormalise(b, config, w);
      }
    }
  }

  /** The error report of a returned bot splits back into the plugin messages, in order. */
  lemma PluginErrorReportSplits(b: string, config: Config, restore: Value, w: World)
    requires forall i :: 0 <= i < |w.loadErrors| ==> '\n' !in w.loadErrors[i].1
    ensures var r := SetupBot(b, config, restore, w);
      r.outcome.Returned? ==>
        && (|w.loadErrors| == 0 <==> r.outcome.bot.pluginErrorsDuringStartup.None?)
        && (|w.loadErrors| > 0 ==>
              SplitLines(r.outcome.bot.pluginErrorsDuringStartup.value) == Messages(w.loadErrors))
  {
    if BotAdmins in config {
      Unfold(b, config, restore, w);
      SetupReturned(b, Normalise(config).config, Failures(config, w), restore, w);
      if |w.loadErrors| > 0 {
        SplitJoin(Messages(w.loadErrors));
      }
    }
  }
}
