/**
 * What each phase of setup_bot calls, depending on the configuration, the
 * restore argument and the world (errbot/bootstrap.py:102-252).
 */
module Phases {
  import opened Values
  import opened Config
  import opened Bootstrap
  import opened CallSequences
  import opened Scripts

  /** Each telemetry import happens exactly when its option (and Sentry's, for its extras) switches it on. */
  lemma TelemetryImports(c: Config)
    ensures ImportLogstash in TelemetryCalls(c) <==> Enabled(c, BotLogLogstash)
    ensures ImportSentry in TelemetryCalls(c) <==> Enabled(c, BotLogSentry)
    ensures ImportSentryFlask in TelemetryCalls(c) <==> Enabled(c, BotLogSentry) && Enabled(c, BotLogSentryFlask)
    ensures ImportSentryTransport in TelemetryCalls(c) <==>
      Enabled(c, BotLogSentry) && SentryTransport in c && c[SentryTransport].VTuple?
  {
  }

  /** setLevel comes first, the repo manager last, and the plugin directory is created only when missing. */
  lemma PreTryShape(w: World)
    ensures MakePluginsDir in PreTryCalls(w) <==> !w.pluginsDirExists
    ensures var s := PreTryCalls(w);
      |s| >= 6 && s[0] == SetLogLevel && s[|s| - 1] == CreateRepoManager
  {
  }

  /**
   * The backend is always loaded; plugins are loaded exactly when no restore is
   * requested; the restore script is executed exactly when a restore is
   * requested onto a bot without repositories.
   */
  lemma ScriptContents(c: Config, restore: Value, w: World)
    ensures LoadBackend in Script(c, restore, w)
    ensures UpdatePluginPlaces in Script(c, restore, w) <==> !Truthy(restore)
    ensures ExecRestoreScript in Script(c, restore, w) <==> Truthy(restore) && !w.hasRepos
  {
    InTryScript(c, restore, w, LoadBackend);
    InTryScript(c, restore, w, UpdatePluginPlaces);
    InTryScript(c, restore, w, ExecRestoreScript);
    TryScriptContents(restore, w);
  }

  /** The try block's part of the script: the wiring, then plugin loading or the restore. */
  lemma TryScriptContents(restore: Value, w: World)
    ensures LoadBackend in TryScript(restore, w)
    ensures UpdatePluginPlaces in TryScript(restore, w) <==> !Truthy(restore)
    ensures ExecRestoreScript in TryScript(restore, w) <==> Truthy(restore) && !w.hasRepos
  {
    var t := TryScript(restore, w);
    assert t[0] == LoadBackend;
    if !Truthy(restore) {
      assert t == WiringCalls + LoadCalls;
      assert t[7] == UpdatePluginPlaces;
    } else if w.hasRepos {
      assert t == WiringCalls;
    } else {
      assert t == WiringCalls + RestoreCalls;
      assert t[7] == ExecRestoreScript;
    }
  }

  /** A call of the try block occurs in the script exactly when it occurs in the try block's part. */
  lemma InTryScript(c: Config, restore: Value, w: World, x: Call)
    requires Rank(x) >= 11
    ensures x in Script(c, restore, w) <==> x in TryScript(restore, w)
  {
    TelemetryInOrder(c);
    PreTryInOrder(w);
    NotInBand(TelemetryCalls(c), 0, 3, x);
    NotInBand(PreTryCalls(w), 4, 10, x);
  }
}
