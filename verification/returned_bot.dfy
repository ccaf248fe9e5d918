/**
 * The bot setup_bot returns after normalisation, and the plugin error report
 * (errbot/bootstrap.py:230-234).
 */
module ReturnedBot {
  import opened Values
  import opened Config
  import opened Bootstrap
  import opened CallSequences
  import opened Scripts
  import opened Lines
  import opened SetupRuns

  /** A returned bot went through the whole script, wiring and then plugin loading, nothing raising. */
  lemma SetupReturned(b: string, c: Config, f: map<Call, string>, restore: Value, w: World)
    ensures var r := SetupNormalised(b, c, f, restore, w);
      r.outcome.Returned? ==>
        NoFailure(f, r.trace) && r.trace == Script(c, restore, w)
        && |r.trace| >= 8 && r.trace[|r.trace| - 8..] == WiringCalls + LoadCalls
        && r.outcome.bot == WireBot(b, c, w)
  {
    var r := SetupNormalised(b, c, f, restore, w);
    SetupFollowsScript(b, c, f, restore, w);
    SetupOutcome(b, c, f, restore, w);
    if r.outcome.Returned? {
      LastSucceeds(f, r.trace);
      assert r.trace == (TelemetryCalls(c) + PreTryCalls(w)) + (WiringCalls + LoadCalls);
    }
  }

  /** The plugin error report changes nothing but the bot's error attribute. */
  lemma SetupPluginErrors(b: string, c: Config, f: map<Call, string>, restore: Value, w: World)
    ensures var r := SetupNormalised(b, c, f, restore, w);
      var r0 := SetupNormalised(b, c, f, restore, w.(loadErrors := []));
      r.trace == r0.trace
      && (r.outcome.Returned? <==> r0.outcome.Returned?)
      && (!r.outcome.Returned? ==> r.outcome == r0.outcome)
      && (r.outcome.Returned? ==>
            r0.outcome.bot.pluginErrorsDuringStartup == None
            && r.outcome.bot == r0.outcome.bot.(pluginErrorsDuringStartup :=
                 if |w.loadErrors| == 0 then None else Some(JoinLines(Messages(w.loadErrors)))))
  {
    var w0 := w.(loadErrors := []);
    var r := SetupNormalised(b, c, f, restore, w);
    var r0 := SetupNormalised(b, c, f, restore, w0);
    SetupFollowsScript(b, c, f, restore, w);
    SetupFollowsScript(b, c, f, restore, w0);
    assert Script(c, restore, w) == Script(c, restore, w0);
    FollowsScriptUnique(f, r.trace, r0.trace, Script(c, restore, w));
    SetupOutcome(b, c, f, restore, w);
    SetupOutcome(b, c, f, restore, w0);
  }

  /** A returned bot got past the reads of BOT_DATA_DIR and BOT_EXTRA_PLUGIN_DIR. */
  lemma SetupReturnedReadOptions(b: string, c: Config, w: World, restore: Value)
    ensures var r := SetupNormalised(b, c, EffectiveFailures(c, w), restore, w);
      r.outcome.Returned? ==> BotDataDir in c && BotExtraPluginDir in c
  {
    var f := EffectiveFailures(c, w);
    var r := SetupNormalised(b, c, f, restore, w);
    SetupReturned(b, c, f, restore, w);
    if r.outcome.Returned? {
      var s := Script(c, restore, w);
      var head := TelemetryCalls(c) + PreTryCalls(w);
      assert s == head + (WiringCalls + LoadCalls);
      assert s[|TelemetryCalls(c)| + 3] == LocatePluginsDir;
      assert s[|head| + 1] == CreatePluginManager;
    }
  }
}
