/**
 * The script of setup_bot — every collaborator call it makes when none raises —
 * and how a run after normalisation relates to it.
 */
module Scripts {
  import opened Values
  import opened Config
  import opened Bootstrap
  import opened CallSequences

  /** The try block's calls when none raises. */
  function TryScript(restore: Value, w: World): seq<Call>
  {
    WiringCalls + (if !Truthy(restore) then LoadCalls else if w.hasRepos then [] else RestoreCalls)
  }

  /** Every call setup_bot makes for the normalised configuration `c` when none raises. */
  function Script(c: Config, restore: Value, w: World): seq<Call>
  {
    TelemetryCalls(c) + PreTryCalls(w) + TryScript(restore, w)
  }

  /**
   * How a run that got as far as `trace` ends: a raising call before the try
   * block propagates its exception, any other raising call ends in exit(-1);
   * when nothing raised, the bot is returned, or the restore is refused with
   * exit(-1), or it completes with exit(0).
   */
  function ExpectedOutcome(trace: seq<Call>, b: string, c: Config, f: map<Call, string>, restore: Value, w: World): (o: Outcome)
    // only a call before the try block propagates, with its own message
    ensures o.Raised? <==> |trace| > 0 && Last(trace) in f && BeforeTry(Last(trace))
    ensures o.Raised? ==> o.error == CallError(Last(trace), f[Last(trace)])
    // exit codes are 0 and -1 only, and 0 only after a restore onto a bot without repositories
    ensures o.Exit? ==> o.code in {0, -1}
    ensures o == Exit(0) ==> Truthy(restore) && !w.hasRepos && !(|trace| > 0 && Last(trace) in f)
    // a bot is returned only when no restore was requested and the last call did not raise
    ensures o.Returned? ==> !Truthy(restore) && !(|trace| > 0 && Last(trace) in f)
  {
    if |trace| > 0 && Last(trace) in f then
      if BeforeTry(Last(trace)) then Raised(CallError(Last(trace), f[Last(trace)])) else Exit(-1)
    else if !Truthy(restore) then Returned(WireBot(b, c, w))
    else if w.hasRepos then Exit(-1)
    else Exit(0)
  }

  // ---------------------------------------------------------------------------
  // Order of the script

  lemma TelemetryInOrder(c: Config)
    ensures InSourceOrder(TelemetryCalls(c)) && Within(TelemetryCalls(c), 0, 3)
  {
  }

  lemma PreTryInOrder(w: World)
    ensures InSourceOrder(PreTryCalls(w)) && Within(PreTryCalls(w), 4, 10)
  {
  }

  lemma TryPhasesInOrder()
    ensures InSourceOrder(WiringCalls) && Within(WiringCalls, 11, 16)
    ensures InSourceOrder(RestoreCalls) && Within(RestoreCalls, 17, 19)
    ensures InSourceOrder(LoadCalls) && Within(LoadCalls, 20, 21)
  {
  }

  lemma TryScriptInOrder(restore: Value, w: World)
    ensures InSourceOrder(TryScript(restore, w)) && Within(TryScript(restore, w), 11, 21)
  {
    TryPhasesInOrder();
    if !Truthy(restore) {
      Concat(WiringCalls, LoadCalls, 11, 16, 20, 21);
    } else if !w.hasRepos {
      Concat(WiringCalls, RestoreCalls, 11, 16, 17, 19);
    } else {
      assert TryScript(restore, w) == WiringCalls;
    }
  }

  /** The script follows the source text: each call at most once, in the order written. */
  lemma ScriptInSourceOrder(c: Config, restore: Value, w: World)
    ensures InSourceOrder(Script(c, restore, w))
  {
    TelemetryInOrder(c);
    PreTryInOrder(w);
    TryScriptInOrder(restore, w);
    Concat(TelemetryCalls(c), PreTryCalls(w), 0, 3, 4, 10);
    Concat(TelemetryCalls(c) + PreTryCalls(w), TryScript(restore, w), 0, 10, 11, 21);
  }

  // ---------------------------------------------------------------------------
  // Where restore_bot_from_backup's calls occur in the script

  lemma NoRestoreInTelemetry(c: Config)
    ensures ReadRestoreScript !in TelemetryCalls(c)
    ensures ExecRestoreScript !in TelemetryCalls(c)
    ensures CloseStorage !in TelemetryCalls(c)
  {
    TelemetryInOrder(c);
    NotInBand(TelemetryCalls(c), 0, 3, ReadRestoreScript);
    NotInBand(TelemetryCalls(c), 0, 3, ExecRestoreScript);
    NotInBand(TelemetryCalls(c), 0, 3, CloseStorage);
  }

  /** Without a restore to perform, the script has none of restore_bot_from_backup's calls. */
  lemma NoRestoreInScript(c: Config, restore: Value, w: World)
    requires !Truthy(restore) || w.hasRepos
    ensures var s := Script(c, restore, w);
      ReadRestoreScript !in s && ExecRestoreScript !in s && CloseStorage !in s
  {
    NoRestoreInTelemetry(c);
    NoRestoreInTry(restore, w);
    var pre := PreTryCalls(w);
    assert ReadRestoreScript !in pre && ExecRestoreScript !in pre && CloseStorage !in pre;
  }

  lemma NoRestoreInTry(restore: Value, w: World)
    requires !Truthy(restore) || w.hasRepos
    ensures var s := TryScript(restore, w);
      ReadRestoreScript !in s && ExecRestoreScript !in s && CloseStorage !in s
  {
    if !Truthy(restore) {
      assert TryScript(restore, w) == WiringCalls + LoadCalls;
    } else {
      assert TryScript(restore, w) == WiringCalls;
    }
  }

  /** With a restore to perform, the script ends by executing it and then closing the storage. */
  lemma RestoreEndsScript(c: Config, restore: Value, w: World)
    requires Truthy(restore) && !w.hasRepos
    ensures EndsWith(Script(c, restore, w), ExecRestoreScript, CloseStorage)
  {
    NoRestoreInTelemetry(c);
    var try := WiringCalls + RestoreCalls;
    assert TryScript(restore, w) == try;
    assert EndsWith(try, ExecRestoreScript, CloseStorage);
    AppendEnding(TelemetryCalls(c) + PreTryCalls(w), try, ExecRestoreScript, CloseStorage);
  }
}
