/**
 * The restore path of setup_bot and restore_bot_from_backup
 * (errbot/bootstrap.py:220-228, 240-252) after normalisation.
 */
module RestorePath {
  import opened Values
  import opened Config
  import opened Bootstrap
  import opened CallSequences
  import opened Scripts
  import opened SetupRuns

  /** A refused restore never reads, executes or closes anything, and never succeeds. */
  lemma SetupRestoreRefused(b: string, c: Config, f: map<Call, string>, restore: Value, w: World)
    requires Truthy(restore) && w.hasRepos
    ensures var r := SetupNormalised(b, c, f, restore, w);
      ReadRestoreScript !in r.trace && ExecRestoreScript !in r.trace && CloseStorage !in r.trace
      && r.outcome != Exit(0) && !r.outcome.Returned?
  {
    var r := SetupNormalised(b, c, f, restore, w);
    var s := Script(c, restore, w);
    SetupFollowsScript(b, c, f, restore, w);
    SetupOutcome(b, c, f, restore, w);
    NoRestoreInScript(c, restore, w);
    PrefixMembers(r.trace, s, ReadRestoreScript);
    PrefixMembers(r.trace, s, ExecRestoreScript);
    PrefixMembers(r.trace, s, CloseStorage);
  }

  /** close_storage is called only after the restore script executed without raising. */
  lemma SetupCloseAfterExec(b: string, c: Config, f: map<Call, string>, restore: Value, w: World)
    ensures var r := SetupNormalised(b, c, f, restore, w);
      CloseStorage in r.trace ==> ExecRestoreScript in r.trace && ExecRestoreScript !in f
  {
    var r := SetupNormalised(b, c, f, restore, w);
    var s := Script(c, restore, w);
    SetupFollowsScript(b, c, f, restore, w);
    if !Truthy(restore) || w.hasRepos {
      NoRestoreInScript(c, restore, w);
      PrefixMembers(r.trace, s, CloseStorage);
    } else if CloseStorage in r.trace {
      RestoreEndsScript(c, restore, w);
      ReachingEnd(f, r.trace, s, ExecRestoreScript, CloseStorage);
    }
  }

  /** A raising restore script ends in exit(-1) with the storage left open. */
  lemma SetupExecRaises(b: string, c: Config, f: map<Call, string>, restore: Value, w: World)
    ensures var r := SetupNormalised(b, c, f, restore, w);
      ExecRestoreScript in r.trace && ExecRestoreScript in f ==> r.outcome == Exit(-1) && CloseStorage !in r.trace
  {
    var r := SetupNormalised(b, c, f, restore, w);
    var s := Script(c, restore, w);
    if ExecRestoreScript in r.trace && ExecRestoreScript in f {
      SetupFollowsScript(b, c, f, restore, w);
      if !Truthy(restore) || w.hasRepos {
        NoRestoreInScript(c, restore, w);
        PrefixMembers(r.trace, s, ExecRestoreScript);
      } else {
        RestoreEndsScript(c, restore, w);
        SetupOutcome(b, c, f, restore, w);
        ExecRaisesIn(r, s, b, c, f, restore, w);
      }
    }
  }

  lemma ExecRaisesIn(r: Run, s: seq<Call>, b: string, c: Config, f: map<Call, string>, restore: Value, w: World)
    requires FollowsScript(f, r.trace, s) && EndsWith(s, ExecRestoreScript, CloseStorage)
    requires r.outcome == ExpectedOutcome(r.trace, b, c, f, restore, w)
    requires ExecRestoreScript in r.trace && ExecRestoreScript in f
    ensures r.outcome == Exit(-1) && CloseStorage !in r.trace
  {
    StoppingBeforeEnd(f, r.trace, s, ExecRestoreScript, CloseStorage);
  }

  /** The restore completes with exit(0) exactly when close_storage was called and returned. */
  lemma SetupRestoreCompletes(b: string, c: Config, f: map<Call, string>, restore: Value, w: World)
    ensures var r := SetupNormalised(b, c, f, restore, w);
      r.outcome == Exit(0) <==> CloseStorage in r.trace && CloseStorage !in f
  {
    var r := SetupNormalised(b, c, f, restore, w);
    var s := Script(c, restore, w);
    SetupFollowsScript(b, c, f, restore, w);
    SetupOutcome(b, c, f, restore, w);
    if !Truthy(restore) || w.hasRepos {
      NoRestoreInScript(c, restore, w);
      PrefixMembers(r.trace, s, CloseStorage);
    } else {
      RestoreEndsScript(c, restore, w);
      if CloseStorage in r.trace {
        ReachingEnd(f, r.trace, s, ExecRestoreScript, CloseStorage);
      }
      if r.outcome == Exit(0) {
        LastSucceeds(f, r.trace);
      }
    }
  }
}
