/**
 * How a run of setup_bot's try block (errbot/bootstrap.py:206-237) relates to
 * its script.
 */
module TryBlockRuns {
  import opened Values
  import opened Config
  import opened Bootstrap
  import opened CallSequences
  import opened Scripts

  /** The try block follows its script until a call raises. */
  lemma TryBlockFollowsScript(b: string, c: Config, f: map<Call, string>, restore: Value, w: World)
    ensures FollowsScript(f, TryBlock(b, c, f, restore, w).trace, TryScript(restore, w))
  {
    var t := TryBlock(b, c, f, restore, w);
    var tail := if !Truthy(restore) then LoadCalls else if w.hasRepos then [] else RestoreCalls;
    assert TryScript(restore, w) == WiringCalls + tail;
    if RunCalls(f, WiringCalls).failure.Some? {
      assert t.trace == RunCalls(f, WiringCalls).done;
      WiringFails(f, tail);
    } else if Truthy(restore) && w.hasRepos {
      assert t.trace == WiringCalls;
      assert RunCalls(f, tail).done == [];
      WiringSucceeds(f, tail);
    } else {
      assert t.trace == WiringCalls + RunCalls(f, tail).done;
      WiringSucceeds(f, tail);
    }
  }

  lemma WiringFails(f: map<Call, string>, tail: seq<Call>)
    requires RunCalls(f, WiringCalls).failure.Some?
    ensures FollowsScript(f, RunCalls(f, WiringCalls).done, WiringCalls + tail)
  {
    PrefixExtends(RunCalls(f, WiringCalls).done, WiringCalls, tail);
  }

  lemma WiringSucceeds(f: map<Call, string>, tail: seq<Call>)
    requires RunCalls(f, WiringCalls).failure.None?
    ensures FollowsScript(f, WiringCalls + RunCalls(f, tail).done, WiringCalls + tail)
  {
    var rest := RunCalls(f, tail);
    PrefixAfter(WiringCalls, rest.done, tail);
    FailureAfterSuccess(f, WiringCalls, rest.done);
  }

  /** A raising call in the try block ends in exit(-1); otherwise restore and repositories decide. */
  lemma TryBlockOutcome(b: string, c: Config, f: map<Call, string>, restore: Value, w: World)
    ensures var t := TryBlock(b, c, f, restore, w);
      t.outcome ==
        if |t.trace| > 0 && Last(t.trace) in f then Exit(-1)
        else if !Truthy(restore) then Returned(WireBot(b, c, w))
        else if w.hasRepos then Exit(-1)
        else Exit(0)
  {
    var wiring := RunCalls(f, WiringCalls);
    if wiring.failure.None? {
      var tail := if !Truthy(restore) then LoadCalls else RestoreCalls;
      if !Truthy(restore) || !w.hasRepos {
        FailureAfterSuccess(f, WiringCalls, RunCalls(f, tail).done);
      }
    }
  }
}
