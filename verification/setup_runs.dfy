/**
 * How a run of setup_bot after normalisation relates to its script: the
 * trace follows the script, and the trace decides the outcome.
 */
module SetupRuns {
  import opened Values
  import opened Config
  import opened Bootstrap
  import opened CallSequences
  import opened Scripts
  import opened TryBlockRuns

  lemma TelemetryFailsFirst(f: map<Call, string>, tel: seq<Call>, pre: seq<Call>, try: seq<Call>)
    requires RunCalls(f, tel).failure.Some?
    ensures FollowsScript(f, RunCalls(f, tel).done, tel + pre + try)
  {
    var d := RunCalls(f, tel).done;
    PrefixExtends(d, tel, pre);
    PrefixExtends(d, tel + pre, try);
  }

  lemma PreTryFailsFirst(f: map<Call, string>, tel: seq<Call>, pre: seq<Call>, try: seq<Call>)
    requires RunCalls(f, tel).failure.None? && RunCalls(f, pre).failure.Some?
    ensures FollowsScript(f, tel + RunCalls(f, pre).done, tel + pre + try)
  {
    var p := RunCalls(f, pre);
    PrefixAfter(tel, p.done, pre);
    PrefixExtends(tel + p.done, tel + pre, try);
    FailureAfterSuccess(f, tel, p.done);
    assert Last(tel + p.done) in f;
  }

  lemma TryBlockAfterPrelude(b: string, c: Config, f: map<Call, string>, restore: Value, w: World,
                             tel: seq<Call>, pre: seq<Call>)
    requires NoFailure(f, tel + pre)
    ensures FollowsScript(f, tel + pre + TryBlock(b, c, f, restore, w).trace, tel + pre + TryScript(restore, w))
  {
    var t := TryBlock(b, c, f, restore, w);
    TryBlockFollowsScript(b, c, f, restore, w);
    PrefixAfter(tel + pre, t.trace, TryScript(restore, w));
    FailureAfterSuccess(f, tel + pre, t.trace);
  }

  /** setup_bot after normalisation follows its script until a call raises. */
  lemma SetupFollowsScript(b: string, c: Config, f: map<Call, string>, restore: Value, w: World)
    ensures FollowsScript(f, SetupNormalised(b, c, f, restore, w).trace, Script(c, restore, w))
  {
    var tel := TelemetryCalls(c);
    var pre := PreTryCalls(w);
    var try := TryScript(restore, w);
    if RunCalls(f, tel).failure.Some? {
      TelemetryFailsFirst(f, tel, pre, try);
    } else if RunCalls(f, pre).failure.Some? {
      PreTryFailsFirst(f, tel, pre, try);
    } else {
      TryBlockAfterPrelude(b, c, f, restore, w, tel, pre);
    }
  }

  /** A phase that raises stops at a call of its own band, the one whose message it reports. */
  lemma PhaseFailure(f: map<Call, string>, calls: seq<Call>, lo: nat, hi: nat)
    requires InSourceOrder(calls) && Within(calls, lo, hi) && RunCalls(f, calls).failure.Some?
    ensures var a := RunCalls(f, calls);
      |a.done| > 0 && Last(a.done) in f && lo <= Rank(Last(a.done)) <= hi
      && a.failure.value == f[Last(a.done)]
  {
    AttemptInOrder(f, calls, lo, hi);
  }

  lemma TryOutcomeAfterPrelude(b: string, c: Config, f: map<Call, string>, restore: Value, w: World,
                               prelude: seq<Call>)
    requires NoFailure(f, prelude)
    ensures var t := TryBlock(b, c, f, restore, w);
      t.outcome == ExpectedOutcome(prelude + t.trace, b, c, f, restore, w)
  {
    var t := TryBlock(b, c, f, restore, w);
    TryBlockFollowsScript(b, c, f, restore, w);
    TryBlockOutcome(b, c, f, restore, w);
    TryScriptInOrder(restore, w);
    PrefixWithin(t.trace, TryScript(restore, w), 11, 21);
    FailureAfterSuccess(f, prelude, t.trace);
  }

  lemma TelemetryFailureOutcome(b: string, c: Config, f: map<Call, string>, restore: Value, w: World)
    requires RunCalls(f, TelemetryCalls(c)).failure.Some?
    ensures var r := SetupNormalised(b, c, f, restore, w);
      r.outcome == ExpectedOutcome(r.trace, b, c, f, restore, w)
  {
    TelemetryInOrder(c);
    PhaseFailure(f, TelemetryCalls(c), 0, 3);
  }

  lemma PreTryFailureOutcome(b: string, c: Config, f: map<Call, string>, restore: Value, w: World)
    requires RunCalls(f, TelemetryCalls(c)).failure.None? && RunCalls(f, PreTryCalls(w)).failure.Some?
    ensures var r := SetupNormalised(b, c, f, restore, w);
      r.outcome == ExpectedOutcome(r.trace, b, c, f, restore, w)
  {
    var p := RunCalls(f, PreTryCalls(w));
    PreTryInOrder(w);
    PhaseFailure(f, PreTryCalls(w), 4, 10);
    FailureAfterSuccess(f, TelemetryCalls(c), p.done);
    var r := SetupNormalised(b, c, f, restore, w);
    assert r.trace == TelemetryCalls(c) + p.done;
    assert Last(r.trace) == Last(p.done) && BeforeTry(Last(p.done));
  }

  /** setup_bot after normalisation ends as its trace says. */
  lemma SetupOutcome(b: string, c: Config, f: map<Call, string>, restore: Value, w: World)
    ensures var r := SetupNormalised(b, c, f, restore, w);
      r.outcome == ExpectedOutcome(r.trace, b, c, f, restore, w)
  {
    var tel := TelemetryCalls(c);
    var pre := PreTryCalls(w);
    if RunCalls(f, tel).failure.Some? {
      TelemetryFailureOutcome(b, c, f, restore, w);
    } else if RunCalls(f, pre).failure.Some? {
      PreTryFailureOutcome(b, c, f, restore, w);
    } else {
      TryOutcomeAfterPrelude(b, c, f, restore, w, tel + pre);
    }
  }
}
