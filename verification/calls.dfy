/**
 * Facts about sequences of collaborator calls: prefixes, concatenation of
 * phases, source order and which calls raised.
 */
module CallSequences {
  import opened Bootstrap

  function Last(s: seq<Call>): Call
    requires |s| > 0
  {
    s[|s| - 1]
  }

  /** No call of `s` raises under `f`. */
  predicate NoFailure(f: map<Call, string>, s: seq<Call>)
  {
    forall i :: 0 <= i < |s| ==> s[i] !in f
  }

  /** Every call of `s` but possibly the last succeeds under `f`. */
  predicate OnlyLastMayFail(f: map<Call, string>, s: seq<Call>)
  {
    forall i :: 0 <= i < |s| - 1 ==> s[i] !in f
  }

  /**
   * `t` is how far a run of the script `s` got under `f`: a prefix of `s`
   * in which only the last call can have raised, and all of `s` when none did.
   */
  predicate FollowsScript(f: map<Call, string>, t: seq<Call>, s: seq<Call>)
  {
    && |t| <= |s| && t == s[..|t|]
    && OnlyLastMayFail(f, t)
    && (NoFailure(f, t) ==> t == s)
  }

  /** `s` ends with `x` then `y`, and `y` occurs nowhere else in `s`. */
  predicate EndsWith(s: seq<Call>, x: Call, y: Call)
  {
    |s| >= 2 && s[|s| - 2] == x && s[|s| - 1] == y
    && forall i :: 0 <= i < |s| - 1 ==> s[i] != y
  }

  // ---------------------------------------------------------------------------
  // Prefixes and concatenation

  lemma PrefixExtends(p: seq<Call>, a: seq<Call>, b: seq<Call>)
    requires |p| <= |a| && p == a[..|p|]
    ensures p == (a + b)[..|p|]
  {
    assert forall i :: 0 <= i < |p| ==> (a + b)[i] == a[i];
  }

  lemma PrefixAfter(a: seq<Call>, p: seq<Call>, b: seq<Call>)
    requires |p| <= |b| && p == b[..|p|]
    ensures a + p == (a + b)[..|a + p|]
  {
    assert forall i :: |a| <= i < |a + p| ==> (a + b)[i] == b[i - |a|];
  }

  lemma PrefixMembers(t: seq<Call>, s: seq<Call>, x: Call)
    requires |t| <= |s| && t == s[..|t|] && x !in s
    ensures x !in t
  {
    assert forall i :: 0 <= i < |t| ==> t[i] == s[i];
  }

  /** A prefix of an ordered run is ordered. */
  lemma PrefixInOrder(p: seq<Call>, s: seq<Call>)
    requires |p| <= |s| && p == s[..|p|] && InSourceOrder(s)
    ensures InSourceOrder(p)
  {
    assert forall i :: 0 <= i < |p| ==> p[i] == s[i];
  }

  /** A prefix of a run within a band stays within it. */
  lemma PrefixWithin(p: seq<Call>, s: seq<Call>, lo: nat, hi: nat)
    requires |p| <= |s| && p == s[..|p|] && Within(s, lo, hi)
    ensures Within(p, lo, hi)
  {
    assert forall i :: 0 <= i < |p| ==> p[i] == s[i];
  }

  /** Two ordered runs in disjoint, increasing bands concatenate to an ordered run. */
  lemma Concat(a: seq<Call>, b: seq<Call>, lo1: nat, hi1: nat, lo2: nat, hi2: nat)
    requires InSourceOrder(a) && Within(a, lo1, hi1)
    requires InSourceOrder(b) && Within(b, lo2, hi2)
    requires lo1 <= hi1 < lo2 <= hi2
    ensures InSourceOrder(a + b) && Within(a + b, lo1, hi2)
  {
    assert forall i :: 0 <= i < |a + b| ==> (a + b)[i] == if i < |a| then a[i] else b[i - |a|];
    forall i, j | 0 <= i < j < |a + b|
      ensures Rank((a + b)[i]) < Rank((a + b)[j])
    {
      if j < |a| {
      } else if i < |a| {
        assert Rank(a[i]) <= hi1 && lo2 <= Rank(b[j - |a|]);
      } else {
        assert Rank(b[i - |a|]) < Rank(b[j - |a|]);
      }
    }
  }

  lemma NotInBand(s: seq<Call>, lo: nat, hi: nat, c: Call)
    requires Within(s, lo, hi) && !(lo <= Rank(c) <= hi)
    ensures c !in s
  {
  }

  /** After calls that all succeeded, a run keeps its failure shape and its last call. */
  lemma FailureAfterSuccess(f: map<Call, string>, a: seq<Call>, b: seq<Call>)
    requires NoFailure(f, a)
    ensures OnlyLastMayFail(f, b) ==> OnlyLastMayFail(f, a + b)
    ensures NoFailure(f, b) ==> NoFailure(f, a + b)
    ensures |b| > 0 ==> Last(a + b) == Last(b)
  {
    if OnlyLastMayFail(f, b) {
      forall i | 0 <= i < |a + b| - 1
        ensures (a + b)[i] !in f
      {
        if i >= |a| {
          assert (a + b)[i] == b[i - |a|];
        }
      }
    }
  }

  lemma LastSucceeds(f: map<Call, string>, t: seq<Call>)
    requires OnlyLastMayFail(f, t) && (|t| > 0 ==> Last(t) !in f)
    ensures NoFailure(f, t)
  {
  }

  /** Appending a tail that ends with `x` then `y` to calls without `y`. */
  lemma AppendEnding(a: seq<Call>, b: seq<Call>, x: Call, y: Call)
    requires y !in a && EndsWith(b, x, y)
    ensures EndsWith(a + b, x, y)
  {
    assert forall i :: 0 <= i < |a + b| ==> (a + b)[i] == if i < |a| then a[i] else b[i - |a|];
  }

  // ---------------------------------------------------------------------------
  // Phases

  /** The calls a phase attempts keep the phase's order and band. */
  lemma AttemptInOrder(f: map<Call, string>, calls: seq<Call>, lo: nat, hi: nat)
    requires InSourceOrder(calls) && Within(calls, lo, hi)
    ensures InSourceOrder(RunCalls(f, calls).done) && Within(RunCalls(f, calls).done, lo, hi)
  {
    var d := RunCalls(f, calls).done;
    assert forall i :: 0 <= i < |d| ==> d[i] == calls[i];
  }

  // ---------------------------------------------------------------------------
  // A step `y` that the script runs right after `x`, and only at its end

  /** `y` is reached only when the whole script ran, so `x` ran before it and did not raise. */
  lemma ReachingEnd(f: map<Call, string>, t: seq<Call>, s: seq<Call>, x: Call, y: Call)
    requires FollowsScript(f, t, s) && EndsWith(s, x, y) && y in t
    ensures t == s && x in t && x !in f
  {
    var j :| 0 <= j < |t| && t[j] == y;
    assert s[j] == y;
    assert t[|t| - 2] == x;
  }

  /** When `x` raises, the run stops at `x` and never reaches `y`. */
  lemma StoppingBeforeEnd(f: map<Call, string>, t: seq<Call>, s: seq<Call>, x: Call, y: Call)
    requires FollowsScript(f, t, s) && EndsWith(s, x, y) && x in t && x in f
    ensures |t| > 0 && Last(t) == x && y !in t
  {
    var j :| 0 <= j < |t| && t[j] == x;
    assert j == |t| - 1;
    assert x != y;
    assert forall i :: 0 <= i < |t| ==> t[i] == s[i];
  }

  /** A run that follows `s` is at least as long as any other run following it under the same failures. */
  lemma FollowsScriptLongest(f: map<Call, string>, t1: seq<Call>, t2: seq<Call>, s: seq<Call>)
    requires FollowsScript(f, t1, s) && FollowsScript(f, t2, s)
    ensures |t2| <= |t1|
  {
    if !NoFailure(f, t1) {
      var i :| 0 <= i < |t1| && t1[i] in f;
      assert i == |t1| - 1;
      assert s[i] in f;
    }
  }

  /** The script and the failures determine the run. */
  lemma FollowsScriptUnique(f: map<Call, string>, t1: seq<Call>, t2: seq<Call>, s: seq<Call>)
    requires FollowsScript(f, t1, s) && FollowsScript(f, t2, s)
    ensures t1 == t2
  {
    FollowsScriptLongest(f, t1, t2, s);
    FollowsScriptLongest(f, t2, t1, s);
    assert forall i :: 0 <= i < |t1| ==> t1[i] == s[i] == t2[i];
  }
}
