/**
 * Newline joining, as used for the start-up plugin error report
 * (`"\n".join(errors.values())`, errbot/bootstrap.py:231-233), together with
 * its inverse, Python's `str.split("\n")`.
 */
module Lines {

  /** `"\n".join(ms)`: the messages separated by single newlines. */
  function JoinLines(ms: seq<string>): (s: string)
    ensures |ms| == 0 ==> s == ""
    ensures |ms| == 1 ==> s == ms[0]
  {
    if |ms| == 0 then ""
    else if |ms| == 1 then ms[0]
    else ms[0] + "\n" + JoinLines(ms[1..])
  }

  /** `s.split("\n")`: the maximal newline-free pieces of `s`, always at least one. */
  function SplitLines(s: string): (r: seq<string>)
    ensures |r| >= 1
    ensures forall i :: 0 <= i < |r| ==> '\n' !in r[i]
  {
    if |s| == 0 then [""]
    else
      var rest := SplitLines(s[1..]);
      if s[0] == '\n' then [""] + rest
      else [[s[0]] + rest[0]] + rest[1..]
  }

  /** A newline-free string is a single piece. */
  lemma {:induction false} SplitWithoutNewline(a: string)
    requires '\n' !in a
    ensures SplitLines(a) == [a]
  {
    if |a| > 0 {
      SplitWithoutNewline(a[1..]);
      assert [a[0]] + a[1..] == a;
    }
  }

  /** Splitting at the first newline peels off the newline-free head. */
  lemma {:induction false} SplitAtNewline(a: string, b: string)
    requires '\n' !in a
    ensures SplitLines(a + "\n" + b) == [a] + SplitLines(b)
  {
    if |a| == 0 {
      assert a + "\n" + b == "\n" + b;
      assert ("\n" + b)[1..] == b;
    } else {
      assert (a + "\n" + b)[1..] == a[1..] + "\n" + b;
      assert (a + "\n" + b)[0] == a[0];
      SplitAtNewline(a[1..], b);
      assert [a[0]] + a[1..] == a;
    }
  }

  /**
   * Joining newline-free messages loses nothing: splitting the report at its
   * newlines gives back exactly the messages, in order.
   */
  lemma {:induction false} SplitJoin(ms: seq<string>)
    requires |ms| >= 1
    requires forall i :: 0 <= i < |ms| ==> '\n' !in ms[i]
    ensures SplitLines(JoinLines(ms)) == ms
  {
    if |ms| == 1 {
      SplitWithoutNewline(ms[0]);
    } else {
      SplitJoin(ms[1..]);
      SplitAtNewline(ms[0], JoinLines(ms[1..]));
      assert [ms[0]] + ms[1..] == ms;
    }
  }
}
