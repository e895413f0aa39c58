/**
 * Whitespace runs, as the UI code meets them in `text.split(/\s+/)` and
 * `text.replace(/\s+/g, '-')`, with an independent count of the maximal
 * non-whitespace runs ("words") to check them against.
 */
module TextRuns {
  import opened Wrappers
  import opened Strings

  predicate NoSpace(s: string) {
    forall k :: 0 <= k < |s| ==> !IsSpace(s[k])
  }

  /** Index of the first whitespace character. */
  function FirstSpace(s: string): (r: Option<nat>)
    ensures r.Some? ==> r.value < |s| && IsSpace(s[r.value]) && NoSpace(s[..r.value])
    ensures r.None? ==> NoSpace(s)
    decreases |s|
  {
    if s == [] then None
    else if IsSpace(s[0]) then Some(0)
    else match FirstSpace(s[1..])
      case None => None
      case Some(i) =>
        assert s[..i + 1] == [s[0]] + s[1..][..i];
        Some(i + 1)
  }

  /** End of the non-whitespace run that opens `s`. */
  function WordEnd(s: string): (n: nat)
    ensures n <= |s| && NoSpace(s[..n])
    ensures n == |s| || IsSpace(s[n])
  {
    match FirstSpace(s)
    case Some(i) => i
    case None => assert s[..|s|] == s; |s|
  }

  /** `WordEnd` is the only index with its two properties. */
  lemma WordEndUnique(s: string, n: nat)
    requires n <= |s| && NoSpace(s[..n])
    requires n == |s| || IsSpace(s[n])
    ensures WordEnd(s) == n
  {
  }

  /** Reference count: the number of maximal non-whitespace runs of `s`. */
  function Runs(s: string): nat
    decreases |s|
  {
    if s == [] then 0
    else if IsSpace(s[0]) then Runs(s[1..])
    else 1 + Runs(s[WordEnd(s)..])
  }

  /** `s.split(/\s+/)`: the pieces between maximal whitespace runs, empty ones at the ends included. */
  function SplitOnSpaces(s: string): (r: seq<string>)
    ensures |r| >= 1
    ensures forall k :: 0 <= k < |r| ==> NoSpace(r[k])
    decreases |s|
  {
    match FirstSpace(s)
    case None => [s]
    case Some(i) =>
      var j := i + LeadingSpaces(s[i..]);
      [s[..i]] + SplitOnSpaces(s[j..])
  }

  /** `.filter(w => w.length > 0).length`. */
  function NonEmptyCount(parts: seq<string>): (n: nat)
    ensures n <= |parts|
  {
    if parts == [] then 0
    else (if parts[0] != [] then 1 else 0) + NonEmptyCount(parts[1..])
  }

  /** Leading whitespace does not change the run count. */
  lemma {:induction false} RunsSkipSpaces(s: string, k: nat)
    requires k <= |s| && AllSpace(s[..k])
    ensures Runs(s) == Runs(s[k..])
  {
    if k > 0 {
      assert IsSpace(s[..k][0]);
      assert s[1..][..k - 1] == s[1..k];
      RunsSkipSpaces(s[1..], k - 1);
      assert s[1..][k - 1..] == s[k..];
    }
  }

  /** Splitting on whitespace runs yields exactly one non-empty piece per word. */
  lemma {:induction false} SplitCountsRuns(s: string)
    ensures NonEmptyCount(SplitOnSpaces(s)) == Runs(s)
    decreases |s|
  {
    match FirstSpace(s)
    case None =>
      if s != [] {
        assert WordEnd(s) == |s|;
      }
    case Some(i) =>
      var l := LeadingSpaces(s[i..]);
      var j := i + l;
      assert l >= 1;
      SplitCountsRuns(s[j..]);
      assert s[i..][l..] == s[j..];
      RunsSkipSpaces(s[i..], l);
      var parts := SplitOnSpaces(s);
      assert parts == [s[..i]] + SplitOnSpaces(s[j..]);
      assert parts[1..] == SplitOnSpaces(s[j..]);
      assert NonEmptyCount(parts) == (if parts[0] != [] then 1 else 0) + Runs(s[j..]);
      if i == 0 {
        assert s[..j] == s[i..][..l];
        RunsSkipSpaces(s, j);
      } else {
        assert !IsSpace(s[..i][0]);
        assert WordEnd(s) == i;
        assert Runs(s) == 1 + Runs(s[i..]);
      }
  }

  /** Trailing whitespace does not change the run count. */
  lemma {:induction false} RunsAppendSpaces(x: string, y: string)
    requires AllSpace(y)
    ensures Runs(x + y) == Runs(x)
    decreases |x|
  {
    if x == [] {
      assert x + y == y;
      assert y[..|y|] == y;
      RunsSkipSpaces(y, |y|);
      assert y[|y|..] == [];
    } else if IsSpace(x[0]) {
      assert (x + y)[1..] == x[1..] + y;
      RunsAppendSpaces(x[1..], y);
    } else {
      var w := WordEnd(x);
      assert (x + y)[..w] == x[..w];
      if w == |x| {
        assert (x + y)[w..] == y;
      } else {
        assert (x + y)[w] == x[w];
      }
      WordEndUnique(x + y, w);
      assert (x + y)[w..] == x[w..] + y;
      RunsAppendSpaces(x[w..], y);
    }
  }

  /** `trim` keeps every word. */
  lemma RunsOfTrim(s: string)
    ensures Runs(Trim(s)) == Runs(s)
  {
    var i := LeadingSpaces(s);
    var a := s[i..];
    var j := TrailingStart(a);
    assert Trim(s) == a[..j];
    RunsSkipSpaces(s, i);
    assert a == a[..j] + a[j..];
    RunsAppendSpaces(a[..j], a[j..]);
  }

  /** `parts.join(sep)`. */
  function JoinWith(sep: char, parts: seq<string>): string {
    if parts == [] then []
    else if |parts| == 1 then parts[0]
    else parts[0] + [sep] + JoinWith(sep, parts[1..])
  }

  /** `s.replace(/\s+/g, '-')`: each maximal whitespace run becomes one dash. */
  function DashRuns(s: string): (r: string)
    ensures NoSpace(r)
    ensures |r| <= |s|
    decreases |s|
  {
    if s == [] then []
    else if IsSpace(s[0]) then
      var l := LeadingSpaces(s);
      "-" + DashRuns(s[l..])
    else [s[0]] + DashRuns(s[1..])
  }

  /** A stretch without whitespace is copied unchanged. */
  lemma {:induction false} DashRunsKeepsWord(s: string, i: nat)
    requires i <= |s| && NoSpace(s[..i])
    ensures DashRuns(s) == s[..i] + DashRuns(s[i..])
  {
    if i > 0 {
      assert !IsSpace(s[..i][0]);
      assert s[1..][..i - 1] == s[1..i];
      DashRunsKeepsWord(s[1..], i - 1);
      assert s[1..][i - 1..] == s[i..];
      assert s[..i] == [s[0]] + s[1..i];
    }
  }

  /** Replacing whitespace runs by a dash is splitting on them and joining with a dash. */
  lemma {:induction false} DashRunsIsSplitJoin(s: string)
    ensures DashRuns(s) == JoinWith('-', SplitOnSpaces(s))
    decreases |s|
  {
    match FirstSpace(s)
    case None =>
      assert s[..|s|] == s;
      DashRunsKeepsWord(s, |s|);
    case Some(i) =>
      var l := LeadingSpaces(s[i..]);
      var j := i + l;
      DashRunsIsSplitJoin(s[j..]);
      DashRunsKeepsWord(s, i);
      assert s[i..][l..] == s[j..];
      var parts := SplitOnSpaces(s);
      assert parts == [s[..i]] + SplitOnSpaces(s[j..]);
      assert parts[1..] == SplitOnSpaces(s[j..]);
  }
}
