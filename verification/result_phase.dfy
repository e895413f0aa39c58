/**
 * The result page's own logic (components/ResultPhase.tsx): the score ring's
 * data and colour, the quoting and numbering of the Markdown report, and the
 * names of the downloaded files.
 */
module ResultPhase {
  import opened Types
  import opened Strings
  import opened TextRuns
  import opened ScoreBands
  import DashboardView

  /** One slice of the score ring. */
  datatype Slice = Slice(name: string, value: int)

  /** `scoreData`: the score and what is left of 100. */
  function ScoreData(score: int): (r: seq<Slice>)
    ensures |r| == 2 && r[0].value == score
    ensures r[0].value + r[1].value == 100
  {
    [Slice("Score", score), Slice("Remaining", 100 - score)]
  }

  /** `scoreColor`, as the page writes it. */
  function ScoreColour(score: int): (c: string)
    ensures c == Hex(BandOf(score))
  {
    if score >= 80 then "#10b981" else if score >= 60 then "#f59e0b" else "#ef4444"
  }

  /** The result page colours a score exactly as the dashboard chart does. */
  lemma ResultMatchesChart(score: int)
    ensures ScoreColour(score) == DashboardView.ChartFill(score)
  {
  }

  function Newlines(s: string): nat {
    if s == [] then 0 else (if s[0] == '\n' then 1 else 0) + Newlines(s[1..])
  }

  /** `userContent.replace(/\n/g, '\n> ')`: every line break continues the Markdown quote. */
  function Quote(s: string): (r: string)
    ensures |r| == |s| + 2 * Newlines(s)
    ensures forall i :: 0 <= i < |r| && r[i] == '\n' ==> i + 2 < |r| && r[i + 1] == '>' && r[i + 2] == ' '
    decreases |s|
  {
    if s == [] then []
    else
      var head := if s[0] == '\n' then "\n> " else [s[0]];
      var tail := Quote(s[1..]);
      assert forall i :: |head| <= i < |head| + |tail| ==> (head + tail)[i] == tail[i - |head|];
      head + tail
  }

  /** Reads a quoted block back: each `\n> ` becomes a plain line break. */
  function Unquote(t: string): string
    decreases |t|
  {
    if t == [] then []
    else if |t| >= 3 && t[0] == '\n' && t[1] == '>' && t[2] == ' ' then "\n" + Unquote(t[3..])
    else [t[0]] + Unquote(t[1..])
  }

  /** Quoting loses nothing: the original text can be read back from the report. */
  lemma {:induction false} QuoteRoundTrip(s: string)
    ensures Unquote(Quote(s)) == s
    decreases |s|
  {
    if s != [] {
      QuoteRoundTrip(s[1..]);
      var q := Quote(s);
      if s[0] == '\n' {
        assert q == "\n> " + Quote(s[1..]);
        assert q[3..] == Quote(s[1..]);
      } else {
        assert q == [s[0]] + Quote(s[1..]);
        assert q[1..] == Quote(s[1..]);
      }
    }
  }

  /** The "你的原文" block: the content as a Markdown quote, every line opening with `> `. */
  function QuotedOriginal(content: string): (r: string)
    ensures StartsWith(r, "> ")
    ensures forall i :: 0 <= i < |r| && r[i] == '\n' ==> i + 2 < |r| && r[i + 1] == '>' && r[i + 2] == ' '
    ensures Unquote(r[2..]) == content
  {
    QuoteRoundTrip(content);
    var q := Quote(content);
    var r := "> " + q;
    assert r[2..] == q;
    assert forall i :: 2 <= i < |r| ==> r[i] == q[i - 2];
    r
  }

  const PerfectLine: string := "*完美！没有语法错误。*"

  /** The heading of the `n`-th correction. */
  function Heading(n: nat): string {
    "\n### " + NatToString(n) + ". 修改建议"
  }

  /** The Markdown block of correction `c` at position `i`. */
  function Block(i: nat, c: CorrectionItem): (r: string)
    ensures StartsWith(r, Heading(i + 1))
  {
    var h := Heading(i + 1);
    var r := h + "\n- **原文**: `" + c.original + "`\n- **修改**: **" + c.correction + "**\n- **解析**: " + c.explanation + "\n";
    assert r[..|h|] == h;
    r
  }

  function Blocks(cs: seq<CorrectionItem>): (r: seq<string>)
    ensures |r| == |cs|
    ensures forall i :: 0 <= i < |cs| ==> r[i] == Block(i, cs[i])
  {
    seq(|cs|, i requires 0 <= i < |cs| => Block(i, cs[i]))
  }

  /** Where part `i` starts in `JoinWith(sep, parts)`: each earlier part plus one separator. */
  function Offset(parts: seq<string>, i: nat): nat
    requires i <= |parts|
  {
    if i == 0 then 0 else |parts[0]| + 1 + Offset(parts[1..], i - 1)
  }

  /** Each part sits at its offset in the joined text. */
  lemma {:induction false} JoinPlaces(sep: char, parts: seq<string>, i: nat)
    requires i < |parts|
    ensures Offset(parts, i) + |parts[i]| <= |JoinWith(sep, parts)|
    ensures JoinWith(sep, parts)[Offset(parts, i)..Offset(parts, i) + |parts[i]|] == parts[i]
  {
    var joined := JoinWith(sep, parts);
    if |parts| == 1 {
      assert joined == parts[0];
    } else {
      assert joined == parts[0] + [sep] + JoinWith(sep, parts[1..]);
      if i == 0 {
        assert joined[..|parts[0]|] == parts[0];
      } else {
        JoinPlaces(sep, parts[1..], i - 1);
        var rest := JoinWith(sep, parts[1..]);
        var o := Offset(parts[1..], i - 1);
        assert joined[|parts[0]| + 1..] == rest;
        assert joined[|parts[0]| + 1 + o..|parts[0]| + 1 + o + |parts[i]|] == rest[o..o + |parts[i]|];
      }
    }
  }

  /** The "详细批改" section: the perfect line, or the numbered blocks joined by line breaks. */
  function CorrectionsSection(cs: seq<CorrectionItem>): (r: string)
    ensures r == PerfectLine <==> |cs| == 0
    ensures |cs| > 0 ==> StartsWith(r, Heading(1))
  {
    if |cs| == 0 then PerfectLine
    else
      var r := JoinWith('\n', Blocks(cs));
      JoinPlaces('\n', Blocks(cs), 0);
      assert r[..|Block(0, cs[0])|] == Block(0, cs[0]);
      assert r[..|Heading(1)|] == Block(0, cs[0])[..|Heading(1)|];
      assert r[0] == '\n' != PerfectLine[0];
      r
  }

  /**
   * Correction `i` appears whole in the section, under the number `i + 1`,
   * after correction `i - 1`.
   */
  lemma CorrectionsNumberedInOrder(cs: seq<CorrectionItem>, i: nat)
    requires i < |cs|
    ensures var r := CorrectionsSection(cs);
            var o := Offset(Blocks(cs), i);
            && o + |Block(i, cs[i])| <= |r|
            && r[o..o + |Block(i, cs[i])|] == Block(i, cs[i])
            && StartsWith(r[o..], Heading(i + 1))
            && (i > 0 ==> Offset(Blocks(cs), i - 1) < o)
  {
    var parts := Blocks(cs);
    var r := CorrectionsSection(cs);
    var o := Offset(parts, i);
    JoinPlaces('\n', parts, i);
    assert r == JoinWith('\n', parts);
    var h := Heading(i + 1);
    var b := Block(i, cs[i]);
    assert |h| <= |b| && b[..|h|] == h;
    assert r[o..][..|h|] == r[o..o + |h|] == b[..|h|];
    if i > 0 {
      OffsetStep(parts, i - 1);
    }
  }

  /** Offsets strictly increase. */
  lemma {:induction false} OffsetStep(parts: seq<string>, i: nat)
    requires i + 1 <= |parts|
    ensures Offset(parts, i + 1) == Offset(parts, i) + |parts[i]| + 1
  {
    if i > 0 {
      OffsetStep(parts[1..], i - 1);
    }
  }

  /**
   * The report's file name: each whitespace run of the topic becomes one dash,
   * followed by the date part (first ten characters) of the ISO timestamp.
   */
  function ReportFilename(topic: string, isoNow: string): (r: string)
    ensures r == "写作报告-" + JoinWith('-', SplitOnSpaces(topic)) + "-" + Take(isoNow, 10) + ".md"
    ensures NoSpace(Take(isoNow, 10)) ==> NoSpace(r)
  {
    DashRunsIsSplitJoin(topic);
    "写作报告-" + DashRuns(topic) + "-" + Take(isoNow, 10) + ".md"
  }

  /** The shared image's file name: the topic cut to its first ten characters. */
  function ShareFilename(topic: string): (r: string)
    ensures StartsWith(r, "Report-")
    ensures |r| == 11 + DashboardView.Min(10, |topic|)
    ensures StartsWith(topic, r[7..|r| - 4]) && r[|r| - 4..] == ".png"
  {
    var r := "Report-" + Take(topic, 10) + ".png";
    assert r[7..|r| - 4] == Take(topic, 10);
    r
  }
}
