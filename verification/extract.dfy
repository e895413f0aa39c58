/**
 * Recovery of a JSON value from a provider's free-form reply
 * (`extractJson` in services/aiService.ts).
 *
 * `JSON.parse` is not modelled: every operation takes it as a total oracle
 * `parse`, `None` standing for a thrown SyntaxError. The three regular
 * expressions of the source are modelled as explicit leftmost-first searches
 * over the text, with the backtracking order of JavaScript's regex engine.
 */
module AiExtract {
  import opened Wrappers
  import opened Strings

  /** What `extractJson` throws. */
  datatype ExtractError =
    | OriginalError    // the SyntaxError of the first `JSON.parse(text)`, rethrown
    | SpanParseFailed  // Error("Failed to parse AI response as JSON")

  const JsonFenceOpen: string := "```json"
  const PlainFenceOpen: string := "```"

  predicate TicksAt(t: string, i: int) {
    0 <= i && i + 3 <= |t| && t[i..i + 3] == "```"
  }

  /** The lazy group `([\s\S]*?)` may stop at `e`: `\s?` and then "```" follow. */
  predicate ClosesAt(t: string, e: int) {
    TicksAt(t, e) || (0 <= e < |t| && IsSpace(t[e]) && TicksAt(t, e + 1))
  }

  /** The least `e >= from` at which the lazy group can stop. */
  function FirstClose(t: string, from: nat): (r: Option<nat>)
    ensures r.Some? ==> from <= r.value < |t| && ClosesAt(t, r.value)
    ensures r.Some? ==> forall e :: from <= e < r.value ==> !ClosesAt(t, e)
    ensures r.None? ==> forall e :: from <= e ==> !ClosesAt(t, e)
    decreases |t| - from
  {
    if from >= |t| then None
    else if ClosesAt(t, from) then Some(from)
    else FirstClose(t, from + 1)
  }

  /**
   * Capture group 1 of /<open>\s?([\s\S]*?)\s?```/ when the match is
   * attempted at position `p`. The greedy `\s?` after the opener first takes
   * one whitespace character; only if no closer follows does the engine retry
   * without it.
   */
  function FenceAt(t: string, open: string, p: nat): Option<string> {
    if !(p + |open| <= |t| && t[p..p + |open|] == open) then None
    else
      var q := p + |open|;
      if q < |t| && IsSpace(t[q]) && FirstClose(t, q + 1).Some? then
        Some(t[q + 1..FirstClose(t, q + 1).value])
      else
        match FirstClose(t, q)
        case Some(e) => Some(t[q..e])
        case None => None
  }

  /** `t.match(re)` for the fence regex: the leftmost start at or after `p` that matches. */
  function FenceFrom(t: string, open: string, p: nat): (r: Option<(nat, string)>)
    requires |open| > 0
    ensures r.Some? ==> p <= r.value.0 && FenceAt(t, open, r.value.0) == Some(r.value.1)
    ensures r.Some? ==> forall p': nat :: p <= p' < r.value.0 ==> FenceAt(t, open, p').None?
    ensures r.None? ==> forall p': nat :: p <= p' ==> FenceAt(t, open, p').None?
    decreases |t| - p
  {
    if p + |open| > |t| then None
    else
      match FenceAt(t, open, p)
      case Some(c) => Some((p, c))
      case None => FenceFrom(t, open, p + 1)
  }

  /**
   * The fence the source uses: a ```json fence if the text has one, otherwise
   * any ``` fence (the `||` of the two `match` calls). Result: start and capture.
   */
  function ChosenFence(t: string): Option<(nat, string)> {
    var tagged := FenceFrom(t, JsonFenceOpen, 0);
    if tagged.Some? then tagged else FenceFrom(t, PlainFenceOpen, 0)
  }

  function Closer(c: char): char {
    if c == '{' then '}' else ']'
  }

  /** Index of the last `c` in `t`. */
  function LastIndexOf(t: string, c: char): (r: Option<nat>)
    ensures r.Some? ==> r.value < |t| && t[r.value] == c
    ensures r.Some? ==> forall k :: r.value < k < |t| ==> t[k] != c
    ensures r.None? ==> forall k :: 0 <= k < |t| ==> t[k] != c
    decreases |t|
  {
    if |t| == 0 then None
    else if t[|t| - 1] == c then Some(|t| - 1)
    else LastIndexOf(t[..|t| - 1], c)
  }

  /**
   * End (exclusive) of a match of /(\{[\s\S]*\}|\[[\s\S]*\])/ started at `p`:
   * the greedy body runs to the last matching closer, which must lie after `p`.
   */
  function SpanEndAt(t: string, p: nat): Option<nat> {
    if p < |t| && (t[p] == '{' || t[p] == '[') then
      match LastIndexOf(t, Closer(t[p]))
      case Some(j) => if j > p then Some(j + 1) else None
      case None => None
    else None
  }

  /** The leftmost position at or after `p` where the span regex matches, and its end. */
  function SpanFrom(t: string, p: nat): (r: Option<(nat, nat)>)
    ensures r.Some? ==> p <= r.value.0 && SpanEndAt(t, r.value.0) == Some(r.value.1)
    ensures r.Some? ==> forall p': nat :: p <= p' < r.value.0 ==> SpanEndAt(t, p').None?
    ensures r.None? ==> forall p': nat :: p <= p' ==> SpanEndAt(t, p').None?
    decreases |t| - p
  {
    if p >= |t| then None
    else
      match SpanEndAt(t, p)
      case Some(e) => Some((p, e))
      case None => SpanFrom(t, p + 1)
  }

  /** `t[i]` opens a span that `t[j]` can close. */
  predicate Pair(t: string, i: nat, j: nat)
    requires i < |t| && j < |t|
  {
    (t[i] == '{' && t[j] == '}') || (t[i] == '[' && t[j] == ']')
  }

  /** A position where the span regex does not match opens no pair with any later closer. */
  lemma NoSpanNoPair(t: string, i: nat)
    requires i < |t| && SpanEndAt(t, i).None?
    ensures forall j :: i < j < |t| ==> !Pair(t, i, j)
  {
    if t[i] == '{' || t[i] == '[' {
      var last := LastIndexOf(t, Closer(t[i]));
      assert last.Some? ==> last.value <= i;
    }
  }

  /**
   * The greedy span: from the leftmost `{` (or `[`) that has a matching closer
   * after it, through the LAST such closer in the text.
   */
  function GreedySpan(t: string): (r: Option<string>)
    ensures r.Some? ==> exists i, j :: 0 <= i < j < |t| && r.value == t[i..j + 1]
                          && Pair(t, i, j)
                          && (forall k :: j < k < |t| ==> t[k] != t[j])
                          && (forall i', j' :: 0 <= i' < i && i' < j' < |t| ==> !Pair(t, i', j'))
    ensures r.None? <==> forall i, j :: 0 <= i < j < |t| ==> !Pair(t, i, j)
  {
    match SpanFrom(t, 0)
    case Some((i, e)) =>
      assert t[e - 1] == Closer(t[i]);
      forall i', j' | 0 <= i' < i && i' < j' < |t|
        ensures !Pair(t, i', j')
      {
        NoSpanNoPair(t, i');
      }
      var j := e - 1;
      assert Pair(t, i, j) && t[i..e] == t[i..j + 1];
      assert forall k :: j < k < |t| ==> t[k] != t[j];
      Some(t[i..e])
    case None =>
      forall i, j | 0 <= i < j < |t|
        ensures !Pair(t, i, j)
      {
        NoSpanNoPair(t, i);
      }
      None
  }

  /** `extractJson(text)`: the fallback cascade of the source, in its order. */
  function ExtractJson<J>(parse: string -> Option<J>, text: string): (r: Result<J, ExtractError>)
    ensures parse(text).Some? ==> r == Ok(parse(text).value)
    ensures r.Ok? ==> parse(text) == Some(r.value)
                      || (ChosenFence(text).Some? && parse(Trim(ChosenFence(text).value.1)) == Some(r.value))
                      || (GreedySpan(text).Some? && parse(GreedySpan(text).value) == Some(r.value))
    ensures parse(text).None? && ChosenFence(text).Some? && ChosenFence(text).value.1 != ""
            && parse(Trim(ChosenFence(text).value.1)).Some?
            ==> r == Ok(parse(Trim(ChosenFence(text).value.1)).value)
    ensures parse(text).None? && ChosenFence(text).None? ==> r == Err(OriginalError)
    ensures r.Ok? && parse(text).None? ==> ChosenFence(text).Some? && ChosenFence(text).value.1 != ""
  {
    match parse(text)
    case Some(v) => Ok(v)
    case None =>
      match ChosenFence(text)
      case None => Err(OriginalError)
      case Some((_, body)) =>
        if body == "" then Err(OriginalError)
        else
          match parse(Trim(body))
          case Some(v) => Ok(v)
          case None =>
            match GreedySpan(text)
            case None => Err(OriginalError)
            case Some(span) =>
              match parse(span)
              case Some(v) => Ok(v)
              case None => Err(SpanParseFailed)
  }

  /** No "```" occurs inside `s`. */
  predicate NoTicks(s: string) {
    forall k :: 0 <= k < |s| ==> !TicksAt(s, k)
  }

  /** The reply shape providers commonly produce: a tagged fence around the JSON. */
  function JsonFenced(s: string): string {
    JsonFenceOpen + "\n" + s + "\n" + "```"
  }

  /** A ```json fence anywhere in the text wins over any ``` fence, wherever that one is. */
  lemma JsonFencePreferred(t: string, p: nat)
    requires FenceAt(t, JsonFenceOpen, p).Some?
    ensures ChosenFence(t) == FenceFrom(t, JsonFenceOpen, 0)
    ensures ChosenFence(t).Some? && ChosenFence(t).value.0 <= p
    ensures FenceAt(t, JsonFenceOpen, ChosenFence(t).value.0) == Some(ChosenFence(t).value.1)
  {
  }

  /** The text of the worked example below: a plain fence, then a ```json fence. */
  const FenceExample: string := "```\nA\n```json\nB\n```"

  /** The layout of the example: where its fences, line breaks and contents sit. */
  lemma FenceExampleLayout()
    ensures |FenceExample| == 19
    ensures FenceExample[0..3] == PlainFenceOpen && FenceExample[3] == '\n' && FenceExample[4..5] == "A"
    ensures FenceExample[6..13] == JsonFenceOpen && FenceExample[13] == '\n' && FenceExample[14..15] == "B"
  {
    var t := FenceExample;
    assert t == "```" + "\n" + "A" + "\n" + "```json" + "\n" + "B" + "\n" + "```";
    assert t[4] == 'A' && t[4..5] == [t[4]];
    assert t[14] == 'B' && t[14..15] == [t[14]];
  }

  /** Where the two lazy groups of the example stop. */
  lemma FenceExampleCloses()
    ensures FirstClose(FenceExample, 4) == Some(5)
    ensures FirstClose(FenceExample, 14) == Some(15)
  {
    var t := FenceExample;
    assert |t| == 19;
    assert t[4] == 'A' && t[5] == '\n' && t[6..9] == "```";
    assert !TicksAt(t, 4) by { assert t[4..7][0] == 'A'; }
    assert !IsSpace(t[4]);
    assert ClosesAt(t, 5) by { assert TicksAt(t, 6); }
    assert t[14] == 'B' && t[15] == '\n' && t[16..19] == "```";
    assert !TicksAt(t, 14) by { assert t[14..17][0] == 'B'; }
    assert !IsSpace(t[14]);
    assert ClosesAt(t, 15) by { assert TicksAt(t, 16); }
  }

  /** No ```json fence starts before position 6 of the example. */
  lemma FenceExampleNoEarlyJson(p: nat)
    requires p < 6
    ensures FenceAt(FenceExample, JsonFenceOpen, p).None?
  {
    var t := FenceExample;
    assert t[p + 3] != JsonFenceOpen[3];
    assert t[p..p + 7][3] == t[p + 3];
  }

  /**
   * A worked example of `JsonFencePreferred`: an untagged fence that comes
   * first still loses to a later ```json fence.
   */
  lemma JsonFenceBeatsEarlierPlainFence()
    ensures FenceFrom(FenceExample, PlainFenceOpen, 0) == Some((0, "A"))
    ensures ChosenFence(FenceExample) == Some((6, "B"))
  {
    var t := FenceExample;
    FenceExampleCloses();
    FenceExampleLayout();
    assert IsSpace('\n');
    assert FenceAt(t, PlainFenceOpen, 0) == Some("A");
    forall p: nat | p < 6 ensures FenceAt(t, JsonFenceOpen, p).None? {
      FenceExampleNoEarlyJson(p);
    }
    assert FenceAt(t, JsonFenceOpen, 6) == Some("B");
  }

  /** A fence with an empty interior skips every later step: the first error is rethrown. */
  lemma EmptyFenceRethrows<J>(parse: string -> Option<J>, text: string)
    requires parse(text).None?
    requires ChosenFence(text).Some? && ChosenFence(text).value.1 == ""
    ensures ExtractJson(parse, text) == Err(OriginalError)
  {
  }

  /** Text with no "```" has no fence. */
  lemma NoTicksNoFence(t: string)
    requires NoTicks(t)
    ensures ChosenFence(t).None?
  {
    forall open, p: nat | open in {JsonFenceOpen, PlainFenceOpen}
      ensures FenceAt(t, open, p).None?
    {
      if p + |open| <= |t| && t[p..p + |open|] == open {
        assert open[..3] == "```";
        assert t[p..p + 3] == t[p..p + |open|][..3];
        assert TicksAt(t, p);
      }
    }
  }

  /**
   * Text without any "```" has no fence, so the span fallback is never
   * reached: JSON wrapped only in prose fails with the original error even
   * when its `{...}` span would parse.
   */
  lemma ProseWrappedJsonFails<J>(parse: string -> Option<J>, text: string)
    requires NoTicks(text)
    requires parse(text).None?
    ensures ExtractJson(parse, text) == Err(OriginalError)
  {
    NoTicksNoFence(text);
  }

  /**
   * The span fallback runs only after a non-empty fence interior failed to
   * parse; with no span the original error is rethrown, and a span that does
   * not parse gives the "Failed to parse AI response as JSON" error.
   */
  lemma SpanFallbackOutcome<J>(parse: string -> Option<J>, text: string)
    requires parse(text).None?
    requires ChosenFence(text).Some? && ChosenFence(text).value.1 != ""
    requires parse(Trim(ChosenFence(text).value.1)).None?
    ensures GreedySpan(text).None? ==> ExtractJson(parse, text) == Err(OriginalError)
    ensures (GreedySpan(text).Some? && parse(GreedySpan(text).value).None?)
              ==> ExtractJson(parse, text) == Err(SpanParseFailed)
    ensures (GreedySpan(text).Some? && parse(GreedySpan(text).value).Some?)
              ==> ExtractJson(parse, text) == Ok(parse(GreedySpan(text).value).value)
  {
  }

  /** The span error can only come out of a failed fence and a failed span. */
  lemma SpanErrorNeedsFailedFence<J>(parse: string -> Option<J>, text: string)
    requires ExtractJson(parse, text) == Err(SpanParseFailed)
    ensures parse(text).None?
    ensures ChosenFence(text).Some? && ChosenFence(text).value.1 != ""
    ensures parse(Trim(ChosenFence(text).value.1)).None?
    ensures GreedySpan(text).Some? && parse(GreedySpan(text).value).None?
  {
  }

  lemma TicksInsideWrapped(t: string, s: string, e: int)
    requires |t| >= 12 + |s| && t[8..8 + |s|] == s && t[8 + |s|] == '\n'
    requires NoTicks(s)
    requires 8 <= e <= 8 + |s|
    ensures !TicksAt(t, e)
  {
    if TicksAt(t, e) && e + 3 <= 8 + |s| {
      assert t[e..e + 3] == s[e - 8..e - 5];
      assert TicksAt(s, e - 8);
    }
  }

  /**
   * Fence round trip: a serialised value wrapped as ```json ... ``` is
   * recovered, provided the interior has no "```", is not padded with
   * whitespace, and the wrapped text itself is not JSON.
   */
  lemma FenceRoundTrip<J>(parse: string -> Option<J>, s: string, v: J)
    requires s != [] && !IsSpace(s[0]) && !IsSpace(s[|s| - 1])
    requires NoTicks(s)
    requires parse(s) == Some(v)
    requires parse(JsonFenced(s)).None?
    ensures ExtractJson(parse, JsonFenced(s)) == Ok(v)
  {
    var t := JsonFenced(s);
    var n := |s|;
    assert t[..7] == JsonFenceOpen;
    assert t[7] == '\n';
    assert t[8..8 + n] == s;
    assert t[8 + n] == '\n';
    assert t[9 + n..12 + n] == "```";
    forall e | 8 <= e < 8 + n ensures !ClosesAt(t, e) {
      TicksInsideWrapped(t, s, e);
      TicksInsideWrapped(t, s, e + 1);
    }
    assert ClosesAt(t, 8 + n);
    assert FirstClose(t, 8) == Some(8 + n);
    assert FenceAt(t, JsonFenceOpen, 0) == Some(s);
    TrimUnpadded(s);
  }
}
