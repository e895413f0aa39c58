/**
 * The shareable result card (components/ShareCard.tsx): score tiers with
 * their gradient and emoji, the feedback snippet, the corrections count and
 * the avatar initial.
 */
module ShareCard {
  import opened Wrappers
  import opened Types
  import opened Strings
  import WritingPhase

  datatype Tier = Gold | Silver | Bronze | Participation

  /** The tier of a score: at least 90, at least 80, at least 60, or below. */
  function TierOf(score: int): Tier {
    if score >= 90 then Gold else if score >= 80 then Silver else if score >= 60 then Bronze else Participation
  }

  function Rank(t: Tier): nat {
    match t
    case Participation => 0
    case Bronze => 1
    case Silver => 2
    case Gold => 3
  }

  /** A higher score never gets a lower tier. */
  lemma TierMonotone(x: int, y: int)
    requires x <= y
    ensures Rank(TierOf(x)) <= Rank(TierOf(y))
  {
  }

  function TierGradient(t: Tier): string {
    match t
    case Gold => "from-amber-200 to-yellow-400"
    case Silver => "from-slate-200 to-slate-400"
    case Bronze => "from-orange-200 to-orange-400"
    case Participation => "from-blue-200 to-indigo-400"
  }

  function TierEmoji(t: Tier): string {
    match t
    case Gold => "🏆"
    case Silver => "🥈"
    case Bronze => "🥉"
    case Participation => "💪"
  }

  /** `getGradient`, as the card writes it. */
  function Gradient(score: int): (g: string)
    ensures g == TierGradient(TierOf(score))
  {
    if score >= 90 then "from-amber-200 to-yellow-400"
    else if score >= 80 then "from-slate-200 to-slate-400"
    else if score >= 60 then "from-orange-200 to-orange-400"
    else "from-blue-200 to-indigo-400"
  }

  /** `getEmoji`, as the card writes it. */
  function Emoji(score: int): (e: string)
    ensures e == TierEmoji(TierOf(score))
  {
    if score >= 90 then "🏆"
    else if score >= 80 then "🥈"
    else if score >= 60 then "🥉"
    else "💪"
  }

  /** The gradient and the emoji change at exactly the same scores. */
  lemma SameThresholds(x: int, y: int)
    ensures Gradient(x) == Gradient(y) <==> Emoji(x) == Emoji(y)
  {
    if Gradient(x) == Gradient(y) {
      assert TierGradient(TierOf(x))[5] == TierGradient(TierOf(y))[5];
    }
    if Emoji(x) == Emoji(y) {
      assert TierEmoji(TierOf(x))[0] == TierEmoji(TierOf(y))[0];
    }
  }

  const SnippetLimit: nat := 120

  /**
   * The quoted feedback: its first 120 characters, with "..." appended when
   * the feedback is longer than 120 UTF-16 code units.
   */
  function Snippet(feedback: string): (r: string)
    ensures WritingPhase.Utf16Length(feedback) <= SnippetLimit ==> r == feedback
    ensures WritingPhase.Utf16Length(feedback) > SnippetLimit ==>
              && |r| >= 3 && r[|r| - 3..] == "..."
              && StartsWith(feedback, r[..|r| - 3])
              && |r| - 3 == (if |feedback| < SnippetLimit then |feedback| else SnippetLimit)
  {
    var cut := Take(feedback, SnippetLimit);
    if WritingPhase.Utf16Length(feedback) > SnippetLimit then
      var r := cut + "...";
      assert r[..|r| - 3] == cut;
      r
    else cut
  }

  /** `toUpperCase` on one character, for the Latin letters a-z. */
  function Upper(c: char): (u: char)
    ensures 'a' <= c <= 'z' ==> 'A' <= u <= 'Z' && u as int - c as int == 'A' as int - 'a' as int
    ensures !('a' <= c <= 'z') ==> u == c
  {
    if 'a' <= c <= 'z' then (c as int - 'a' as int + 'A' as int) as char else c
  }

  datatype Card = Card(gradient: string, emoji: string, snippet: string, corrections: nat, initial: char)

  /**
   * Rendering the card. `username` is `None` when the prop is `undefined`;
   * `username[0].toUpperCase()` throws for it and for the empty name.
   */
  function Render(score: int, e: EvaluationResult, username: Option<string>): (r: Result<Card, string>)
    ensures r.Ok? <==> username.Some? && username.value != ""
    ensures r.Ok? ==> r.value.corrections == |e.detailedCorrections|
    ensures r.Ok? ==> r.value.initial == Upper(username.value[0])
    ensures r.Ok? ==> r.value.gradient == TierGradient(TierOf(score)) && r.value.emoji == TierEmoji(TierOf(score))
    ensures r.Ok? ==> r.value.snippet == Snippet(e.generalFeedback)
  {
    match username
    case None => Err("TypeError")
    case Some(name) =>
      if name == "" then Err("TypeError")
      else Ok(Card(Gradient(score), Emoji(score), Snippet(e.generalFeedback), |e.detailedCorrections|, Upper(name[0])))
  }
}
