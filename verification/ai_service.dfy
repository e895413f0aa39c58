/**
 * The browser-side AI client (services/aiService.ts): it posts a prompt to
 * /api/ai, takes the reply text out of a Gemini- or OpenAI-shaped answer and
 * extracts JSON from it. The fetch result is an input; `parse` stands for
 * `JSON.parse`.
 */
module AiService {
  import opened Wrappers
  import opened Types
  import opened Strings
  import opened Http
  import opened Constants
  import opened AiExtract
  import AiProxy

  /**
   * The parsed body of an /api/ai answer, reduced to the two paths the client reads:
   * `candidates[0].content.parts[0].text` and `choices[0].message.content`
   * (`None` where the path is missing). `NullReply` is a body that parses to `null`,
   * on which reading `.candidates` throws.
   */
  datatype ReplyData = Reply(geminiText: Option<string>, openaiContent: Option<string>) | NullReply

  /** `a || b || ""` over the two reply paths. */
  function ReplyText(d: ReplyData): (r: string)
    requires d.Reply?
    ensures d.geminiText.Some? && d.geminiText.value != "" ==> r == d.geminiText.value
    ensures !(d.geminiText.Some? && d.geminiText.value != "") && d.openaiContent.Some? ==> r == d.openaiContent.value
    ensures d.geminiText.GetOr("") == "" && d.openaiContent.GetOr("") == "" ==> r == ""
  {
    if d.geminiText.Some? && d.geminiText.value != "" then d.geminiText.value
    else if d.openaiContent.Some? && d.openaiContent.value != "" then d.openaiContent.value
    else ""
  }

  /** What the client asks the proxy for: `{ username, prompt }`, with the prompt's ingredients. */
  datatype Prompt =
    | TopicsPrompt(level: Level, levelContext: string)
    | MaterialPrompt(level: Level, topic: string, explainLang: string)
    | EvaluationPrompt(level: Level, topic: string, modeLabel: string, explainLang: string, submission: string)

  /**
   * The body posted to /api/ai. The functions that handle the answer take
   * the fetch result `res` on its own: the request built here is what was
   * sent, and `res` is what came back for it.
   */
  datatype AiCall = AiCall(username: string, prompt: Prompt)

  function ExplainLanguage(lang: Lang): (r: string)
    ensures r == "Chinese (Simplified)" <==> lang == Cn
    ensures r == "English" <==> lang == En
  {
    assert "English"[0] != "Chinese (Simplified)"[0];
    match lang
    case Cn => "Chinese (Simplified)"
    case En => "English"
  }

  function ModeLabel(mode: Mode): (r: string)
    ensures r == "Sentence Drilling" <==> mode == Sentence
    ensures r == "Essay Writing" <==> mode == Essay
  {
    assert "Essay Writing"[0] != "Sentence Drilling"[0];
    match mode
    case Sentence => "Sentence Drilling"
    case Essay => "Essay Writing"
  }

  function TopicsCall(username: string, level: Level): (r: AiCall)
    ensures r.username == username && r.prompt.level == level
    ensures r.prompt.TopicsPrompt? && r.prompt.levelContext == LevelPrompt(level)
  {
    AiCall(username, TopicsPrompt(level, LevelPrompt(level)))
  }

  /** The level description is looked up but never placed in this prompt. */
  function MaterialCall(username: string, level: Level, topic: string, lang: Lang): (r: AiCall)
    ensures r.username == username && r.prompt.MaterialPrompt?
    ensures r.prompt.level == level && r.prompt.topic == topic
    ensures r.prompt.explainLang == "Chinese (Simplified)" <==> lang == Cn
  {
    AiCall(username, MaterialPrompt(level, topic, ExplainLanguage(lang)))
  }

  function EvaluationCall(username: string, level: Level, mode: Mode, topic: string, content: string, lang: Lang): (r: AiCall)
    ensures r.username == username && r.prompt.EvaluationPrompt?
    ensures r.prompt.level == level && r.prompt.topic == topic && r.prompt.submission == content
    ensures r.prompt.modeLabel == "Essay Writing" <==> mode == Essay
    ensures r.prompt.explainLang == "Chinese (Simplified)" <==> lang == Cn
  {
    AiCall(username, EvaluationPrompt(level, topic, ModeLabel(mode), ExplainLanguage(lang), content))
  }

  const FallbackTopics: seq<seq<string>> := [
    ["My Hobby", "A Memorable Day", "The Importance of Reading"],
    ["My Favorite Food", "Life in the Future", "Protecting our Environment"],
    ["A Hero in My Mind", "My School Life", "The Power of Friendship"],
    ["Traveling around the World", "The Benefits of Sports", "Online Learning vs Traditional Learning"]
  ]

  /** `Math.floor(roll * fallbacks.length)` for a `Math.random()` value `roll`. */
  function FallbackIndex(roll: real): (i: nat)
    requires 0.0 <= roll < 1.0
    ensures i < |FallbackTopics|
    ensures i as real <= roll * 4.0 < (i + 1) as real
  {
    (roll * 4.0).Floor
  }

  datatype Topics<+J> = Generated(parsed: J) | Fallback(titles: seq<string>)

  /**
   * `generateTopics`: any failure — a rejected fetch, an unreadable or null
   * body, no extractable JSON — yields one of the fallback lists. `res.ok` is
   * never looked at.
   */
  function GenerateTopics<J>(parse: string -> Option<J>, res: Fetched<ReplyData>, roll: real): (r: Topics<J>)
    requires 0.0 <= roll < 1.0
    ensures r.Generated? <==>
              && res.Responded? && res.body.Some? && res.body.value.Reply?
              && ExtractJson(parse, ReplyText(res.body.value)).Ok?
    ensures r.Generated? ==> r.parsed == ExtractJson(parse, ReplyText(res.body.value)).value
    ensures r.Generated? ==> parse(ReplyText(res.body.value)).Some? ==> r.parsed == parse(ReplyText(res.body.value)).value
    ensures r.Fallback? ==> r.titles in FallbackTopics && r.titles == FallbackTopics[FallbackIndex(roll)]
  {
    if res.Threw? || res.body.None? || res.body.value.NullReply? then Fallback(FallbackTopics[FallbackIndex(roll)])
    else match ExtractJson(parse, ReplyText(res.body.value))
      case Ok(v) => Generated(v)
      case Err(_) => Fallback(FallbackTopics[FallbackIndex(roll)])
  }

  /** Why `generateLearningMaterial` or `evaluateWriting` rejects. */
  datatype ServiceError =
    | FetchRejected(message: string)   // the fetch itself rejected; its error propagates
    | ServiceFailed                    // "AI Service Error": the proxy answered non-2xx
    | BodyUnreadable                   // `res.json()` rejected
    | NullBody                         // the body was `null`; reading `.candidates` throws
    | NoJson(cause: ExtractError)      // `extractJson` threw

  /** The shared tail of `generateLearningMaterial` and `evaluateWriting`. */
  function AskAi<J>(parse: string -> Option<J>, res: Fetched<ReplyData>): (r: Result<J, ServiceError>)
    ensures res.Threw? ==> r == Err(FetchRejected(res.message))
    ensures res.Responded? && !res.ok ==> r == Err(ServiceFailed)
    ensures r.Ok? <==>
              && res.Responded? && res.ok && res.body.Some? && res.body.value.Reply?
              && ExtractJson(parse, ReplyText(res.body.value)).Ok?
    ensures r.Ok? ==> r.value == ExtractJson(parse, ReplyText(res.body.value)).value
    ensures r.Err? && r.error.NoJson? ==>
              && res.Responded? && res.ok && res.body.Some? && res.body.value.Reply?
              && r.error.cause == ExtractJson(parse, ReplyText(res.body.value)).error
  {
    match res
    case Threw(m) => Err(FetchRejected(m))
    case Responded(ok, _, body) =>
      if !ok then Err(ServiceFailed)
      else if body.None? then Err(BodyUnreadable)
      else if body.value.NullReply? then Err(NullBody)
      else match ExtractJson(parse, ReplyText(body.value))
        case Ok(v) => Ok(v)
        case Err(e) => Err(NoJson(e))
  }

  /**
   * How a proxy response reaches the client: every refusal and provider error
   * arrives as a non-2xx JSON object without `candidates` or `choices`; a
   * relayed answer arrives with status 200.
   */
  function Delivered(p: AiProxy.ProxyResponse<ReplyData>): (r: Fetched<ReplyData>)
    ensures r.Responded? && r.body.Some?
    ensures r.ok <==> p.Relayed?
    ensures p.Relayed? ==> r.body.value == p.data
  {
    match p
    case Refused(status, _) => Responded(false, status, Some(Reply(None, None)))
    case ProviderError(status, _) => Responded(false, status, Some(Reply(None, None)))
    case Relayed(d) => Responded(true, 200, Some(d))
  }

  /**
   * End to end: a proxy answer other than a relayed one makes material and
   * evaluation requests fail with "AI Service Error" and makes topic
   * generation fall back, provided the empty text does not parse.
   */
  lemma ProxyFailureSurfaces<J>(parse: string -> Option<J>, p: AiProxy.ProxyResponse<ReplyData>, roll: real)
    requires !p.Relayed?
    requires parse("").None?
    requires 0.0 <= roll < 1.0
    ensures AskAi(parse, Delivered(p)) == Err(ServiceFailed)
    ensures GenerateTopics(parse, Delivered(p), roll) == Fallback(FallbackTopics[FallbackIndex(roll)])
  {
    assert ReplyText(Reply(None, None)) == "";
    NoTicksNoFence("");
  }

  /** Every fallback list holds three distinct titles. */
  lemma FallbacksAreThreeDistinct(roll: real)
    requires 0.0 <= roll < 1.0
    ensures var t := FallbackTopics[FallbackIndex(roll)];
            |t| == 3 && t[0] != t[1] && t[1] != t[2] && t[0] != t[2]
  {
  }
}
