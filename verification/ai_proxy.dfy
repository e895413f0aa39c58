/**
 * /api/ai (functions/api/ai.ts): the server-side proxy that picks the user's
 * AI configuration, builds one provider call and relays its JSON answer.
 * The provider call itself is the parameter `call`; provider replies are of
 * an arbitrary type `J`.
 */
module AiProxy {
  import opened Wrappers
  import opened Types
  import opened Strings
  import opened Http
  import opened KvStore

  datatype AiRequestBody = AiRequestBody(username: Field<string>, prompt: Field<string>, config: Field<UserConfig>)

  const GeminiBase: string := "https://generativelanguage.googleapis.com/v1beta/models/"
  const OpenAiEndpoint: string := "https://api.openai.com/v1/chat/completions"

  /** The one outbound request the proxy makes; both ask the provider for JSON output. */
  datatype Outbound =
    | GeminiCall(url: string, text: string, responseMimeType: string)
    | OpenAiCall(url: string, authorization: string, model: string, userContent: string, responseFormat: string)

  /** What the client receives from the proxy. */
  datatype ProxyResponse<+J> =
    | Refused(status: int, error: string)       // checks before, or a failure around, the call
    | ProviderError(status: int, details: J)    // the provider answered with a non-2xx status
    | Relayed(data: J)                          // the provider's JSON, passed through

  /** The configuration in force: a truthy override wins, else the stored profile's `config`. */
  function EffectiveConfig(req: AiRequestBody, store: Store): (r: Result<Field<UserConfig>, int>)
    ensures req.config.Present? ==> r == Ok(req.config)
    ensures !req.config.Present? && ProfileKey(req.username.value) !in store ==> r == Err(404)
    ensures (!req.config.Present? && ProfileKey(req.username.value) in store)
              ==> r == Ok(ConfigOf(store[ProfileKey(req.username.value)]))
    requires req.username.Present?
  {
    if req.config.Present? then Ok(req.config)
    else
      var pk := ProfileKey(req.username.value);
      if pk !in store then Err(404) else Ok(ConfigOf(store[pk]))
  }

  /** The request built for a configuration, or the refusal that replaces it. */
  function PlanCall(c: UserConfig, prompt: string): (r: Result<Outbound, ProxyResponse<bool>>)
    ensures r.Ok? <==> c.provider == "gemini" || c.provider == "openai"
    ensures r.Err? ==> r.error == Refused(400, "Unsupported provider")
    ensures c.provider == "gemini" ==>
              && r.value.GeminiCall?
              && r.value.text == prompt
              && r.value.url == GeminiBase + c.model + ":generateContent?key=" + c.apiKey
              && r.value.responseMimeType == "application/json"
    ensures c.provider == "openai" ==>
              && r.value.OpenAiCall?
              && r.value.url == OpenAiEndpoint
              && StartsWith(r.value.authorization, "Bearer ") && r.value.authorization[7..] == c.apiKey
              && r.value.model == c.model && r.value.userContent == prompt
              && r.value.responseFormat == "json_object"
  {
    if c.provider == "gemini" then
      Ok(GeminiCall(GeminiBase + c.model + ":generateContent?key=" + c.apiKey, prompt, "application/json"))
    else if c.provider == "openai" then
      Ok(OpenAiCall(OpenAiEndpoint, "Bearer " + c.apiKey, c.model, prompt, "json_object"))
    else Err(Refused(400, "Unsupported provider"))
  }

  /** What the proxy makes of the provider's answer; `res.json()` is awaited before `res.ok` is looked at. */
  function Relay<J>(answer: Fetched<J>): (r: ProxyResponse<J>)
    ensures r.Relayed? <==> answer.Responded? && answer.ok && answer.body.Some?
    ensures r.ProviderError? <==> answer.Responded? && !answer.ok && answer.body.Some?
    ensures r.Refused? ==> r == Refused(500, "AI request failed")
    ensures r.Relayed? ==> r.data == answer.body.value
    ensures r.ProviderError? ==> r.status == answer.status && r.details == answer.body.value
  {
    match answer
    case Threw(_) => Refused(500, "AI request failed")
    case Responded(ok, status, body) =>
      if body.None? then Refused(500, "AI request failed")
      else if !ok then ProviderError(status, body.value)
      else Relayed(body.value)
  }

  /** `onRequestPost`: validate, resolve the configuration, call the provider, relay. */
  function HandleAi<J>(req: AiRequestBody, store: Store, call: Outbound -> Fetched<J>): (r: ProxyResponse<J>)
    ensures !Truthy(req.username) || !Truthy(req.prompt) ==> r == Refused(400, "Username and prompt are required")
    ensures (Truthy(req.username) && Truthy(req.prompt) && !req.config.Present?
              && ProfileKey(req.username.value) !in store) ==> r == Refused(404, "Profile not found")
    ensures r.Relayed? || r.ProviderError? ==>
              Truthy(req.username) && Truthy(req.prompt)
              && var c := EffectiveConfig(req, store);
              && c.Ok? && c.value.Present? && c.value.value.apiKey != ""
              && (c.value.value.provider == "gemini" || c.value.value.provider == "openai")
              && r == Relay(call(PlanCall(c.value.value, req.prompt.value).value))
    ensures Truthy(req.username) && Truthy(req.prompt) ==>
              var c := EffectiveConfig(req, store);
              && (c.Ok? && (!c.value.Present? || c.value.value.apiKey == "") ==> r == Refused(400, "AI API Key not configured"))
              && (c.Ok? && c.value.Present? && c.value.value.apiKey != "" ==>
                    var plan := PlanCall(c.value.value, req.prompt.value);
                    r == if plan.Ok? then Relay(call(plan.value)) else Refused(400, "Unsupported provider"))
  {
    if !Truthy(req.username) || !Truthy(req.prompt) then Refused(400, "Username and prompt are required")
    else match EffectiveConfig(req, store)
      case Err(_) => Refused(404, "Profile not found")
      case Ok(config) =>
        if !config.Present? || config.value.apiKey == "" then Refused(400, "AI API Key not configured")
        else match PlanCall(config.value, req.prompt.value)
          case Err(_) => Refused(400, "Unsupported provider")
          case Ok(outbound) => Relay(call(outbound))
  }

  /** A request carrying its own configuration never depends on what is stored. */
  lemma OverrideIgnoresStore<J>(req: AiRequestBody, s1: Store, s2: Store, call: Outbound -> Fetched<J>)
    requires req.config.Present?
    ensures HandleAi(req, s1, call) == HandleAi(req, s2, call)
  {
  }

  /** Without an override, the stored profile's configuration is the one used, whatever else is stored. */
  lemma StoredConfigUsed<J>(req: AiRequestBody, s1: Store, s2: Store, call: Outbound -> Fetched<J>)
    requires !req.config.Present? && Truthy(req.username)
    requires var pk := ProfileKey(req.username.value); (pk in s1 <==> pk in s2) && (pk in s1 ==> ConfigOf(s1[pk]) == ConfigOf(s2[pk]))
    ensures HandleAi(req, s1, call) == HandleAi(req, s2, call)
  {
  }

  /** No configuration, or one with an empty key, is refused before any provider is contacted. */
  lemma NoKeyNoCall<J>(req: AiRequestBody, store: Store, c1: Outbound -> Fetched<J>, c2: Outbound -> Fetched<J>)
    requires Truthy(req.username) && Truthy(req.prompt)
    requires var c := EffectiveConfig(req, store); c.Ok? && (!c.value.Present? || c.value.value.apiKey == "")
    ensures HandleAi(req, store, c1) == HandleAi(req, store, c2) == Refused(400, "AI API Key not configured")
  {
  }
}
