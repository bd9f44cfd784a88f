/** The background service worker (background.js): the two provider adapters
    (`getOpenAIExplanation`, `getGeminiExplanation`), the dispatcher `getAIExplanation`,
    and the guards and defaults of the context-menu handler. Everything here is a pure
    function: the one `fetch` an adapter makes is a `FetchOutcome` parameter, and the
    handler's effects (reading storage, messages to the tab, the request) are returned
    as a trace of `Event`s. */
module Background {
  import opened Strings
  import opened JsValues
  import opened Protocol

  // ---------------------------------------------------------------- messages

  /** The phrase the error view looks for to offer the settings button. */
  const ApiKeyPhrase := "API key"
  const SettingsHint := " Please check your settings."
  const RetryHint := " Please try again later."
  const FailedToFetch := "Failed to fetch"

  const SelectTextMessage := "Please select some text to explain."
  const ConfigureKeyMessage := "Please configure your " + ApiKeyPhrase + " in the extension settings."
  const InvalidProviderMessage := "Invalid API provider selected"
  const NetworkErrorMessage := "Network error." + " Please check your internet connection."
  /** Stands for the engine's TypeError message, thrown when a property of `null` or
      `undefined` is read or `trim` is called on something that is not a string. */
  const TypeErrorMessage := "Cannot read properties of undefined"

  // ---------------------------------------------------------------- providers

  /** The two providers `getAIExplanation` accepts, by the strings it compares with. */
  datatype Provider = OpenAI | Gemini {
    function Name(): string {
      if OpenAI? then "OpenAI" else "Gemini"
    }
    /** The status each provider uses for a rejected key. */
    function InvalidKeyStatus(): nat {
      if OpenAI? then 401 else 400
    }
    function InvalidKeyMessage(): string {
      if OpenAI? then "Invalid OpenAI " + ApiKeyPhrase + "." + SettingsHint
      else "Invalid Gemini " + ApiKeyPhrase + " or request." + SettingsHint
    }
  }

  function RateLimitMessage(p: Provider): string {
    p.Name() + " rate limit exceeded." + RetryHint
  }

  function ServerErrorMessage(p: Provider): string {
    p.Name() + " server error." + RetryHint
  }

  function FormatErrorMessage(p: Provider): string {
    "Invalid response format from " + p.Name()
  }

  // ---------------------------------------------------------------- requests

  /** A decimal with one fractional digit, `tenths / 10`: the temperatures 0 and 0.7. */
  datatype Temperature = Tenths(tenths: nat)

  datatype Generation = Generation(maxTokens: nat, temperature: Temperature)

  datatype Header = Header(name: string, value: string)
  datatype Role = System | User
  datatype ChatMessage = ChatMessage(role: Role, content: string)
  datatype Part = Part(text: string)
  datatype Content = Content(parts: seq<Part>)

  /** The JSON request bodies of the two providers. */
  datatype Body =
    | ChatCompletion(model: string, messages: seq<ChatMessage>, maxTokens: nat, temperature: Temperature)
    | GenerateContent(contents: seq<Content>, temperature: Temperature, maxOutputTokens: nat)

  datatype HttpRequest = HttpRequest(url: string, verb: string, headers: seq<Header>, body: Body)

  const OpenAIEndpoint := "https://api.openai.com/v1/chat/completions"
  const OpenAIModel := "gpt-4-turbo"
  /** The Gemini endpoint up to the value of its `key` query parameter. */
  const GeminiEndpoint := "https://generativelanguage.googleapis.com/v1beta/models/gemini-pro:generateContent?key="
  const JsonContentType := Header("Content-Type", "application/json")

  const DirectSystemPrompt := "You are a precision answerer. Given any question or text, respond with ONLY the final answer. No sentences, no explanations, no reasoning, no punctuation beyond the answer itself. If it's multiple choice, return just the exact option letter or text."
  const ExplainSystemPrompt := "You are a helpful assistant that explains text clearly and concisely. Provide explanations that are easy to understand, with context and examples when helpful."
  const OpenAIDirectLead := "Return ONLY the correct answer for this. Do not explain or add extra words.\n\n"
  const GeminiDirectLead := "Return ONLY the correct answer. No sentences, no explanation, no extra words. If it's multiple choice, return just the option text or letter.\n\n"
  const ExplainLead := "Please explain this text in a clear and concise way:\n\n"

  predicate IsDirect(mode: string) {
    mode == "direct"
  }

  /** `max_tokens`/`maxOutputTokens` and `temperature`, from the response mode. */
  function GenerationFor(mode: string): Generation {
    if IsDirect(mode) then Generation(60, Tenths(0)) else Generation(500, Tenths(7))
  }

  /** The selection as it appears at the end of every user prompt. */
  function Quoted(text: string): string {
    "\"" + text + "\""
  }

  function OpenAIRequest(text: string, apiKey: string, mode: string): HttpRequest {
    var g := GenerationFor(mode);
    var system := if IsDirect(mode) then DirectSystemPrompt else ExplainSystemPrompt;
    var user := (if IsDirect(mode) then OpenAIDirectLead else ExplainLead) + Quoted(text);
    HttpRequest(
      OpenAIEndpoint, "POST",
      [JsonContentType, Header("Authorization", "Bearer " + apiKey)],
      ChatCompletion(OpenAIModel, [ChatMessage(System, system), ChatMessage(User, user)],
                     g.maxTokens, g.temperature))
  }

  function GeminiRequest(text: string, apiKey: string, mode: string): HttpRequest {
    var g := GenerationFor(mode);
    var prompt := (if IsDirect(mode) then GeminiDirectLead else ExplainLead) + Quoted(text);
    HttpRequest(
      GeminiEndpoint + apiKey, "POST",
      [JsonContentType],
      GenerateContent([Content([Part(prompt)])], g.temperature, g.maxTokens))
  }

  function BuildRequest(p: Provider, text: string, apiKey: string, mode: string): HttpRequest {
    if p.OpenAI? then OpenAIRequest(text, apiKey, mode) else GeminiRequest(text, apiKey, mode)
  }

  /** The credential a server reads from a bearer `Authorization` header (section 2.1
      of RFC 6750), if the request carries one. */
  function BearerToken(headers: seq<Header>): (r: Option<string>)
    ensures r.Some? ==> exists i :: 0 <= i < |headers| && headers[i] == Header("Authorization", "Bearer " + r.value)
  {
    if headers == [] then None
    else if headers[0].name == "Authorization" && StartsWith(headers[0].value, "Bearer ")
    then Some(headers[0].value[|"Bearer "|..])
    else BearerToken(headers[1..])
  }

  /** A query parameter's value as a server reads it (section 3.4 of RFC 3986): up to
      the `&` that starts the next parameter or the `#` that starts the fragment. */
  function ParamValue(s: string): (r: string)
    ensures |r| <= |s| && r == s[..|r|]
    ensures '&' !in r && '#' !in r
    ensures |r| < |s| ==> s[|r|] == '&' || s[|r|] == '#'
  {
    if s == [] || s[0] == '&' || s[0] == '#' then [] else [s[0]] + ParamValue(s[1..])
  }

  /** The value of the `key` query parameter of a Gemini endpoint URL. */
  function QueryKey(url: string): Option<string> {
    if StartsWith(url, GeminiEndpoint) then Some(ParamValue(url[|GeminiEndpoint|..])) else None
  }

  // ---------------------------------------------------------------- responses

  /** A JSON body as `response.json()` sees it: parsed, or the message it rejects with. */
  datatype ResponseBody = Parsed(json: Value) | Unparsable(syntaxError: string)

  /** What the one `fetch` of an adapter produces: a response, or a rejection (in a
      browser, "Failed to fetch" when the host cannot be reached). */
  datatype FetchOutcome =
    | Responded(status: nat, body: ResponseBody)
    | Rejected(reason: string)

  /** `response.ok`. */
  predicate IsOk(status: nat) {
    200 <= status <= 299
  }

  /** `await response.json().catch(() => ({}))`. */
  function ErrorData(body: ResponseBody): Value {
    match body
    case Parsed(v) => v
    case Unparsable(_) => Obj(map[])
  }

  /** `errorData.error?.message || \`API error: ${status}\``, or the TypeError that
      reading `.error` of a `null` body throws. */
  function ProviderMessage(errorData: Value, status: nat): string {
    if IsNullish(errorData) then TypeErrorMessage
    else
      var error := Get(errorData, "error");
      var message := if IsNullish(error) then Undefined else Get(error, "message");
      if Truthy(message) then ToString(message) else "API error: " + NatToString(status)
  }

  /** The message thrown for a response that is not ok. */
  function StatusError(p: Provider, status: nat, errorData: Value): string {
    if status == p.InvalidKeyStatus() then p.InvalidKeyMessage()
    else if status == 429 then RateLimitMessage(p)
    else if status == 500 then ServerErrorMessage(p)
    else ProviderMessage(errorData, status)
  }

  /** The guarded read of `choices[0].message.content` and its `trim()`. */
  function ChatContent(data: Value): Result<string, string> {
    if IsNullish(data) then Err(TypeErrorMessage)
    else
      var choices := Get(data, "choices");
      if !Truthy(choices) then Err(FormatErrorMessage(OpenAI))
      else
        var first := Index(choices, 0);
        if !Truthy(first) then Err(FormatErrorMessage(OpenAI))
        else
          var message := Get(first, "message");
          if !Truthy(message) then Err(FormatErrorMessage(OpenAI))
          else
            var content := Get(message, "content");
            if content.Str? then Ok(Trim(content.s)) else Err(TypeErrorMessage)
  }

  /** The read of `candidates[0].content.parts[0].text` and its `trim()`; only the
      path up to `content` is guarded. */
  function CandidateText(data: Value): Result<string, string> {
    if IsNullish(data) then Err(TypeErrorMessage)
    else
      var candidates := Get(data, "candidates");
      if !Truthy(candidates) then Err(FormatErrorMessage(Gemini))
      else
        var first := Index(candidates, 0);
        if !Truthy(first) then Err(FormatErrorMessage(Gemini))
        else
          var content := Get(first, "content");
          if !Truthy(content) then Err(FormatErrorMessage(Gemini))
          else
            var parts := Get(content, "parts");
            if IsNullish(parts) then Err(TypeErrorMessage)
            else
              var part := Index(parts, 0);
              if IsNullish(part) then Err(TypeErrorMessage)
              else
                var text := Get(part, "text");
                if text.Str? then Ok(Trim(text.s)) else Err(TypeErrorMessage)
  }

  /** The `try` block of an adapter: what it returns or the message it throws. */
  function Attempt(p: Provider, outcome: FetchOutcome): Result<string, string> {
    match outcome
    case Rejected(reason) => Err(reason)
    case Responded(status, body) =>
      if !IsOk(status) then Err(StatusError(p, status, ErrorData(body)))
      else match body
        case Unparsable(e) => Err(e)
        case Parsed(data) => if p.OpenAI? then ChatContent(data) else CandidateText(data)
  }

  /** The `catch` block of an adapter: a message mentioning "Failed to fetch" becomes
      the network-error message, anything else is rethrown as it is. */
  function CatchNetwork(r: Result<string, string>): Result<string, string> {
    if r.Err? && Includes(r.error, FailedToFetch) then Err(NetworkErrorMessage) else r
  }

  /** What an adapter returns or throws: its `try` block, then its `catch` block. It
      depends on nothing but what the fetch produced. */
  function AdapterResult(p: Provider, outcome: FetchOutcome): Result<string, string> {
    CatchNetwork(Attempt(p, outcome))
  }

  /** One call of the service: the request it sends, if any, and its result. */
  datatype Exchange = Exchange(request: Option<HttpRequest>, result: Result<string, string>)

  /** `getOpenAIExplanation` / `getGeminiExplanation`. */
  function Explanation(p: Provider, text: string, apiKey: string, mode: string, outcome: FetchOutcome): Exchange {
    Exchange(Some(BuildRequest(p, text, apiKey, mode)), AdapterResult(p, outcome))
  }

  /** `getAIExplanation`: dispatch on the provider string. */
  function GetAIExplanation(text: string, apiKey: string, provider: string, mode: string, outcome: FetchOutcome): Exchange {
    if provider == "openai" then Explanation(OpenAI, text, apiKey, mode, outcome)
    else if provider == "gemini" then Explanation(Gemini, text, apiKey, mode, outcome)
    else Exchange(None, Err(InvalidProviderMessage))
  }

  // ---------------------------------------------------------------- context menu

  const MenuItemId := "explainText"

  /** What the context-menu handler does, in order. */
  datatype Event = StorageRead | Sent(message: ContentMessage) | Fetched(request: HttpRequest)

  /** The message that reports a finished call to the tab. */
  function Report(result: Result<string, string>, text: string): ContentMessage {
    match result
    case Ok(explanation) => Success(explanation, text)
    case Err(message) => Error(message)
  }

  /** `chrome.contextMenus.onClicked`: the selection guard, the stored settings with
      their defaults, the key guard, then the call. */
  function OnMenuClick(menuItemId: string, selection: Option<string>, stored: StoredSettings,
                       outcome: FetchOutcome): seq<Event>
  {
    if menuItemId != MenuItemId then []
    else if selection.None? || Trim(selection.value) == "" then [Sent(Error(SelectTextMessage))]
    else if Missing(stored.apiKey) then [StorageRead, Sent(Error(ConfigureKeyMessage))]
    else
      [StorageRead] + Explain(selection.value, stored.apiKey.value, OrElse(stored.apiProvider, "openai"),
                              OrElse(stored.responseMode, "direct"), outcome)
  }

  /** The `try` block of the handler: the loading message, the call and its report. */
  function Explain(text: string, apiKey: string, provider: string, mode: string,
                   outcome: FetchOutcome): seq<Event>
  {
    var x := GetAIExplanation(text, apiKey, provider, mode, outcome);
    [Sent(Loading(text))]
    + (if x.request.Some? then [Fetched(x.request.value)] else [])
    + [Sent(Report(x.result, text))]
  }
}
