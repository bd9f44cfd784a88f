/** What background.js promises, stated over the functions of module `Background`. */
module BackgroundProperties {
  import opened Strings
  import opened JsValues
  import opened Protocol
  import opened Background

  // ---------------------------------------------------------------- fixed messages

  /** A message without a capital F cannot mention "Failed to fetch". */
  lemma NoFailedToFetch(s: string)
    requires 'F' !in s
    ensures !Includes(s, FailedToFetch)
  {
    IncludesNeedsChar(s, FailedToFetch, 0);
  }

  /** None of the adapters' own messages mentions "Failed to fetch", so the `catch`
      block passes each of them through unchanged. */
  lemma InvalidKeyPassesCatch(p: Provider)
    ensures CatchNetwork(Err(p.InvalidKeyMessage())) == Err(p.InvalidKeyMessage())
  {
    assert 'F' !in ApiKeyPhrase && 'F' !in SettingsHint;
    if p.OpenAI? {
      assert 'F' !in "Invalid OpenAI " && 'F' !in ".";
    } else {
      assert 'F' !in "Invalid Gemini " && 'F' !in " or request.";
    }
    NoFailedToFetch(p.InvalidKeyMessage());
  }

  lemma RateLimitPassesCatch(p: Provider)
    ensures CatchNetwork(Err(RateLimitMessage(p))) == Err(RateLimitMessage(p))
  {
    assert 'F' !in p.Name() && 'F' !in " rate limit exceeded." && 'F' !in RetryHint;
    NoFailedToFetch(RateLimitMessage(p));
  }

  lemma ServerErrorPassesCatch(p: Provider)
    ensures CatchNetwork(Err(ServerErrorMessage(p))) == Err(ServerErrorMessage(p))
  {
    assert 'F' !in p.Name() && 'F' !in " server error." && 'F' !in RetryHint;
    NoFailedToFetch(ServerErrorMessage(p));
  }

  lemma FormatErrorPassesCatch(p: Provider)
    ensures CatchNetwork(Err(FormatErrorMessage(p))) == Err(FormatErrorMessage(p))
  {
    assert 'F' !in p.Name() && 'F' !in "Invalid response format from ";
    NoFailedToFetch(FormatErrorMessage(p));
  }

  lemma TypeErrorPassesCatch()
    ensures CatchNetwork(Err(TypeErrorMessage)) == Err(TypeErrorMessage)
  {
    NoFailedToFetch(TypeErrorMessage);
  }

  // ---------------------------------------------------------------- dispatch

  /** "openai" and "gemini" go to their own adapter; any other provider string fails
      with the invalid-provider message and sends no request. */
  lemma DispatchByProvider(text: string, apiKey: string, provider: string, mode: string, outcome: FetchOutcome)
    ensures var x := GetAIExplanation(text, apiKey, provider, mode, outcome);
      && (provider == "openai" ==> x == Explanation(OpenAI, text, apiKey, mode, outcome))
      && (provider == "gemini" ==> x == Explanation(Gemini, text, apiKey, mode, outcome))
      && (x.request.Some? <==> provider == "openai" || provider == "gemini")
      && (provider != "openai" && provider != "gemini" ==> x.result == Err(InvalidProviderMessage))
  {
  }

  // ---------------------------------------------------------------- requests

  /** Mode "direct" asks for at most 60 tokens at temperature 0, every other mode for
      500 tokens at 0.7, and both providers ask for the same. */
  lemma GenerationByMode(text: string, k1: string, k2: string, mode: string)
    ensures var o := OpenAIRequest(text, k1, mode).body;
      var g := GeminiRequest(text, k2, mode).body;
      && o.maxTokens == g.maxOutputTokens && o.temperature == g.temperature
      && (mode == "direct" ==> o.maxTokens == 60 && o.temperature == Tenths(0))
      && (mode != "direct" ==> o.maxTokens == 500 && o.temperature == Tenths(7))
  {
  }

  /** The OpenAI body holds a system message then a user message; each provider's user
      prompt ends with the selection in double quotes. */
  lemma PromptShape(text: string, apiKey: string, mode: string)
    ensures var o := OpenAIRequest(text, apiKey, mode).body;
      && |o.messages| == 2 && o.messages[0].role == System && o.messages[1].role == User
      && EndsWith(o.messages[1].content, Quoted(text))
    ensures var g := GeminiRequest(text, apiKey, mode).body;
      && |g.contents| == 1 && |g.contents[0].parts| == 1
      && EndsWith(g.contents[0].parts[0].text, Quoted(text))
  {
  }

  /** The OpenAI key travels in the `Authorization: Bearer` header and nowhere else:
      two requests that differ only in the key differ only in that header, and the
      header yields the key back. */
  lemma OpenAIKeyOnlyInBearerHeader(text: string, k1: string, k2: string, mode: string)
    ensures var r1 := OpenAIRequest(text, k1, mode);
      var r2 := OpenAIRequest(text, k2, mode);
      && r1.url == r2.url && r1.body == r2.body && r1.verb == r2.verb
      && |r1.headers| == |r2.headers| == 2 && r1.headers[0] == r2.headers[0]
      && r1.headers[1].name == r2.headers[1].name == "Authorization"
      && BearerToken(r1.headers) == Some(k1)
  {
    var h := OpenAIRequest(text, k1, mode).headers;
    assert h[1].value == "Bearer " + k1;
    assert StartsWith(h[1].value, "Bearer ");
    assert h[1].value[|"Bearer "|..] == k1;
    assert BearerToken(h[1..]) == Some(k1);
  }

  /** The Gemini key travels in the URL and nowhere else: headers and body do not
      depend on it. The key is pasted into the URL without percent-encoding, so the
      `key` query parameter reads back as the key exactly when the key has no `&` and
      no `#`; otherwise the parameter stops at the first of them. */
  lemma GeminiKeyOnlyInQuery(text: string, k1: string, k2: string, mode: string)
    ensures var r1 := GeminiRequest(text, k1, mode);
      var r2 := GeminiRequest(text, k2, mode);
      && r1.headers == r2.headers && r1.body == r2.body && r1.verb == r2.verb
      && BearerToken(r1.headers) == None
      && QueryKey(r1.url).Some?
      && (QueryKey(r1.url) == Some(k1) <==> '&' !in k1 && '#' !in k1)
  {
    var url := GeminiEndpoint + k1;
    assert url[..|GeminiEndpoint|] == GeminiEndpoint;
    assert url[|GeminiEndpoint|..] == k1;
    var v := ParamValue(k1);
    assert QueryKey(url) == Some(v);
    if '&' !in k1 && '#' !in k1 {
      assert v == k1[..|k1|] == k1;
    }
  }

  // ---------------------------------------------------------------- statuses

  /** A response that is not ok is an error: the provider's invalid-key status (401 for
      OpenAI, 400 for Gemini), 429 and 500 have fixed messages; every other status
      throws the provider's `error.message` or "API error: <status>". */
  lemma StatusMapping(p: Provider, status: nat, body: ResponseBody)
    requires !IsOk(status)
    ensures var r := AdapterResult(p, Responded(status, body));
      && (status == p.InvalidKeyStatus() ==> r == Err(p.InvalidKeyMessage()))
      && (status == 429 ==> r == Err(RateLimitMessage(p)))
      && (status == 500 ==> r == Err(ServerErrorMessage(p)))
      && (status != p.InvalidKeyStatus() && status != 429 && status != 500
          ==> r == CatchNetwork(Err(ProviderMessage(ErrorData(body), status))))
  {
    InvalidKeyPassesCatch(p);
    RateLimitPassesCatch(p);
    ServerErrorPassesCatch(p);
  }

  /** The generic branch, for any body: a non-empty string `error.message` is the
      message, whatever else the body holds; when `error` is missing or its `message`
      is falsy, or the body does not parse, the message is "API error: " and the
      status; a body that parses to `null` makes the read of `.error` throw. */
  lemma ProviderMessageFallback(status: nat, body: ResponseBody)
    ensures body.Parsed? && body.json.Obj? && "error" in body.json.fields
            && body.json.fields["error"].Obj? && "message" in body.json.fields["error"].fields
            && body.json.fields["error"].fields["message"].Str?
            && body.json.fields["error"].fields["message"].s != ""
      ==> ProviderMessage(ErrorData(body), status) == body.json.fields["error"].fields["message"].s
    ensures body.Parsed? && !IsNullish(body.json)
            && (IsNullish(Get(body.json, "error")) || !Truthy(Get(Get(body.json, "error"), "message")))
      ==> ProviderMessage(ErrorData(body), status) == "API error: " + NatToString(status)
    ensures body.Unparsable? ==> ProviderMessage(ErrorData(body), status) == "API error: " + NatToString(status)
    ensures IsNullish(ErrorData(body)) ==> ProviderMessage(ErrorData(body), status) == TypeErrorMessage
  {
  }

  /** Only 500 gets the server-error message: any other 5xx with an empty error body
      reports its status in the generic message instead. */
  lemma OtherServerErrorsAreGeneric(p: Provider, status: nat)
    requires 500 < status <= 599
    ensures var r := AdapterResult(p, Responded(status, Parsed(Obj(map[]))));
      r == Err("API error: " + NatToString(status)) && r != Err(ServerErrorMessage(p))
  {
    var m := "API error: " + NatToString(status);
    assert m[0] == 'A';
    NoFailedToFetch(m[..11]);
    assert m == m[..11] + NatToString(status);
    assert forall i :: 0 <= i < |NatToString(status)| ==> NatToString(status)[i] != 'F';
    assert 'F' !in m;
    NoFailedToFetch(m);
    assert ServerErrorMessage(p)[0] != 'A';
  }

  // ---------------------------------------------------------------- network errors

  /** A rejected fetch: a reason mentioning "Failed to fetch" becomes the network-error
      message; any other reason propagates unchanged. */
  lemma RejectedFetch(p: Provider, reason: string)
    ensures var r := AdapterResult(p, Rejected(reason));
      && (Includes(reason, FailedToFetch) ==> r == Err(NetworkErrorMessage))
      && (!Includes(reason, FailedToFetch) ==> r == Err(reason))
  {
  }

  /** Whatever the network does, no error leaving an adapter still says "Failed to
      fetch": the rewrite is complete. */
  lemma NoRawFetchFailureEscapes(p: Provider, outcome: FetchOutcome)
    ensures var r := AdapterResult(p, outcome);
      r.Err? ==> !Includes(r.error, FailedToFetch)
  {
    assert 'F' !in "Network error." && 'F' !in " Please check your internet connection.";
    NoFailedToFetch(NetworkErrorMessage);
  }

  // ---------------------------------------------------------------- response content

  /** `choices[0].message.content` read without any guard: the string there, if every
      step of the path exists and the leaf is a string. */
  function ChatContentAt(data: Value): Option<string> {
    if IsNullish(data) then None
    else
      var choices := Get(data, "choices");
      if IsNullish(choices) then None
      else
        var first := Index(choices, 0);
        if IsNullish(first) then None
        else
          var message := Get(first, "message");
          if IsNullish(message) then None
          else
            var content := Get(message, "content");
            if content.Str? then Some(content.s) else None
  }

  /** `candidates[0].content.parts[0].text` read without any guard. */
  function CandidateTextAt(data: Value): Option<string> {
    if IsNullish(data) then None
    else
      var candidates := Get(data, "candidates");
      if IsNullish(candidates) then None
      else
        var first := Index(candidates, 0);
        if IsNullish(first) then None
        else
          var content := Get(first, "content");
          if IsNullish(content) then None
          else
            var parts := Get(content, "parts");
            if IsNullish(parts) then None
            else
              var part := Index(parts, 0);
              if IsNullish(part) then None
              else
                var text := Get(part, "text");
                if text.Str? then Some(text.s) else None
  }

  /** A value whose `name` property is not nullish is an object, hence truthy. */
  lemma NamedPropertyNeedsObject(v: Value, name: string)
    requires !IsNullish(v) && name != "length" && !IsNullish(Get(v, name))
    ensures v.Obj? && Truthy(v)
  {
  }

  /** A value whose element 0 is not nullish is truthy. */
  lemma FirstElementNeedsTruthy(v: Value)
    requires !IsNullish(v) && !IsNullish(Index(v, 0))
    ensures Truthy(v)
  {
  }

  /** On a parsed ok body, the OpenAI adapter's guarded read succeeds exactly when the
      content path holds a string, and then returns that string trimmed. */
  lemma ChatContentExact(data: Value)
    ensures ChatContent(data).Ok? <==> ChatContentAt(data).Some?
    ensures ChatContentAt(data).Some? ==> ChatContent(data) == Ok(Trim(ChatContentAt(data).value))
  {
    if ChatContentAt(data).Some? {
      var choices := Get(data, "choices");
      FirstElementNeedsTruthy(choices);
      var first := Index(choices, 0);
      NamedPropertyNeedsObject(first, "message");
      NamedPropertyNeedsObject(Get(first, "message"), "content");
    }
  }

  /** The same for Gemini's `candidates[0].content.parts[0].text`. */
  lemma CandidateTextExact(data: Value)
    ensures CandidateText(data).Ok? <==> CandidateTextAt(data).Some?
    ensures CandidateTextAt(data).Some? ==> CandidateText(data) == Ok(Trim(CandidateTextAt(data).value))
  {
    if CandidateTextAt(data).Some? {
      var candidates := Get(data, "candidates");
      FirstElementNeedsTruthy(candidates);
      var first := Index(candidates, 0);
      NamedPropertyNeedsObject(first, "content");
      NamedPropertyNeedsObject(Get(first, "content"), "parts");
    }
  }

  /** The content path a provider's answer is read from. */
  function AnswerAt(p: Provider, data: Value): Option<string> {
    if p.OpenAI? then ChatContentAt(data) else CandidateTextAt(data)
  }

  /** An adapter succeeds exactly on an ok response whose parsed body holds the answer
      path, and then returns the answer trimmed and otherwise unchanged. */
  lemma SuccessIsTrimmedAnswer(p: Provider, outcome: FetchOutcome)
    ensures var r := AdapterResult(p, outcome);
      r.Ok? <==> (outcome.Responded? && IsOk(outcome.status) && outcome.body.Parsed?
                  && AnswerAt(p, outcome.body.json).Some?)
    ensures var r := AdapterResult(p, outcome);
      r.Ok? ==> r.value == Trim(AnswerAt(p, outcome.body.json).value) && IsTrimmed(r.value)
  {
    if outcome.Responded? && IsOk(outcome.status) && outcome.body.Parsed? {
      ChatContentExact(outcome.body.json);
      CandidateTextExact(outcome.body.json);
    }
  }

  /** A well-formed OpenAI body yields its content, trimmed. */
  lemma OpenAIWellFormed(status: nat, content: string)
    requires IsOk(status)
    ensures var data := Obj(map["choices" := Arr([Obj(map["message" := Obj(map["content" := Str(content)])])])]);
      AdapterResult(OpenAI, Responded(status, Parsed(data))) == Ok(Trim(content))
  {
    var message := Obj(map["content" := Str(content)]);
    var first := Obj(map["message" := message]);
    var data := Obj(map["choices" := Arr([first])]);
    assert Get(data, "choices") == Arr([first]);
    assert Index(Arr([first]), 0) == first;
    assert Get(first, "message") == message;
    assert Get(message, "content") == Str(content);
    assert ChatContentAt(data) == Some(content);
    SuccessIsTrimmedAnswer(OpenAI, Responded(status, Parsed(data)));
  }

  /** A well-formed Gemini body yields its text, trimmed. */
  lemma GeminiWellFormed(status: nat, answer: string)
    requires IsOk(status)
    ensures var data := Obj(map["candidates" := Arr([Obj(map["content" :=
                          Obj(map["parts" := Arr([Obj(map["text" := Str(answer)])])])])])]);
      AdapterResult(Gemini, Responded(status, Parsed(data))) == Ok(Trim(answer))
  {
    var part := Obj(map["text" := Str(answer)]);
    var content := Obj(map["parts" := Arr([part])]);
    var first := Obj(map["content" := content]);
    var data := Obj(map["candidates" := Arr([first])]);
    assert Get(data, "candidates") == Arr([first]);
    assert Index(Arr([first]), 0) == first;
    assert Get(first, "content") == content;
    assert Get(content, "parts") == Arr([part]);
    assert Index(Arr([part]), 0) == part;
    assert Get(part, "text") == Str(answer);
    assert CandidateTextAt(data) == Some(answer);
    SuccessIsTrimmedAnswer(Gemini, Responded(status, Parsed(data)));
  }

  /** An ok body without `choices`, `choices[0]` or its `message` fails with the
      invalid-format message. */
  lemma OpenAIMissingPath(status: nat, data: Value)
    requires IsOk(status) && !IsNullish(data)
    requires var choices := Get(data, "choices");
      !Truthy(choices) || !Truthy(Index(choices, 0)) || !Truthy(Get(Index(choices, 0), "message"))
    ensures AdapterResult(OpenAI, Responded(status, Parsed(data)))
            == Err(FormatErrorMessage(OpenAI))
  {
    FormatErrorPassesCatch(OpenAI);
  }

  /** An ok body without `candidates`, `candidates[0]` or its `content` fails with the
      invalid-format message. */
  lemma GeminiMissingPath(status: nat, data: Value)
    requires IsOk(status) && !IsNullish(data)
    requires var candidates := Get(data, "candidates");
      !Truthy(candidates) || !Truthy(Index(candidates, 0)) || !Truthy(Get(Index(candidates, 0), "content"))
    ensures AdapterResult(Gemini, Responded(status, Parsed(data)))
            == Err(FormatErrorMessage(Gemini))
  {
    FormatErrorPassesCatch(Gemini);
  }

  /** The Gemini check stops at `content`: any ok body that passes the guard on
      `candidates`, `candidates[0]` and `content` but has no string at
      `content.parts[0].text` fails with a TypeError, not with the invalid-format
      message. */
  lemma GeminiMissingPartsIsTypeError(status: nat, data: Value)
    requires IsOk(status) && !IsNullish(data)
    requires var candidates := Get(data, "candidates");
      Truthy(candidates) && Truthy(Index(candidates, 0)) && Truthy(Get(Index(candidates, 0), "content"))
    requires CandidateTextAt(data).None?
    ensures var r := AdapterResult(Gemini, Responded(status, Parsed(data)));
      r == Err(TypeErrorMessage) && r != Err(FormatErrorMessage(Gemini))
  {
    CandidateTextExact(data);
    TypeErrorPassesCatch();
    assert TypeErrorMessage[0] != FormatErrorMessage(Gemini)[0];
  }

  /** For example a candidate whose content is `{}`. */
  lemma EmptyContentIsTypeError(status: nat)
    requires IsOk(status)
    ensures var data := Obj(map["candidates" := Arr([Obj(map["content" := Obj(map[])])])]);
      AdapterResult(Gemini, Responded(status, Parsed(data))) == Err(TypeErrorMessage)
  {
    var content: Value := Obj(map[]);
    var first := Obj(map["content" := content]);
    var data := Obj(map["candidates" := Arr([first])]);
    assert Get(data, "candidates") == Arr([first]);
    assert Index(Arr([first]), 0) == first;
    assert Get(first, "content") == content;
    assert Get(content, "parts") == Undefined;
    GeminiMissingPartsIsTypeError(status, data);
  }

  /** Nothing rejects a blank answer: an answer of white space only comes back as an
      empty success, from either provider. */
  lemma BlankAnswerIsEmptySuccess(status: nat, answer: string)
    requires IsOk(status) && AllSpace(answer)
    ensures var data := Obj(map["choices" := Arr([Obj(map["message" := Obj(map["content" := Str(answer)])])])]);
      AdapterResult(OpenAI, Responded(status, Parsed(data))) == Ok("")
    ensures var data := Obj(map["candidates" := Arr([Obj(map["content" :=
                          Obj(map["parts" := Arr([Obj(map["text" := Str(answer)])])])])])]);
      AdapterResult(Gemini, Responded(status, Parsed(data))) == Ok("")
  {
    OpenAIWellFormed(status, answer);
    GeminiWellFormed(status, answer);
    TrimEmptyIff(answer);
  }

  // ---------------------------------------------------------------- context menu

  /** Another menu item does nothing. A blank selection reports the select-text error
      without reading storage; a missing key reports the configure-key error and sends
      no loading message. */
  lemma MenuGuards(id: string, selection: Option<string>, stored: StoredSettings, outcome: FetchOutcome)
    ensures id != MenuItemId ==> OnMenuClick(id, selection, stored, outcome) == []
    ensures id == MenuItemId && (selection.None? || AllSpace(selection.value))
      ==> OnMenuClick(id, selection, stored, outcome) == [Sent(Error(SelectTextMessage))]
    ensures id == MenuItemId && selection.Some? && !AllSpace(selection.value) && Missing(stored.apiKey)
      ==> OnMenuClick(id, selection, stored, outcome) == [StorageRead, Sent(Error(ConfigureKeyMessage))]
  {
    if selection.Some? {
      TrimEmptyIff(selection.value);
    }
  }

  /** A missing or empty provider means "openai" and a missing or empty mode "direct". */
  lemma MenuDefaults(selection: Option<string>, key: Option<string>, outcome: FetchOutcome)
    ensures OnMenuClick(MenuItemId, selection, StoredSettings(key, None, None), outcome)
         == OnMenuClick(MenuItemId, selection, StoredSettings(key, Some("openai"), Some("direct")), outcome)
    ensures OnMenuClick(MenuItemId, selection, StoredSettings(key, Some(""), Some("")), outcome)
         == OnMenuClick(MenuItemId, selection, StoredSettings(key, Some("openai"), Some("direct")), outcome)
  {
    assert OrElse(None, "openai") == OrElse(Some(""), "openai") == OrElse(Some("openai"), "openai");
    assert OrElse(None, "direct") == OrElse(Some(""), "direct") == OrElse(Some("direct"), "direct");
  }

  /** Past the guards, the handler reads storage and goes on with the stored key and
      the defaulted provider and mode. */
  lemma MenuPastGuards(selection: string, stored: StoredSettings, outcome: FetchOutcome)
    requires !AllSpace(selection) && !Missing(stored.apiKey)
    ensures OnMenuClick(MenuItemId, Some(selection), stored, outcome)
         == [StorageRead] + Explain(selection, stored.apiKey.value, OrElse(stored.apiProvider, "openai"),
                                    OrElse(stored.responseMode, "direct"), outcome)
  {
    TrimEmptyIff(selection);
  }

  /** The call sends the loading message first, then at most one request, and ends with
      exactly one report of the call's result; a request goes out exactly when the
      provider is supported. */
  lemma ExplainShape(text: string, apiKey: string, provider: string, mode: string, outcome: FetchOutcome)
    ensures var trace := Explain(text, apiKey, provider, mode, outcome);
      var x := GetAIExplanation(text, apiKey, provider, mode, outcome);
      && |trace| >= 2
      && trace[0] == Sent(Loading(text))
      && trace[|trace| - 1] == Sent(Report(x.result, text))
      && (|trace| == 3 <==> provider == "openai" || provider == "gemini")
      && (x.request.Some? ==> trace[1] == Fetched(x.request.value))
  {
  }
}
