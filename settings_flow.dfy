/** The settings round trip across the three scripts: what the popup stores is what
    the context-menu handler of the background worker reads, and whatever the popup
    accepts carries the click past both of the handler's settings errors. */
module SettingsFlow {
  import opened Strings
  import opened Protocol
  import opened Background
  import opened Popup
  import opened BackgroundProperties

  /** The adapter a provider radio button selects. */
  function ProviderOf(choice: ProviderChoice): (p: Provider)
    ensures p.OpenAI? <==> choice.OpenAIRadio?
  {
    if choice.OpenAIRadio? then OpenAI else Gemini
  }

  /** Saved settings pass the handler's guards and defaults unchanged. */
  lemma SavedSettingsPassGuards(key: string, choice: ProviderChoice, mode: ModeChoice,
                                selection: string, outcome: FetchOutcome)
    requires key != "" && !AllSpace(selection)
    ensures OnMenuClick(MenuItemId, Some(selection), SavedSettings(key, choice, mode), outcome)
      == [StorageRead] + Explain(selection, key, choice.Value(), mode.Value(), outcome)
  {
    var stored := SavedSettings(key, choice, mode);
    MenuPastGuards(selection, stored, outcome);
    assert OrElse(stored.apiProvider, "openai") == choice.Value();
    assert OrElse(stored.responseMode, "direct") == mode.Value();
  }

  /** A provider the popup offers always reaches its adapter. */
  lemma OfferedProviderIsSupported(text: string, key: string, choice: ProviderChoice, mode: string,
                                   outcome: FetchOutcome)
    ensures var p := ProviderOf(choice);
      Explain(text, key, choice.Value(), mode, outcome)
      == [Sent(Loading(text)), Fetched(BuildRequest(p, text, key, mode)),
          Sent(Report(AdapterResult(p, outcome), text))]
  {
  }

  /** With settings saved by the popup and a non-blank selection, a click reads
      storage, sends the loading message, makes exactly the request of the chosen
      provider with the saved key and mode, and reports that request's result:
      neither the configure-key error nor the invalid-provider error can occur. */
  lemma SavedSettingsReachProvider(rawKey: string, choice: ProviderChoice, mode: ModeChoice,
                                   selection: string, outcome: FetchOutcome)
    requires ValidateKey(rawKey, choice.Value()).Ok? && !AllSpace(selection)
    ensures var key := ValidateKey(rawKey, choice.Value()).value;
      var p := ProviderOf(choice);
      OnMenuClick(MenuItemId, Some(selection), SavedSettings(key, choice, mode), outcome)
      == [StorageRead, Sent(Loading(selection)), Fetched(BuildRequest(p, selection, key, mode.Value())),
          Sent(Report(AdapterResult(p, outcome), selection))]
  {
    var key := ValidateKey(rawKey, choice.Value()).value;
    ValidateKeyIff(rawKey, choice.Value());
    TrimEmptyIff(rawKey);
    SavedSettingsPassGuards(key, choice, mode, selection, outcome);
    OfferedProviderIsSupported(selection, key, choice, mode.Value(), outcome);
  }

  /** An OpenAI key the popup accepts goes out as the bearer token, and it starts
      with "sk-". */
  lemma SavedOpenAIKeyIsBearer(rawKey: string, selection: string, mode: ModeChoice)
    requires ValidateKey(rawKey, "openai").Ok?
    ensures var key := ValidateKey(rawKey, "openai").value;
      BearerToken(OpenAIRequest(selection, key, mode.Value()).headers) == Some(key)
      && StartsWith(key, Popup.OpenAIKeyPrefix)
  {
    var key := ValidateKey(rawKey, "openai").value;
    OpenAIKeyOnlyInBearerHeader(selection, key, key, mode.Value());
  }
}
