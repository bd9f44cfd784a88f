/** The settings popup (popup.js): the checks the submit handler makes on the key,
    the settings it stores, and how `loadSettings` puts stored settings back into
    the form. */
module Popup {
  import opened Strings
  import opened Protocol

  const EmptyKeyMessage := "Please enter your API key."
  const OpenAIKeyPrefix := "sk-"
  const KeyFormatMessage := "OpenAI API keys typically start with \"sk-\". Please check your key."
  const SavedMessage := "Settings saved successfully! You can now close this popup."
  const SaveErrorLead := "Error saving settings: "
  const SaveLabel := "Save Settings"
  const SavingLabel := "Saving..."
  const OpenAIPlaceholder := "Enter your OpenAI API key (starts with sk-)"
  const GeminiPlaceholder := "Enter your Google Gemini API key"

  /** The provider radio buttons, by the value each submits. */
  datatype ProviderChoice = OpenAIRadio | GeminiRadio {
    function Value(): string {
      if OpenAIRadio? then "openai" else "gemini"
    }
  }

  /** The response-mode radio buttons, by the value each submits. */
  datatype ModeChoice = ExplainRadio | DirectRadio {
    function Value(): string {
      if ExplainRadio? then "explain" else "direct"
    }
  }

  /** The look `showMessage` gives the message line: "message success" or
      "message error". */
  datatype MessageKind = SuccessKind | ErrorKind {
    function ClassName(): string {
      if SuccessKind? then "message success" else "message error"
    }
  }

  // ---------------------------------------------------------------- validation

  /** The submit handler's checks, in order: the trimmed key must not be empty, and
      with OpenAI chosen it must start with "sk-". The result is the key to store. */
  function ValidateKey(rawKey: string, provider: string): Result<string, string> {
    var key := Trim(rawKey);
    if key == "" then Err(EmptyKeyMessage)
    else if provider == "openai" && !StartsWith(key, OpenAIKeyPrefix) then Err(KeyFormatMessage)
    else Ok(key)
  }

  /** A key is accepted exactly when it has a non-space character and, for OpenAI,
      its trimmed form starts with "sk-"; an accepted key is stored trimmed. */
  lemma ValidateKeyIff(rawKey: string, provider: string)
    ensures ValidateKey(rawKey, provider).Ok? <==>
      !AllSpace(rawKey) && (provider == "openai" ==> StartsWith(Trim(rawKey), OpenAIKeyPrefix))
    ensures ValidateKey(rawKey, provider).Ok? ==> ValidateKey(rawKey, provider).value == Trim(rawKey)
  {
    TrimEmptyIff(rawKey);
  }

  /** Which check rejects a key: the empty-key check for blank input whatever the
      provider, the prefix check only for OpenAI. */
  lemma ValidateKeyErrors(rawKey: string, provider: string)
    ensures AllSpace(rawKey) ==> ValidateKey(rawKey, provider) == Err(EmptyKeyMessage)
    ensures ValidateKey(rawKey, provider) == Err(KeyFormatMessage) ==> provider == "openai"
  {
    TrimEmptyIff(rawKey);
  }

  /** White space around the key makes no difference, and the stored key is
      non-empty, trimmed and accepted again as it is. */
  lemma ValidateKeyPadding(pre: string, rawKey: string, post: string, provider: string)
    requires AllSpace(pre) && AllSpace(post)
    ensures ValidateKey(pre + rawKey + post, provider) == ValidateKey(rawKey, provider)
  {
    TrimPadding(pre, rawKey, post);
  }

  lemma AcceptedKeyIsStable(rawKey: string, provider: string)
    requires ValidateKey(rawKey, provider).Ok?
    ensures var key := ValidateKey(rawKey, provider).value;
      key != "" && IsTrimmed(key) && ValidateKey(key, provider) == Ok(key)
  {
    var key := Trim(rawKey);
    TrimIdempotent(rawKey);
    assert Trim(key) == key;
  }

  /** What a successful save writes to storage. */
  function SavedSettings(key: string, provider: ProviderChoice, mode: ModeChoice): StoredSettings {
    StoredSettings(Some(key), Some(provider.Value()), Some(mode.Value()))
  }

  // ---------------------------------------------------------------- loading

  /** The key field after loading: the stored key when it is truthy. */
  function LoadedKey(current: string, stored: Option<string>): (r: string)
    ensures stored.Some? && stored.value != "" ==> r == stored.value
    ensures stored.None? || stored.value == "" ==> r == current
  {
    if stored.Some? && stored.value != "" then stored.value else current
  }

  /** The provider radio after loading: set only for "openai" and "gemini". */
  function LoadedProvider(current: ProviderChoice, stored: Option<string>): (r: ProviderChoice)
    ensures stored.Some? && (stored.value == "openai" || stored.value == "gemini") ==> r.Value() == stored.value
    ensures stored.None? || (stored.value != "openai" && stored.value != "gemini") ==> r == current
  {
    if stored == Some("openai") then OpenAIRadio
    else if stored == Some("gemini") then GeminiRadio
    else current
  }

  /** The mode radio after loading: explain only for a stored "explain". */
  function LoadedMode(stored: Option<string>): (r: ModeChoice)
    ensures r.ExplainRadio? <==> stored == Some("explain")
  {
    if stored == Some("explain") then ExplainRadio else DirectRadio
  }

  /** Loading what a save wrote puts the same choices back, whatever the form
      showed before. */
  lemma SaveThenLoad(key: string, provider: ProviderChoice, mode: ModeChoice,
                     currentKey: string, currentProvider: ProviderChoice)
    requires key != ""
    ensures var s := SavedSettings(key, provider, mode);
      LoadedKey(currentKey, s.apiKey) == key
      && LoadedProvider(currentProvider, s.apiProvider) == provider
      && LoadedMode(s.responseMode) == mode
  {
  }

  // ---------------------------------------------------------------- the form

  class SettingsForm {
    /** The API key text field. */
    var keyInput: string
    /** The checked provider and mode radio buttons. */
    var provider: ProviderChoice
    var mode: ModeChoice
    /** The save button. */
    var saveDisabled: bool
    var saveLabel: string
    /** The message line and its class. */
    var messageText: string
    var messageClass: string
    /** The key field's placeholder text. */
    var placeholder: string
    /** `chrome.storage.sync`, as far as these three settings go. */
    var storage: StoredSettings

    constructor (stored: StoredSettings, provider0: ProviderChoice, mode0: ModeChoice, placeholder0: string)
      ensures keyInput == "" && provider == provider0 && mode == mode0 && placeholder == placeholder0
      ensures !saveDisabled && saveLabel == SaveLabel && messageText == "" && messageClass == "message"
      ensures storage == stored
    {
      placeholder := placeholder0;
      keyInput := "";
      provider := provider0;
      mode := mode0;
      saveDisabled := false;
      saveLabel := SaveLabel;
      messageText := "";
      messageClass := "message";
      storage := stored;
    }

    /** `showMessage`. */
    method ShowMessage(text: string, kind: MessageKind)
      modifies this
      ensures messageText == text && messageClass == kind.ClassName()
      ensures keyInput == old(keyInput) && provider == old(provider) && mode == old(mode)
      ensures saveDisabled == old(saveDisabled) && saveLabel == old(saveLabel) && storage == old(storage)
      ensures placeholder == old(placeholder)
    {
      messageText := text;
      messageClass := kind.ClassName();
    }

    /** The submit handler. `writeFailure` is the message of the error the storage
        write throws, if it throws. */
    method Submit(writeFailure: Option<string>)
      modifies this
      ensures keyInput == old(keyInput) && provider == old(provider) && mode == old(mode)
      ensures placeholder == old(placeholder)
      ensures ValidateKey(old(keyInput), old(provider).Value()).Err? ==>
        storage == old(storage) && saveDisabled == old(saveDisabled) && saveLabel == old(saveLabel)
        && messageText == ValidateKey(old(keyInput), old(provider).Value()).error
        && messageClass == ErrorKind.ClassName()
      ensures ValidateKey(old(keyInput), old(provider).Value()).Ok? ==>
        !saveDisabled && saveLabel == SaveLabel
      ensures ValidateKey(old(keyInput), old(provider).Value()).Ok? && writeFailure.None? ==>
        storage == SavedSettings(ValidateKey(old(keyInput), old(provider).Value()).value, provider, mode)
        && messageText == SavedMessage && messageClass == SuccessKind.ClassName()
      ensures ValidateKey(old(keyInput), old(provider).Value()).Ok? && writeFailure.Some? ==>
        storage == old(storage)
        && messageText == SaveErrorLead + writeFailure.value && messageClass == ErrorKind.ClassName()
    {
      var v := ValidateKey(keyInput, provider.Value());
      if v.Err? {
        ShowMessage(v.error, ErrorKind);
        return;
      }
      saveDisabled := true;
      saveLabel := SavingLabel;
      if writeFailure.None? {
        storage := SavedSettings(v.value, provider, mode);
        ShowMessage(SavedMessage, SuccessKind);
      } else {
        ShowMessage(SaveErrorLead + writeFailure.value, ErrorKind);
      }
      saveDisabled := false;
      saveLabel := SaveLabel;
    }

    /** `loadSettings`. `read` is what the storage read returns, `None` when it
        throws, in which case the error is only logged. */
    method LoadSettings(read: Option<StoredSettings>)
      modifies this
      ensures read.None? ==> keyInput == old(keyInput) && provider == old(provider) && mode == old(mode)
      ensures read.Some? ==>
        keyInput == LoadedKey(old(keyInput), read.value.apiKey)
        && provider == LoadedProvider(old(provider), read.value.apiProvider)
        && mode == LoadedMode(read.value.responseMode)
      ensures saveDisabled == old(saveDisabled) && saveLabel == old(saveLabel)
      ensures messageText == old(messageText) && messageClass == old(messageClass) && storage == old(storage)
      ensures placeholder == old(placeholder)
    {
      if read.Some? {
        var data := read.value;
        if data.apiKey.Some? && data.apiKey.value != "" {
          keyInput := data.apiKey.value;
        }
        if data.apiProvider.Some? && data.apiProvider.value != "" {
          if data.apiProvider.value == "openai" {
            provider := OpenAIRadio;
          } else if data.apiProvider.value == "gemini" {
            provider := GeminiRadio;
          }
        }
        if data.responseMode == Some("explain") {
          mode := ExplainRadio;
        } else {
          mode := DirectRadio;
        }
      }
    }

    /** The `change` listeners of the provider radios: the user checks a radio and
        the key field's placeholder names that provider. Radios checked by
        `loadSettings` fire no `change` event, so loading leaves the placeholder
        alone. */
    method OnProviderChange(choice: ProviderChoice)
      modifies this
      ensures provider == choice
      ensures placeholder == (if choice.OpenAIRadio? then OpenAIPlaceholder else GeminiPlaceholder)
      ensures keyInput == old(keyInput) && mode == old(mode) && storage == old(storage)
      ensures saveDisabled == old(saveDisabled) && saveLabel == old(saveLabel)
      ensures messageText == old(messageText) && messageClass == old(messageClass)
    {
      provider := choice;
      if choice.OpenAIRadio? {
        placeholder := OpenAIPlaceholder;
      } else {
        placeholder := GeminiPlaceholder;
      }
    }
  }
}
