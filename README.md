# AI Text Explainer, modelled in Dafny

The extension has three scripts. `background.js` takes the text selected in a page and sends it to OpenAI or Gemini. `content.js` shows the answer in a sidebar. `popup.js` stores the API key, the provider and the response mode. This project models the logic of all three and proves what they promise.

- `strings.dfy` (module `Strings`): the JavaScript string operations the scripts rely on.
  - `trim` with ECMAScript's white space, `includes`, `startsWith`, `endsWith`.
  - The decimal rendering of integers.
  - `Option` and `Result`. A thrown error is an `Err` carrying its `message`.
- `js_values.dfy` (module `JsValues`): the values `response.json()` can produce.
  - ECMAScript truthiness.
  - Property and index access, which throws on `null` and `undefined`.
  - ToString.
- `protocol.dfy` (module `Protocol`): what the scripts exchange.
  - The `{type, ...}` messages from the background worker to the content script.
  - The three settings in `chrome.storage.sync`.
  - JavaScript's `value || fallback` on a stored setting.
- `background.dfy` (module `Background`): background.js as pure functions.
  - The two adapters: request construction, status mapping, the guarded read of the answer, and the "Failed to fetch" rewrite.
  - `getAIExplanation`.
  - The context-menu handler, which returns the trace of its effects: the storage read, the messages sent to the tab, the request.
  - The one `fetch` of an adapter is a `FetchOutcome` parameter: a response with a status and a parsed or unparsable body, or a rejection with its message.
- `background_properties.dfy` (module `BackgroundProperties`): what background.js promises, as lemmas over `Background`.
- `content.dfy` (module `Content`): the pure helpers of content.js.
  - `truncateText`, `escapeHtml`, `formatExplanation`.
  - The rule that offers the settings button.
- `content_properties.dfy` (module `ContentProperties`): lemmas about those helpers.
  - Escaping loses nothing.
  - The segments of `formatExplanation` keep every non-space character, in order, and each is trimmed, non-empty and free of newlines.
  - Where the newline split and the sentence split cut the text: at every run of newlines, and at every white-space run after `.`, `!` or `?`, and nowhere else.
  - When `formatExplanation` writes a list and when a paragraph.
  - The list that `formatExplanation` writes reads back as exactly its segments.
  - Which error messages bring the settings button.
- `sidebar.dfy` (module `Sidebar`): the sidebar lifecycle as a class `Page`.
  - Its fields are the children of `document.body` and the module-level `sidebarElement`.
  - Its methods are `removeAllSidebars` (a loop over the children), `showLoadingState`, `showExplanation`, `showError`, `removeSidebar`, the Escape listener and the message listener.
- `popup.dfy` (module `Popup`): popup.js.
  - The key checks of the submit handler and the settings a save writes, as functions.
  - `loadSettings`' choices, as functions.
  - The form as a class `SettingsForm` whose methods are the submit handler, `loadSettings`, `showMessage` and the provider `change` listeners.
- `settings_flow.dfy` (module `SettingsFlow`): the three scripts together. Settings that the popup accepts and stores carry a click of the context menu past both of the handler's settings errors, to exactly the request of the chosen provider.

Notes on how the code behaves. The model follows the code wherever it differs from a looser reading of what the extension does.

- Only status 500 gets the "server error" message. Any other 5xx status falls to the generic branch: the body's `error.message`, or "API error: <status>" (`OtherServerErrorsAreGeneric`).
- The Gemini adapter checks `candidates`, `candidates[0]` and `candidates[0].content`, and stops there. A content without `parts[0].text` fails with the engine's TypeError, not with the invalid-format message (`GeminiMissingPartsIsTypeError`). The same goes for an OpenAI `content` that is not a string.
- A successful answer is trimmed and nothing more. An answer made only of white space comes back as the empty string, not as a failure (`BlankAnswerIsEmptySuccess`).
- Only a message that contains "Failed to fetch" is rewritten to the network-error message. Every other error, including a body that does not parse as JSON, propagates with its own message.

## Model

| member | source | states |
|---|---|---|
| `BackgroundProperties.DispatchByProvider` | background.js:109-117 | `GetAIExplanation`: "openai" and "gemini" go to their own adapter and send its request. Any other provider string sends no request and fails with "Invalid API provider selected". |
| `BackgroundProperties.GenerationByMode` | background.js:129-153 | `OpenAIRequest`, `GeminiRequest`: mode "direct" asks for 60 tokens at temperature 0 and every other mode for 500 at 0.7, the same for both providers. |
| `BackgroundProperties.PromptShape` | background.js:135-150 | `OpenAIRequest`, `GeminiRequest`: the OpenAI body holds exactly two messages, system then user. In both providers the user prompt ends with the selection in double quotes. |
| `BackgroundProperties.OpenAIKeyOnlyInBearerHeader` | background.js:155-163 | `OpenAIRequest`: two OpenAI requests that differ in the key differ only in the `Authorization` header, and its bearer token is the key. |
| `Background.BearerToken` | background.js:160 | A bearer token is found only in an `Authorization` header whose value is "Bearer " followed by that token. |
| `Background.ParamValue` | background.js:204 | A query parameter's value is the longest prefix of what follows `key=` without `&` or `#`. It stops only at one of them or at the end. |
| `BackgroundProperties.GeminiKeyOnlyInQuery` | background.js:204-235 | `GeminiRequest`: two Gemini requests that differ in the key have the same headers, verb and body, and carry no bearer header. The URL always has a `key` query parameter. It reads back as exactly the key when the key has no `&` and no `#`, since the key is pasted in unencoded. |
| `BackgroundProperties.StatusMapping` | background.js:165-179 | `StatusError`: a status that is not ok is an error: 401 (OpenAI) or 400 (Gemini) gives the invalid-key message, 429 the rate-limit message, 500 the server-error message, and any other status the generic message. |
| `BackgroundProperties.ProviderMessageFallback` | background.js:174-177 | `ProviderMessage`, for every body: a non-empty string `error.message` is the message. When `error` is missing or its `message` is falsy, or the body does not parse, the message is "API error: " followed by the status. A body that is `null` makes the read of `error` throw a TypeError. |
| `BackgroundProperties.OtherServerErrorsAreGeneric` | background.js:172-177 | `StatusError`: a 5xx status other than 500 with an empty body fails with "API error: <status>", never with the server-error message. |
| `BackgroundProperties.InvalidKeyPassesCatch` | background.js:168-192 | `CatchNetwork`: the invalid-key message leaves the `catch` block unchanged. |
| `BackgroundProperties.RateLimitPassesCatch` | background.js:170-192 | `CatchNetwork`: the rate-limit message leaves the `catch` block unchanged. |
| `BackgroundProperties.ServerErrorPassesCatch` | background.js:172-192 | `CatchNetwork`: the server-error message leaves the `catch` block unchanged. |
| `BackgroundProperties.FormatErrorPassesCatch` | background.js:183-192 | `CatchNetwork`: the invalid-format message leaves the `catch` block unchanged. |
| `BackgroundProperties.TypeErrorPassesCatch` | background.js:265-271 | `CatchNetwork`: the TypeError of a failed read leaves the `catch` block unchanged. |
| `BackgroundProperties.RejectedFetch` | background.js:188-193 | `CatchNetwork`: a rejected fetch whose reason mentions "Failed to fetch" becomes the network-error message. Any other reason propagates unchanged. |
| `BackgroundProperties.NoRawFetchFailureEscapes` | background.js:188-193 | `AdapterResult`: whatever the network does, no error that leaves an adapter still mentions "Failed to fetch". |
| `BackgroundProperties.ChatContentExact` | background.js:181-187 | `ChatContent`: on an ok body, the OpenAI read succeeds exactly when `choices[0].message.content` holds a string, and then returns it trimmed. |
| `BackgroundProperties.CandidateTextExact` | background.js:255-266 | `CandidateText`: on an ok body, the Gemini read succeeds exactly when `candidates[0].content.parts[0].text` holds a string, and then returns it trimmed. |
| `BackgroundProperties.SuccessIsTrimmedAnswer` | background.js:181-187 | `AdapterResult`: an adapter succeeds exactly on an ok response whose parsed body holds the provider's answer path. It then returns that answer trimmed. |
| `BackgroundProperties.OpenAIWellFormed` | background.js:183-187 | `ChatContent`: `{choices:[{message:{content:X}}]}` yields X trimmed. |
| `BackgroundProperties.GeminiWellFormed` | background.js:257-266 | `CandidateText`: `{candidates:[{content:{parts:[{text:X}]}}]}` yields X trimmed. |
| `BackgroundProperties.OpenAIMissingPath` | background.js:183-185 | `ChatContent`: an ok body without `choices`, `choices[0]` or its `message` fails with "Invalid response format from OpenAI". |
| `BackgroundProperties.GeminiMissingPath` | background.js:257-263 | `CandidateText`: an ok body without `candidates`, `candidates[0]` or its `content` fails with "Invalid response format from Gemini". |
| `BackgroundProperties.GeminiMissingPartsIsTypeError` | background.js:255-266 | `CandidateText`: every ok body that passes the guard on `candidates`, `candidates[0]` and `content`, but has no string at `content.parts[0].text`, fails with a TypeError and not with the invalid-format message. |
| `BackgroundProperties.EmptyContentIsTypeError` | background.js:265-266 | `CandidateText`: a candidate whose content is `{}` fails with a TypeError. |
| `BackgroundProperties.BlankAnswerIsEmptySuccess` | background.js:187 | `AdapterResult`: a white-space-only answer comes back from either provider as the empty success. |
| `BackgroundProperties.MenuGuards` | background.js:15-41 | `OnMenuClick`: another menu item does nothing. A blank or missing selection sends the select-text error without reading storage. A missing key sends the configure-key error and no loading message. |
| `BackgroundProperties.MenuDefaults` | background.js:51-56 | `OnMenuClick`: a missing or empty provider acts as "openai" and a missing or empty mode as "direct". |
| `BackgroundProperties.MenuPastGuards` | background.js:43-56 | `OnMenuClick`: past the guards, the handler reads storage and calls with the stored key and the defaulted provider and mode. |
| `BackgroundProperties.ExplainShape` | background.js:43-68 | `Explain`: the call sends the loading message first, then at most one request, then exactly one report of its result. The request goes out exactly when the provider is supported. |
| `Protocol.OrElse` | background.js:54-55 | A stored setting that is missing or empty gives the fallback, and any other gives itself. |
| `JsValues.Get` | background.js:183 | A property of an object is its value when present. It is `undefined` exactly when the property is absent or undefined. `length` of an array or a string is its length. Any other property of a non-object is `undefined`. |
| `JsValues.Index` | background.js:183 | `v[i]` of an array is its element `i`, of a string the one-character string at `i`, and `undefined` past the end. It is `undefined` on a boolean or a number. |
| `JsValues.ToString` | background.js:176 | A string message converts to itself. |
| `Strings.Trim` | popup.js:22 | The result neither starts nor ends with white space and is no longer than the input. |
| `Strings.TrimIsInfix` | popup.js:22 | `Trim`: `trim` removes a white-space run from each end and nothing else. |
| `Strings.TrimUnique` | background.js:187 | `Trim`: whenever a string is white space, a trimmed middle and white space, `trim` returns exactly that middle. |
| `Strings.TrimPadding` | popup.js:22 | `Trim`: adding white space at either end does not change what `trim` returns. |
| `Strings.TrimIdempotent` | content.js:396 | `Trim`: trimming twice changes nothing more. |
| `Strings.TrimEmptyIff` | background.js:20 | `Trim`: a string trims to empty exactly when it is all white space. |
| `Strings.TrimKeepsText` | content.js:404 | `Trim`: `trim` keeps every non-space character. |
| `Strings.IncludesIff` | content.js:274 | `Includes`: `includes` holds exactly when the needle occurs at some position. |
| `Strings.IncludesMiddle` | content.js:274 | `Includes`: a string includes every piece it was built around. |
| `Strings.IncludesNeedsChar` | background.js:189 | `Includes`: a string that lacks one character of the needle does not include the needle. |
| `Strings.NatToString` | background.js:176 | The status is rendered as decimal digits, with no leading zero. |
| `Strings.ParseNatToString` | background.js:176 | `NatToString`: reading the rendered digits back gives the status: the rendering loses nothing. |
| `Content.Truncate` | content.js:423-426 | Text that fits comes back unchanged. Longer text becomes its first `maxLength` characters and "...", `maxLength + 3` characters in all. |
| `Content.EscapeHtml` | content.js:433-437 | The escaped text contains no `<` and no `>`. |
| `ContentProperties.EscapeRoundTrip` | content.js:433-437 | `EscapeHtml`: decoding the entities the escape writes gives the text back. |
| `ContentProperties.UnescapeEscapeChar` | content.js:433-437 | `EscapeHtml`: decoding undoes the escape of each single character. |
| `Content.SplitLines` | content.js:401 | Splitting on newline runs always gives at least one piece. |
| `Content.SplitSentences` | content.js:402 | Splitting on white space after `.`, `!` or `?` always gives at least one piece. |
| `Content.SplitEach` | content.js:402 | Each line is split into its own sentences, one entry per line. |
| `Content.TrimEach` | content.js:404 | Each piece is trimmed, one entry per piece. |
| `Content.NonEmpty` | content.js:405 | Only non-empty pieces of the input are kept. |
| `Content.BreakLines` | content.js:414 | Text without a newline is left as it is. |
| `ContentProperties.SplitLinesKeepsText` | content.js:401 | `SplitLines`: the pieces of the newline split hold every non-space character of the text, in order. |
| `ContentProperties.SplitSentencesKeepsText` | content.js:402 | `SplitSentences`: the pieces of the sentence split hold every non-space character of the text, in order. |
| `ContentProperties.FlattenKeepsText` | content.js:402-403 | `Flatten`: splitting each line into sentences and flattening keeps every non-space character, in order. |
| `ContentProperties.TrimEachKeepsText` | content.js:404 | `TrimEach`: trimming each piece keeps every non-space character, in order. |
| `ContentProperties.NonEmptyKeepsText` | content.js:405 | `NonEmpty`: dropping the empty pieces drops no character. |
| `ContentProperties.PipelineKeepsText` | content.js:400-405 | `Pipeline`: the whole chain keeps every non-space character of the lines, in order. |
| `ContentProperties.SegmentsKeepText` | content.js:400-405 | `Segments`: the segments hold every non-space character of the cleaned text, in order. |
| `ContentProperties.FlattenAppend` | content.js:403 | `Flatten`: flattening works block by block. |
| `ContentProperties.NonEmptyAppend` | content.js:405 | `NonEmpty`: the filter works block by block. |
| `ContentProperties.PipelineAppend` | content.js:400-405 | `Pipeline`: the segments of two blocks of lines are the segments of the first followed by those of the second. |
| `ContentProperties.SplitLinesAvoidNewline` | content.js:401 | `SplitLines`: no line contains a newline. |
| `ContentProperties.SplitLinesAvoid` | content.js:401 | `SplitLines`: no line contains a character the text lacks. |
| `ContentProperties.SplitSentencesAvoid` | content.js:402 | `SplitSentences`: no sentence contains a character its line lacks. |
| `ContentProperties.LinesCut` | content.js:401 | `SplitLines`: one step of the split. The text is its first line, a non-empty run of newlines and a rest that does not start with a newline. The first line has no newline and is non-empty when the text does not start with one. The split is that line followed by the split of the rest. |
| `ContentProperties.SplitLinesWeave` | content.js:401 | `SplitLines`: the lines, interleaved with non-empty runs of newlines, give the text back exactly. |
| `ContentProperties.FirstLineNonEmpty` | content.js:401 | `SplitLines`: a text that does not start with a newline has a non-empty first line. |
| `ContentProperties.SplitLinesInnerNonEmpty` | content.js:401 | `SplitLines`: only the first and the last line can be empty, so every run of newlines is cut whole. |
| `ContentProperties.SentencesCut` | content.js:402 | `SplitSentences`: one step of the split. The text is its first sentence, a non-empty white-space run and a rest that does not start with white space. The first sentence starts with the text's first character, ends in `.`, `!` or `?` and holds no break. The split is that sentence followed by the split of the rest. |
| `ContentProperties.SplitSentencesWeave` | content.js:402 | `SplitSentences`: the sentences, interleaved with non-empty white-space runs, give the line back exactly. |
| `ContentProperties.SplitSentencesEnds` | content.js:402 | `SplitSentences`: every sentence but the last is non-empty and ends in `.`, `!` or `?`. |
| `ContentProperties.FirstSentenceStart` | content.js:402 | `SplitSentences`: the first sentence of a non-empty line starts with the line's first character. |
| `ContentProperties.SplitSentencesMaximal` | content.js:402 | `SplitSentences`: no sentence after the first starts with white space, so every run is cut whole. |
| `ContentProperties.SplitSentencesNoBreak` | content.js:402 | `SplitSentences`: no sentence holds white space right after `.`, `!` or `?`, so the split misses no break. |
| `ContentProperties.SplitLinesNoNewline` | content.js:401 | `SplitLines`: a text without a newline is one line, itself. |
| `ContentProperties.SegmentsOfOneSentence` | content.js:400-405 | `FormatExplanation`: a non-blank trimmed text with no newline and no break after a sentence end is one segment, itself. |
| `ContentProperties.SegmentsOfTwoSentences` | content.js:400-405 | `FormatExplanation`: a trimmed text with no newline but some white space after a sentence end gives at least two segments. |
| `ContentProperties.FlattenAvoids` | content.js:402-403 | `Flatten`: flattened sentences lack whatever the lines lack. |
| `Strings.TrimAvoids` | content.js:404 | `Trim`: a trimmed piece lacks whatever the piece lacks. |
| `ContentProperties.PipelineAvoids` | content.js:400-405 | `Pipeline`: the segments lack whatever the lines lack. |
| `ContentProperties.SegmentsWellFormed` | content.js:400-405 | `Segments`: every segment is non-empty, trimmed and free of newlines. |
| `ContentProperties.SegmentsTrimmed` | content.js:404-405 | `Segments`: every segment is trimmed. |
| `ContentProperties.NonEmptyKeepsTrimmed` | content.js:405 | `NonEmpty`: the filter keeps only trimmed pieces when given trimmed pieces. |
| `ContentProperties.SegmentsAvoid` | content.js:400-405 | `Segments`: the segments lack whatever the cleaned text lacks. |
| `ContentProperties.SomeTextSomeSegment` | content.js:400-405 | `Pipeline`: lines with a non-space character give at least one segment. |
| `ContentProperties.TextGivesSegment` | content.js:396-405 | `Segments`: non-blank trimmed text gives at least one segment. |
| `ContentProperties.SeveralLinesSeveralSegments` | content.js:400-407 | `Segments`: a trimmed text with a newline gives at least two segments, so it becomes a list. |
| `ContentProperties.ParseItemsInverse` | content.js:408-410 | `Items`: the `<li>` items read back as exactly the segments, in order, when no segment contains `<`. |
| `ContentProperties.ParseListInverse` | content.js:408-410 | `Items`: the `<ul>` list reads back as exactly its items, in order. |
| `Content.Cleaned` | content.js:396 | The escaped, trimmed text is trimmed and has no `<`. |
| `ContentProperties.FormatBlankIff` | content.js:396-397 | `FormatExplanation`: `formatExplanation` returns "" exactly when the escaped text trims to empty. |
| `ContentProperties.FormatListItems` | content.js:407-411 | `FormatExplanation`: with more than one segment, the output is a list whose items read back as exactly the segments. |
| `ContentProperties.FormatParagraph` | content.js:413-414 | `FormatExplanation`: otherwise non-blank text is one line and one segment, and the output is one paragraph of the cleaned text, since it has no newline to become `<br>`. |
| `ContentProperties.FormatListOrParagraph` | content.js:396-414 | `FormatExplanation`: a non-blank cleaned text with a newline, or with white space after `.`, `!` or `?`, becomes a list whose items read back as its segments, two or more. A non-blank cleaned text with neither becomes exactly one paragraph of itself. |
| `ContentProperties.KeyErrorsShowSettings` | content.js:274-281 | `ShowsSettingsButton`: the invalid-key errors of both providers bring the settings button. |
| `ContentProperties.MissingKeyShowsSettings` | content.js:274-281 | `ShowsSettingsButton`: the configure-key error brings the settings button. |
| `ContentProperties.NoKeyNoSettings` | content.js:274 | `ShowsSettingsButton`: a message without a `k` never brings the settings button. |
| `ContentProperties.RateLimitHidesSettings` | content.js:274-281 | `ShowsSettingsButton`: the rate-limit errors do not bring the settings button. |
| `ContentProperties.ServerErrorHidesSettings` | content.js:274-281 | `ShowsSettingsButton`: the server errors do not bring the settings button. |
| `ContentProperties.FormatErrorHidesSettings` | content.js:274-281 | `ShowsSettingsButton`: the invalid-format errors do not bring the settings button. |
| `ContentProperties.NetworkErrorHidesSettings` | content.js:274-281 | `ShowsSettingsButton`: the network error does not bring the settings button. |
| `ContentProperties.SelectTextHidesSettings` | content.js:274-281 | `ShowsSettingsButton`: the select-text error does not bring the settings button. |
| `ContentProperties.InvalidProviderHidesSettings` | content.js:274-281 | `ShowsSettingsButton`: the invalid-provider error does not bring the settings button. |
| `ContentProperties.TypeErrorHidesSettings` | content.js:274-281 | `ShowsSettingsButton`: the TypeError of a failed read does not bring the settings button. |
| `Sidebar.PageElements` | content.js:314-316 | Removing the sidebars leaves no sidebar and drops exactly as many children as carried the sidebar id. |
| `Sidebar.PageElementsMembers` | content.js:315-316 | `PageElements`: the elements kept are exactly the children without the sidebar id. |
| `Sidebar.PageElementsAppend` | content.js:316 | `PageElements`: the removal works block by block, keeping the page's order. |
| `Sidebar.SidebarCountAppend` | content.js:315 | `SidebarCount`: sidebars are counted block by block. |
| `Sidebar.PageElementsIdempotent` | content.js:314-317 | `PageElements`: removing the sidebars twice removes nothing more. |
| `Sidebar.NoSidebarNothingRemoved` | content.js:315-316 | `PageElements`: a page without sidebars is left exactly as it is. |
| `Sidebar.ReplaceSidebar` | content.js:258 | `PageElements`: redrawing the sidebar in place changes neither the page's own elements nor the number of sidebars. |
| `Sidebar.OnlySidebar` | content.js:26-66 | `SidebarCount`: when there is one sidebar, any two positions that hold the sidebar id are the same. |
| `Sidebar.Page.constructor` | content.js:6 | The script starts with `sidebarElement` null and the page as it is. |
| `Sidebar.Page.RemoveAllSidebars` | content.js:314-318 | Every child with the sidebar id is removed, the rest keep their order, and `sidebarElement` becomes null. |
| `Sidebar.Page.ShowLoadingState` | content.js:23-74 | Old sidebars go first. Then one loading sidebar with the selection preview is appended, and it is the only sidebar. |
| `Sidebar.Page.ShowExplanation` | content.js:196-241 | Without a sidebar, a loading sidebar is opened first. The content part of the one sidebar then shows the answer, and the header stays as it was. |
| `Sidebar.Page.ShowError` | content.js:247-295 | Without a sidebar, old ones are removed and a bare one is appended. The one sidebar then shows the escaped message, with the settings button exactly when the message mentions "API key". |
| `Sidebar.Page.RemoveSidebar` | content.js:300-309 | With a sidebar open, every sidebar is removed. Otherwise nothing changes. |
| `Sidebar.Page.OnKeyDown` | content.js:455-459 | Escape closes an open sidebar. Any other key, or no sidebar, changes nothing. |
| `Sidebar.Page.OnMessage` | content.js:9-17 | Loading, success and error messages each reach their own view. Any other type changes nothing, and the page's own elements never change. |
| `Popup.ValidateKeyIff` | popup.js:22-43 | `ValidateKey`: a key is accepted exactly when it has a non-space character and, for OpenAI, its trimmed form starts with "sk-". The stored key is the trimmed form. |
| `Popup.ValidateKeyErrors` | popup.js:31-43 | `ValidateKey`: a blank key is rejected with "Please enter your API key." for either provider. The "sk-" error only ever comes for OpenAI. |
| `Popup.ValidateKeyPadding` | popup.js:22 | `ValidateKey`: white space around the key makes no difference to the checks. |
| `Popup.AcceptedKeyIsStable` | popup.js:22-43 | `ValidateKey`: an accepted key is non-empty and trimmed, and is accepted again as it is. |
| `Popup.LoadedKey` | popup.js:78-80 | A non-empty stored key fills the key field. Otherwise the field keeps its value. |
| `Popup.LoadedProvider` | popup.js:82-88 | The provider radio changes only for a stored "openai" or "gemini". |
| `Popup.LoadedMode` | popup.js:90-94 | Explain is selected exactly for a stored "explain". Anything else, or nothing, selects direct. |
| `Popup.SaveThenLoad` | popup.js:51-94 | `SavedSettings`, `LoadedKey`, `LoadedProvider`, `LoadedMode`: loading what a save wrote restores the same key, provider and mode, whatever the form showed before. |
| `Popup.SettingsForm.constructor` | popup.js:5-13 | The form starts with an empty key field, the save button enabled, and no message. |
| `Popup.SettingsForm.ShowMessage` | popup.js:105-115 | The message line gets the text and the class "message success" or "message error". |
| `Popup.SettingsForm.Submit` | popup.js:19-67 | A rejected key shows its error and stores nothing. An accepted key is stored trimmed with the chosen provider and mode, or the write's error is shown. Either way the button ends enabled with its label restored. |
| `Popup.SettingsForm.LoadSettings` | popup.js:70-98 | Stored settings fill the form as `LoadedKey`, `LoadedProvider` and `LoadedMode` say. A failed read changes nothing. |
| `Popup.SettingsForm.OnProviderChange` | popup.js:117-124 | Checking a provider radio sets the key field's placeholder for that provider. |
| `SettingsFlow.ProviderOf` | popup.js:23-25 | The OpenAI radio selects the OpenAI adapter and the Gemini radio the Gemini one. |
| `SettingsFlow.SavedSettingsPassGuards` | background.js:29-56 | `SavedSettings`, `OnMenuClick`: settings the popup saved pass the handler's key guard and defaults unchanged. |
| `SettingsFlow.OfferedProviderIsSupported` | background.js:109-113 | `GetAIExplanation`: every provider the popup offers reaches its adapter and sends its request. |
| `SettingsFlow.SavedSettingsReachProvider` | background.js:15-68 | `ValidateKey`, `SavedSettings`, `OnMenuClick`: with settings the popup accepted, a click reads storage, sends the loading message, makes exactly the chosen provider's request with the saved key and mode, and reports its result. |
| `SettingsFlow.SavedOpenAIKeyIsBearer` | popup.js:37-55 | `ValidateKey`, `OpenAIRequest`: an OpenAI key the popup accepts starts with "sk-" and is the bearer token of the request. |

## Left out

- The `chrome.*` APIs: creating the context menu, `storage.sync` as a service, `tabs.sendMessage`, and the script-injection retry of `sendMessageToContent` (background.js:79-99). The handler returns its effects as a trace instead. A message that cannot be delivered is not modelled.
- `fetch`, `response.json()` and the async plumbing. One `FetchOutcome` stands for the fetch and the parse of its body.
- The exact text of the engine's TypeError messages. Every TypeError carries one fixed message here.
- JSON numbers are integers, and the temperatures 0 and 0.7 are tenths, not floating point.
- JavaScript strings are UTF-16 code units. Here they are sequences of characters, so `truncateText` cuts at 200 characters rather than at 200 code units.
- The DOM templates. Each view keeps only what varies: the subtitle, the selection preview, the formatted answer and the copy text, the escaped message and whether the settings button is there. The inline stylesheet and `ensureStylesInjected`, the show animation, the icons and labels are not modelled.
- `escapeHtml` is given the definition of the HTML fragment serialisation of a text node: `&`, no-break space, `<` and `>` become entities.
- Sidebar.Page.RemoveSidebar: removes the sidebars at once. The source waits 300 ms first, and a sidebar opened within that time is removed too. Timers are not modelled.
- The copy button and its clipboard write, the settings button's `openSettings` message, and the click-outside listener, which does nothing because its body is commented out.
- Popup.SettingsForm.ShowMessage: the success class is not reset after 3 seconds. That is a timer.
- Content.SplitLines: its own contract states only that the split gives at least one piece. Where it cuts is proved separately: `LinesCut`, `SplitLinesWeave`, `SplitLinesAvoidNewline` and `SplitLinesInnerNonEmpty` together say it cuts at every run of newlines and nowhere else.
- Content.SplitSentences: its own contract states only that the split gives at least one piece. `SentencesCut`, `SplitSentencesWeave`, `SplitSentencesEnds`, `SplitSentencesMaximal` and `SplitSentencesNoBreak` together say it cuts at every white-space run after `.`, `!` or `?` and nowhere else.
- Background.QueryKey: the URL is read only up to the `&` or `#` after `key=`. Percent-decoding is not modelled, because the request never percent-encodes the key.
- Content.NonEmpty: states that the pieces kept are non-empty pieces of the input. That it keeps every non-empty piece, in order, follows from `NonEmptyKeepsText` and `NonEmptyAppend`.
- Content.BreakLines: states only that text without a newline is unchanged. That is the only input the paragraph branch gives it, by `FormatParagraph`.
- popup.html is not part of this model. Exactly one radio of each group is taken to be checked, so the submit handler always reads a provider and a mode. The key field's placeholder is a constructor parameter.
