/** What the three scripts of the extension exchange: the messages the background
    worker sends to the content script, and the three settings the popup stores in
    `chrome.storage.sync` and the background worker reads back. */
module Protocol {
  import opened Strings

  /** A message to the content script, by its `type` field. A message whose `type` is
      none of "loading", "success" and "error" is `Other`. */
  datatype ContentMessage =
    | Loading(text: string)
    | Success(explanation: string, originalText: string)
    | Error(message: string)
    | Other(kind: string)

  /** The stored settings; a key that was never saved is `None`. The popup is the only
      writer and it stores strings only. */
  datatype StoredSettings = StoredSettings(
    apiKey: Option<string>,
    apiProvider: Option<string>,
    responseMode: Option<string>)

  /** JavaScript's `value || fallback` on a stored string: missing and "" are falsy. */
  function OrElse(value: Option<string>, fallback: string): (r: string)
    ensures value.Some? && value.value != "" ==> r == value.value
    ensures value.None? || value.value == "" ==> r == fallback
  {
    if value.Some? && value.value != "" then value.value else fallback
  }

  /** `!value` on a stored string. */
  predicate Missing(value: Option<string>) {
    value.None? || value.value == ""
  }
}
