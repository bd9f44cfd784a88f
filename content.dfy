/** The pure helpers of the content script (content.js): `truncateText`, `escapeHtml`,
    `formatExplanation` and the rule that decides when the error view offers the
    settings button. */
module Content {
  import opened Strings

  // ---------------------------------------------------------------- truncateText

  /** `truncateText`: the text itself when it fits, otherwise its first `maxLength`
      characters and "...". */
  function Truncate(text: string, maxLength: nat): (r: string)
    ensures |text| <= maxLength ==> r == text
    ensures |r| == if |text| <= maxLength then |text| else maxLength + 3
    ensures |text| > maxLength ==> r[..maxLength] == text[..maxLength] && r[maxLength..] == "..."
  {
    if |text| <= maxLength then text else text[..maxLength] + "..."
  }

  /** Both views show the selection cut at 200 characters. */
  const SelectionPreviewLength := 200

  // ---------------------------------------------------------------- escapeHtml

  /** What `innerHTML` gives back for a text node holding `c`: the HTML fragment
      serialisation escapes `&`, no-break space, `<` and `>`. */
  function EscapeChar(c: char): string {
    if c == '&' then "&amp;"
    else if c == '\U{A0}' then "&nbsp;"
    else if c == '<' then "&lt;"
    else if c == '>' then "&gt;"
    else [c]
  }

  /** `escapeHtml`: set a detached element's `textContent`, read its `innerHTML`. */
  function EscapeHtml(s: string): (r: string)
    ensures '<' !in r && '>' !in r
  {
    if s == [] then [] else EscapeChar(s[0]) + EscapeHtml(s[1..])
  }

  /** Decoding of the four entities `EscapeHtml` writes; its left inverse. */
  function Unescape(s: string): string
    decreases |s|
  {
    if s == [] then []
    else if StartsWith(s, "&amp;") then "&" + Unescape(s[5..])
    else if StartsWith(s, "&nbsp;") then "\U{A0}" + Unescape(s[6..])
    else if StartsWith(s, "&lt;") then "<" + Unescape(s[4..])
    else if StartsWith(s, "&gt;") then ">" + Unescape(s[4..])
    else [s[0]] + Unescape(s[1..])
  }

  // ---------------------------------------------------------------- formatExplanation

  /** The length of the text before the first newline. */
  function NewlineAt(s: string): (i: nat)
    ensures i <= |s|
    ensures i < |s| ==> s[i] == '\n'
    ensures '\n' !in s[..i]
  {
    if s == [] || s[0] == '\n' then 0 else 1 + NewlineAt(s[1..])
  }

  /** `s` without its leading newlines. */
  function SkipNewlines(s: string): (r: string)
    ensures |r| <= |s| && r == s[|s| - |r|..]
    ensures forall i :: 0 <= i < |s| - |r| ==> s[i] == '\n'
    ensures AllSpace(s[..|s| - |r|])
    ensures r != [] ==> r[0] != '\n'
  {
    if s != [] && s[0] == '\n' then SkipNewlines(s[1..]) else s
  }

  /** `s.split(/\n+/)`: the pieces between maximal runs of newlines. */
  function SplitLines(s: string): (r: seq<string>)
    ensures |r| >= 1
    decreases |s|
  {
    var i := NewlineAt(s);
    if i == |s| then [s] else [s[..i]] + SplitLines(SkipNewlines(s[i..]))
  }

  predicate IsSentenceEnd(c: char) {
    c == '.' || c == '!' || c == '?'
  }

  /** The first position where `/(?<=[.!?])\s+/` matches: a white-space character right
      after `.`, `!` or `?`. */
  function SentenceBreak(s: string): (i: nat)
    ensures i <= |s|
    ensures i < |s| ==> 0 < i && IsSpace(s[i]) && IsSentenceEnd(s[i - 1])
    ensures forall k :: 0 < k < i ==> !(IsSpace(s[k]) && IsSentenceEnd(s[k - 1]))
  {
    BreakFrom(s, 1)
  }

  function BreakFrom(s: string, k: nat): (i: nat)
    requires 1 <= k
    ensures k <= i <= |s| || (i == |s| && k > |s|)
    ensures i < |s| ==> 0 < i && IsSpace(s[i]) && IsSentenceEnd(s[i - 1])
    ensures forall j :: k <= j < i && j < |s| ==> !(IsSpace(s[j]) && IsSentenceEnd(s[j - 1]))
    decreases |s| - k
  {
    if k >= |s| then |s|
    else if IsSpace(s[k]) && IsSentenceEnd(s[k - 1]) then k
    else BreakFrom(s, k + 1)
  }

  /** `s` without its leading white space. */
  function SkipSpaces(s: string): (r: string)
    ensures |r| <= |s| && r == s[|s| - |r|..]
    ensures AllSpace(s[..|s| - |r|])
    ensures r != [] ==> !IsSpace(r[0])
  {
    TrimStartShape(s);
    TrimStart(s)
  }

  /** `p.split(/(?<=[.!?])\s+/)`: the pieces between white-space runs that follow a
      sentence end. */
  function SplitSentences(s: string): (r: seq<string>)
    ensures |r| >= 1
    decreases |s|
  {
    var i := SentenceBreak(s);
    if i == |s| then [s] else [s[..i]] + SplitSentences(SkipSpaces(s[i..]))
  }

  /** `.map((p) => p.split(/(?<=[.!?])\s+/))`. */
  function SplitEach(lines: seq<string>): (r: seq<seq<string>>)
    ensures |r| == |lines|
    ensures forall k :: 0 <= k < |lines| ==> r[k] == SplitSentences(lines[k])
  {
    seq(|lines|, k requires 0 <= k < |lines| => SplitSentences(lines[k]))
  }

  /** `.flat()`. */
  function Flatten(xss: seq<seq<string>>): seq<string> {
    if xss == [] then [] else xss[0] + Flatten(xss[1..])
  }

  /** `.map((p) => p.trim())`. */
  function TrimEach(xs: seq<string>): (r: seq<string>)
    ensures |r| == |xs|
    ensures forall k :: 0 <= k < |xs| ==> r[k] == Trim(xs[k])
  {
    seq(|xs|, k requires 0 <= k < |xs| => Trim(xs[k]))
  }

  /** `.filter(Boolean)` on strings: the non-empty ones, in order. */
  function NonEmpty(xs: seq<string>): (r: seq<string>)
    ensures |r| <= |xs|
    ensures forall k :: 0 <= k < |r| ==> r[k] != "" && r[k] in xs
  {
    if xs == [] then []
    else if xs[0] == "" then NonEmpty(xs[1..])
    else [xs[0]] + NonEmpty(xs[1..])
  }

  /** The chain applied to the lines of the text. */
  function Pipeline(lines: seq<string>): seq<string> {
    NonEmpty(TrimEach(Flatten(SplitEach(lines))))
  }

  /** The list items `formatExplanation` derives from the cleaned text. */
  function Segments(clean: string): seq<string> {
    Pipeline(SplitLines(clean))
  }

  const ListOpen := "<ul class=\"ai-explainer-list\">"
  const ListClose := "</ul>"

  /** `.map((item) => \`<li>${item}</li>\`).join("")`. */
  function Items(xs: seq<string>): string {
    if xs == [] then "" else "<li>" + xs[0] + "</li>" + Items(xs[1..])
  }

  /** `clean.replace(/\n/g, "<br>")`. */
  function BreakLines(s: string): (r: string)
    ensures '\n' !in s ==> r == s
  {
    if s == [] then [] else (if s[0] == '\n' then "<br>" else [s[0]]) + BreakLines(s[1..])
  }

  /** The text `formatExplanation` works on: escaped, then trimmed. */
  function Cleaned(text: string): (clean: string)
    ensures IsTrimmed(clean) && '<' !in clean
  {
    var escaped := EscapeHtml(text);
    TrimAvoids(escaped, '<');
    Trim(escaped)
  }

  /** `formatExplanation`: nothing for blank text, a list for several segments, a
      paragraph otherwise. */
  function FormatExplanation(text: string): string {
    var clean := Cleaned(text);
    if clean == "" then ""
    else
      var parts := Segments(clean);
      if |parts| > 1 then ListOpen + Items(parts) + ListClose
      else "<p>" + BreakLines(clean) + "</p>"
  }

  // ---------------------------------------------------------------- showError

  /** The error view offers "Open Settings" when the message mentions the API key. */
  predicate ShowsSettingsButton(message: string) {
    Includes(message, "API key")
  }
}
