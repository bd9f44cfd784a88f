/** What content.js promises about its text helpers, stated over module `Content`. */
module ContentProperties {
  import opened Strings
  import opened Content
  import Background

  // ---------------------------------------------------------------- escapeHtml

  lemma UnescapeAmp(e: string)
    ensures Unescape("&amp;" + e) == "&" + Unescape(e)
  {
    StartsWithAppend("&amp;", e);
  }

  lemma UnescapeNbsp(e: string)
    ensures Unescape("&nbsp;" + e) == "\U{A0}" + Unescape(e)
  {
    var s := "&nbsp;" + e;
    StartsWithMismatch(s, "&amp;", 1);
    StartsWithAppend("&nbsp;", e);
  }

  lemma UnescapeLt(e: string)
    ensures Unescape("&lt;" + e) == "<" + Unescape(e)
  {
    var s := "&lt;" + e;
    StartsWithMismatch(s, "&amp;", 1);
    StartsWithMismatch(s, "&nbsp;", 1);
    StartsWithAppend("&lt;", e);
  }

  lemma UnescapeGt(e: string)
    ensures Unescape("&gt;" + e) == ">" + Unescape(e)
  {
    var s := "&gt;" + e;
    StartsWithMismatch(s, "&amp;", 1);
    StartsWithMismatch(s, "&nbsp;", 1);
    StartsWithMismatch(s, "&lt;", 1);
    StartsWithAppend("&gt;", e);
  }

  lemma UnescapePlain(c: char, e: string)
    requires c != '&'
    ensures Unescape([c] + e) == [c] + Unescape(e)
  {
    var s := [c] + e;
    StartsWithMismatch(s, "&amp;", 0);
    StartsWithMismatch(s, "&nbsp;", 0);
    StartsWithMismatch(s, "&lt;", 0);
    StartsWithMismatch(s, "&gt;", 0);
    StartsWithAppend([c], e);
  }

  /** Decoding undoes the escape of one character. */
  lemma UnescapeEscapeChar(c: char, e: string)
    ensures Unescape(EscapeChar(c) + e) == [c] + Unescape(e)
  {
    if c == '&' {
      UnescapeAmp(e);
    } else if c == '\U{A0}' {
      UnescapeNbsp(e);
    } else if c == '<' {
      UnescapeLt(e);
    } else if c == '>' {
      UnescapeGt(e);
    } else {
      UnescapePlain(c, e);
    }
  }

  /** Escaping loses nothing: decoding the four entities gives the text back. */
  lemma {:induction false} EscapeRoundTrip(s: string)
    ensures Unescape(EscapeHtml(s)) == s
  {
    if s != [] {
      var c, rest := s[0], s[1..];
      var e := EscapeHtml(rest);
      assert EscapeHtml(s) == EscapeChar(c) + e;
      UnescapeEscapeChar(c, e);
      EscapeRoundTrip(rest);
      assert s == [c] + rest;
    }
  }

  // ---------------------------------------------------------------- settings button

  /** The settings button comes with the key errors of both providers... */
  lemma KeyErrorsShowSettings(p: Background.Provider)
    ensures ShowsSettingsButton(p.InvalidKeyMessage())
  {
    var key := Background.ApiKeyPhrase;
    assert key == "API key";
    if p.OpenAI? {
      Associative("Invalid OpenAI " + key, ".", Background.SettingsHint);
      IncludesMiddle("Invalid OpenAI ", key, "." + Background.SettingsHint);
    } else {
      Associative("Invalid Gemini " + key, " or request.", Background.SettingsHint);
      IncludesMiddle("Invalid Gemini ", key, " or request." + Background.SettingsHint);
    }
  }

  /** ... and with the configure-key error. */
  lemma MissingKeyShowsSettings()
    ensures ShowsSettingsButton(Background.ConfigureKeyMessage)
  {
    var key := Background.ApiKeyPhrase;
    assert key == "API key";
    IncludesMiddle("Please configure your ", key, " in the extension settings.");
  }

  /** A message without a `k` cannot mention the API key. */
  lemma NoKeyNoSettings(message: string)
    requires 'k' !in message
    ensures !ShowsSettingsButton(message)
  {
    IncludesNeedsChar(message, "API key", 4);
  }

  /** None of the provider's other errors brings the settings button: not the
      rate-limit error... */
  lemma RateLimitHidesSettings(p: Background.Provider)
    ensures !ShowsSettingsButton(Background.RateLimitMessage(p))
  {
    assert 'k' !in p.Name();
    assert 'k' !in " rate limit exceeded.";
    assert 'k' !in Background.RetryHint;
    NoKeyNoSettings(Background.RateLimitMessage(p));
  }

  /** ... nor the server error... */
  lemma ServerErrorHidesSettings(p: Background.Provider)
    ensures !ShowsSettingsButton(Background.ServerErrorMessage(p))
  {
    assert 'k' !in p.Name();
    assert 'k' !in " server error.";
    assert 'k' !in Background.RetryHint;
    NoKeyNoSettings(Background.ServerErrorMessage(p));
  }

  /** ... nor the format error. */
  lemma FormatErrorHidesSettings(p: Background.Provider)
    ensures !ShowsSettingsButton(Background.FormatErrorMessage(p))
  {
    assert 'k' !in p.Name();
    assert 'k' !in "Invalid response format from ";
    NoKeyNoSettings(Background.FormatErrorMessage(p));
  }

  /** Neither does the network error... */
  lemma NetworkErrorHidesSettings()
    ensures !ShowsSettingsButton(Background.NetworkErrorMessage)
  {
    IncludesNeedsChar(Background.NetworkErrorMessage, "API key", 0);
  }

  /** ... nor the selection error... */
  lemma SelectTextHidesSettings()
    ensures !ShowsSettingsButton(Background.SelectTextMessage)
  {
    NoKeyNoSettings(Background.SelectTextMessage);
  }

  /** ... nor the provider-choice error... */
  lemma InvalidProviderHidesSettings()
    ensures !ShowsSettingsButton(Background.InvalidProviderMessage)
  {
    NoKeyNoSettings(Background.InvalidProviderMessage);
  }

  /** ... nor the message of a failed read on the response. */
  lemma TypeErrorHidesSettings()
    ensures !ShowsSettingsButton(Background.TypeErrorMessage)
  {
    NoKeyNoSettings(Background.TypeErrorMessage);
  }

  // ---------------------------------------------------------------- segments keep the text

  function Concat(xs: seq<string>): string {
    if xs == [] then "" else xs[0] + Concat(xs[1..])
  }

  lemma {:induction false} ConcatAppend(a: seq<string>, b: seq<string>)
    ensures Concat(a + b) == Concat(a) + Concat(b)
  {
    if a == [] {
      assert a + b == b;
    } else {
      assert (a + b)[1..] == a[1..] + b;
      ConcatAppend(a[1..], b);
    }
  }

  lemma {:induction false} FlattenAppend(a: seq<seq<string>>, b: seq<seq<string>>)
    ensures Flatten(a + b) == Flatten(a) + Flatten(b)
  {
    if a == [] {
      assert a + b == b;
    } else {
      assert (a + b)[1..] == a[1..] + b;
      FlattenAppend(a[1..], b);
    }
  }

  lemma {:induction false} NonEmptyAppend(a: seq<string>, b: seq<string>)
    ensures NonEmpty(a + b) == NonEmpty(a) + NonEmpty(b)
  {
    if a == [] {
      assert a + b == b;
    } else {
      assert (a + b)[1..] == a[1..] + b;
      NonEmptyAppend(a[1..], b);
    }
  }

  /** The chain works line by line: the segments of two blocks of lines are the
      segments of the first followed by those of the second. */
  lemma PipelineAppend(a: seq<string>, b: seq<string>)
    ensures Pipeline(a + b) == Pipeline(a) + Pipeline(b)
  {
    SplitEachAppend(a, b);
    FlattenAppend(SplitEach(a), SplitEach(b));
    var fa, fb := Flatten(SplitEach(a)), Flatten(SplitEach(b));
    TrimEachAppend(fa, fb);
    NonEmptyAppend(TrimEach(fa), TrimEach(fb));
  }

  lemma SplitEachAppend(a: seq<string>, b: seq<string>)
    ensures SplitEach(a + b) == SplitEach(a) + SplitEach(b)
  {
    var l, r := SplitEach(a + b), SplitEach(a) + SplitEach(b);
    forall k | 0 <= k < |l| ensures l[k] == r[k] {
      if k < |a| {
        assert (a + b)[k] == a[k] && r[k] == SplitEach(a)[k];
      } else {
        assert (a + b)[k] == b[k - |a|] && r[k] == SplitEach(b)[k - |a|];
      }
    }
  }

  lemma TrimEachAppend(a: seq<string>, b: seq<string>)
    ensures TrimEach(a + b) == TrimEach(a) + TrimEach(b)
  {
    var l, r := TrimEach(a + b), TrimEach(a) + TrimEach(b);
    forall k | 0 <= k < |l| ensures l[k] == r[k] {
      if k >= |a| {
        assert (a + b)[k] == b[k - |a|];
      }
    }
  }

  lemma ConcatOne(x: string)
    ensures Concat([x]) == x
  {
    assert [x][1..] == [];
  }

  /** One step of a split: the piece before a run of white space, then the pieces
      of what follows the run, hold the non-space characters of the whole. */
  lemma SplitStepKeepsText(a: string, gap: string, rest: string, pieces: seq<string>)
    requires AllSpace(gap)
    requires Squeeze(Concat(pieces)) == Squeeze(rest)
    ensures Squeeze(Concat([a] + pieces)) == Squeeze(a + gap + rest)
  {
    assert ([a] + pieces)[0] == a;
    assert ([a] + pieces)[1..] == pieces;
    SqueezeConcat(a, Concat(pieces));
    SqueezeConcat(a + gap, rest);
    SqueezeConcat(a, gap);
    SqueezeAllSpace(gap);
  }

  /** `s` is its text before `i`, a gap, and the suffix `rest` of `s[i..]`. */
  lemma SplitAround(s: string, i: nat, rest: string)
    requires i <= |s| && |rest| <= |s| - i && rest == s[i..][|s| - i - |rest|..]
    ensures s == s[..i] + s[i..][..|s| - i - |rest|] + rest
  {
    var t := s[i..];
    assert t == t[..|t| - |rest|] + rest;
    assert s == s[..i] + t;
  }

  lemma {:induction false} SplitLinesKeepsText(s: string)
    ensures Squeeze(Concat(SplitLines(s))) == Squeeze(s)
    decreases |s|
  {
    if NewlineAt(s) == |s| {
      assert SplitLines(s) == [s];
      ConcatOne(s);
    } else {
      var first, gap, rest := LinesCut(s);
      SplitLinesKeepsText(rest);
      SplitStepKeepsText(first, gap, rest, SplitLines(rest));
    }
  }

  lemma {:induction false} SplitSentencesKeepsText(s: string)
    ensures Squeeze(Concat(SplitSentences(s))) == Squeeze(s)
    decreases |s|
  {
    if SentenceBreak(s) == |s| {
      assert SplitSentences(s) == [s];
      ConcatOne(s);
    } else {
      var first, gap, rest := SentencesCut(s);
      SplitSentencesKeepsText(rest);
      SplitStepKeepsText(first, gap, rest, SplitSentences(rest));
    }
  }

  lemma FlattenSplitEachCons(lines: seq<string>)
    requires lines != []
    ensures Flatten(SplitEach(lines)) == SplitSentences(lines[0]) + Flatten(SplitEach(lines[1..]))
  {
    var all, tail := SplitEach(lines), SplitEach(lines[1..]);
    assert all[1..] == tail by {
      forall k | 0 <= k < |tail| ensures all[1..][k] == tail[k] {
        assert lines[1..][k] == lines[k + 1];
      }
    }
  }

  lemma {:induction false} FlattenKeepsText(lines: seq<string>)
    ensures Squeeze(Concat(Flatten(SplitEach(lines)))) == Squeeze(Concat(lines))
  {
    if lines != [] {
      var head, tail := lines[0], lines[1..];
      var first, others := SplitSentences(head), Flatten(SplitEach(tail));
      FlattenSplitEachCons(lines);
      ConcatAppend(first, others);
      SqueezeConcat(Concat(first), Concat(others));
      SplitSentencesKeepsText(head);
      FlattenKeepsText(tail);
      assert Concat(lines) == head + Concat(tail);
      SqueezeConcat(head, Concat(tail));
    }
  }

  lemma {:induction false} TrimEachKeepsText(xs: seq<string>)
    ensures Squeeze(Concat(TrimEach(xs))) == Squeeze(Concat(xs))
  {
    if xs != [] {
      assert TrimEach(xs) == [Trim(xs[0])] + TrimEach(xs[1..]);
      assert Concat(TrimEach(xs)) == Trim(xs[0]) + Concat(TrimEach(xs[1..]));
      SqueezeConcat(Trim(xs[0]), Concat(TrimEach(xs[1..])));
      TrimKeepsText(xs[0]);
      TrimEachKeepsText(xs[1..]);
      SqueezeConcat(xs[0], Concat(xs[1..]));
    }
  }

  lemma {:induction false} NonEmptyKeepsText(xs: seq<string>)
    ensures Concat(NonEmpty(xs)) == Concat(xs)
  {
    if xs != [] {
      NonEmptyKeepsText(xs[1..]);
      if xs[0] != "" {
        assert Concat([xs[0]] + NonEmpty(xs[1..])) == xs[0] + Concat(NonEmpty(xs[1..]));
      }
    }
  }

  lemma PipelineKeepsText(lines: seq<string>)
    ensures Squeeze(Concat(Pipeline(lines))) == Squeeze(Concat(lines))
  {
    var f := Flatten(SplitEach(lines));
    NonEmptyKeepsText(TrimEach(f));
    TrimEachKeepsText(f);
    FlattenKeepsText(lines);
  }

  /** The segments hold every non-space character of the cleaned text, in their
      original order: splitting, trimming and filtering drop white space only. */
  lemma SegmentsKeepText(clean: string)
    ensures Squeeze(Concat(Segments(clean))) == Squeeze(clean)
  {
    PipelineKeepsText(SplitLines(clean));
    SplitLinesKeepsText(clean);
  }

  // ---------------------------------------------------------------- segments are well formed

  /** No string of `xs` contains `c`. */
  predicate Avoids(xs: seq<string>, c: char) {
    forall k :: 0 <= k < |xs| ==> c !in xs[k]
  }

  lemma AvoidsCons(a: string, pieces: seq<string>, c: char)
    requires c !in a && Avoids(pieces, c)
    ensures Avoids([a] + pieces, c)
  {
    forall k | 0 <= k < |[a] + pieces| ensures c !in ([a] + pieces)[k] {
      if k > 0 {
        assert ([a] + pieces)[k] == pieces[k - 1];
      }
    }
  }

  /** The two parts a split step keeps lack whatever `s` lacks. */
  lemma SplitStepAvoids(s: string, i: nat, rest: string, c: char)
    requires i <= |s| && |rest| <= |s| - i && rest == s[i..][|s| - i - |rest|..]
    requires c !in s
    ensures c !in s[..i] && c !in rest
  {
    SplitAround(s, i, rest);
  }

  lemma {:induction false} SplitLinesAvoidNewline(s: string)
    ensures Avoids(SplitLines(s), '\n')
    decreases |s|
  {
    var i := NewlineAt(s);
    if i == |s| {
      assert s == s[..i];
    } else {
      var rest := SkipNewlines(s[i..]);
      SplitLinesAvoidNewline(rest);
      AvoidsCons(s[..i], SplitLines(rest), '\n');
    }
  }

  lemma {:induction false} SplitLinesAvoid(s: string, c: char)
    requires c !in s
    ensures Avoids(SplitLines(s), c)
    decreases |s|
  {
    var i := NewlineAt(s);
    if i == |s| {
      assert s == s[..i];
    } else {
      var rest := SkipNewlines(s[i..]);
      SplitStepAvoids(s, i, rest, c);
      SplitLinesAvoid(rest, c);
      AvoidsCons(s[..i], SplitLines(rest), c);
    }
  }

  lemma {:induction false} SplitSentencesAvoid(s: string, c: char)
    requires c !in s
    ensures Avoids(SplitSentences(s), c)
    decreases |s|
  {
    var i := SentenceBreak(s);
    if i < |s| {
      var rest := SkipSpaces(s[i..]);
      SplitStepAvoids(s, i, rest, c);
      SplitSentencesAvoid(rest, c);
      AvoidsCons(s[..i], SplitSentences(rest), c);
    }
  }

  lemma {:induction false} FlattenAvoids(lines: seq<string>, c: char)
    requires Avoids(lines, c)
    ensures Avoids(Flatten(SplitEach(lines)), c)
  {
    if lines != [] {
      FlattenSplitEachCons(lines);
      SplitSentencesAvoid(lines[0], c);
      assert Avoids(lines[1..], c) by {
        forall k | 0 <= k < |lines| - 1 ensures c !in lines[1..][k] {
          assert lines[1..][k] == lines[k + 1];
        }
      }
      FlattenAvoids(lines[1..], c);
      AvoidsAppend(SplitSentences(lines[0]), Flatten(SplitEach(lines[1..])), c);
    }
  }

  lemma AvoidsAppend(xs: seq<string>, ys: seq<string>, c: char)
    requires Avoids(xs, c) && Avoids(ys, c)
    ensures Avoids(xs + ys, c)
  {
    forall k | 0 <= k < |xs + ys| ensures c !in (xs + ys)[k] {
      if k >= |xs| {
        assert (xs + ys)[k] == ys[k - |xs|];
      }
    }
  }

  lemma PipelineAvoids(lines: seq<string>, c: char)
    requires Avoids(lines, c)
    ensures Avoids(Pipeline(lines), c)
  {
    var f := Flatten(SplitEach(lines));
    FlattenAvoids(lines, c);
    forall k | 0 <= k < |f| ensures c !in TrimEach(f)[k] {
      TrimAvoids(f[k], c);
    }
  }

  /** Every segment is non-empty, trimmed and free of newlines. */
  lemma SegmentsWellFormed(clean: string)
    ensures forall k :: 0 <= k < |Segments(clean)| ==>
      Segments(clean)[k] != "" && IsTrimmed(Segments(clean)[k]) && '\n' !in Segments(clean)[k]
  {
    SplitLinesAvoidNewline(clean);
    PipelineAvoids(SplitLines(clean), '\n');
    SegmentsTrimmed(clean);
  }

  lemma SegmentsTrimmed(clean: string)
    ensures forall k :: 0 <= k < |Segments(clean)| ==> IsTrimmed(Segments(clean)[k])
  {
    NonEmptyKeepsTrimmed(TrimEach(Flatten(SplitEach(SplitLines(clean)))));
  }

  lemma {:induction false} NonEmptyKeepsTrimmed(xs: seq<string>)
    requires forall j :: 0 <= j < |xs| ==> IsTrimmed(xs[j])
    ensures forall k :: 0 <= k < |NonEmpty(xs)| ==> IsTrimmed(NonEmpty(xs)[k])
  {
    if xs != [] {
      NonEmptyKeepsTrimmed(xs[1..]);
    }
  }

  /** When the cleaned text has no `<`, neither has any segment. */
  lemma SegmentsAvoid(clean: string, c: char)
    requires c !in clean
    ensures Avoids(Segments(clean), c)
  {
    SplitLinesAvoid(clean, c);
    PipelineAvoids(SplitLines(clean), c);
  }

  // ---------------------------------------------------------------- where the text is split

  // `s.split(/\n+/)` cuts at every run of newlines and nowhere else: the lines, woven
  // with non-empty runs of newlines, give `s` back (SplitLinesWeave), no line holds a
  // newline (SplitLinesAvoidNewline) and only the first and last line can be empty, so
  // every run is cut whole (SplitLinesInnerNonEmpty). `p.split(/(?<=[.!?])\s+/)` cuts
  // at every run of white space after a sentence end and nowhere else: the same weave
  // (SplitSentencesWeave), every piece but the last ends a sentence
  // (SplitSentencesEnds), each run is cut whole (SplitSentencesMaximal) and no piece
  // holds a further break (SplitSentencesNoBreak).

  /** The pieces interleaved with the separators between them:
      `ps[0] + gs[0] + ps[1] + ... + gs[n-1] + ps[n]`. */
  function Weave(ps: seq<string>, gs: seq<string>): string
    requires |ps| == |gs| + 1
  {
    if gs == [] then ps[0] else ps[0] + gs[0] + Weave(ps[1..], gs[1..])
  }

  predicate AllNewlines(g: string) {
    forall k :: 0 <= k < |g| ==> g[k] == '\n'
  }

  /** No white space right after a sentence end: `/(?<=[.!?])\s+/` matches nowhere. */
  predicate NoSentenceBreak(s: string) {
    forall j :: 0 < j < |s| ==> !(IsSpace(s[j]) && IsSentenceEnd(s[j - 1]))
  }

  lemma WeaveCons(first: string, g: string, tail: seq<string>, more: seq<string>)
    requires |tail| == |more| + 1
    ensures Weave([first] + tail, [g] + more) == first + g + Weave(tail, more)
  {
    assert ([first] + tail)[1..] == tail && ([g] + more)[1..] == more;
  }

  lemma Reassemble(s: string, i: nat, g: string, rest: string)
    requires i <= |s| && s[i..] == g + rest
    ensures s == s[..i] + g + rest && |s| == i + |g| + |rest|
  {
    assert s == s[..i] + s[i..];
  }

  lemma LinesUnfold(s: string)
    requires NewlineAt(s) < |s|
    ensures SplitLines(s) == [s[..NewlineAt(s)]] + SplitLines(SkipNewlines(s[NewlineAt(s)..]))
  {
  }

  /** The run of newlines that `SkipNewlines` drops from a text starting with one. */
  lemma NewlineGap(t: string) returns (g: string)
    requires t != [] && t[0] == '\n'
    ensures t == g + SkipNewlines(t)
    ensures g != "" && AllNewlines(g) && AllSpace(g)
  {
    var r := SkipNewlines(t);
    g := t[..|t| - |r|];
    assert t == g + r;
    forall k | 0 <= k < |g| ensures g[k] == '\n' && IsSpace(g[k]) {
      assert g[k] == t[k];
    }
  }

  /** One cut of `split(/\n+/)`: the text before the first newline, the run of
      newlines there, and the rest, which is split again. */
  lemma LinesCut(s: string) returns (first: string, g: string, rest: string)
    requires NewlineAt(s) < |s|
    ensures SplitLines(s) == [first] + SplitLines(rest) && s == first + g + rest
    ensures g != "" && AllNewlines(g) && AllSpace(g) && |rest| < |s|
    ensures '\n' !in first && (rest != [] ==> rest[0] != '\n')
    ensures s[0] != '\n' ==> first != ""
  {
    var i := NewlineAt(s);
    var t := s[i..];
    first, rest := s[..i], SkipNewlines(t);
    LinesUnfold(s);
    g := NewlineGap(t);
    Reassemble(s, i, g, rest);
  }

  /** Every gap is a non-empty run of newlines. */
  predicate NewlineRuns(gaps: seq<string>) {
    forall k :: 0 <= k < |gaps| ==> gaps[k] != "" && AllNewlines(gaps[k])
  }

  /** Every gap is a non-empty run of white space. */
  predicate SpaceRuns(gaps: seq<string>) {
    forall k :: 0 <= k < |gaps| ==> gaps[k] != "" && AllSpace(gaps[k])
  }

  /** The lines of `s`, woven with the runs of newlines between them, give `s` back. */
  lemma {:induction false} SplitLinesWeave(s: string) returns (gaps: seq<string>)
    ensures |gaps| == |SplitLines(s)| - 1 && s == Weave(SplitLines(s), gaps)
    ensures NewlineRuns(gaps)
    decreases |s|
  {
    if NewlineAt(s) == |s| {
      gaps := [];
      assert SplitLines(s) == [s];
    } else {
      var first, g, rest := LinesCut(s);
      var more := SplitLinesWeave(rest);
      gaps := [g] + more;
      WeaveCons(first, g, SplitLines(rest), more);
      assert Weave(SplitLines(s), gaps) == first + g + Weave(SplitLines(rest), more);
      forall k | 0 < k < |gaps| ensures gaps[k] != "" && AllNewlines(gaps[k]) {
        assert gaps[k] == more[k - 1];
      }
    }
  }

  lemma LinesOfEmpty()
    ensures SplitLines([]) == [[]]
  {
  }

  /** A text that does not start with a newline has a non-empty first line. */
  lemma FirstLineNonEmpty(s: string)
    requires s != [] && s[0] != '\n'
    ensures SplitLines(s)[0] != ""
  {
    if NewlineAt(s) == |s| {
      assert SplitLines(s) == [s];
    } else {
      var first, g, rest := LinesCut(s);
    }
  }

  /** Only the first and the last piece may be empty. */
  predicate InnerNonEmpty(ps: seq<string>) {
    forall k :: 0 < k < |ps| - 1 ==> ps[k] != ""
  }

  lemma InnerNonEmptyCons(first: string, tail: seq<string>)
    requires InnerNonEmpty(tail) && (|tail| > 1 ==> tail[0] != "")
    ensures InnerNonEmpty([first] + tail)
  {
    var ps := [first] + tail;
    forall k | 0 < k < |ps| - 1 ensures ps[k] != "" {
      assert ps[k] == tail[k - 1];
    }
  }

  /** Only the first and the last line can be empty, so every run of newlines is cut
      whole. */
  lemma {:induction false} SplitLinesInnerNonEmpty(s: string)
    ensures InnerNonEmpty(SplitLines(s))
    decreases |s|
  {
    if NewlineAt(s) == |s| {
      assert SplitLines(s) == [s];
    } else {
      var first, g, rest := LinesCut(s);
      SplitLinesInnerNonEmpty(rest);
      if |SplitLines(rest)| > 1 {
        LinesOfEmpty();
        FirstLineNonEmpty(rest);
      }
      InnerNonEmptyCons(first, SplitLines(rest));
    }
  }

  lemma SentencesUnfold(s: string)
    requires SentenceBreak(s) < |s|
    ensures SplitSentences(s)
      == [s[..SentenceBreak(s)]] + SplitSentences(SkipSpaces(s[SentenceBreak(s)..]))
  {
  }

  /** The run of white space that `SkipSpaces` drops from a text starting with one. */
  lemma SpaceGap(t: string) returns (g: string)
    requires t != [] && IsSpace(t[0])
    ensures t == g + SkipSpaces(t)
    ensures g != "" && AllSpace(g)
  {
    var r := SkipSpaces(t);
    g := t[..|t| - |r|];
    assert t == g + r;
  }

  /** The text before the first sentence break ends a sentence and holds no break. */
  lemma FirstSentence(s: string)
    requires SentenceBreak(s) < |s|
    ensures var first := s[..SentenceBreak(s)];
      first != "" && IsSentenceEnd(first[|first| - 1]) && first[0] == s[0] && NoSentenceBreak(first)
  {
    var first := s[..SentenceBreak(s)];
    forall k | 0 < k < |first| ensures !(IsSpace(first[k]) && IsSentenceEnd(first[k - 1])) {
      assert first[k] == s[k] && first[k - 1] == s[k - 1];
    }
  }

  /** One cut of `split(/(?<=[.!?])\s+/)`: the first sentence, which ends in `.`, `!`
      or `?` and holds no break, the run of white space after it, and the rest, which
      is split again. */
  lemma SentencesCut(s: string) returns (first: string, g: string, rest: string)
    requires SentenceBreak(s) < |s|
    ensures SplitSentences(s) == [first] + SplitSentences(rest) && s == first + g + rest
    ensures g != "" && AllSpace(g) && |rest| < |s|
    ensures first != "" && IsSentenceEnd(first[|first| - 1]) && first[0] == s[0]
    ensures NoSentenceBreak(first) && (rest != [] ==> !IsSpace(rest[0]))
  {
    var i := SentenceBreak(s);
    var t := s[i..];
    first, rest := s[..i], SkipSpaces(t);
    SentencesUnfold(s);
    FirstSentence(s);
    g := SpaceGap(t);
    Reassemble(s, i, g, rest);
  }

  /** The sentences of `s`, woven with the runs of white space between them, give `s`
      back. */
  lemma {:induction false} SplitSentencesWeave(s: string) returns (gaps: seq<string>)
    ensures |gaps| == |SplitSentences(s)| - 1 && s == Weave(SplitSentences(s), gaps)
    ensures SpaceRuns(gaps)
    decreases |s|
  {
    if SentenceBreak(s) == |s| {
      gaps := [];
      assert SplitSentences(s) == [s];
    } else {
      var first, g, rest := SentencesCut(s);
      var more := SplitSentencesWeave(rest);
      gaps := [g] + more;
      WeaveCons(first, g, SplitSentences(rest), more);
      assert Weave(SplitSentences(s), gaps) == first + g + Weave(SplitSentences(rest), more);
      forall k | 0 < k < |gaps| ensures gaps[k] != "" && AllSpace(gaps[k]) {
        assert gaps[k] == more[k - 1];
      }
    }
  }

  /** Every piece but the last is non-empty and ends in `.`, `!` or `?`. */
  predicate EndSentences(ps: seq<string>) {
    forall k :: 0 <= k < |ps| - 1 ==> ps[k] != "" && IsSentenceEnd(ps[k][|ps[k]| - 1])
  }

  lemma EndSentencesCons(first: string, tail: seq<string>)
    requires first != "" && IsSentenceEnd(first[|first| - 1]) && EndSentences(tail)
    ensures EndSentences([first] + tail)
  {
    var ps := [first] + tail;
    forall k | 0 < k < |ps| - 1 ensures ps[k] != "" && IsSentenceEnd(ps[k][|ps[k]| - 1]) {
      assert ps[k] == tail[k - 1];
    }
  }

  /** Every sentence but the last is non-empty and ends in `.`, `!` or `?`. */
  lemma {:induction false} SplitSentencesEnds(s: string)
    ensures EndSentences(SplitSentences(s))
    decreases |s|
  {
    if SentenceBreak(s) == |s| {
      assert SplitSentences(s) == [s];
    } else {
      var first, g, rest := SentencesCut(s);
      SplitSentencesEnds(rest);
      EndSentencesCons(first, SplitSentences(rest));
    }
  }

  /** No piece after the first starts with white space. */
  predicate StartAfterRuns(ps: seq<string>) {
    forall k :: 0 < k < |ps| ==> ps[k] == "" || !IsSpace(ps[k][0])
  }

  lemma StartAfterRunsCons(first: string, tail: seq<string>)
    requires StartAfterRuns(tail) && tail != [] && (tail[0] == "" || !IsSpace(tail[0][0]))
    ensures StartAfterRuns([first] + tail)
  {
    var ps := [first] + tail;
    forall k | 0 < k < |ps| ensures ps[k] == "" || !IsSpace(ps[k][0]) {
      assert ps[k] == tail[k - 1];
    }
  }

  /** The first sentence of a non-empty text starts with its first character. */
  lemma FirstSentenceStart(s: string)
    requires s != []
    ensures SplitSentences(s)[0] != [] && SplitSentences(s)[0][0] == s[0]
  {
    if SentenceBreak(s) == |s| {
      assert SplitSentences(s) == [s];
    } else {
      var first, g, rest := SentencesCut(s);
    }
  }

  lemma SentencesOfEmpty()
    ensures SplitSentences([]) == [[]]
  {
  }

  /** The sentence after a cut does not start with white space: each run of white
      space is cut whole. */
  lemma {:induction false} SplitSentencesMaximal(s: string)
    ensures StartAfterRuns(SplitSentences(s))
    decreases |s|
  {
    if SentenceBreak(s) == |s| {
      assert SplitSentences(s) == [s];
    } else {
      var first, g, rest := SentencesCut(s);
      SplitSentencesMaximal(rest);
      if rest == [] {
        SentencesOfEmpty();
      } else {
        FirstSentenceStart(rest);
      }
      StartAfterRunsCons(first, SplitSentences(rest));
    }
  }

  /** No piece holds a sentence end followed by white space. */
  predicate BreakFree(ps: seq<string>) {
    forall k :: 0 <= k < |ps| ==> NoSentenceBreak(ps[k])
  }

  lemma BreakFreeCons(first: string, tail: seq<string>)
    requires NoSentenceBreak(first) && BreakFree(tail)
    ensures BreakFree([first] + tail)
  {
    var ps := [first] + tail;
    forall k | 0 < k < |ps| ensures NoSentenceBreak(ps[k]) {
      assert ps[k] == tail[k - 1];
    }
  }

  /** No sentence holds a sentence end followed by white space. */
  lemma {:induction false} SplitSentencesNoBreak(s: string)
    ensures BreakFree(SplitSentences(s))
    decreases |s|
  {
    if SentenceBreak(s) == |s| {
      assert SplitSentences(s) == [s];
      assert NoSentenceBreak(s);
    } else {
      var first, g, rest := SentencesCut(s);
      SplitSentencesNoBreak(rest);
      BreakFreeCons(first, SplitSentences(rest));
    }
  }

  /** A text without a newline is one line. */
  lemma SplitLinesNoNewline(t: string)
    requires '\n' !in t
    ensures SplitLines(t) == [t]
  {
    assert NewlineAt(t) == |t|;
  }

  /** The segments of one line are its trimmed, non-empty sentences. */
  lemma PipelineOne(x: string)
    ensures Pipeline([x]) == NonEmpty(TrimEach(SplitSentences(x)))
  {
    FlattenSplitEachCons([x]);
    assert [x][1..] == [];
    assert SplitEach([]) == [];
    assert SplitSentences(x) + [] == SplitSentences(x);
  }

  /** A trimmed text without a newline, in which no sentence end is followed by white
      space, is a single segment: the text itself. */
  lemma SegmentsOfOneSentence(t: string)
    requires IsTrimmed(t) && t != "" && '\n' !in t && NoSentenceBreak(t)
    ensures Segments(t) == [t]
  {
    SplitLinesNoNewline(t);
    PipelineOne(t);
    var i := SentenceBreak(t);
    assert i == |t|;
    assert SplitSentences(t) == [t];
    assert "" + t + "" == t;
    TrimUnique("", t, "");
    assert TrimEach([t]) == [t];
    assert NonEmpty([t]) == [t] + NonEmpty([]);
  }

  /** A first sentence with some text, followed by a rest with some text, keeps both
      after trimming and dropping empty pieces. */
  lemma TwoPiecesKept(a: string, r: string)
    requires !AllSpace(a) && !AllSpace(r)
    ensures |NonEmpty(TrimEach([a] + SplitSentences(r)))| >= 2
  {
    TrimEmptyIff(a);
    ConcatOne(r);
    SomeTextSomeSegment([r]);
    PipelineOne(r);
    var pieces := SplitSentences(r);
    var rest := TrimEach(pieces);
    var all := TrimEach([a] + pieces);
    assert all[0] == Trim(a);
    assert all[1..] == rest by {
      forall k | 0 <= k < |rest| ensures all[1..][k] == rest[k] {
        assert ([a] + pieces)[k + 1] == pieces[k];
      }
    }
    assert NonEmpty(all) == [all[0]] + NonEmpty(rest);
  }

  /** A trimmed text without a newline in which some sentence end is followed by white
      space gives at least two segments: the text up to the first such place, and the
      rest, which ends in the text's last character. */
  lemma SegmentsOfTwoSentences(t: string)
    requires IsTrimmed(t) && '\n' !in t && !NoSentenceBreak(t)
    ensures |Segments(t)| >= 2
  {
    SplitLinesNoNewline(t);
    PipelineOne(t);
    assert SentenceBreak(t) < |t|;
    var a, g, r := SentencesCut(t);
    assert !AllSpace(a) by {
      assert !IsSpace(a[0]);
    }
    assert !AllSpace(r) by {
      assert r[|r| - 1] == t[|t| - 1];
    }
    TwoPiecesKept(a, r);
  }

  // ---------------------------------------------------------------- several lines give a list

  /** A string with a non-space character gives at least one segment. */
  lemma SomeTextSomeSegment(lines: seq<string>)
    requires !AllSpace(Concat(lines))
    ensures Pipeline(lines) != []
  {
    PipelineKeepsText(lines);
    SqueezeAllSpace(Concat(lines));
    if Pipeline(lines) == [] {
      SqueezeAllSpace(Concat(Pipeline(lines)));
    }
  }

  /** In a trimmed text with a newline, the text before the first newline holds a
      character that is not white space. */
  lemma FirstLineHasText(clean: string)
    requires IsTrimmed(clean) && '\n' in clean
    ensures NewlineAt(clean) < |clean| && !AllSpace(clean[..NewlineAt(clean)])
  {
    var i := NewlineAt(clean);
    assert clean[0] != '\n';
    assert clean[..i][0] == clean[0];
  }

  /** ... and so does what follows the newlines after it. */
  lemma RestHasText(clean: string, i: nat)
    requires IsTrimmed(clean) && i < |clean|
    ensures !AllSpace(SkipNewlines(clean[i..]))
  {
    var t := clean[i..];
    var rest := SkipNewlines(t);
    var last := t[|t| - 1];
    assert last == clean[|clean| - 1];
    assert !IsSpace(last);
    assert rest != [];
    assert rest[|rest| - 1] == last;
  }

  /** A trimmed text with a newline in it becomes at least two segments: the text
      before the first newline and the text after the last both hold a character. */
  lemma SeveralLinesSeveralSegments(clean: string)
    requires IsTrimmed(clean) && '\n' in clean
    ensures |Segments(clean)| >= 2
  {
    FirstLineHasText(clean);
    var i := NewlineAt(clean);
    var rest := SkipNewlines(clean[i..]);
    RestHasText(clean, i);
    var first := clean[..i];
    assert SplitLines(clean) == [first] + SplitLines(rest);
    PipelineAppend([first], SplitLines(rest));
    ConcatOne(first);
    SomeTextSomeSegment([first]);
    SplitLinesKeepsText(rest);
    SqueezeAllSpace(rest);
    SqueezeAllSpace(Concat(SplitLines(rest)));
    SomeTextSomeSegment(SplitLines(rest));
  }

  // ---------------------------------------------------------------- the list reads back

  /** The first index of `c` in `s`, or `|s|`. */
  function IndexOf(s: string, c: char): (i: nat)
    ensures i <= |s| && c !in s[..i]
    ensures i < |s| ==> s[i] == c
  {
    if s == [] || s[0] == c then 0 else 1 + IndexOf(s[1..], c)
  }

  /** Reads `<li>x</li>...` back into its items, each up to its first `<`. */
  function ParseItems(s: string): Option<seq<string>>
    decreases |s|
  {
    if s == [] then Some([])
    else if !StartsWith(s, "<li>") then None
    else
      var body := s[4..];
      var j := IndexOf(body, '<');
      if j + 5 <= |body| && body[j..j + 5] == "</li>" then
        match ParseItems(body[j + 5..])
        case Some(tail) => Some([body[..j]] + tail)
        case None => None
      else None
  }

  /** Reads a `formatExplanation` list back into its items. */
  function ParseList(html: string): Option<seq<string>> {
    if |html| >= |ListOpen| + |ListClose| && StartsWith(html, ListOpen) && EndsWith(html, ListClose)
    then ParseItems(html[|ListOpen|..|html| - |ListClose|])
    else None
  }

  /** One item: `<li>x</li>` followed by `tail` is read as `x`, then `tail`. */
  lemma ParseItemsStep(x: string, tail: string)
    requires '<' !in x
    ensures ParseItems("<li>" + x + "</li>" + tail) ==
      match ParseItems(tail)
      case Some(rest) => Some([x] + rest)
      case None => None
  {
    var s := "<li>" + x + "</li>" + tail;
    var body := x + "</li>" + tail;
    assert s == "<li>" + body;
    assert s[..4] == "<li>" && s[4..] == body;
    assert body[..|x|] == x;
    assert body[|x|] == '<';
    var j := IndexOf(body, '<');
    assert j == |x|;
    assert body[j..j + 5] == "</li>";
    assert body[j + 5..] == tail;
  }

  lemma {:induction false} ParseItemsInverse(xs: seq<string>)
    requires Avoids(xs, '<')
    ensures ParseItems(Items(xs)) == Some(xs)
  {
    if xs != [] {
      ParseItemsInverse(xs[1..]);
      ParseItemsStep(xs[0], Items(xs[1..]));
      assert xs == [xs[0]] + xs[1..];
    }
  }

  /** A list of items without `<` reads back to exactly those items, in order. */
  lemma ParseListInverse(xs: seq<string>)
    requires Avoids(xs, '<')
    ensures ParseList(ListOpen + Items(xs) + ListClose) == Some(xs)
  {
    var html := ListOpen + Items(xs) + ListClose;
    assert html[..|ListOpen|] == ListOpen;
    assert html[|html| - |ListClose|..] == ListClose;
    assert html[|ListOpen|..|html| - |ListClose|] == Items(xs);
    ParseItemsInverse(xs);
  }

  // ---------------------------------------------------------------- formatExplanation

  /** Empty text gives no segment. */
  lemma NoTextNoSegments()
    ensures Segments("") == []
  {
    assert SplitLines("") == [""];
    assert SplitEach([""]) == [[""]];
    assert Flatten([[""]]) == [""];
    assert TrimEach([""]) == [""];
  }

  /** A non-blank trimmed text gives at least one segment. */
  lemma TextGivesSegment(clean: string)
    requires IsTrimmed(clean) && clean != ""
    ensures |Segments(clean)| >= 1
  {
    assert !AllSpace(clean) by { assert !IsSpace(clean[0]); }
    SegmentsKeepText(clean);
    SqueezeAllSpace(clean);
  }

  /** `formatExplanation` returns "" for blank text and only for blank text. */
  lemma FormatBlankIff(text: string)
    ensures FormatExplanation(text) == "" <==> Cleaned(text) == ""
  {
  }

  /** Several segments give a list whose items read back as exactly the segments,
      in order. */
  lemma FormatListItems(text: string)
    requires |Segments(Cleaned(text))| > 1
    ensures ParseList(FormatExplanation(text)) == Some(Segments(Cleaned(text)))
  {
    var clean := Cleaned(text);
    var segs := Segments(clean);
    NoTextNoSegments();
    assert FormatExplanation(text) == ListOpen + Items(segs) + ListClose;
    SegmentsAvoid(clean, '<');
    ParseListInverse(segs);
  }

  /** Otherwise non-blank text is a single line and one segment, and becomes one
      paragraph holding the cleaned text: there is no newline left for `<br>`. */
  lemma FormatParagraph(text: string)
    requires Cleaned(text) != "" && |Segments(Cleaned(text))| <= 1
    ensures |Segments(Cleaned(text))| == 1 && '\n' !in Cleaned(text)
    ensures FormatExplanation(text) == "<p>" + Cleaned(text) + "</p>"
  {
    var clean := Cleaned(text);
    if '\n' in clean {
      SeveralLinesSeveralSegments(clean);
    }
    TextGivesSegment(clean);
  }

  /** Where `formatExplanation` makes a list and where a paragraph: a list of the
      segments exactly when the cleaned text has a newline or a sentence end followed
      by white space, and otherwise one paragraph of the cleaned text. */
  lemma FormatListOrParagraph(text: string)
    ensures var clean := Cleaned(text);
      clean != "" && ('\n' in clean || !NoSentenceBreak(clean)) ==>
        |Segments(clean)| >= 2 && ParseList(FormatExplanation(text)) == Some(Segments(clean))
    ensures var clean := Cleaned(text);
      clean != "" && '\n' !in clean && NoSentenceBreak(clean) ==>
        Segments(clean) == [clean] && FormatExplanation(text) == "<p>" + clean + "</p>"
  {
    var clean := Cleaned(text);
    if clean != "" {
      if '\n' in clean {
        SeveralLinesSeveralSegments(clean);
        FormatListItems(text);
      } else if !NoSentenceBreak(clean) {
        SegmentsOfTwoSentences(clean);
        FormatListItems(text);
      } else {
        SegmentsOfOneSentence(clean);
        FormatParagraph(text);
      }
    }
  }
}
