/** The sidebar lifecycle of the content script (content.js): the module-level
    `sidebarElement`, the children of `document.body` it lives among, and the
    handlers that create, fill and remove it. */
module Sidebar {
  import opened Strings
  import opened Content
  import opened Protocol

  /** The id every sidebar carries; `removeAllSidebars` finds sidebars by it. */
  const SidebarId := "ai-explainer-sidebar"

  /** The header subtitle: the loading template says "Powered by AI", the error
      template "Something went wrong". */
  datatype Subtitle = PoweredByAi | SomethingWentWrong

  /** What the `.ai-explainer-content` part of the sidebar shows. */
  datatype Pane =
      /** The escaped selection preview above a spinner. */
    | Spinner(preview: string)
      /** The escaped preview, the formatted answer, and the raw text the Copy
          button puts on the clipboard. */
    | Answer(preview: string, explanationHtml: string, copyText: string)
      /** The escaped error message, and whether "Open Settings" is offered. */
    | Failure(messageHtml: string, settingsButton: bool)

  datatype View =
      /** An element of the page itself (or a sidebar left by an earlier copy of
          the script, whose content this model does not track). */
    | Foreign
    | Panel(subtitle: Subtitle, pane: Pane)

  /** A child of `document.body`. */
  datatype Element = Element(id: string, view: View)

  /** The escaped preview of the selection both views show. */
  function Preview(selectedText: string): string {
    EscapeHtml(Truncate(selectedText, SelectionPreviewLength))
  }

  /** The sidebar `showLoadingState` appends. */
  function LoadingPanel(selectedText: string): Element {
    Element(SidebarId, Panel(PoweredByAi, Spinner(Preview(selectedText))))
  }

  /** The pane `showExplanation` writes into the content part. */
  function AnswerPane(explanation: string, originalText: string): Pane {
    Answer(Preview(originalText), FormatExplanation(explanation), explanation)
  }

  /** The whole sidebar `showError` writes. */
  function ErrorView(errorMessage: string): View {
    Panel(SomethingWentWrong, Failure(EscapeHtml(errorMessage), ShowsSettingsButton(errorMessage)))
  }

  // ---------------------------------------------------------------- the body, as a value

  /** How many children carry the sidebar id. */
  function SidebarCount(body: seq<Element>): nat {
    if body == [] then 0
    else (if body[0].id == SidebarId then 1 else 0) + SidebarCount(body[1..])
  }

  /** The body once every element with the sidebar id is removed: the page's own
      elements, in their order. */
  function PageElements(body: seq<Element>): (r: seq<Element>)
    ensures SidebarCount(r) == 0
    ensures |r| + SidebarCount(body) == |body|
  {
    if body == [] then []
    else if body[0].id == SidebarId then PageElements(body[1..])
    else [body[0]] + PageElements(body[1..])
  }

  /** The page's elements are exactly the children without the sidebar id. */
  lemma {:induction false} PageElementsMembers(body: seq<Element>, e: Element)
    ensures e in PageElements(body) <==> e in body && e.id != SidebarId
  {
    if body != [] {
      PageElementsMembers(body[1..], e);
      assert body == [body[0]] + body[1..];
    }
  }

  lemma {:induction false} PageElementsAppend(a: seq<Element>, b: seq<Element>)
    ensures PageElements(a + b) == PageElements(a) + PageElements(b)
  {
    if a == [] {
      assert a + b == b;
    } else {
      assert (a + b)[0] == a[0];
      assert (a + b)[1..] == a[1..] + b;
      PageElementsAppend(a[1..], b);
    }
  }

  lemma {:induction false} SidebarCountAppend(a: seq<Element>, b: seq<Element>)
    ensures SidebarCount(a + b) == SidebarCount(a) + SidebarCount(b)
  {
    if a == [] {
      assert a + b == b;
    } else {
      assert (a + b)[0] == a[0];
      assert (a + b)[1..] == a[1..] + b;
      SidebarCountAppend(a[1..], b);
    }
  }

  /** Removing the sidebars twice removes nothing more. */
  lemma {:induction false} PageElementsIdempotent(body: seq<Element>)
    ensures PageElements(PageElements(body)) == PageElements(body)
  {
    if body != [] {
      PageElementsIdempotent(body[1..]);
      if body[0].id != SidebarId {
        var rest := PageElements(body[1..]);
        assert ([body[0]] + rest)[0] == body[0];
        assert ([body[0]] + rest)[1..] == rest;
      }
    }
  }

  /** A body without sidebars is left exactly as it is. */
  lemma {:induction false} NoSidebarNothingRemoved(body: seq<Element>)
    requires SidebarCount(body) == 0
    ensures PageElements(body) == body
  {
    if body != [] {
      NoSidebarNothingRemoved(body[1..]);
      assert body == [body[0]] + body[1..];
    }
  }

  /** Replacing one sidebar by another changes neither the page's elements nor the
      number of sidebars. */
  lemma {:induction false} ReplaceSidebar(body: seq<Element>, i: nat, e: Element)
    requires i < |body| && body[i].id == SidebarId && e.id == SidebarId
    ensures PageElements(body[i := e]) == PageElements(body)
    ensures SidebarCount(body[i := e]) == SidebarCount(body)
  {
    if i > 0 {
      ReplaceSidebar(body[1..], i - 1, e);
      assert body[i := e][1..] == body[1..][i - 1 := e];
    } else {
      assert body[i := e][1..] == body[1..];
    }
  }

  /** The sidebar at index `i` is the only child with the sidebar id. */
  lemma {:induction false} OnlySidebar(body: seq<Element>, i: nat, j: nat)
    requires i < |body| && j < |body| && SidebarCount(body) == 1
    requires body[i].id == SidebarId && body[j].id == SidebarId
    ensures i == j
  {
    if i != j {
      assert body == body[..i] + [body[i]] + body[i + 1..];
      SidebarCountAppend(body[..i] + [body[i]], body[i + 1..]);
      SidebarCountAppend(body[..i], [body[i]]);
      if j < i {
        assert body[..i] == body[..j] + [body[j]] + body[j + 1..i];
        SidebarCountAppend(body[..j] + [body[j]], body[j + 1..i]);
        SidebarCountAppend(body[..j], [body[j]]);
      } else {
        assert body[i + 1..] == body[i + 1..j] + [body[j]] + body[j + 1..];
        SidebarCountAppend(body[i + 1..j] + [body[j]], body[j + 1..]);
        SidebarCountAppend(body[i + 1..j], [body[j]]);
      }
    }
  }

  // ---------------------------------------------------------------- the page

  class Page {
    /** The children of `document.body`. */
    var body: seq<Element>
    /** `sidebarElement`: `null`, or the position of the sidebar in `body`. */
    var sidebar: Option<nat>

    /** When `sidebarElement` is set it is attached, it is a sidebar this script
        filled, and it is the only element with the sidebar id. */
    ghost predicate Valid()
      reads this
    {
      sidebar.Some? ==>
        sidebar.value < |body| && body[sidebar.value].id == SidebarId
        && body[sidebar.value].view.Panel? && SidebarCount(body) == 1
    }

    /** The page as the script finds it: `sidebarElement` is `null`. */
    constructor (pageBody: seq<Element>)
      ensures Valid() && body == pageBody && sidebar == None
    {
      body := pageBody;
      sidebar := None;
    }

    /** What the sidebar shows, if there is one. */
    function Shown(): Option<View>
      reads this
      requires Valid()
    {
      if sidebar.Some? then Some(body[sidebar.value].view) else None
    }

    /** `removeAllSidebars`: remove every child with the sidebar id, then clear
        `sidebarElement`. */
    method RemoveAllSidebars()
      modifies this
      ensures body == PageElements(old(body)) && sidebar == None
      ensures Valid() && SidebarCount(body) == 0
    {
      var children := body;
      var kept: seq<Element> := [];
      var i := 0;
      while i < |children|
        invariant 0 <= i <= |children|
        invariant kept == PageElements(children[..i])
      {
        PageElementsAppend(children[..i], [children[i]]);
        assert children[..i + 1] == children[..i] + [children[i]];
        if children[i].id != SidebarId {
          kept := kept + [children[i]];
        }
        i := i + 1;
      }
      assert children[..i] == children;
      body := kept;
      sidebar := None;
    }

    /** `showLoadingState`: clear out old sidebars, then append a new one with the
        spinner and the selection preview. */
    method ShowLoadingState(selectedText: string)
      modifies this
      ensures Valid()
      ensures body == PageElements(old(body)) + [LoadingPanel(selectedText)]
      ensures sidebar == Some(|body| - 1)
      ensures PageElements(body) == PageElements(old(body)) && SidebarCount(body) == 1
    {
      RemoveAllSidebars();
      var panel := LoadingPanel(selectedText);
      PageElementsAppend(body, [panel]);
      PageElementsIdempotent(old(body));
      SidebarCountAppend(body, [panel]);
      body := body + [panel];
      sidebar := Some(|body| - 1);
    }

    /** Give the open sidebar a new view, in place. */
    method Redraw(view: View)
      requires Valid() && sidebar.Some? && view.Panel?
      modifies this
      ensures Valid() && sidebar == old(sidebar)
      ensures body == old(body)[sidebar.value := Element(SidebarId, view)]
      ensures PageElements(body) == PageElements(old(body))
    {
      var i := sidebar.value;
      ReplaceSidebar(body, i, Element(SidebarId, view));
      body := body[i := Element(SidebarId, view)];
    }

    /** `showExplanation`: open a sidebar first if there is none, then replace its
        content part with the answer; the header stays as it was. */
    method ShowExplanation(explanation: string, originalText: string)
      requires Valid()
      modifies this
      ensures Valid() && sidebar.Some?
      ensures PageElements(body) == PageElements(old(body))
      ensures old(sidebar).Some? ==>
        sidebar == old(sidebar) && |body| == |old(body)|
        && body == old(body)[sidebar.value := Element(SidebarId,
             Panel(old(body)[sidebar.value].view.subtitle, AnswerPane(explanation, originalText)))]
      ensures old(sidebar).None? ==>
        body == PageElements(old(body)) + [Element(SidebarId, Panel(PoweredByAi, AnswerPane(explanation, originalText)))]
      ensures Shown().value.pane == AnswerPane(explanation, originalText)
    {
      var answer := AnswerPane(explanation, originalText);
      if sidebar.None? {
        ShowLoadingState(originalText);
        ghost var page := PageElements(old(body));
        assert body == page + [LoadingPanel(originalText)];
        var filled := Element(SidebarId, Panel(PoweredByAi, answer));
        assert (page + [LoadingPanel(originalText)])[|page| := filled] == page + [filled];
        Redraw(filled.view);
      } else {
        Redraw(Panel(body[sidebar.value].view.subtitle, answer));
      }
    }

    /** `showError`: open a bare sidebar first if there is none, then replace its
        whole content with the error view. */
    method ShowError(errorMessage: string)
      requires Valid()
      modifies this
      ensures Valid() && sidebar.Some?
      ensures PageElements(body) == PageElements(old(body))
      ensures old(sidebar).Some? ==>
        sidebar == old(sidebar) && body == old(body)[sidebar.value := Element(SidebarId, ErrorView(errorMessage))]
      ensures old(sidebar).None? ==>
        body == PageElements(old(body)) + [Element(SidebarId, ErrorView(errorMessage))]
      ensures Shown() == Some(ErrorView(errorMessage))
    {
      if sidebar.None? {
        RemoveAllSidebars();
        var bare := Element(SidebarId, ErrorView(errorMessage));
        PageElementsAppend(body, [bare]);
        PageElementsIdempotent(old(body));
        SidebarCountAppend(body, [bare]);
        body := body + [bare];
        sidebar := Some(|body| - 1);
      } else {
        Redraw(ErrorView(errorMessage));
      }
    }

    /** `removeSidebar` (the close and Done buttons): with a sidebar open, remove
        every sidebar; otherwise do nothing. */
    method RemoveSidebar()
      modifies this
      ensures old(sidebar).Some? ==> body == PageElements(old(body)) && sidebar == None
      ensures old(sidebar).None? ==> body == old(body) && sidebar == None
    {
      if sidebar.Some? {
        RemoveAllSidebars();
      }
    }

    /** The `keydown` listener: Escape closes an open sidebar; other keys do nothing. */
    method OnKeyDown(key: string)
      modifies this
      ensures key == "Escape" ==> sidebar == None
      ensures key == "Escape" && old(sidebar).Some? ==> body == PageElements(old(body))
      ensures key != "Escape" || old(sidebar).None? ==> body == old(body) && sidebar == old(sidebar)
    {
      if key == "Escape" && sidebar.Some? {
        RemoveSidebar();
      }
    }

    /** The `chrome.runtime.onMessage` listener: each known message type goes to its
        own view; any other type is ignored. */
    method OnMessage(message: ContentMessage)
      requires Valid()
      modifies this
      ensures Valid()
      ensures PageElements(body) == PageElements(old(body))
      ensures message.Loading? ==> Shown() == Some(LoadingPanel(message.text).view)
      ensures message.Success? ==> Shown().Some? && Shown().value.pane == AnswerPane(message.explanation, message.originalText)
      ensures message.Error? ==> Shown() == Some(ErrorView(message.message))
      ensures message.Other? ==> body == old(body) && sidebar == old(sidebar)
    {
      match message
      case Loading(text) =>
        ShowLoadingState(text);
      case Success(explanation, originalText) =>
        ShowExplanation(explanation, originalText);
      case Error(text) =>
        ShowError(text);
      case Other(_) =>
    }
  }
}
