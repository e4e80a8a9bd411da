/** The navigation history of the embedded browser (app/browser.tsx): the
    `history` list, the `historyIndex` cell and the address bar text
    `displayUrl`. A page load is one atomic step whose outcome (the proxy
    fetch succeeded or not) is an input; the fetched HTML, the error text and
    the loading flag are left out.

    `loadUrl` is a closure of the render that called it, so it reads the
    `history` and `historyIndex` of that render even when the calling handler
    has just stepped the index. That is modelled as written in `AfterLoad`,
    `BackAsWritten` and `ForwardAsWritten`; `Back` and `Forward` are the
    intended steps, which the `Browser` object performs. */
module BrowserHistory {

  const HomeUrl := "https://example.com"

  /** The history list and the index into it. */
  datatype History = History(entries: seq<string>, index: nat)

  predicate WellFormed(h: History)
  {
    |h.entries| > 0 && h.index < |h.entries|
  }

  function Initial(): (h: History)
    ensures WellFormed(h) && h.entries == [HomeUrl] && h.index == 0
  {
    History([HomeUrl], 0)
  }

  function Current(h: History): string
    requires WellFormed(h)
  {
    h.entries[h.index]
  }

  /** The history update of `loadUrl(target)`, on the values the calling
      render captured. A successful load of a page other than the current one
      drops the forward entries, appends the page and moves to it; a load of
      the current page, or a failed load, leaves the history alone. */
  function AfterLoad(h: History, target: string, ok: bool): (r: History)
    requires WellFormed(h)
    ensures WellFormed(r)
    ensures ok && target != Current(h) ==>
      && |r.entries| == h.index + 2
      && r.entries[..h.index + 1] == h.entries[..h.index + 1]
      && r.index == |r.entries| - 1 && Current(r) == target
    ensures !ok || target == Current(h) ==> r == h
  {
    if ok && target != Current(h) then
      var entries := h.entries[..h.index + 1] + [target];
      assert entries[..h.index + 1] == h.entries[..h.index + 1];
      History(entries, |entries| - 1)
    else h
  }

  /** `handleBack` as written: the index is stepped back, then the load, whose
      closure still sees the old index, may overwrite it. */
  function BackAsWritten(h: History, ok: bool): (r: History)
    requires WellFormed(h)
    ensures WellFormed(r)
  {
    if h.index > 0 then
      var stepped := h.(index := h.index - 1);
      var loaded := AfterLoad(h, h.entries[h.index - 1], ok);
      if loaded == h then stepped else loaded
    else h
  }

  /** `handleForward` as written. */
  function ForwardAsWritten(h: History, ok: bool): (r: History)
    requires WellFormed(h)
    ensures WellFormed(r)
  {
    if h.index < |h.entries| - 1 then
      var stepped := h.(index := h.index + 1);
      var loaded := AfterLoad(h, h.entries[h.index + 1], ok);
      if loaded == h then stepped else loaded
    else h
  }

  /** Going back from the second of two pages with a successful load appends
      the first page again instead of moving to it. */
  lemma BackAppendsInsteadOfMoving()
    ensures BackAsWritten(History(["a", "b"], 1), true) == History(["a", "b", "a"], 2)
  {
    var h := History(["a", "b"], 1);
    assert Current(h) == "b" != "a";
    assert h.entries[..2] + ["a"] == ["a", "b", "a"];
  }

  /** Going forward by one from the first of three pages drops the third. */
  lemma ForwardDropsFuture()
    ensures ForwardAsWritten(History(["a", "b", "c"], 0), true) == History(["a", "b"], 1)
  {
    var h := History(["a", "b", "c"], 0);
    assert Current(h) == "a" != "b";
    assert h.entries[..1] + ["b"] == ["a", "b"];
  }

  /** The intended back step: move to the previous entry; the load of that
      entry, on the fresh index, leaves the history as it is. */
  function Back(h: History, ok: bool): (r: History)
    requires WellFormed(h)
    ensures WellFormed(r)
    ensures h.index > 0 ==> r.entries == h.entries && r.index == h.index - 1
    ensures h.index == 0 ==> r == h
  {
    if h.index > 0 then AfterLoad(h.(index := h.index - 1), h.entries[h.index - 1], ok) else h
  }

  /** The intended forward step. */
  function Forward(h: History, ok: bool): (r: History)
    requires WellFormed(h)
    ensures WellFormed(r)
    ensures h.index < |h.entries| - 1 ==> r.entries == h.entries && r.index == h.index + 1
    ensures h.index == |h.entries| - 1 ==> r == h
  {
    if h.index < |h.entries| - 1 then AfterLoad(h.(index := h.index + 1), h.entries[h.index + 1], ok) else h
  }

  /** Back then forward returns to where one was, and so does forward then back. */
  lemma BackForwardRoundTrip(h: History, ok1: bool, ok2: bool)
    requires WellFormed(h)
    ensures h.index > 0 ==> Forward(Back(h, ok1), ok2) == h
    ensures h.index < |h.entries| - 1 ==> Back(Forward(h, ok1), ok2) == h
  {
  }

  /** Loading a page and going back returns to the page one was on, with the
      new page as the only forward entry. */
  lemma LoadThenBack(h: History, target: string, ok: bool)
    requires WellFormed(h) && target != Current(h)
    ensures var r := Back(AfterLoad(h, target, true), ok);
      && r.index == h.index && Current(r) == Current(h)
      && r.entries == h.entries[..h.index + 1] + [target]
  {
    var l := AfterLoad(h, target, true);
    assert l.entries[h.index] == h.entries[h.index];
  }

  /** The browser panel's navigation state. */
  class Browser {
    var history: seq<string>
    var historyIndex: nat
    var displayUrl: string

    function Snapshot(): History
      reads this
    {
      History(history, historyIndex)
    }

    ghost predicate Valid()
      reads this
    {
      WellFormed(Snapshot())
    }

    constructor ()
      ensures Valid() && Snapshot() == Initial() && displayUrl == HomeUrl
    {
      history, historyIndex, displayUrl := [HomeUrl], 0, HomeUrl;
    }

    /** `loadUrl(target)` from a handler that did not touch the index; a
        successful load also shows the loaded address. */
    method Load(target: string, ok: bool)
      requires Valid()
      modifies this
      ensures Valid()
      ensures Snapshot() == AfterLoad(old(Snapshot()), target, ok)
      ensures displayUrl == if ok then target else old(displayUrl)
    {
      if ok {
        displayUrl := target;
        if history[historyIndex] != target {
          var newHistory := history[..historyIndex + 1] + [target];
          history, historyIndex := newHistory, |newHistory| - 1;
        }
      }
    }

    /** The address form's submit (`handleNavigate`) and `handleRefresh`: load
        what the address bar shows. */
    method Navigate(ok: bool)
      requires Valid()
      modifies this
      ensures Valid()
      ensures Snapshot() == AfterLoad(old(Snapshot()), old(displayUrl), ok)
      ensures displayUrl == old(displayUrl)
    {
      Load(displayUrl, ok);
    }

    /** `handleHome`. */
    method Home(ok: bool)
      requires Valid()
      modifies this
      ensures Valid()
      ensures Snapshot() == AfterLoad(old(Snapshot()), HomeUrl, ok)
      ensures displayUrl == HomeUrl
    {
      displayUrl := HomeUrl;
      Load(HomeUrl, ok);
    }

    /** Typing in the address bar. */
    method TypeAddress(text: string)
      modifies this`displayUrl
      ensures displayUrl == text
    {
      displayUrl := text;
    }

    /** `handleBack`, with the load reading the stepped index. */
    method GoBack(ok: bool)
      requires Valid()
      modifies this
      ensures Valid()
      ensures Snapshot() == Back(old(Snapshot()), ok)
      ensures old(historyIndex) > 0 ==> displayUrl == history[historyIndex]
      ensures old(historyIndex) == 0 ==> displayUrl == old(displayUrl)
    {
      if historyIndex > 0 {
        historyIndex := historyIndex - 1;
        displayUrl := history[historyIndex];
        Load(history[historyIndex], ok);
      }
    }

    /** `handleForward`, with the load reading the stepped index. */
    method GoForward(ok: bool)
      requires Valid()
      modifies this
      ensures Valid()
      ensures Snapshot() == Forward(old(Snapshot()), ok)
      ensures old(historyIndex) < |old(history)| - 1 ==> displayUrl == history[historyIndex]
      ensures old(historyIndex) == |old(history)| - 1 ==> displayUrl == old(displayUrl)
    {
      if historyIndex < |history| - 1 {
        historyIndex := historyIndex + 1;
        displayUrl := history[historyIndex];
        Load(history[historyIndex], ok);
      }
    }
  }
}
