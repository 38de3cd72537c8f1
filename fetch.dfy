/**
 * The one-shot fetch (`fetch_url`): launch a persistent browser context,
 * take its page, then either let the user log in or perform the unit of
 * work and return its content. An exception from any call, and the
 * ValueError for a selector that matched nothing, leaves `fetch_url`
 * without closing the context.
 *
 * `FetchRun` states the calls issued and the result; the method
 * `FetchUrl` drives a `Browser` step by step and is proved to do exactly
 * that.
 */
module Fetch {
  import opened Wrappers
  import opened Playwright
  import opened Navigation

  /** The arguments of `fetch_url` that reach the browser, `timeout` in seconds. */
  datatype FetchArgs = FetchArgs(
    url: string,
    textOnly: bool,
    selector: Option<string>,
    waitSeconds: int,
    loginMode: bool,
    headless: bool,
    timeout: int)

  /** How `fetch_url` ends: it returns a string, or an exception with this message escapes it. */
  datatype Result = Returned(content: string) | Failed(message: string)

  /** The calls issued to the context and its page, and the result. */
  datatype Session = Session(calls: seq<Call>, result: Result)

  const LoginSaved := "Login session saved."

  /** The message of the ValueError for a selector that matched nothing. */
  function NotFoundOnPage(selector: string): string {
    "Selector '" + selector + "' not found on page"
  }

  /** `launch_persistent_context(..., headless=headless and not login_mode)` */
  function LaunchCall(a: FetchArgs): Call {
    Launch(a.headless && !a.loginMode)
  }

  /** `context.close()`, then returning `result`. */
  function Close(o: Oracle, h: seq<Call>, result: Result): Session {
    match o.raises(h, CloseContext)
    case Some(m) => Session([CloseContext], Failed(m))
    case None => Session([CloseContext], result)
  }

  /** `done` was issued, then the session `s`. */
  function After(done: seq<Call>, s: Session): Session {
    Session(done + s.calls, s.result)
  }

  /** Login mode: navigate without waiting for network idleness, wait for Enter, close. */
  function Login(o: Oracle, h: seq<Call>, url: string, timeoutMs: int): Session {
    var nav := Goto(url, timeoutMs, false);
    if o.raises(h, nav).Some? then Session([nav], Failed(o.raises(h, nav).value))
    else if o.raises(h + [nav], PromptEnter).Some? then
      Session([nav, PromptEnter], Failed(o.raises(h + [nav], PromptEnter).value))
    else After([nav, PromptEnter], Close(o, h + [nav, PromptEnter], Returned(LoginSaved)))
  }

  /** Outside login mode: the unit of work, then the close when it succeeded. */
  function Visit(o: Oracle, h: seq<Call>, url: string, timeoutMs: int, waitSeconds: int,
                 selector: Option<string>, textOnly: bool): Session
  {
    var w := LoadPage(o, h, url, timeoutMs, waitSeconds, selector, textOnly);
    match w.outcome
    case Extracted(content) => After(w.calls, Close(o, h + w.calls, Returned(content)))
    case SelectorMissing(s) => Session(w.calls, Failed(NotFoundOnPage(s)))
    case Raised(m) => Session(w.calls, Failed(m))
  }

  /** What happens on the page once it has been chosen. */
  function Browse(o: Oracle, h: seq<Call>, a: FetchArgs): Session {
    if a.loginMode then Login(o, h, a.url, a.timeout * 1000)
    else Visit(o, h, a.url, a.timeout * 1000, a.waitSeconds, a.selector, a.textOnly)
  }

  /** `page = context.pages[0] if context.pages else context.new_page()`, then the rest. */
  function AfterLaunch(o: Oracle, h: seq<Call>, a: FetchArgs): Session {
    if o.hasPages(h) then Browse(o, h, a)
    else if o.raises(h, NewPage).Some? then Session([NewPage], Failed(o.raises(h, NewPage).value))
    else After([NewPage], Browse(o, h + [NewPage], a))
  }

  /** `fetch_url` after history `h` of the browser. */
  function FetchRun(o: Oracle, h: seq<Call>, a: FetchArgs): Session {
    var launch := LaunchCall(a);
    if o.raises(h, launch).Some? then Session([launch], Failed(o.raises(h, launch).value))
    else After([launch], AfterLaunch(o, h + [launch], a))
  }

  // ------------------------------------------------------------ properties

  /** No call is a `context.close()`. */
  predicate NeverCloses(calls: seq<Call>) {
    forall i :: 0 <= i < |calls| ==> calls[i] != CloseContext
  }

  /** The browser is launched first, headless exactly when asked to and not in login mode. */
  lemma LaunchedFirst(o: Oracle, h: seq<Call>, a: FetchArgs)
    ensures var s := FetchRun(o, h, a);
      && |s.calls| > 0
      && s.calls[0] == Launch(a.headless && !a.loginMode)
      && (s.calls[0].headless <==> a.headless && !a.loginMode)
  {
  }

  /**
   * The existing page is used when the context has one; otherwise one new
   * page is opened right after the launch, and an exception from it ends
   * `fetch_url`.
   */
  lemma PageChoice(o: Oracle, h: seq<Call>, a: FetchArgs)
    requires o.raises(h, LaunchCall(a)).None?
    ensures var launch := LaunchCall(a);
            var h1 := h + [launch];
      && (o.hasPages(h1) ==> FetchRun(o, h, a) == After([launch], Browse(o, h1, a)))
      && (!o.hasPages(h1) && o.raises(h1, NewPage).Some? ==>
            FetchRun(o, h, a) == Session([launch, NewPage], Failed(o.raises(h1, NewPage).value)))
      && (!o.hasPages(h1) && o.raises(h1, NewPage).None? ==>
            FetchRun(o, h, a) == After([launch, NewPage], Browse(o, h + [launch, NewPage], a)))
  {
    var launch := LaunchCall(a);
    assert [launch] + [NewPage] == [launch, NewPage];
    AppendTwice(h, [launch], [NewPage]);
    AppendTwice([launch], [NewPage], Browse(o, h + [launch, NewPage], a).calls);
  }

  /** Only the page choice opens a page. */
  lemma BrowseOpensNoPage(o: Oracle, h: seq<Call>, a: FetchArgs)
    ensures forall i :: 0 <= i < |Browse(o, h, a).calls| ==> !Browse(o, h, a).calls[i].NewPage?
  {
    if !a.loginMode {
      VisitOrder(o, h, a.url, a.timeout * 1000, a.waitSeconds, a.selector, a.textOnly);
    }
  }

  /**
   * Login mode navigates with `timeout * 1000` ms and no network-idle
   * wait, waits for Enter, closes the context and returns exactly "Login
   * session saved."; it neither looks up a selector nor extracts, and the
   * first exception ends it before the close.
   */
  lemma LoginSequence(o: Oracle, h: seq<Call>, a: FetchArgs)
    requires a.loginMode
    ensures var s := Browse(o, h, a);
            var calls := [Goto(a.url, a.timeout * 1000, false), PromptEnter, CloseContext];
      && |s.calls| > 0
      && s.calls <= calls
      && (s.result.Returned? <==> s.calls == calls && Passed(o, h, s.calls))
      && (s.result.Returned? ==> s.result.content == "Login session saved.")
      && (s.result.Failed? ==> o.raises(h + Init(s.calls), Last(s.calls)) == Some(s.result.message))
      && (s.result.Failed? ==> Passed(o, h, Init(s.calls)))
  {
    LoginSteps(o, h, a.url, a.timeout * 1000);
  }

  lemma LoginSteps(o: Oracle, h: seq<Call>, url: string, timeoutMs: int)
    ensures var s := Login(o, h, url, timeoutMs);
            var calls := [Goto(url, timeoutMs, false), PromptEnter, CloseContext];
      && |s.calls| > 0
      && s.calls <= calls
      && (s.result.Returned? <==> s.calls == calls && Passed(o, h, s.calls))
      && (s.result.Returned? ==> s.result.content == LoginSaved)
      && (s.result.Failed? ==> o.raises(h + Init(s.calls), Last(s.calls)) == Some(s.result.message))
      && (s.result.Failed? ==> Passed(o, h, Init(s.calls)))
  {
    var nav := Goto(url, timeoutMs, false);
    var calls := [nav, PromptEnter, CloseContext];
    var s := Login(o, h, url, timeoutMs);
    assert calls[..0] == [] && calls[..1] == [nav] && calls[..2] == [nav, PromptEnter];
    assert h + calls[..0] == h;
    if o.raises(h, nav).Some? {
      assert s.calls == [nav] && Init(s.calls) == [];
    } else if o.raises(h + [nav], PromptEnter).Some? {
      assert s.calls == [nav, PromptEnter] && Init(s.calls) == [nav];
      assert Passed(o, h, [nav]) by { assert [nav][..0] == []; }
    } else {
      assert s.calls == calls && Init(calls) == [nav, PromptEnter];
      if o.raises(h + [nav, PromptEnter], CloseContext).None? {
        assert Passed(o, h, calls) by {
          forall i | 0 <= i < |calls|
            ensures o.raises(h + calls[..i], calls[i]).None?
          {
          }
        }
      } else {
        assert !Passed(o, h, calls) by { assert o.raises(h + calls[..2], calls[2]).Some?; }
        var done := [nav, PromptEnter];
        assert Passed(o, h, done) by {
          assert done[..0] == [] && done[..1] == [nav];
        }
      }
    }
  }

  /**
   * Outside login mode the page is driven exactly as in the unit of work,
   * with `timeout * 1000` ms: the network-idle navigation first, the pause
   * of `wait_seconds * 1000` ms only when `wait_seconds` is positive, and
   * the close after the whole plan or not at all.
   */
  lemma FetchCallOrder(o: Oracle, h: seq<Call>, a: FetchArgs)
    requires !a.loginMode
    ensures var s := Browse(o, h, a);
            var plan := Plan(a.url, a.timeout * 1000, a.waitSeconds, Selected(a.selector), a.textOnly);
      && |s.calls| > 0
      && s.calls[0] == Goto(a.url, a.timeout * 1000, true)
      && (s.calls <= plan || s.calls == plan + [CloseContext])
      && (a.waitSeconds > 0 && |s.calls| > 1 ==> s.calls[1] == WaitForTimeout(a.waitSeconds * 1000))
      && (forall i :: 0 <= i < |s.calls| && s.calls[i].WaitForTimeout? ==> i == 1 && a.waitSeconds > 0)
  {
    VisitOrder(o, h, a.url, a.timeout * 1000, a.waitSeconds, a.selector, a.textOnly);
  }

  lemma VisitOrder(o: Oracle, h: seq<Call>, url: string, timeoutMs: int, waitSeconds: int,
                   selector: Option<string>, textOnly: bool)
    ensures var s := Visit(o, h, url, timeoutMs, waitSeconds, selector, textOnly);
            var plan := Plan(url, timeoutMs, waitSeconds, Selected(selector), textOnly);
      && |s.calls| > 0
      && s.calls[0] == Goto(url, timeoutMs, true)
      && (s.calls <= plan || s.calls == plan + [CloseContext])
      && (waitSeconds > 0 && |s.calls| > 1 ==> s.calls[1] == WaitForTimeout(waitSeconds * 1000))
      && (forall i :: 0 <= i < |s.calls| && s.calls[i].WaitForTimeout? ==> i == 1 && waitSeconds > 0)
      && (forall i :: 0 <= i < |s.calls| ==> !s.calls[i].NewPage?)
  {
    var sel := Selected(selector);
    var plan := Plan(url, timeoutMs, waitSeconds, sel, textOnly);
    var s := Visit(o, h, url, timeoutMs, waitSeconds, selector, textOnly);
    VisitCalls(o, h, url, timeoutMs, waitSeconds, selector, textOnly);
    PlanShape(url, timeoutMs, waitSeconds, sel, textOnly);
    assert forall i :: 0 <= i < |s.calls| ==> (i < |plan| && s.calls[i] == plan[i]) || s.calls[i] == CloseContext;
  }

  /** The calls of a visit: a prefix of the plan, or the whole plan and the close. */
  lemma VisitCalls(o: Oracle, h: seq<Call>, url: string, timeoutMs: int, waitSeconds: int,
                   selector: Option<string>, textOnly: bool)
    ensures var s := Visit(o, h, url, timeoutMs, waitSeconds, selector, textOnly);
            var plan := Plan(url, timeoutMs, waitSeconds, Selected(selector), textOnly);
      && |s.calls| > 0
      && (s.calls <= plan || s.calls == plan + [CloseContext])
  {
    var plan := Plan(url, timeoutMs, waitSeconds, Selected(selector), textOnly);
    var w := LoadPage(o, h, url, timeoutMs, waitSeconds, selector, textOnly);
    assert |w.calls| > 0 && w.calls <= plan;
    if w.outcome.Extracted? {
      ExtractedContent(o, h, url, timeoutMs, waitSeconds, selector, textOnly);
    }
  }

  /**
   * A given selector that matches nothing raises "Selector '<s>' not
   * found on page": nothing is extracted and the context is not closed.
   */
  lemma SelectorMissRaises(o: Oracle, h: seq<Call>, a: FetchArgs)
    requires !a.loginMode
    requires LoadPage(o, h, a.url, a.timeout * 1000, a.waitSeconds, a.selector, a.textOnly).outcome.SelectorMissing?
    ensures var s := Browse(o, h, a);
      && Selected(a.selector).Some?
      && s.result == Failed("Selector '" + Selected(a.selector).value + "' not found on page")
      && !o.finds(h + Init(s.calls), Selected(a.selector).value)
      && (forall i :: 0 <= i < |s.calls| ==> !IsExtraction(s.calls[i]))
      && NeverCloses(s.calls)
  {
    VisitSelectorMiss(o, h, a.url, a.timeout * 1000, a.waitSeconds, a.selector, a.textOnly);
  }

  lemma VisitSelectorMiss(o: Oracle, h: seq<Call>, url: string, timeoutMs: int, waitSeconds: int,
                          selector: Option<string>, textOnly: bool)
    requires LoadPage(o, h, url, timeoutMs, waitSeconds, selector, textOnly).outcome.SelectorMissing?
    ensures var s := Visit(o, h, url, timeoutMs, waitSeconds, selector, textOnly);
      && Selected(selector).Some?
      && s.result == Failed(NotFoundOnPage(Selected(selector).value))
      && !o.finds(h + Init(s.calls), Selected(selector).value)
      && (forall i :: 0 <= i < |s.calls| ==> !IsExtraction(s.calls[i]))
      && NeverCloses(s.calls)
  {
    var sel := Selected(selector);
    SelectorMissStopsBeforeExtraction(o, h, url, timeoutMs, waitSeconds, selector, textOnly);
    PlanShape(url, timeoutMs, waitSeconds, sel, textOnly);
    var plan := Plan(url, timeoutMs, waitSeconds, sel, textOnly);
    var s := Visit(o, h, url, timeoutMs, waitSeconds, selector, textOnly);
    assert forall i :: 0 <= i < |s.calls| ==> s.calls[i] == plan[i];
  }

  /**
   * An exception from a page call outside login mode propagates out of
   * `fetch_url` with that call's message: every earlier call returned
   * normally, and the context is not closed.
   */
  lemma PageCallRaises(o: Oracle, h: seq<Call>, a: FetchArgs)
    requires !a.loginMode
    requires LoadPage(o, h, a.url, a.timeout * 1000, a.waitSeconds, a.selector, a.textOnly).outcome.Raised?
    ensures var s := Browse(o, h, a);
            var plan := Plan(a.url, a.timeout * 1000, a.waitSeconds, Selected(a.selector), a.textOnly);
      && |s.calls| > 0
      && s.calls <= plan
      && s.result.Failed?
      && NeverCloses(s.calls)
      && Passed(o, h, Init(s.calls))
      && o.raises(h + Init(s.calls), Last(s.calls)) == Some(s.result.message)
  {
    VisitRaised(o, h, a.url, a.timeout * 1000, a.waitSeconds, a.selector, a.textOnly);
  }

  lemma VisitRaised(o: Oracle, h: seq<Call>, url: string, timeoutMs: int, waitSeconds: int,
                    selector: Option<string>, textOnly: bool)
    requires LoadPage(o, h, url, timeoutMs, waitSeconds, selector, textOnly).outcome.Raised?
    ensures var s := Visit(o, h, url, timeoutMs, waitSeconds, selector, textOnly);
            var plan := Plan(url, timeoutMs, waitSeconds, Selected(selector), textOnly);
      && |s.calls| > 0
      && s.calls <= plan
      && s.result.Failed?
      && NeverCloses(s.calls)
      && Passed(o, h, Init(s.calls))
      && o.raises(h + Init(s.calls), Last(s.calls)) == Some(s.result.message)
  {
    var sel := Selected(selector);
    RaisedByLastCall(o, h, url, timeoutMs, waitSeconds, selector, textOnly);
    PlanShape(url, timeoutMs, waitSeconds, sel, textOnly);
    var plan := Plan(url, timeoutMs, waitSeconds, sel, textOnly);
    var s := Visit(o, h, url, timeoutMs, waitSeconds, selector, textOnly);
    assert forall i :: 0 <= i < |s.calls| ==> s.calls[i] == plan[i];
  }

  /**
   * Content is returned only after every planned call returned normally
   * and the context was closed, last; it is what the extraction chosen by
   * the four-way rule returned.
   */
  lemma ReturnedContent(o: Oracle, h: seq<Call>, a: FetchArgs)
    requires !a.loginMode
    requires Browse(o, h, a).result.Returned?
    ensures var s := Browse(o, h, a);
            var sel := Selected(a.selector);
            var plan := Plan(a.url, a.timeout * 1000, a.waitSeconds, sel, a.textOnly);
      && s.calls == plan + [CloseContext]
      && Passed(o, h, s.calls)
      && NeverCloses(plan)
      && s.result.content == o.extracts(h + Init(plan), ExtractionCall(sel, a.textOnly))
      && (sel.Some? && a.textOnly ==> Last(plan) == ElementInnerText(sel.value))
      && (sel.Some? && !a.textOnly ==> Last(plan) == ElementInnerHtml(sel.value))
      && (sel.None? && a.textOnly ==> Last(plan) == InnerText("body"))
      && (sel.None? && !a.textOnly ==> Last(plan) == Content)
  {
    VisitReturned(o, h, a.url, a.timeout * 1000, a.waitSeconds, a.selector, a.textOnly);
  }

  lemma VisitReturned(o: Oracle, h: seq<Call>, url: string, timeoutMs: int, waitSeconds: int,
                      selector: Option<string>, textOnly: bool)
    requires Visit(o, h, url, timeoutMs, waitSeconds, selector, textOnly).result.Returned?
    ensures var s := Visit(o, h, url, timeoutMs, waitSeconds, selector, textOnly);
            var sel := Selected(selector);
            var plan := Plan(url, timeoutMs, waitSeconds, sel, textOnly);
      && s.calls == plan + [CloseContext]
      && Passed(o, h, s.calls)
      && NeverCloses(plan)
      && Last(plan) == ExtractionCall(sel, textOnly)
      && s.result.content == o.extracts(h + Init(plan), ExtractionCall(sel, textOnly))
  {
    var sel := Selected(selector);
    var plan := Plan(url, timeoutMs, waitSeconds, sel, textOnly);
    var w := LoadPage(o, h, url, timeoutMs, waitSeconds, selector, textOnly);
    PlanShape(url, timeoutMs, waitSeconds, sel, textOnly);
    if w.outcome.SelectorMissing? {
      assert false;
    } else if w.outcome.Raised? {
      assert false;
    }
    ExtractedContent(o, h, url, timeoutMs, waitSeconds, selector, textOnly);
    PassedExtend(o, h, plan, CloseContext);
  }

  /**
   * On every path that returns, the context is closed exactly once, as
   * the last call.
   */
  lemma ClosedOnceOnSuccess(o: Oracle, h: seq<Call>, a: FetchArgs)
    requires FetchRun(o, h, a).result.Returned?
    ensures var s := FetchRun(o, h, a);
      && |s.calls| > 0
      && Last(s.calls) == CloseContext
      && NeverCloses(Init(s.calls))
  {
    var launch := LaunchCall(a);
    var h1 := h + [launch];
    PageChoice(o, h, a);
    var pre := if o.hasPages(h1) then [launch] else [launch, NewPage];
    var b := Browse(o, h + pre, a);
    BrowseClosesLast(o, h + pre, a);
    ClosesLastAfter(pre, b.calls);
  }

  lemma ClosesLastAfter(pre: seq<Call>, calls: seq<Call>)
    requires NeverCloses(pre) && |calls| > 0 && Last(calls) == CloseContext && NeverCloses(Init(calls))
    ensures var all := pre + calls; |all| > 0 && Last(all) == CloseContext && NeverCloses(Init(all))
  {
    assert Init(pre + calls) == pre + Init(calls);
  }

  lemma BrowseClosesLast(o: Oracle, h: seq<Call>, a: FetchArgs)
    requires Browse(o, h, a).result.Returned?
    ensures var b := Browse(o, h, a);
      |b.calls| > 0 && Last(b.calls) == CloseContext && NeverCloses(Init(b.calls))
  {
    if a.loginMode {
      LoginSteps(o, h, a.url, a.timeout * 1000);
    } else {
      var url, timeoutMs, waitSeconds, selector, textOnly :=
        a.url, a.timeout * 1000, a.waitSeconds, a.selector, a.textOnly;
      VisitReturned(o, h, url, timeoutMs, waitSeconds, selector, textOnly);
      var plan := Plan(url, timeoutMs, waitSeconds, Selected(selector), textOnly);
      assert Init(plan + [CloseContext]) == plan;
    }
  }

  // ------------------------------------------------------------ the procedure

  /** `fetch_url` on browser `b`. */
  method FetchUrl(b: Browser, a: FetchArgs) returns (r: Result)
    modifies b
    ensures var s := FetchRun(b.oracle, old(b.trace), a);
      b.trace == old(b.trace) + s.calls && r == s.result
  {
    ghost var h := b.trace;
    var launch := Launch(a.headless && !a.loginMode);
    var raised := b.Invoke(launch);
    if raised.Some? {
      return Failed(raised.value);
    }
    r := TakePage(b, a);
    AppendTwice(h, [launch], AfterLaunch(b.oracle, h + [launch], a).calls);
  }

  /** `context.pages[0] if context.pages else context.new_page()`, then the rest. */
  method TakePage(b: Browser, a: FetchArgs) returns (r: Result)
    modifies b
    ensures var s := AfterLaunch(b.oracle, old(b.trace), a);
      b.trace == old(b.trace) + s.calls && r == s.result
  {
    ghost var h := b.trace;
    var existing := b.HasPages();
    if existing {
      r := UsePage(b, a);
    } else {
      var raised := b.Invoke(NewPage);
      if raised.Some? {
        return Failed(raised.value);
      }
      r := UsePage(b, a);
      AppendTwice(h, [NewPage], Browse(b.oracle, h + [NewPage], a).calls);
    }
  }

  /** Everything after the page is chosen. */
  method UsePage(b: Browser, a: FetchArgs) returns (r: Result)
    modifies b
    ensures var s := Browse(b.oracle, old(b.trace), a);
      b.trace == old(b.trace) + s.calls && r == s.result
  {
    if a.loginMode {
      r := LogIn(b, a.url, a.timeout * 1000);
      return;
    }
    var outcome := Load(b, a.url, a.timeout * 1000, a.waitSeconds, a.selector, a.textOnly);
    match outcome
    case SelectorMissing(s) =>
      return Failed(NotFoundOnPage(s));
    case Raised(m) =>
      return Failed(m);
    case Extracted(content) =>
      r := CloseThenReturn(b, Returned(content));
  }

  /** The login branch. */
  method LogIn(b: Browser, url: string, timeoutMs: int) returns (r: Result)
    modifies b
    ensures var s := Login(b.oracle, old(b.trace), url, timeoutMs);
      b.trace == old(b.trace) + s.calls && r == s.result
  {
    ghost var h := b.trace;
    var nav := Goto(url, timeoutMs, false);
    var raised := b.Invoke(nav);
    if raised.Some? {
      return Failed(raised.value);
    }
    raised := b.Invoke(PromptEnter);
    if raised.Some? {
      assert b.trace == h + [nav, PromptEnter];
      return Failed(raised.value);
    }
    assert b.trace == h + [nav, PromptEnter];
    r := CloseThenReturn(b, Returned(LoginSaved));
    assert b.trace == h + ([nav, PromptEnter] + [CloseContext]);
  }

  /** `context.close()`, then return `result`. */
  method CloseThenReturn(b: Browser, result: Result) returns (r: Result)
    modifies b
    ensures var s := Close(b.oracle, old(b.trace), result);
      b.trace == old(b.trace) + s.calls && r == s.result
  {
    var raised := b.Invoke(CloseContext);
    if raised.Some? {
      return Failed(raised.value);
    }
    return result;
  }
}
