/**
 * The browser as the core sees it: a persistent context and its page,
 * reduced to an oracle that answers each call, and a recorder that keeps
 * the trace of the calls issued. Navigation, network idleness, the DOM and
 * CSS selector semantics all live behind the oracle.
 */
module Playwright {
  import opened Wrappers

  /** One call into the browser library. */
  datatype Call =
    /** `launch_persistent_context(..., headless=headless)` */
    | Launch(headless: bool)
    /** `context.new_page()` */
    | NewPage
    /** `page.goto(url, timeout=timeoutMs[, wait_until='networkidle'])` */
    | Goto(url: string, timeoutMs: int, untilNetworkIdle: bool)
    /** `page.wait_for_timeout(ms)` */
    | WaitForTimeout(ms: int)
    /** `page.query_selector(selector)` */
    | QuerySelector(selector: string)
    /** `inner_text()` of the element that `selector` found */
    | ElementInnerText(selector: string)
    /** `inner_html()` of the element that `selector` found */
    | ElementInnerHtml(selector: string)
    /** `page.inner_text(selector)` */
    | InnerText(selector: string)
    /** `page.content()` */
    | Content
    /** the blocking `input()` that waits for the user to press Enter */
    | PromptEnter
    /** `context.close()` */
    | CloseContext

  /** The calls whose result is a string taken from the page. */
  predicate IsExtraction(c: Call) {
    c.ElementInnerText? || c.ElementInnerHtml? || c.InnerText? || c.Content?
  }

  /**
   * What the browser answers. Each field receives the calls issued before
   * the one being answered, so the page may behave differently as it is
   * navigated.
   */
  datatype Oracle = Oracle(
    /** the message of the exception the call raises, if it raises */
    raises: (seq<Call>, Call) -> Option<string>,
    /** whether `query_selector(selector)` returns an element */
    finds: (seq<Call>, string) -> bool,
    /** the string an extraction call returns */
    extracts: (seq<Call>, Call) -> string,
    /** whether `context.pages` is non-empty */
    hasPages: seq<Call> -> bool
  )

  /** The live browser: its oracle and every call issued to it so far. */
  class Browser {
    const oracle: Oracle
    var trace: seq<Call>

    constructor (oracle: Oracle)
      ensures this.oracle == oracle && trace == []
    {
      this.oracle := oracle;
      trace := [];
    }

    /** Issue a call whose only outcome of interest is whether it raises. */
    method Invoke(c: Call) returns (raised: Option<string>)
      modifies this
      ensures trace == old(trace) + [c]
      ensures raised == oracle.raises(old(trace), c)
    {
      raised := oracle.raises(trace, c);
      trace := trace + [c];
    }

    /** `page.query_selector(selector)`: `found` is meaningful when nothing was raised. */
    method QuerySelector(selector: string) returns (raised: Option<string>, found: bool)
      modifies this
      ensures trace == old(trace) + [Call.QuerySelector(selector)]
      ensures raised == oracle.raises(old(trace), Call.QuerySelector(selector))
      ensures found == oracle.finds(old(trace), selector)
    {
      raised := oracle.raises(trace, Call.QuerySelector(selector));
      found := oracle.finds(trace, selector);
      trace := trace + [Call.QuerySelector(selector)];
    }

    /** An extraction call: `text` is meaningful when nothing was raised. */
    method Extract(c: Call) returns (raised: Option<string>, text: string)
      requires IsExtraction(c)
      modifies this
      ensures trace == old(trace) + [c]
      ensures raised == oracle.raises(old(trace), c)
      ensures text == oracle.extracts(old(trace), c)
    {
      raised := oracle.raises(trace, c);
      text := oracle.extracts(trace, c);
      trace := trace + [c];
    }

    /** Reading `context.pages`, which issues no call. */
    method HasPages() returns (b: bool)
      ensures b == oracle.hasPages(trace)
    {
      b := oracle.hasPages(trace);
    }
  }
}
