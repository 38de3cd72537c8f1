/**
 * The unit of work both entry points perform on a page: navigate and wait
 * for network idleness, optionally pause, optionally look up a CSS
 * selector, then extract text or HTML. The server (`handle_fetch`) and the
 * one-shot fetch (`fetch_url`) issue the same sequence and differ only in
 * the navigation timeout and in what they make of the outcome.
 */
module Navigation {
  import opened Wrappers
  import opened Playwright

  /** How a unit of work ended. */
  datatype Extraction =
    | Extracted(content: string)
    | SelectorMissing(selector: string)
    | Raised(message: string)

  /** The calls a unit of work issued and how it ended. */
  datatype Work = Work(calls: seq<Call>, outcome: Extraction)

  /** `if selector:`: a selector counts only when it is present and non-empty. */
  function Selected(selector: Option<string>): (s: Option<string>)
    ensures s.Some? <==> selector.Some? && selector.value != ""
    ensures s.Some? ==> s == selector
  {
    if selector.Some? && selector.value != "" then selector else None
  }

  /**
   * The four-way choice of what to extract: the found element's text or
   * HTML when a selector is given, otherwise the body's text or the whole
   * document.
   */
  function ExtractionCall(selector: Option<string>, textOnly: bool): (c: Call)
    ensures IsExtraction(c)
    ensures selector.Some? && textOnly ==> c == ElementInnerText(selector.value)
    ensures selector.Some? && !textOnly ==> c == ElementInnerHtml(selector.value)
    ensures selector.None? && textOnly ==> c == InnerText("body")
    ensures selector.None? && !textOnly ==> c == Content
  {
    match selector
    case Some(s) => if textOnly then ElementInnerText(s) else ElementInnerHtml(s)
    case None => if textOnly then InnerText("body") else Content
  }

  /**
   * The calls a unit of work issues when nothing goes wrong: the
   * network-idle navigation, the pause when it is positive, the selector
   * lookup when a selector is given, and the extraction.
   */
  function Plan(url: string, timeoutMs: int, waitSeconds: int, selector: Option<string>, textOnly: bool): seq<Call> {
    [Goto(url, timeoutMs, true)] + PauseThenExtract(waitSeconds, selector, textOnly)
  }

  /** The plan after the navigation. */
  function PauseThenExtract(waitSeconds: int, selector: Option<string>, textOnly: bool): seq<Call> {
    (if waitSeconds > 0 then [WaitForTimeout(waitSeconds * 1000)] else [])
    + LookupThenExtract(selector, textOnly)
  }

  /** The plan after the pause. */
  function LookupThenExtract(selector: Option<string>, textOnly: bool): seq<Call> {
    (if selector.Some? then [QuerySelector(selector.value)] else [])
    + [ExtractionCall(selector, textOnly)]
  }

  /** The plan's shape, position by position. */
  lemma PlanShape(url: string, timeoutMs: int, waitSeconds: int, selector: Option<string>, textOnly: bool)
    ensures var p := Plan(url, timeoutMs, waitSeconds, selector, textOnly);
      && |p| == 2 + (if waitSeconds > 0 then 1 else 0) + (if selector.Some? then 1 else 0)
      && p[0] == Goto(url, timeoutMs, true)
      && (waitSeconds > 0 ==> p[1] == WaitForTimeout(waitSeconds * 1000))
      && (selector.Some? ==> p[|p| - 2] == QuerySelector(selector.value))
      && p[|p| - 1] == ExtractionCall(selector, textOnly)
      && (forall i :: 0 <= i < |p| && p[i].WaitForTimeout? ==> i == 1 && waitSeconds > 0)
      && (forall i :: 0 <= i < |p| && p[i].QuerySelector? ==> selector.Some? && i == |p| - 2)
      && (forall i :: 0 <= i < |p| - 1 ==> !IsExtraction(p[i]))
  {
  }

  /** Appending in two steps is appending their concatenation. */
  lemma AppendTwice(h: seq<Call>, x: seq<Call>, y: seq<Call>)
    ensures h + x + y == h + (x + y)
  {
  }

  /** The calls before the last one. */
  function Init(calls: seq<Call>): seq<Call>
    requires |calls| > 0
  {
    calls[..|calls| - 1]
  }

  function Last(calls: seq<Call>): Call
    requires |calls| > 0
  {
    calls[|calls| - 1]
  }

  /**
   * Every call in `calls`, answered after history `h` and the calls before
   * it, returned normally, and every selector lookup among them found an
   * element.
   */
  ghost predicate Passed(o: Oracle, h: seq<Call>, calls: seq<Call>) {
    forall i :: 0 <= i < |calls| ==>
      && o.raises(h + calls[..i], calls[i]).None?
      && (calls[i].QuerySelector? ==> o.finds(h + calls[..i], calls[i].selector))
  }

  lemma PassedExtend(o: Oracle, h: seq<Call>, calls: seq<Call>, c: Call)
    requires Passed(o, h, calls)
    requires o.raises(h + calls, c).None?
    requires c.QuerySelector? ==> o.finds(h + calls, c.selector)
    ensures Passed(o, h, calls + [c])
  {
    var ext := calls + [c];
    assert ext[..|calls|] == calls;
    assert forall i :: 0 <= i < |calls| ==> ext[..i] == calls[..i];
  }

  lemma PassedCons(o: Oracle, h: seq<Call>, c: Call, calls: seq<Call>)
    requires o.raises(h, c).None?
    requires c.QuerySelector? ==> o.finds(h, c.selector)
    requires Passed(o, h + [c], calls)
    ensures Passed(o, h, [c] + calls)
  {
    var ext := [c] + calls;
    forall i | 0 <= i < |ext|
      ensures o.raises(h + ext[..i], ext[i]).None?
      ensures ext[i].QuerySelector? ==> o.finds(h + ext[..i], ext[i].selector)
    {
      if i == 0 {
        assert h + ext[..0] == h;
      } else {
        assert ext[..i] == [c] + calls[..i - 1];
        assert h + ext[..i] == (h + [c]) + calls[..i - 1];
      }
    }
  }

  /** `w` preceded by the calls `done`. */
  function Shift(done: seq<Call>, w: Work): Work {
    Work(done + w.calls, w.outcome)
  }

  /**
   * Issue `plan` in order after history `h`, stopping at the first call that
   * raises and at a selector lookup that finds nothing; the value of the
   * last call is the content.
   */
  function Run(o: Oracle, h: seq<Call>, plan: seq<Call>): (w: Work)
    requires |plan| > 0
    ensures |w.calls| > 0 && w.calls <= plan
    decreases |plan|
  {
    var c := plan[0];
    match o.raises(h, c)
    case Some(m) => Work([c], Raised(m))
    case None =>
      if c.QuerySelector? && !o.finds(h, c.selector) then Work([c], SelectorMissing(c.selector))
      else if |plan| == 1 then Work([c], Extracted(o.extracts(h, c)))
      else Shift([c], Run(o, h + [c], plan[1..]))
  }

  /** `Run` past a first call that returned normally. */
  lemma RunStep(o: Oracle, h: seq<Call>, plan: seq<Call>)
    requires |plan| > 1 && o.raises(h, plan[0]).None?
    requires plan[0].QuerySelector? ==> o.finds(h, plan[0].selector)
    ensures Run(o, h, plan) == Shift([plan[0]], Run(o, h + [plan[0]], plan[1..]))
  {
  }

  /**
   * The last call of `w`, answered after `h` and the calls before it,
   * accounts for the outcome; content comes only from completing `plan`.
   */
  ghost predicate Explains(o: Oracle, h: seq<Call>, plan: seq<Call>, w: Work)
    requires |w.calls| > 0
  {
    var last := Last(w.calls);
    var before := h + Init(w.calls);
    match w.outcome
    case Raised(m) => o.raises(before, last) == Some(m)
    case SelectorMissing(s) =>
      o.raises(before, last).None? && last == QuerySelector(s) && !o.finds(before, s)
    case Extracted(content) =>
      o.raises(before, last).None? && w.calls == plan && content == o.extracts(before, last)
  }

  lemma ExplainsShift(o: Oracle, h: seq<Call>, c: Call, plan: seq<Call>, w: Work)
    requires |w.calls| > 0 && |plan| > 0 && plan[0] == c
    requires Explains(o, h + [c], plan[1..], w)
    ensures Explains(o, h, plan, Shift([c], w))
  {
    var v := Shift([c], w);
    assert Last(v.calls) == Last(w.calls);
    assert Init(v.calls) == [c] + Init(w.calls);
    assert h + Init(v.calls) == (h + [c]) + Init(w.calls);
    assert w.calls == plan[1..] ==> v.calls == plan;
  }

  /**
   * What `Run` did: every call before the last returned normally (and every
   * lookup among them found its element), and the last call accounts for
   * the outcome.
   */
  lemma {:induction false} RunStopsAtFirstFailure(o: Oracle, h: seq<Call>, plan: seq<Call>)
    requires |plan| > 0
    ensures Passed(o, h, Init(Run(o, h, plan).calls))
    ensures Explains(o, h, plan, Run(o, h, plan))
    decreases |plan|
  {
    var c := plan[0];
    var w := Run(o, h, plan);
    if o.raises(h, c).None? && !(c.QuerySelector? && !o.finds(h, c.selector)) && |plan| > 1 {
      var rest := Run(o, h + [c], plan[1..]);
      RunStopsAtFirstFailure(o, h + [c], plan[1..]);
      assert Init(w.calls) == [c] + Init(rest.calls);
      PassedCons(o, h, c, Init(rest.calls));
      ExplainsShift(o, h, c, plan, rest);
    } else {
      assert w.calls == [c];
      assert h + Init(w.calls) == h;
    }
  }

  /**
   * One unit of work, in the order the page is driven: the whole plan when
   * it succeeds, cut short by the first exception or by a missing selector.
   */
  function LoadPage(o: Oracle, h: seq<Call>, url: string, timeoutMs: int, waitSeconds: int,
                    selector: Option<string>, textOnly: bool): Work
  {
    Run(o, h, Plan(url, timeoutMs, waitSeconds, Selected(selector), textOnly))
  }

  /**
   * An exception ends the work at the call that raised it, after every
   * earlier call returned normally.
   */
  lemma RaisedByLastCall(o: Oracle, h: seq<Call>, url: string, timeoutMs: int,
                         waitSeconds: int, selector: Option<string>, textOnly: bool)
    requires LoadPage(o, h, url, timeoutMs, waitSeconds, selector, textOnly).outcome.Raised?
    ensures var w := LoadPage(o, h, url, timeoutMs, waitSeconds, selector, textOnly);
            && w.calls <= Plan(url, timeoutMs, waitSeconds, Selected(selector), textOnly)
            && Passed(o, h, Init(w.calls))
            && o.raises(h + Init(w.calls), Last(w.calls)) == Some(w.outcome.message)
  {
    RunStopsAtFirstFailure(o, h, Plan(url, timeoutMs, waitSeconds, Selected(selector), textOnly));
  }

  /** A missing selector stops the work right after the lookup: nothing is extracted. */
  lemma SelectorMissStopsBeforeExtraction(o: Oracle, h: seq<Call>, url: string, timeoutMs: int,
                                          waitSeconds: int, selector: Option<string>, textOnly: bool)
    requires LoadPage(o, h, url, timeoutMs, waitSeconds, selector, textOnly).outcome.SelectorMissing?
    ensures var w := LoadPage(o, h, url, timeoutMs, waitSeconds, selector, textOnly);
            var plan := Plan(url, timeoutMs, waitSeconds, Selected(selector), textOnly);
            && Selected(selector) == Some(w.outcome.selector)
            && w.calls == Init(plan)
            && Passed(o, h, Init(w.calls))
            && !o.finds(h + Init(w.calls), w.outcome.selector)
            && forall i :: 0 <= i < |w.calls| ==> !IsExtraction(w.calls[i])
  {
    var w := LoadPage(o, h, url, timeoutMs, waitSeconds, selector, textOnly);
    var sel := Selected(selector);
    var plan := Plan(url, timeoutMs, waitSeconds, sel, textOnly);
    RunStopsAtFirstFailure(o, h, plan);
    PlanShape(url, timeoutMs, waitSeconds, sel, textOnly);
    var k := |w.calls| - 1;
    assert w.calls[k] == plan[k];
    assert sel.Some? && k == |plan| - 2;
    assert w.calls == plan[..|plan| - 1];
  }

  /**
   * Successful work returns what the planned extraction call returned, after
   * every planned call returned normally; with a selector, the lookup
   * found its element.
   */
  lemma ExtractedContent(o: Oracle, h: seq<Call>, url: string, timeoutMs: int,
                         waitSeconds: int, selector: Option<string>, textOnly: bool)
    requires LoadPage(o, h, url, timeoutMs, waitSeconds, selector, textOnly).outcome.Extracted?
    ensures var w := LoadPage(o, h, url, timeoutMs, waitSeconds, selector, textOnly);
            var sel := Selected(selector);
            var n := |w.calls|;
            && w.calls == Plan(url, timeoutMs, waitSeconds, sel, textOnly)
            && Passed(o, h, w.calls)
            && Last(w.calls) == ExtractionCall(sel, textOnly)
            && w.outcome.content == o.extracts(h + Init(w.calls), ExtractionCall(sel, textOnly))
            && (sel.Some? ==>
                  w.calls[n - 2] == QuerySelector(sel.value) && o.finds(h + w.calls[..n - 2], sel.value))
  {
    var w := LoadPage(o, h, url, timeoutMs, waitSeconds, selector, textOnly);
    var sel := Selected(selector);
    var plan := Plan(url, timeoutMs, waitSeconds, sel, textOnly);
    RunStopsAtFirstFailure(o, h, plan);
    PlanShape(url, timeoutMs, waitSeconds, sel, textOnly);
    var n := |w.calls|;
    assert w.calls == Init(w.calls) + [Last(w.calls)];
    PassedExtend(o, h, Init(w.calls), Last(w.calls));
    if sel.Some? {
      assert Init(w.calls)[n - 2] == QuerySelector(sel.value);
      assert Init(w.calls)[..n - 2] == w.calls[..n - 2];
    }
  }

  /**
   * The unit of work as the page is driven: navigate and wait for network
   * idleness, then the rest; the first exception ends it.
   */
  method Load(b: Browser, url: string, timeoutMs: int, waitSeconds: int,
              selector: Option<string>, textOnly: bool) returns (outcome: Extraction)
    modifies b
    ensures var w := LoadPage(b.oracle, old(b.trace), url, timeoutMs, waitSeconds, selector, textOnly);
            b.trace == old(b.trace) + w.calls && outcome == w.outcome
  {
    ghost var h := b.trace;
    var sel := Selected(selector);
    var nav := Goto(url, timeoutMs, true);
    LoadPageStep(b.oracle, h, url, timeoutMs, waitSeconds, selector, textOnly);
    var raised := b.Invoke(nav);
    if raised.Some? {
      return Raised(raised.value);
    }
    outcome := PauseAndExtract(b, waitSeconds, sel, textOnly);
    AppendTwice(h, [nav], Run(b.oracle, h + [nav], PauseThenExtract(waitSeconds, sel, textOnly)).calls);
  }

  /** `LoadPage` after its first call, the navigation. */
  lemma LoadPageStep(o: Oracle, h: seq<Call>, url: string, timeoutMs: int, waitSeconds: int,
                     selector: Option<string>, textOnly: bool)
    ensures var nav := Goto(url, timeoutMs, true);
            var w := LoadPage(o, h, url, timeoutMs, waitSeconds, selector, textOnly);
            && (o.raises(h, nav).Some? ==> w == Work([nav], Raised(o.raises(h, nav).value)))
            && (o.raises(h, nav).None? ==>
                  w == Shift([nav], Run(o, h + [nav], PauseThenExtract(waitSeconds, Selected(selector), textOnly))))
  {
    var plan := Plan(url, timeoutMs, waitSeconds, Selected(selector), textOnly);
    assert plan[1..] == PauseThenExtract(waitSeconds, Selected(selector), textOnly);
  }

  /** The pause, when it is positive, then the rest. */
  method PauseAndExtract(b: Browser, waitSeconds: int, sel: Option<string>, textOnly: bool)
    returns (outcome: Extraction)
    modifies b
    ensures var w := Run(b.oracle, old(b.trace), PauseThenExtract(waitSeconds, sel, textOnly));
            b.trace == old(b.trace) + w.calls && outcome == w.outcome
  {
    ghost var h := b.trace;
    ghost var plan := PauseThenExtract(waitSeconds, sel, textOnly);
    if waitSeconds > 0 {
      var pause := WaitForTimeout(waitSeconds * 1000);
      var raised := b.Invoke(pause);
      if raised.Some? {
        return Raised(raised.value);
      }
      RunStep(b.oracle, h, plan);
      assert plan[1..] == LookupThenExtract(sel, textOnly);
      outcome := LookupAndExtract(b, sel, textOnly);
      AppendTwice(h, [pause], Run(b.oracle, h + [pause], LookupThenExtract(sel, textOnly)).calls);
    } else {
      assert plan == LookupThenExtract(sel, textOnly);
      outcome := LookupAndExtract(b, sel, textOnly);
    }
  }

  /** The selector lookup, when there is a selector, and the extraction. */
  method LookupAndExtract(b: Browser, sel: Option<string>, textOnly: bool) returns (outcome: Extraction)
    modifies b
    ensures var w := Run(b.oracle, old(b.trace), LookupThenExtract(sel, textOnly));
            b.trace == old(b.trace) + w.calls && outcome == w.outcome
  {
    ghost var h := b.trace;
    ghost var plan := LookupThenExtract(sel, textOnly);
    var raised: Option<string>;
    if sel.Some? {
      var found;
      raised, found := b.QuerySelector(sel.value);
      if raised.Some? {
        return Raised(raised.value);
      }
      if !found {
        return SelectorMissing(sel.value);
      }
      RunStep(b.oracle, h, plan);
      assert plan[1..] == [ExtractionCall(sel, textOnly)];
    }
    var content;
    raised, content := b.Extract(ExtractionCall(sel, textOnly));
    if raised.Some? {
      return Raised(raised.value);
    }
    return Extracted(content);
  }
}
