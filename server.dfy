/**
 * Server mode: the request handler that serves `/fetch`, `/health` and
 * `/shutdown` over one shared browser page, behind an optional token.
 *
 * `Dispatch` states what one GET request does: the calls it issues to the
 * shared page, the effects it has on the response stream and the server,
 * and whether an exception escapes the handler. The class `Handler` is the
 * handler itself, step by step, and each of its methods is proved to do
 * exactly what `Dispatch` and its parts say.
 */
module Server {
  import opened Wrappers
  import opened PyText
  import opened Playwright
  import opened Navigation

  /** Navigation timeout of every `/fetch`, in milliseconds. */
  const FetchTimeoutMs := 30000

  const UsageHint := "Use /fetch?url=... or /health or /shutdown"
  const TokenRejected := "Invalid or missing token"
  const UrlMissing := "Missing 'url' parameter"
  const PlainUtf8 := "text/plain; charset=utf-8"

  /** What one handler writes back. */
  datatype Response =
    /** `send_response(status)`, one `Content-Type` header, then the body */
    | Reply(status: int, contentType: string, body: string)
    /** `send_error(status, message)` */
    | ErrorPage(status: int, message: string)

  /** What a handler does outside the page: answer, or ask the server to stop. */
  datatype Effect = Send(response: Response) | StopServer

  const HealthReply := Reply(200, "application/json", "{\"status\": \"ok\"}")
  const ShutdownReply := Reply(200, "text/plain", "Shutting down...")

  /**
   * One request's behaviour: the calls issued to the shared page, the
   * effects in order, and, when the handler raised, the `wait` text that
   * `int()` rejected (no response is written then).
   */
  datatype Exchange = Exchange(calls: seq<Call>, effects: seq<Effect>, uncaught: Option<string>)

  datatype Endpoint = FetchPath | HealthPath | ShutdownPath | OtherPath

  function Route(path: string): (e: Endpoint)
    ensures e == FetchPath <==> path == "/fetch"
    ensures e == HealthPath <==> path == "/health"
    ensures e == ShutdownPath <==> path == "/shutdown"
  {
    if path == "/fetch" then FetchPath
    else if path == "/health" then HealthPath
    else if path == "/shutdown" then ShutdownPath
    else OtherPath
  }

  /** Python truthiness of an optional string. */
  predicate Truthy(s: Option<string>) {
    s.Some? && s.value != ""
  }

  /**
   * `check_token`: with no token configured (None or empty) every request
   * passes; otherwise the first `token` value must equal it exactly.
   */
  predicate TokenAccepted(q: Query, required: Option<string>) {
    !Truthy(required) || First(q, "token") == required
  }

  /** The parameters of an admitted `/fetch`. */
  datatype Params = Params(url: string, textOnly: bool, selector: Option<string>, wait: int)

  /** How `handle_fetch` reads its query before touching the page. */
  datatype Admission = NoUrl | BadWait(text: string) | Admitted(params: Params)

  function Admit(q: Query): Admission {
    var url := First(q, "url");
    if !Truthy(url) then NoUrl
    else
      var textOnly := AsciiLower(FirstOr(q, "text", "false")) == "true";
      var selector := First(q, "selector");
      var waitText := FirstOr(q, "wait", "5");
      match ParseInt(waitText)
      case None => BadWait(waitText)
      case Some(wait) => Admitted(Params(url.value, textOnly, selector, wait))
  }

  /** The answer to a unit of work, as the `try` block and its handler send it. */
  function Answer(e: Extraction): (r: Response)
    ensures r.status == 200 <==> e.Extracted?
    ensures r.status == 404 <==> e.SelectorMissing?
    ensures r.status == 500 <==> e.Raised?
  {
    match e
    case Extracted(content) => Reply(200, PlainUtf8, content)
    case SelectorMissing(s) => ErrorPage(404, "Selector '" + s + "' not found")
    case Raised(m) => ErrorPage(500, m)
  }

  /** `handle_fetch` after the token check. */
  function FetchExchange(q: Query, o: Oracle, h: seq<Call>): Exchange {
    Handle(Admit(q), o, h)
  }

  /** `handle_fetch` once the query has been read. */
  function Handle(a: Admission, o: Oracle, h: seq<Call>): Exchange {
    match a
    case NoUrl => Exchange([], [Send(ErrorPage(400, UrlMissing))], None)
    case BadWait(t) => Exchange([], [], Some(t))
    case Admitted(p) => Serve(p, o, h)
  }

  /** The `try` block of `handle_fetch`: one unit of work on the page, then its answer. */
  function Serve(p: Params, o: Oracle, h: seq<Call>): Exchange {
    var w := LoadPage(o, h, p.url, FetchTimeoutMs, p.wait, p.selector, p.textOnly);
    Exchange(w.calls, [Send(Answer(w.outcome))], None)
  }

  const Rejected := Exchange([], [Send(ErrorPage(401, TokenRejected))], None)

  /** `do_GET` on an already split path and query, after history `h` of the shared page. */
  function Dispatch(path: string, q: Query, required: Option<string>, o: Oracle, h: seq<Call>): Exchange {
    match Route(path)
    case FetchPath =>
      if TokenAccepted(q, required) then FetchExchange(q, o, h) else Rejected
    case HealthPath => Exchange([], [Send(HealthReply)], None)
    case ShutdownPath =>
      if TokenAccepted(q, required) then Exchange([], [Send(ShutdownReply), StopServer], None)
      else Rejected
    case OtherPath => Exchange([], [Send(ErrorPage(404, UsageHint))], None)
  }

  // ------------------------------------------------------------ properties

  /** `/health` answers the fixed JSON, whatever the query and the token, and touches nothing. */
  lemma HealthAlwaysOk(q: Query, required: Option<string>, o: Oracle, h: seq<Call>)
    ensures Dispatch("/health", q, required, o, h)
         == Exchange([], [Send(Reply(200, "application/json", "{\"status\": \"ok\"}"))], None)
  {
  }

  /** The token check passes iff no token is configured or the first `token` value equals it. */
  lemma TokenCheck(q: Query, required: Option<string>)
    ensures TokenAccepted(q, required) <==>
      (required.None? || required.value == ""
       || ("token" in q && q["token"][0] == required.value))
  {
  }

  /**
   * On `/fetch` and `/shutdown`, a rejected token gives 401 and nothing
   * else; an accepted one never gives 401.
   */
  lemma TokenGate(path: string, q: Query, required: Option<string>, o: Oracle, h: seq<Call>)
    requires path == "/fetch" || path == "/shutdown"
    ensures var x := Dispatch(path, q, required, o, h);
      && (!TokenAccepted(q, required) <==>
            x == Exchange([], [Send(ErrorPage(401, "Invalid or missing token"))], None))
      && (TokenAccepted(q, required) ==>
            forall i :: 0 <= i < |x.effects| && x.effects[i].Send? ==> x.effects[i].response.status != 401)
  {
    if TokenAccepted(q, required) && path == "/fetch" {
      HandleNeverRejects(Admit(q), o, h);
    }
  }

  lemma HandleNeverRejects(a: Admission, o: Oracle, h: seq<Call>)
    ensures var x := Handle(a, o, h);
      forall i :: 0 <= i < |x.effects| && x.effects[i].Send? ==> x.effects[i].response.status != 401
  {
    if a.Admitted? {
      var p := a.params;
      var w := LoadPage(o, h, p.url, FetchTimeoutMs, p.wait, p.selector, p.textOnly);
      assert Answer(w.outcome).status != 401;
    }
  }

  /** Any other path is a 404 with the usage hint, without page calls. */
  lemma UnknownPathIsNotFound(path: string, q: Query, required: Option<string>, o: Oracle, h: seq<Call>)
    requires path != "/fetch" && path != "/health" && path != "/shutdown"
    ensures Dispatch(path, q, required, o, h)
         == Exchange([], [Send(ErrorPage(404, "Use /fetch?url=... or /health or /shutdown"))], None)
  {
  }

  /** An absent or empty first `url` is a 400 before any page call. */
  lemma MissingUrlIsBadRequest(q: Query, required: Option<string>, o: Oracle, h: seq<Call>)
    requires TokenAccepted(q, required)
    requires "url" !in q || q["url"][0] == ""
    ensures Dispatch("/fetch", q, required, o, h)
         == Exchange([], [Send(ErrorPage(400, "Missing 'url' parameter"))], None)
  {
  }

  /** `str(5)` is `"5"`, which `int()` reads as 5. */
  lemma DefaultWaitIsFive()
    ensures ParseInt("5") == Some(5)
  {
    SmallWithinLimit(5);
    ParseShow(5);
    assert Show(5) == [DigitChar(5)];
    assert DigitChar(5) == '5';
  }

  /**
   * Each parameter comes from its first value: `text` is true iff it
   * lower-cases to "true" (absent means false), `selector` may be absent,
   * `wait` is `int()` of its text and 5 when absent; a `wait` that
   * `int()` rejects stops the request.
   */
  lemma ParameterDefaults(q: Query)
    requires "url" in q && q["url"][0] != ""
    ensures var waitText := if "wait" in q then q["wait"][0] else "5";
      match Admit(q)
      case NoUrl => false
      case BadWait(t) => t == waitText && ParseInt(waitText) == None
      case Admitted(p) =>
        && p.url == q["url"][0]
        && (p.textOnly <==> "text" in q && AsciiLower(q["text"][0]) == "true")
        && p.selector == First(q, "selector")
        && ("wait" !in q ==> p.wait == 5)
        && ParseInt(waitText) == Some(p.wait)
  {
    DefaultWaitIsFive();
    if "text" !in q {
      assert AsciiLower("false") != "true" by { IsTrueIgnoringCase("false"); }
    }
  }

  /** `int()` rejecting `wait` raises out of the handler: no response, no page call. */
  lemma BadWaitEscapesHandler(path: string, q: Query, required: Option<string>, o: Oracle, h: seq<Call>)
    ensures var x := Dispatch(path, q, required, o, h);
      && (x.uncaught.Some? <==> path == "/fetch" && TokenAccepted(q, required) && Admit(q).BadWait?)
      && (x.uncaught.Some? ==> x.calls == [] && x.effects == [])
  {
  }

  /** For instance `wait=soon`. */
  lemma NonIntegerWait(o: Oracle, h: seq<Call>)
    ensures Dispatch("/fetch", map["url" := ["https://example.com"], "wait" := ["soon"]], None, o, h)
         == Exchange([], [], Some("soon"))
  {
    AdmitSoon();
  }

  lemma AdmitSoon()
    ensures Admit(map["url" := ["https://example.com"], "wait" := ["soon"]]) == BadWait("soon")
  {
    var q: Query := map["url" := ["https://example.com"], "wait" := ["soon"]];
    assert FirstOr(q, "wait", "5") == "soon";
    ParseNeedsDigit("soon");
  }

  /**
   * A `wait` of more than `MaxStrDigits` digits, even all zeros, is past
   * `int()`'s digit limit: the handler raises, with no response and no
   * page call.
   */
  lemma OverlongWait(d: string, o: Oracle, h: seq<Call>)
    requires |d| > MaxStrDigits && forall i :: 0 <= i < |d| ==> IsDigit(d[i])
    ensures Dispatch("/fetch", map["url" := ["https://example.com"], "wait" := [d]], None, o, h)
         == Exchange([], [], Some(d))
  {
    AdmitOverlong(d);
  }

  lemma AdmitOverlong(d: string)
    requires |d| > MaxStrDigits && forall i :: 0 <= i < |d| ==> IsDigit(d[i])
    ensures Admit(map["url" := ["https://example.com"], "wait" := [d]]) == BadWait(d)
  {
    var q: Query := map["url" := ["https://example.com"], "wait" := [d]];
    assert First(q, "url") == Some("https://example.com");
    assert FirstOr(q, "wait", "5") == d;
    ParseRejectsOverlong(d);
  }

  /** An accepted `/fetch` whose query is admitted is served with those parameters. */
  lemma AdmittedFetchIsServed(q: Query, required: Option<string>, o: Oracle, h: seq<Call>)
    requires TokenAccepted(q, required) && Admit(q).Admitted?
    ensures Dispatch("/fetch", q, required, o, h) == Serve(Admit(q).params, o, h)
  {
  }

  /**
   * Serving drives the page in the fixed order: navigation with 30000 ms
   * and network idleness first, the pause of `wait * 1000` ms next only
   * when `wait` is positive, then the lookup or the extraction, stopping at
   * the first exception or a missing selector.
   */
  lemma ServeCallOrder(p: Params, o: Oracle, h: seq<Call>)
    ensures var x := Serve(p, o, h);
      && |x.calls| > 0
      && x.calls <= Plan(p.url, 30000, p.wait, Selected(p.selector), p.textOnly)
      && x.calls[0] == Goto(p.url, 30000, true)
      && (p.wait > 0 && |x.calls| > 1 ==> x.calls[1] == WaitForTimeout(p.wait * 1000))
      && (forall i :: 0 <= i < |x.calls| && x.calls[i].WaitForTimeout? ==> i == 1 && p.wait > 0)
  {
    var plan := Plan(p.url, 30000, p.wait, Selected(p.selector), p.textOnly);
    PlanShape(p.url, 30000, p.wait, Selected(p.selector), p.textOnly);
    var x := Serve(p, o, h);
    assert forall i :: 0 <= i < |x.calls| ==> x.calls[i] == plan[i];
  }

  /**
   * What serving answers: its one effect is the answer to the unit of
   * work; 200 with the extracted content as `text/plain; charset=utf-8`
   * after every planned call, 404 naming a selector that matched nothing
   * (and nothing extracted), or 500 with the message of the call that
   * raised.
   */
  lemma ServeAnswers(p: Params, o: Oracle, h: seq<Call>)
    ensures var x := Serve(p, o, h);
            var sel := Selected(p.selector);
      && |x.effects| == 1 && x.effects[0].Send? && x.uncaught == None
      && var r := x.effects[0].response;
      && (r.status == 200 || r.status == 404 || r.status == 500)
      && (r.status == 200 ==>
            && r == Reply(200, "text/plain; charset=utf-8", r.body)
            && x.calls == Plan(p.url, 30000, p.wait, sel, p.textOnly)
            && r.body == o.extracts(h + Init(x.calls), ExtractionCall(sel, p.textOnly)))
      && (r.status == 404 ==>
            && sel.Some?
            && r == ErrorPage(404, "Selector '" + sel.value + "' not found")
            && !o.finds(h + Init(x.calls), sel.value)
            && (forall i :: 0 <= i < |x.calls| ==> !IsExtraction(x.calls[i])))
      && (r.status == 500 ==>
            && o.raises(h + Init(x.calls), Last(x.calls)).Some?
            && r == ErrorPage(500, o.raises(h + Init(x.calls), Last(x.calls)).value))
  {
    var w := LoadPage(o, h, p.url, FetchTimeoutMs, p.wait, p.selector, p.textOnly);
    match w.outcome
    case Extracted(_) => ExtractedContent(o, h, p.url, FetchTimeoutMs, p.wait, p.selector, p.textOnly);
    case SelectorMissing(_) => SelectorMissStopsBeforeExtraction(o, h, p.url, FetchTimeoutMs, p.wait, p.selector, p.textOnly);
    case Raised(_) => RaisedByLastCall(o, h, p.url, FetchTimeoutMs, p.wait, p.selector, p.textOnly);
  }

  /** A negative `wait` is accepted and no pause happens. */
  lemma NegativeWaitSkipsPause(o: Oracle, h: seq<Call>)
    ensures var x := Dispatch("/fetch", map["url" := ["https://example.com"], "wait" := ["-3"]], None, o, h);
      && x.uncaught == None
      && forall i :: 0 <= i < |x.calls| ==> !x.calls[i].WaitForTimeout?
  {
    var q: Query := map["url" := ["https://example.com"], "wait" := ["-3"]];
    var p := Params("https://example.com", false, None, -3);
    AdmitNegativeWait();
    AdmittedFetchIsServed(q, None, o, h);
    ServeCallOrder(p, o, h);
  }

  lemma AdmitNegativeWait()
    ensures Admit(map["url" := ["https://example.com"], "wait" := ["-3"]])
         == Admitted(Params("https://example.com", false, None, -3))
  {
    var q: Query := map["url" := ["https://example.com"], "wait" := ["-3"]];
    assert First(q, "url") == Some("https://example.com");
    assert FirstOr(q, "text", "false") == "false";
    assert First(q, "selector") == None;
    assert FirstOr(q, "wait", "5") == "-3";
    ParseMinusThree();
    IsTrueIgnoringCase("false");
    AdmitWith(q, "https://example.com", "false", "-3", -3);
  }

  lemma ParseMinusThree()
    ensures ParseInt("-3") == Some(-3)
  {
    var s := "-3";
    StripUnpadded(s);
    assert Unsigned(s) == "3";
    assert DigitGroup("3") && DigitCount("3") == 1 && GroupValue("3") == 3;
    ParseStripped(s);
  }

  /** An accepted `/shutdown` first answers "Shutting down..." and then asks the server to stop. */
  lemma ShutdownAnswersThenStops(q: Query, required: Option<string>, o: Oracle, h: seq<Call>)
    requires TokenAccepted(q, required)
    ensures Dispatch("/shutdown", q, required, o, h)
         == Exchange([], [Send(Reply(200, "text/plain", "Shutting down...")), StopServer], None)
  {
  }

  /** Only an accepted `/shutdown` stops the server. */
  lemma OnlyShutdownStops(path: string, q: Query, required: Option<string>, o: Oracle, h: seq<Call>)
    ensures StopServer in Dispatch(path, q, required, o, h).effects <==>
      path == "/shutdown" && TokenAccepted(q, required)
  {
  }

  /**
   * Every request that does not raise writes exactly one response, as its
   * first effect; one that raises writes none.
   */
  lemma OneResponsePerRequest(path: string, q: Query, required: Option<string>, o: Oracle, h: seq<Call>)
    ensures var x := Dispatch(path, q, required, o, h);
      && (x.uncaught.None? ==>
            |x.effects| > 0 && x.effects[0].Send? && forall i :: 0 < i < |x.effects| ==> !x.effects[i].Send?)
      && (x.uncaught.Some? ==> x.effects == [])
  {
  }

  /** Only an accepted, admitted `/fetch` calls the page at all. */
  lemma PageUntouchedOtherwise(path: string, q: Query, required: Option<string>, o: Oracle, h: seq<Call>)
    ensures Dispatch(path, q, required, o, h).calls != [] <==>
      path == "/fetch" && TokenAccepted(q, required) && Admit(q).Admitted?
  {
    if path == "/fetch" && TokenAccepted(q, required) && Admit(q).Admitted? {
      var p := Admit(q).params;
      assert |LoadPage(o, h, p.url, FetchTimeoutMs, p.wait, p.selector, p.textOnly).calls| > 0;
    }
  }

  /**
   * `GET /fetch?url=https://example.com&text=true&wait=0` against a page
   * whose body text is "Example Domain" answers 200 with that text.
   */
  lemma ExampleDomain(o: Oracle, h: seq<Call>)
    requires forall before: seq<Call>, c: Call :: o.raises(before, c) == None
    requires o.extracts(h + [Goto("https://example.com", 30000, true)], InnerText("body")) == "Example Domain"
    ensures Dispatch("/fetch", map["url" := ["https://example.com"], "text" := ["true"], "wait" := ["0"]], None, o, h)
         == Exchange([Goto("https://example.com", 30000, true), InnerText("body")],
                     [Send(Reply(200, "text/plain; charset=utf-8", "Example Domain"))], None)
  {
    var q: Query := map["url" := ["https://example.com"], "text" := ["true"], "wait" := ["0"]];
    AdmitExampleDomain();
    AdmittedFetchIsServed(q, None, o, h);
    ServeExampleDomain(o, h);
  }

  lemma AdmitExampleDomain()
    ensures Admit(map["url" := ["https://example.com"], "text" := ["true"], "wait" := ["0"]])
         == Admitted(Params("https://example.com", true, None, 0))
  {
    var q: Query := map["url" := ["https://example.com"], "text" := ["true"], "wait" := ["0"]];
    ExampleQuery();
    ParseZero();
    IsTrueIgnoringCase("true");
    AdmitWith(q, "https://example.com", "true", "0", 0);
  }

  lemma ExampleQuery()
    ensures var q: Query := map["url" := ["https://example.com"], "text" := ["true"], "wait" := ["0"]];
      && First(q, "url") == Some("https://example.com")
      && FirstOr(q, "text", "false") == "true"
      && First(q, "selector") == None
      && FirstOr(q, "wait", "5") == "0"
  {
  }

  /** `Admit` once each parameter's first value is known. */
  lemma AdmitWith(q: Query, url: string, text: string, waitText: string, wait: int)
    requires First(q, "url") == Some(url) && url != ""
    requires FirstOr(q, "text", "false") == text
    requires FirstOr(q, "wait", "5") == waitText && ParseInt(waitText) == Some(wait)
    ensures Admit(q) == Admitted(Params(url, AsciiLower(text) == "true", First(q, "selector"), wait))
  {
  }

  lemma ParseZero()
    ensures ParseInt("0") == Some(0)
  {
    SmallWithinLimit(0);
    ParseShow(0);
    assert Show(0) == "0" by { assert Digits(0) == [DigitChar(0)]; }
  }

  lemma ServeExampleDomain(o: Oracle, h: seq<Call>)
    requires forall before: seq<Call>, c: Call :: o.raises(before, c) == None
    requires o.extracts(h + [Goto("https://example.com", 30000, true)], InnerText("body")) == "Example Domain"
    ensures Serve(Params("https://example.com", true, None, 0), o, h)
         == Exchange([Goto("https://example.com", 30000, true), InnerText("body")],
                     [Send(Reply(200, "text/plain; charset=utf-8", "Example Domain"))], None)
  {
    var plan := Plan("https://example.com", 30000, 0, None, true);
    assert plan == [Goto("https://example.com", 30000, true), InnerText("body")];
    assert plan[1..] == [InnerText("body")];
  }

  // ------------------------------------------------------------ the handler

  /**
   * One `BrowserFetchHandler` serving one request. `browser` and
   * `requiredToken` are the class-level page and token shared by all
   * handlers; `out` is what this handler has done outside the page.
   */
  class Handler {
    const browser: Browser
    const requiredToken: Option<string>
    var out: seq<Effect>

    constructor (browser: Browser, requiredToken: Option<string>)
      ensures this.browser == browser && this.requiredToken == requiredToken && out == []
    {
      this.browser := browser;
      this.requiredToken := requiredToken;
      out := [];
    }

    /** `send_error(status, message)` */
    method SendError(status: int, message: string)
      modifies this
      ensures out == old(out) + [Send(ErrorPage(status, message))]
    {
      out := out + [Send(ErrorPage(status, message))];
    }

    /** `send_response`, `send_header('Content-Type', ...)`, `end_headers`, `wfile.write` */
    method SendReply(status: int, contentType: string, body: string)
      modifies this
      ensures out == old(out) + [Send(Reply(status, contentType, body))]
    {
      out := out + [Send(Reply(status, contentType, body))];
    }

    method CheckToken(q: Query) returns (ok: bool)
      modifies this
      ensures ok == TokenAccepted(q, requiredToken)
      ensures out == old(out) + (if ok then [] else [Send(ErrorPage(401, TokenRejected))])
    {
      if !Truthy(requiredToken) {
        return true;
      }
      var provided := First(q, "token");
      if provided != requiredToken {
        SendError(401, TokenRejected);
        return false;
      }
      return true;
    }

    method DoGet(path: string, q: Query) returns (uncaught: Option<string>)
      modifies this, browser
      ensures var x := Dispatch(path, q, requiredToken, browser.oracle, old(browser.trace));
        && browser.trace == old(browser.trace) + x.calls
        && out == old(out) + x.effects
        && uncaught == x.uncaught
    {
      uncaught := None;
      if path == "/fetch" {
        var ok := CheckToken(q);
        if ok {
          uncaught := HandleFetch(q);
        }
      } else if path == "/health" {
        HandleHealth();
      } else if path == "/shutdown" {
        var ok := CheckToken(q);
        if ok {
          HandleShutdown();
        }
      } else {
        SendError(404, UsageHint);
      }
    }

    /** `handle_fetch`; a `wait` that `int()` rejects comes back as `uncaught`. */
    method HandleFetch(q: Query) returns (uncaught: Option<string>)
      modifies this, browser
      ensures var x := FetchExchange(q, browser.oracle, old(browser.trace));
        && browser.trace == old(browser.trace) + x.calls
        && out == old(out) + x.effects
        && uncaught == x.uncaught
    {
      var admission := Admit(q);
      uncaught := HandleAdmission(admission);
    }

    /** `handle_fetch` after it has read the query. */
    method HandleAdmission(a: Admission) returns (uncaught: Option<string>)
      modifies this, browser
      ensures var x := Handle(a, browser.oracle, old(browser.trace));
        && browser.trace == old(browser.trace) + x.calls
        && out == old(out) + x.effects
        && uncaught == x.uncaught
    {
      match a
      case NoUrl =>
        SendError(400, UrlMissing);
        return None;
      case BadWait(t) =>
        return Some(t);
      case Admitted(p) =>
        ServeFetch(p);
        return None;
    }

    /** The `try` block of `handle_fetch` and its `except`. */
    method ServeFetch(p: Params)
      modifies this, browser
      ensures var x := Serve(p, browser.oracle, old(browser.trace));
        && browser.trace == old(browser.trace) + x.calls
        && out == old(out) + x.effects
    {
      var outcome := Load(browser, p.url, FetchTimeoutMs, p.wait, p.selector, p.textOnly);
      match outcome
      case Extracted(content) => SendReply(200, PlainUtf8, content);
      case SelectorMissing(s) => SendError(404, "Selector '" + s + "' not found");
      case Raised(m) => SendError(500, m);
    }

    method HandleHealth()
      modifies this
      ensures out == old(out) + [Send(HealthReply)]
    {
      SendReply(200, "application/json", "{\"status\": \"ok\"}");
    }

    /** Answer, then start the thread that stops the server. */
    method HandleShutdown()
      modifies this
      ensures out == old(out) + [Send(ShutdownReply), StopServer]
    {
      SendReply(200, "text/plain", "Shutting down...");
      out := out + [StopServer];
    }
  }
}
