# browser-fetch, modelled in Dafny

browser-fetch fetches web pages through a real browser with a persistent
profile. It has two entry points, and this project models the decision
logic of both:

- **Server mode.** `BrowserFetchHandler` in `src/browser_fetch/server.py`
  keeps one browser page open and answers `GET /fetch`, `/health` and
  `/shutdown`. `/fetch` and `/shutdown` sit behind an optional token.
- **One-shot fetch.** `fetch_url` in `src/browser_fetch/fetch.py` launches a
  persistent browser context and takes its page. It then either lets the
  user log in, or navigates, waits, extracts and closes the context.

The browser is an abstract oracle (`Playwright.Oracle`). For each call it
says whether the call raises and with what message, whether
`query_selector` finds an element, what an extraction returns, and whether
the context already has pages. Each answer may depend on every call issued
before it. `Playwright.Browser` is the live browser: it records the trace of
calls issued to it.

## Modules

- `wrappers.dfy` (`Wrappers`): the `Option` type. It stands for Python's
  `None`-or-value.
- `pytext.dfy` (`PyText`): the pieces of Python the handler relies on.
  - The query multimap that `parse_qs` produces, and its
    `query.get(key, [default])[0]` lookup.
  - `str.lower()` on ASCII letters.
  - `int(str)` in base 10: surrounding whitespace, an optional sign, and
    at most 4300 digits with single underscores between them.
- `playwright.dfy` (`Playwright`): the calls, the oracle and the recording
  `Browser` class.
- `navigation.dfy` (`Navigation`): the sequence both entry points issue.
  They differ only in the timeout. The sequence is: the network-idle
  navigation, then the pause when it is positive, then the selector lookup
  when a selector is given, then the extraction.
  - `Run` interprets such a plan. It stops at the first call that raises or
    at a lookup that finds nothing.
  - `Load` is the method that drives a `Browser` exactly as `Run` says.
- `server.dfy` (`Server`): the handler.
  - `Dispatch` states what one request does: the page calls, the effects on
    the response stream (`Send`) and on the server (`StopServer`), and
    whether an exception escapes the handler.
  - The class `Handler` has one method per handler method, and each is
    proved to do exactly what `Dispatch` and its parts say.
- `fetch.dfy` (`Fetch`): `fetch_url`.
  - `FetchRun` states the calls issued and whether the procedure returns a
    string or raises.
  - The method `FetchUrl` and its stages drive a `Browser` to match it.

Some behaviours of the code are modelled as they are written:

- A `wait` that `int()` rejects raises a `ValueError` at
  `src/browser_fetch/server.py:57`, outside the `try`. The handler then
  writes no response. The model records this as `uncaught`, holding the
  rejected text.
- `int()` also rejects decimal text with more than 4300 digits, leading
  zeros included. That is the default `sys.get_int_max_str_digits()` of
  Python 3.11 onward and of 3.10 from 3.10.7. So a `wait` of 4301 zeros
  raises in the same way.
- A negative `wait` is accepted and the pause is skipped
  (`src/browser_fetch/server.py:63`).
- The server is a plain `HTTPServer` (`src/browser_fetch/server.py:175`).
  It handles one request at a time, and there is no request queue. The
  browser context is closed in the `finally` of `run_server`
  (`src/browser_fetch/server.py:182-187`), which is not modelled.

## Model

| member | source | states |
|---|---|---|
| `PyText.First` | src/browser_fetch/server.py:28 | definition of `query.get(key, [None])[0]`; what the handler makes of it is stated by `Server.TokenCheck` and `Server.ParameterDefaults` |
| `PyText.FirstOr` | src/browser_fetch/server.py:55-57 | definition of `query.get(key, [default])[0]`; the defaults it gives are stated by `Server.ParameterDefaults` |
| `PyText.AsciiLower` | src/browser_fetch/server.py:55 | definition of `str.lower()` on ASCII letters; `PyText.IsTrueIgnoringCase` states what `text` compares equal to |
| `PyText.IsTrueIgnoringCase` | src/browser_fetch/server.py:55 | `v.lower() == 'true'` holds exactly when `v` spells "true" in any mix of cases |
| `PyText.ParseInt` | src/browser_fetch/server.py:57 | definition of `int(str)` in base 10, the 4300-digit limit included; its properties are `PyText.ParseShow`, `PyText.ParseRejectsOverlong`, `PyText.ParseNeedsDigit` and `PyText.ParseIgnoresPadding` |
| `PyText.ParseShow` | src/browser_fetch/server.py:57 | `int()` reads the decimal text of an integer, negative ones included, back as that integer exactly when its magnitude is below `10^4300`, and raises otherwise |
| `PyText.ParseRejectsOverlong` | src/browser_fetch/server.py:57 | text of more than 4300 digits makes `int()` raise, whatever the digits, zeros included |
| `PyText.ParseNeedsDigit` | src/browser_fetch/server.py:57 | `int()` rejects text that contains no decimal digit |
| `PyText.ParseIgnoresPadding` | src/browser_fetch/server.py:57 | any whitespace before and after the text does not change what `int()` reads |
| `Navigation.Selected` | src/browser_fetch/server.py:66 | definition of `if selector:`; its consequences are stated by `Server.ServeAnswers` and `Fetch.ReturnedContent` |
| `Navigation.ExtractionCall` | src/browser_fetch/server.py:71-73 | definition of the four-way choice of extraction; `Server.ServeAnswers` and `Fetch.ReturnedContent` state that the content is what that extraction returned |
| `Navigation.Plan` | src/browser_fetch/server.py:60-73 | definition of the calls a unit of work issues when nothing goes wrong; its shape is `Navigation.PlanShape` |
| `Navigation.PlanShape` | src/browser_fetch/server.py:60-73 | the planned calls, position by position: the navigation first; the pause second and only when positive; the lookup just before the extraction and only with a selector; the extraction last and nowhere else |
| `Navigation.RunStopsAtFirstFailure` | src/browser_fetch/server.py:59-81 | every call before the last one returned normally and found its element; the last one raised, found nothing, or was the extraction whose value is the content |
| `Navigation.RaisedByLastCall` | src/browser_fetch/server.py:80-81 | an exception ends the work at the call that raised it, with that call's message, after every earlier planned call returned normally |
| `Navigation.SelectorMissStopsBeforeExtraction` | src/browser_fetch/server.py:66-70 | a selector that finds nothing stops the work right after the lookup: every planned call except the extraction was issued and nothing was extracted |
| `Navigation.ExtractedContent` | src/browser_fetch/server.py:66-73 | successful work issued the whole plan, every call returned normally, the lookup found its element, and the content is what the chosen extraction returned |
| `Navigation.Run` | src/browser_fetch/server.py:59-81 | issuing a plan stops at the first call that raises or at a lookup that finds nothing; its calls are a non-empty prefix of the plan, and `Navigation.RunStopsAtFirstFailure` states what each of them did |
| `Navigation.LoadPage` | src/browser_fetch/fetch.py:56-74 | definition of the unit of work both entry points perform; what it does is stated by `Navigation.RaisedByLastCall`, `Navigation.SelectorMissStopsBeforeExtraction` and `Navigation.ExtractedContent` |
| `Navigation.Load` | src/browser_fetch/server.py:60-73 | the calls driven on the page, and the outcome, are exactly those of the unit of work |
| `Navigation.PauseAndExtract` | src/browser_fetch/server.py:63-73 | after the navigation: the pause when positive, then the rest, stopping at the first exception |
| `Navigation.LookupAndExtract` | src/browser_fetch/server.py:66-73 | the lookup when there is a selector, then the extraction, stopping at an exception or a miss |
| `Server.Route` | src/browser_fetch/server.py:38-47 | definition of the path dispatch of `do_GET`; what each path does is stated by `Server.HealthAlwaysOk`, `Server.TokenGate` and `Server.UnknownPathIsNotFound` |
| `Server.Dispatch` | src/browser_fetch/server.py:34-47 | definition of what one GET request does; `Server.Handler.DoGet` is proved to do exactly that, and the lemmas below state its properties |
| `Server.TokenAccepted` | src/browser_fetch/server.py:23-32 | definition of `check_token`'s verdict; `Server.TokenCheck` states it in terms of the query |
| `Server.Admit` | src/browser_fetch/server.py:50-57 | definition of how `handle_fetch` reads its query; what it reads is stated by `Server.ParameterDefaults` and `Server.MissingUrlIsBadRequest` |
| `Server.Serve` | src/browser_fetch/server.py:59-81 | definition of the `try` block and its `except`; what it does is stated by `Server.ServeCallOrder` and `Server.ServeAnswers` |
| `Server.Answer` | src/browser_fetch/server.py:66-81 | the answer is 200 exactly for extracted content, 404 exactly for a missing selector, and 500 exactly for an exception |
| `Server.HealthAlwaysOk` | src/browser_fetch/server.py:41-42 | `/health` answers 200 `application/json` `{"status": "ok"}` whatever the query and token, without a token check or page call |
| `Server.TokenCheck` | src/browser_fetch/server.py:23-32 | the token check passes iff no token is configured (None or empty) or the first `token` value equals it exactly |
| `Server.TokenGate` | src/browser_fetch/server.py:38-45 | on `/fetch` and `/shutdown`, the request is a bare 401 "Invalid or missing token" with no page call and no stop exactly when the token check fails, and an accepted request never answers 401 |
| `Server.HandleNeverRejects` | src/browser_fetch/server.py:49-81 | `handle_fetch` itself never answers 401 |
| `Server.UnknownPathIsNotFound` | src/browser_fetch/server.py:46-47 | any other path is a 404 with the usage hint, with no page call |
| `Server.MissingUrlIsBadRequest` | src/browser_fetch/server.py:50-53 | an absent or empty first `url` is a 400 "Missing 'url' parameter" before any page call |
| `Server.DefaultWaitIsFive` | src/browser_fetch/server.py:57 | the default `wait` text "5" is read as 5 |
| `Server.ParameterDefaults` | src/browser_fetch/server.py:55-57 | every parameter comes from its first value: `text` is true iff it lower-cases to "true" (absent means false); `selector` may be absent; `wait` is `int()` of its text, and 5 when absent; a rejected `wait` stops admission with that text |
| `Server.BadWaitEscapesHandler` | src/browser_fetch/server.py:57-59 | an exception escapes exactly for an accepted `/fetch` whose `wait` `int()` rejects, and then no response is written and the page is not touched |
| `Server.OverlongWait` | src/browser_fetch/server.py:57 | a `wait` of more than 4300 digits, all zeros included, escapes the handler with no response and no page call |
| `Server.NonIntegerWait` | src/browser_fetch/server.py:57 | `wait=soon` escapes the handler with no response and no page call |
| `Server.NegativeWaitSkipsPause` | src/browser_fetch/server.py:63-64 | `wait=-3` is accepted and issues no pause |
| `Server.AdmittedFetchIsServed` | src/browser_fetch/server.py:38-59 | an accepted `/fetch` with an admitted query runs the `try` block with the parameters it read |
| `Server.ServeCallOrder` | src/browser_fetch/server.py:60-73 | the page calls are a prefix of the plan: `goto(url, 30000, networkidle)` first; `wait_for_timeout(wait*1000)` second and only when `wait > 0`; no pause anywhere else |
| `Server.ServeAnswers` | src/browser_fetch/server.py:66-81 | exactly one response is sent. 200 `text/plain; charset=utf-8` carries the chosen extraction of the whole plan. 404 "Selector '<s>' not found" comes from a lookup that found nothing, with no extraction. 500 carries the message of the call that raised |
| `Server.ShutdownAnswersThenStops` | src/browser_fetch/server.py:89-99 | an accepted `/shutdown` first answers 200 `text/plain` "Shutting down..." and only then asks the server to stop |
| `Server.OnlyShutdownStops` | src/browser_fetch/server.py:34-47 | the server is asked to stop exactly by an accepted `/shutdown` |
| `Server.OneResponsePerRequest` | src/browser_fetch/server.py:34-47 | a request that does not raise writes exactly one response, as its first effect; one that raises writes none |
| `Server.PageUntouchedOtherwise` | src/browser_fetch/server.py:49-61 | the page is called exactly for an accepted `/fetch` whose query is admitted |
| `Server.ExampleDomain` | src/browser_fetch/server.py:49-78 | `/fetch?url=https://example.com&text=true&wait=0` against a page whose body text is "Example Domain" issues the navigation and `inner_text('body')`, then answers 200 with that text |
| `Server.Handler.CheckToken` | src/browser_fetch/server.py:23-32 | the result is the token check, and a 401 is written exactly when it fails |
| `Server.Handler.DoGet` | src/browser_fetch/server.py:34-47 | the page calls, the effects and the escaping exception are exactly those of `Dispatch` |
| `Server.Handler.HandleFetch` | src/browser_fetch/server.py:49-57 | does exactly what `handle_fetch` after the token check does |
| `Server.Handler.HandleAdmission` | src/browser_fetch/server.py:50-59 | after the query is read: a 400 for a missing url, the escaping exception, or the served request |
| `Server.Handler.ServeFetch` | src/browser_fetch/server.py:59-81 | the page calls and the one response are exactly those of the `try` block and its `except` |
| `Server.Handler.HandleHealth` | src/browser_fetch/server.py:83-87 | writes the health reply and nothing else |
| `Server.Handler.HandleShutdown` | src/browser_fetch/server.py:89-99 | writes the shutdown reply, then requests the stop |
| `Fetch.FetchRun` | src/browser_fetch/fetch.py:36-41 | definition of `fetch_url`: the launch, then `Fetch.AfterLaunch`; `Fetch.FetchUrl` is proved to do exactly that |
| `Fetch.AfterLaunch` | src/browser_fetch/fetch.py:43 | definition of the page choice; its cases are stated by `Fetch.PageChoice` |
| `Fetch.Browse` | src/browser_fetch/fetch.py:45-77 | definition of what follows the page choice: `Fetch.Login` in login mode, otherwise `Fetch.Visit` |
| `Fetch.Login` | src/browser_fetch/fetch.py:45-54 | definition of the login branch; its calls and result are stated by `Fetch.LoginSequence` |
| `Fetch.Visit` | src/browser_fetch/fetch.py:56-77 | definition of the fetch branch; its calls and result are stated by `Fetch.FetchCallOrder`, `Fetch.PageCallRaises`, `Fetch.SelectorMissRaises`, `Fetch.ReturnedContent` and `Fetch.ClosedOnceOnSuccess` |
| `Fetch.Close` | src/browser_fetch/fetch.py:76-77 | definition of `context.close()` followed by returning the result; `Fetch.ClosedOnceOnSuccess` states that it is the last call on every return |
| `Fetch.LaunchedFirst` | src/browser_fetch/fetch.py:37-41 | the launch is the first call, headless iff `headless and not login_mode` |
| `Fetch.PageChoice` | src/browser_fetch/fetch.py:43 | an existing page is used when the context has one; otherwise one new page is opened right after the launch, and an exception from that ends `fetch_url` |
| `Fetch.BrowseOpensNoPage` | src/browser_fetch/fetch.py:43-77 | no page is opened after the page choice |
| `Fetch.LoginSequence` | src/browser_fetch/fetch.py:45-54 | login mode issues a prefix of `goto(url, timeout*1000)` without networkidle, the Enter prompt and the close, and nothing else. It returns exactly "Login session saved." exactly when all three returned normally. Otherwise the first exception ends it: every earlier call returned normally, and it raises the message of the call that raised |
| `Fetch.FetchCallOrder` | src/browser_fetch/fetch.py:56-59 | outside login mode: `goto(url, timeout*1000, networkidle)` first, the pause of `wait_seconds*1000` only when positive, and the close only after the whole plan |
| `Fetch.PageCallRaises` | src/browser_fetch/fetch.py:56-74 | outside login mode, an exception from a page call propagates with that call's message: the calls are a prefix of the plan, every earlier call returned normally, and the context is not closed |
| `Fetch.SelectorMissRaises` | src/browser_fetch/fetch.py:61-64 | a selector that finds nothing raises "Selector '<s>' not found on page", with no extraction and no close |
| `Fetch.ReturnedContent` | src/browser_fetch/fetch.py:66-77 | returned content comes after the whole plan and the close; every call returned normally; the content is what the extraction returned, and the four-way rule chose that extraction |
| `Fetch.ClosedOnceOnSuccess` | src/browser_fetch/fetch.py:76-77 | whenever `fetch_url` returns, the context was closed exactly once, as the last call |
| `Fetch.FetchUrl` | src/browser_fetch/fetch.py:36-77 | the calls driven on the browser, and the result, are exactly those of `FetchRun` |
| `Fetch.TakePage` | src/browser_fetch/fetch.py:43 | the page choice and what follows, as `AfterLaunch` states |
| `Fetch.UsePage` | src/browser_fetch/fetch.py:45-77 | everything after the page choice, as `Browse` states |
| `Fetch.LogIn` | src/browser_fetch/fetch.py:49-54 | the login branch, as `Login` states |
| `Fetch.CloseThenReturn` | src/browser_fetch/fetch.py:76-77 | `context.close()`, then the result unless the close raised |

## Left out

- The `run_server` lifecycle (`src/browser_fetch/server.py:102-188`) is process and OS plumbing, so it is not modelled. That covers signal handlers, `sys.exit`, `serve_forever`, the browser launch and the final close. The thread that `handle_shutdown` starts is only the `StopServer` effect.
- Token generation with `secrets.token_urlsafe` is randomness. The configured token is an input.
- URL and query parsing (`urllib.parse.urlparse`, `parse_qs`) is library code. The model receives the path and the query multimap.
- Playwright itself is not modelled, because it is foreign code. That covers navigation, network idleness, the DOM and selector semantics. What the code needs from it is the oracle.
- Logging (`log_message`, the `print` calls to stderr) is output only.
- The `input()` prompt is the `PromptEnter` call, and its text is not modelled.
- Creating the profile directory (`mkdir`) is filesystem I/O.
- Which profile directory `launch_persistent_context` uses, and its extra `args`, are not modelled.
- The exit of `with sync_playwright()` is not modelled. It stops the Playwright driver when `fetch_url` returns or raises. "Not closed" in the model means only that `context.close()` was not called.
- `src/browser_fetch/__main__.py` is not part of this model. It is argument parsing and output writing.
- The HTML page that `send_error` renders, and the reason phrases and headers it adds, are left out. A response is `ErrorPage(status, message)`.
- The UTF-8 encoding of the body is left out. So are failures while writing the response stream.
- `Server.Answer`: exceptions that `send_error` itself raises are not modelled. `http.server` encodes the status-line message as strict Latin-1, so two cases differ from the model, and from `Server.ServeAnswers`:
  - A missing selector with a character outside Latin-1 makes `send_error(404, ...)` at `src/browser_fetch/server.py:69` raise inside the `try`. The code then answers 500, where the model answers 404.
  - A page exception whose message has a character outside Latin-1 makes `send_error(500, str(e))` at `src/browser_fetch/server.py:81` raise out of the handler. No response is written, where the model answers 500.
- The text of the `ValueError` that `int()` raises is left out. The model keeps the rejected `wait` text instead.
- `PyText.ParseInt`: Python's `int()` also accepts non-ASCII Unicode digits and whitespace. The model does not: it accepts ASCII only.
- `PyText.ParseInt` uses the default digit limit of 4300. A limit changed with `sys.set_int_max_str_digits` or `PYTHONINTMAXSTRDIGITS` is not modelled, nor are Pythons before 3.10.7, which have no limit.
- `str.lower()` also lower-cases non-ASCII letters. `PyText.AsciiLower` changes ASCII letters only, and `text` is read with it.
- Concurrency is not modelled. The server is a plain `HTTPServer` that handles one request at a time. Each call to `Dispatch` or `Handler.DoGet` is one request against the page's history so far.
- `str(e)` of an exception is not modelled. The message is whatever the oracle gives.
