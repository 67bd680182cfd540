# check_urls core, modelled in Dafny

`check_urls` reads a file of URLs, one per line, and probes each URL with an HTTP GET. It writes
every URL that answers with a success status to an output file. A URL that redirects is
followed one hop through its `Location` header, and the target is written if it answers with
success. Error statuses and network errors are reported on the console; they never stop the run.

The model covers the three parts of `check_urls/core.py`:

- `normalize.dfy` (module `Normalize`): `normalize_url` is a pure function over strings. The
  lemmas give the exact result of each of its four prefix cases, show that the result always
  starts with `https://`, and prove it idempotent.
- `status.dfy` (module `HttpStatusHandler`): the guards of the success, redirect and error handlers (the
  network-error handler has none) and a
  `Classify` function over status codes. Each handler is a method over the output file, the
  console and (for redirects) the HTTP client. Each is proved against a pure function giving its
  `Effect`: the URLs requested, the notifications emitted and the chunks written, in order.
- `core.dfy` (module `Core`): `CheckUrlsCore.check_urls` is a loop method. It is proved against
  `Run`, the effect of a whole run, which is built from `UrlEffect`, the effect of one URL.
  Lemmas about `Run` state what ends up in the output file and in what order.
- `http.dfy` (module `Http`): the HTTP client as a deterministic oracle from URL to reply. A reply
  is either a response (status code and optional `Location`) or `RequestException`. The client
  records every URL it requests.
- `sinks.dfy` (module `Sinks`): the output file as the sequence of chunks written to it, and the
  console as a log of notification kinds.

In these places the code does something easy to misread; the model follows the code:

- Status codes 308 to 399 set off none of the three handlers; nothing is written or reported
  for them.
- `if new_url:` is a truth test, so an empty `Location` counts as missing, as an absent one does.
- A `RequestException` raised inside the redirect handler, by either of its GETs, is caught
  by the `except` around the handler calls. The network-error notification then names the
  original normalised URL, and the error handler is not reached for that URL.
- `normalize_url` tests `http://`, `https://` and `www.` first together and then `http://` and
  `www.` separately. The three prefixes exclude one another (`Normalize.PrefixesExclusive`), so
  this gives the same four cases as a check in any other order.

## Model

| member | source | states |
|---|---|---|
| Normalize.NormalizeUrl | check_urls/core.py:9-22 | the normalised URL always starts with `https://` |
| Normalize.PrefixesExclusive | check_urls/core.py:16-20 | no string starts with two of `http://`, `https://` and `www.` |
| Normalize.NormalizeBare | check_urls/core.py:16-17 | a URL with none of the three prefixes gets `https://www.` in front |
| Normalize.ReplaceFirstAt | check_urls/core.py:19 | `replace(pat, rep, 1)` replaces the leftmost occurrence only and keeps everything after it, later occurrences included |
| Normalize.NormalizeHttp | check_urls/core.py:18-19 | `http://` + r becomes `https://` + r for every r |
| Normalize.NormalizeWww | check_urls/core.py:20-21 | `www.` + r becomes `https://www.` + r |
| Normalize.NormalizeHttps | check_urls/core.py:16-22 | an `https://` URL is returned unchanged |
| Normalize.NormalizeIdempotent | check_urls/core.py:16-22 | normalising twice equals normalising once |
| Normalize.NormalizeFixedPoints | check_urls/core.py:16-22 | a URL is left unchanged exactly when it starts with `https://` |
| HttpStatusHandler.Classify | check_urls/core.py:28-59 | the class is Success, Redirect or Error exactly when the corresponding guard holds, and Unhandled exactly on 308..399 |
| HttpStatusHandler.GuardsPartition | check_urls/core.py:28-59 | the three guards are pairwise disjoint, and none holds exactly on 308..399 |
| HttpStatusHandler.SuccessOutcome | check_urls/core.py:30-33 | a success status writes exactly `url + "\n"` with one notification; any other status does nothing |
| HttpStatusHandler.RedirectOutcome | check_urls/core.py:36-49 | no effect outside [300, 308); inside it, the URL is requested again first, the output gains the `Location` target exactly when that is present, non-empty and answers with success, the handler raises exactly when one of its GETs does, and a missing or empty `Location` writes nothing |
| HttpStatusHandler.ErrorOutcome | check_urls/core.py:52-55 | an error status gives one notification and writes nothing; other statuses give none |
| HttpStatusHandler.HandleSuccessStatus | check_urls/core.py:30-33 | the output file and the console change by exactly the success effect |
| HttpStatusHandler.HandleRedirectStatus | check_urls/core.py:36-49 | the output file, console and request trace change by exactly the redirect effect, and the exception is reported when that effect raises |
| HttpStatusHandler.HandleErrorStatus | check_urls/core.py:52-55 | the console changes by exactly the error effect |
| HttpStatusHandler.HandleNetworkError | check_urls/core.py:58-59 | the console gains one network-error notification for the URL |
| Http.HttpClient.Get | check_urls/http_client.py:8-9 | the reply is the oracle's answer for the URL, and the URL is appended to the request trace |
| Core.ContentStart | check_urls/core.py:71 | the index of the first non-whitespace character: everything before it is whitespace |
| Core.ContentEnd | check_urls/core.py:71 | one past the last non-whitespace character: everything from it on is whitespace |
| Core.Strip | check_urls/core.py:71 | `strip()` is empty exactly for an all-whitespace line; otherwise it is the slice from the first to the last non-whitespace character, with content at both ends |
| Core.StripIdempotent | check_urls/core.py:71 | stripping a stripped line changes nothing |
| Core.Urls | check_urls/core.py:71 | there are no more URLs than input lines |
| Core.UrlsStripped | check_urls/core.py:71 | every URL is non-empty and already stripped |
| Core.UrlsAppend | check_urls/core.py:71 | the URL list keeps the input order: two blocks of lines give the first block's URLs followed by the second's |
| Core.UrlsMembership | check_urls/core.py:71 | a string is a URL exactly when it is non-empty and is the stripped form of some input line |
| Core.ResolvedLines | check_urls/core.py:74-83 | at most one output line per URL, each ending in a newline |
| Core.UrlWrites | check_urls/core.py:75-83 | one URL writes one line, for the URL it resolves to, or nothing: itself on success, the answering `Location` target on a redirect, and nothing on an error, a 308..399 status or a network error |
| Core.UrlEvents | check_urls/core.py:75-83 | the notifications of one URL follow the class of its first reply: one network error, one success, one error, at least two starting with the redirect notice, or none for 308..399 |
| Core.UrlRequests | check_urls/core.py:75-80 | each URL is requested first as it is; further requests happen exactly on a redirect status, and the next one is the same URL again |
| Core.RunAppend | check_urls/core.py:74-83 | running two lists of URLs one after the other equals running their concatenation |
| Core.RunSplit | check_urls/core.py:74-83 | a run is the URLs before the i-th, then the i-th, then those after it, whatever happens to the i-th |
| Core.RunWrites | check_urls/core.py:74-83 | the output file holds, in input order, the resolved URL of every URL that has one |
| Core.FailureIsolated | check_urls/core.py:74-83 | a URL that resolves to nothing adds no line, and the lines of the other URLs are written as if it were absent |
| Core.NetworkErrorIsolated | check_urls/core.py:76-83 | a `RequestException` on a URL's first GET writes nothing, emits one network-error notification and does not stop the run |
| Core.ProbeOrder | check_urls/core.py:74-77 | the URLs are probed in input order, each under its normalised form, or unchanged when normalisation is off |
| Core.RunSnoc | check_urls/core.py:74-83 | a run over one more URL is the run over the ones before, followed by that URL |
| Core.RunStep | check_urls/core.py:74-83 | one turn of the loop extends the state from the URLs before the i-th to the URLs up to the i-th |
| Core.CheckUrlsCore.constructor | check_urls/core.py:63-65 | a fresh HTTP client with an empty request trace |
| Core.CheckUrlsCore.CheckUrls | check_urls/core.py:67-83 | a fresh output file holding exactly what `Run` writes over the URL list; the console and the request trace are extended by exactly what `Run` notifies and requests |
| Core.CheckUrlsCore.CheckUrl | check_urls/core.py:75-83 | for one URL, the output file, console and request trace change by exactly `UrlEffect` |

## Left out

- Console presentation: `rich` markup, colours, the progress bar from `track` and the plain
  `print` calls. Each message becomes one `Event` kind in the console log. The extra `print`s
  at lines 44 and 55 are part of the `Following` and `Failed` events. The missing-`Location`
  message at line 49 goes to standard output, not the console; here it is a `MissingLocation`
  event in the same log.
- File handling: opening and reading the input file, opening the output file and the `IOError`
  handler (lines 69-73 and 84-85). The input is the sequence of its lines. The output is a fresh
  `OutputFile` whose written chunks are a sequence.
- The `headers` argument. The oracle answers by URL alone.
- Transport behaviour: `allow_redirects`, the 10-second timeout, sessions and the real network.
  The network is a deterministic function from URL to reply, so the second GET of the same URL
  at line 40 gets the first GET's answer; network nondeterminism is not modelled.
- Exceptions other than `RequestException`. Two of them end the real program where the model
  goes on. First, the console message at line 39 has a closing `[/yellow]` tag with no opening
  tag, so `rich` raises `MarkupError` there: every status in [300, 308) stops the run before the
  GET at line 40, since neither `except` (lines 82 and 84) catches it. Second, `core.py` passes a
  `headers=` keyword at lines 40, 46 and 77 to `check_urls/http_client.py`'s `get`, which takes
  none, so each of those calls raises `TypeError`. The model treats the message as printed and
  the GETs as made with the URL alone, and models the redirect handler and the loop as written.
- The error object passed to `handle_network_error` and printed in its message.
- `check_urls/cli.py`, the command-line entry point; it only builds `CheckUrlsCore` and calls
  `check_urls`. `CheckUrlsCore.constructor` takes the oracle as a parameter instead.
- The `status_handler` instance created at line 65. Its methods are static, so the model calls
  the `HttpStatusHandler` module's methods directly.
- Summary counters, timings and report rendering: the code has none.
