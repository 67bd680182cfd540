/** `CheckUrlsCore.check_urls`: strip the input lines and drop the empty ones, then for each URL
    in turn normalise it (unless normalisation is off), GET it, and run the success, redirect and
    error handlers on the response; a `RequestException` from any GET of that URL goes to the
    network-error handler and processing moves on to the next URL.

    `UrlEffect` and `Run` give the effect of one URL and of a whole run; the method is proved
    against `Run`, and the lemmas say what `Run` writes, notifies and requests, and in what order. */
module Core {
  import opened Wrappers
  import opened Http
  import opened Sinks
  import opened Normalize
  import opened HttpStatusHandler

  /** Python's `str.isspace` on one character: the code points `str.strip()` removes. */
  predicate IsSpace(c: char) {
    var n := c as int;
    n == 0x20 || 0x09 <= n <= 0x0D || 0x1C <= n <= 0x1F || n == 0x85 || n == 0xA0
    || n == 0x1680 || 0x2000 <= n <= 0x200A || n == 0x2028 || n == 0x2029
    || n == 0x202F || n == 0x205F || n == 0x3000
  }

  /** Where the content of `s` starts: the index of its first non-whitespace character, or `|s|`. */
  function ContentStart(s: string): (i: nat)
    ensures i <= |s|
    ensures forall k :: 0 <= k < i ==> IsSpace(s[k])
    ensures i < |s| ==> !IsSpace(s[i])
  {
    if s == [] || !IsSpace(s[0]) then 0 else 1 + ContentStart(s[1..])
  }

  /** Where the content of `s` ends: one past its last non-whitespace character, or 0. */
  function ContentEnd(s: string): (j: nat)
    ensures j <= |s|
    ensures forall k :: j <= k < |s| ==> IsSpace(s[k])
    ensures 0 < j ==> !IsSpace(s[j - 1])
  {
    if s == [] || !IsSpace(s[|s| - 1]) then |s| else ContentEnd(s[..|s| - 1])
  }

  /** Python's `str.strip()`: `s` without its leading and its trailing whitespace. The result is
      empty exactly when `s` is all whitespace; otherwise it is the piece of `s` from its first to
      its last non-whitespace character. */
  function Strip(s: string): (r: string)
    ensures r == [] <==> forall k :: 0 <= k < |s| ==> IsSpace(s[k])
    ensures r != [] ==> ContentStart(s) < ContentEnd(s) && r == s[ContentStart(s)..ContentEnd(s)]
    ensures r != [] ==> !IsSpace(r[0]) && !IsSpace(r[|r| - 1])
  {
    var i := ContentStart(s);
    var j := ContentEnd(s);
    if i < j then s[i..j] else []
  }

  /** Stripping a stripped string changes nothing. */
  lemma StripIdempotent(s: string)
    ensures Strip(Strip(s)) == Strip(s)
  {
    var r := Strip(s);
    if r != [] {
      assert ContentStart(r) == 0;
      assert ContentEnd(r) == |r|;
      assert r[0..|r|] == r;
    }
  }

  /** The URL list of `check_urls`: every input line stripped, the lines left empty dropped. */
  function Urls(lines: seq<string>): (urls: seq<string>)
    ensures |urls| <= |lines|
  {
    if lines == [] then []
    else
      var url := Strip(lines[0]);
      (if url != [] then [url] else []) + Urls(lines[1..])
  }

  /** Every URL is non-empty and already stripped. */
  lemma {:induction false} UrlsStripped(lines: seq<string>)
    ensures forall k :: 0 <= k < |Urls(lines)| ==> Urls(lines)[k] != [] && Strip(Urls(lines)[k]) == Urls(lines)[k]
  {
    if lines != [] {
      UrlsStripped(lines[1..]);
      StripIdempotent(lines[0]);
    }
  }

  /** The URL list keeps the input order: the URLs of two blocks of lines are those of the first
      block followed by those of the second. */
  lemma {:induction false} UrlsAppend(a: seq<string>, b: seq<string>)
    ensures Urls(a + b) == Urls(a) + Urls(b)
  {
    if a == [] {
      assert a + b == b;
    } else {
      assert (a + b)[0] == a[0];
      assert (a + b)[1..] == a[1..] + b;
      UrlsAppend(a[1..], b);
      var head := if Strip(a[0]) != [] then [Strip(a[0])] else [];
      assert head + (Urls(a[1..]) + Urls(b)) == (head + Urls(a[1..])) + Urls(b);
    }
  }

  /** The URLs are exactly the non-empty stripped input lines. */
  lemma {:induction false} UrlsMembership(lines: seq<string>, url: string)
    ensures url in Urls(lines) <==> url != [] && exists line :: line in lines && Strip(line) == url
  {
    if lines != [] {
      UrlsMembership(lines[1..], url);
      if url in Urls(lines) && url != Strip(lines[0]) {
        var line :| line in lines[1..] && Strip(line) == url;
        assert line in lines;
      }
      if url != [] && (exists line :: line in lines && Strip(line) == url) && url != Strip(lines[0]) {
        var line :| line in lines && Strip(line) == url;
        assert line in lines[1..];
      }
    }
  }

  /** The URL that is probed for an input URL. */
  function Target(url: string, normalize: bool): string {
    if normalize then NormalizeUrl(url) else url
  }

  /** The body of the loop in `check_urls` for one (already normalised) URL. */
  function UrlEffect(respond: Oracle, url: string): Effect {
    var probe := Effect([url], [], []);
    match respond(url)
    case RequestException => Then(probe, NetworkErrorEffect(url))
    case Received(first) =>
      var code := first.statusCode;
      var redirect := RedirectEffect(code, url, respond);
      var handled := Then(Then(probe, SuccessEffect(code, url)), redirect.effect);
      if redirect.raised then Then(handled, NetworkErrorEffect(url))
      else Then(handled, ErrorEffect(code, url))
  }

  /** The effect of the loop over `urls`, one URL after the other. */
  function Run(respond: Oracle, urls: seq<string>, normalize: bool): Effect
    decreases |urls|
  {
    if urls == [] then NoEffect
    else
      Then(Run(respond, urls[..|urls| - 1], normalize),
           UrlEffect(respond, Target(urls[|urls| - 1], normalize)))
  }

  /** The URL that a URL puts in the output file, decided by the class of its first status: the
      URL itself on success; on a redirect, the `Location` target when that is usable and answers
      with success; nothing otherwise. (The redirect handler GETs the URL again and reads that
      response's `Location`; the network being deterministic, it is the first response's.) */
  function Resolved(respond: Oracle, url: string): Option<string> {
    match respond(url)
    case RequestException => None
    case Received(first) =>
      match Classify(first.statusCode)
      case Success => Some(url)
      case Redirect => FollowedTarget(respond, first.location)
      case Error => None
      case Unhandled => None
  }

  /** The output lines of a list of URLs, each URL contributing its resolved URL, if any. */
  function ResolvedLines(respond: Oracle, urls: seq<string>, normalize: bool): (lines: seq<string>)
    ensures |lines| <= |urls|
    ensures forall k :: 0 <= k < |lines| ==> |lines[k]| > 0 && lines[k][|lines[k]| - 1] == '\n'
  {
    if urls == [] then []
    else Line(Resolved(respond, Target(urls[0], normalize))) + ResolvedLines(respond, urls[1..], normalize)
  }

  /** One URL writes one line, `t + "\n"` for the URL `t` it resolves to, or nothing. */
  lemma UrlWrites(respond: Oracle, url: string)
    ensures UrlEffect(respond, url).writes == Line(Resolved(respond, url))
  {
    match respond(url)
    case RequestException =>
    case Received(first) =>
      SuccessOutcome(first.statusCode, url);
      RedirectOutcome(first.statusCode, url, respond);
  }

  /** The first notification for a URL tells which class its first reply falls in: a network error,
      a success and an error give exactly one notification, a redirect at least two, and a status in
      308..399 none at all. */
  lemma UrlEvents(respond: Oracle, url: string)
    ensures var e := UrlEffect(respond, url).events;
            match respond(url)
            case RequestException => e == [NetworkFailure(url)]
            case Received(first) =>
              match Classify(first.statusCode)
              case Success => e == [Succeeded(first.statusCode, url)]
              case Redirect => |e| >= 2 && e[0] == Redirected(first.statusCode, url)
              case Error => e == [Failed(first.statusCode, url)]
              case Unhandled => e == []
  {
  }

  /** A URL is always requested first as it is; only a redirect status makes further requests, and
      the next one is the same URL again. */
  lemma UrlRequests(respond: Oracle, url: string)
    ensures var q := UrlEffect(respond, url).requests;
            |q| >= 1 && q[0] == url
            && (|q| > 1 <==> respond(url).Received? && IsRedirectStatus(respond(url).response.statusCode))
            && (|q| > 1 ==> q[1] == url)
  {
  }

  /** Running two lists of URLs one after the other is running their concatenation. */
  lemma {:induction false} RunAppend(respond: Oracle, a: seq<string>, b: seq<string>, normalize: bool)
    ensures Run(respond, a + b, normalize) == Then(Run(respond, a, normalize), Run(respond, b, normalize))
    decreases |b|
  {
    if b == [] {
      assert a + b == a;
    } else {
      var front := b[..|b| - 1];
      assert (a + b)[..|a + b| - 1] == a + front;
      assert (a + b)[|a + b| - 1] == b[|b| - 1];
      RunAppend(respond, a, front, normalize);
      ThenAssoc(Run(respond, a, normalize), Run(respond, front, normalize),
                UrlEffect(respond, Target(b[|b| - 1], normalize)));
    }
  }

  /** The effect of a run is the effect of the URLs before the `i`-th, then of the `i`-th, then of
      those after it: whatever happens to one URL, the next ones are processed all the same. */
  lemma RunSplit(respond: Oracle, urls: seq<string>, normalize: bool, i: nat)
    requires i < |urls|
    ensures Run(respond, urls, normalize)
            == Then(Then(Run(respond, urls[..i], normalize), UrlEffect(respond, Target(urls[i], normalize))),
                    Run(respond, urls[i + 1..], normalize))
  {
    assert urls == urls[..i + 1] + urls[i + 1..];
    RunAppend(respond, urls[..i + 1], urls[i + 1..], normalize);
    assert urls[..i + 1][..i] == urls[..i];
  }

  /** The output file of a run holds, in input order, the resolved URL of each input URL that has
      one, each followed by a newline. */
  lemma {:induction false} RunWrites(respond: Oracle, urls: seq<string>, normalize: bool)
    ensures Run(respond, urls, normalize).writes == ResolvedLines(respond, urls, normalize)
  {
    if urls != [] {
      var head := UrlEffect(respond, Target(urls[0], normalize));
      assert urls == [urls[0]] + urls[1..];
      RunAppend(respond, [urls[0]], urls[1..], normalize);
      assert [urls[0]][..0] == [];
      assert Run(respond, [urls[0]], normalize).writes == head.writes;
      UrlWrites(respond, Target(urls[0], normalize));
      RunWrites(respond, urls[1..], normalize);
    }
  }

  /** A URL that resolves to nothing (a network error, an error status, a status in 308..399, a
      redirect without a usable `Location` or whose target does not answer with success) adds no
      line, and the lines of the URLs around it are written as if it were absent. */
  lemma FailureIsolated(respond: Oracle, urls: seq<string>, normalize: bool, i: nat)
    requires i < |urls|
    requires Resolved(respond, Target(urls[i], normalize)) == None
    ensures Run(respond, urls, normalize).writes
            == Run(respond, urls[..i], normalize).writes + Run(respond, urls[i + 1..], normalize).writes
  {
    RunSplit(respond, urls, normalize, i);
    UrlWrites(respond, Target(urls[i], normalize));
  }

  /** A `RequestException` on the first GET of a URL writes nothing, emits one network-error
      notification for it, and does not stop the run. */
  lemma NetworkErrorIsolated(respond: Oracle, urls: seq<string>, normalize: bool, i: nat)
    requires i < |urls|
    requires respond(Target(urls[i], normalize)).RequestException?
    ensures Run(respond, urls, normalize).writes
            == Run(respond, urls[..i], normalize).writes + Run(respond, urls[i + 1..], normalize).writes
    ensures Run(respond, urls, normalize).events
            == Run(respond, urls[..i], normalize).events + [NetworkFailure(Target(urls[i], normalize))]
               + Run(respond, urls[i + 1..], normalize).events
  {
    var url := Target(urls[i], normalize);
    var before, after := Run(respond, urls[..i], normalize), Run(respond, urls[i + 1..], normalize);
    assert UrlEffect(respond, url) == Effect([url], [NetworkFailure(url)], []);
    RunSplit(respond, urls, normalize, i);
    assert Run(respond, urls, normalize).writes == (before.writes + []) + after.writes;
    assert before.writes + [] == before.writes;
  }

  /** The URLs are probed in input order, each first under its normalised form, or as it is when
      normalisation is off. */
  lemma ProbeOrder(respond: Oracle, urls: seq<string>, normalize: bool, i: nat)
    requires i < |urls|
    ensures var before := |Run(respond, urls[..i], normalize).requests|;
            before < |Run(respond, urls, normalize).requests|
            && Run(respond, urls, normalize).requests[before]
               == (if normalize then NormalizeUrl(urls[i]) else urls[i])
  {
    RunSplit(respond, urls, normalize, i);
    UrlRequests(respond, Target(urls[i], normalize));
  }

  /** `Run` over one more URL is `Run` over the ones before, then that URL. */
  lemma RunSnoc(respond: Oracle, urls: seq<string>, normalize: bool, i: nat)
    requires i < |urls|
    ensures Run(respond, urls[..i + 1], normalize)
            == Then(Run(respond, urls[..i], normalize), UrlEffect(respond, Target(urls[i], normalize)))
  {
    assert urls[..i + 1][..i] == urls[..i];
  }

  /** One turn of the loop of `check_urls`: if the state before it is `start` followed by the
      URLs before the `i`-th, the state after it is `start` followed by the URLs up to the `i`-th. */
  lemma RunStep(respond: Oracle, urls: seq<string>, normalize: bool, i: nat,
                start: Effect, done: Effect, after: Effect)
    requires i < |urls|
    requires done == Run(respond, urls[..i], normalize)
    requires after == Then(Then(start, done), UrlEffect(respond, Target(urls[i], normalize)))
    ensures after == Then(start, Run(respond, urls[..i + 1], normalize))
  {
    ThenAssoc(start, done, UrlEffect(respond, Target(urls[i], normalize)));
    RunSnoc(respond, urls, normalize, i);
  }

  class CheckUrlsCore {
    const client: HttpClient

    constructor (respond: Oracle)
      ensures fresh(client) && client.respond == respond && client.requested == []
    {
      client := new HttpClient(respond);
    }

    /** `check_urls` on the lines of the input file; the output file it opens is returned. */
    method CheckUrls(lines: seq<string>, normalize: bool, console: Console) returns (output: OutputFile)
      modifies client, console
      ensures fresh(output)
      ensures output.written == Run(client.respond, Urls(lines), normalize).writes
      ensures console.log == old(console.log) + Run(client.respond, Urls(lines), normalize).events
      ensures client.requested == old(client.requested) + Run(client.respond, Urls(lines), normalize).requests
    {
      var urls := Urls(lines);
      output := new OutputFile();
      ghost var start := Effect(client.requested, console.log, []);
      ghost var done := NoEffect;
      var i := 0;
      while i < |urls|
        invariant 0 <= i <= |urls|
        invariant fresh(output)
        invariant done == Run(client.respond, urls[..i], normalize)
        invariant Effect(client.requested, console.log, output.written) == Then(start, done)
      {
        var normalizedUrl := Target(urls[i], normalize);
        CheckUrl(normalizedUrl, output, console);
        RunStep(client.respond, urls, normalize, i, start, done,
                Effect(client.requested, console.log, output.written));
        done := Run(client.respond, urls[..i + 1], normalize);
        i := i + 1;
      }
      assert urls[..i] == urls;
      assert [] + done.writes == done.writes;
      assert output.written == done.writes;
      assert done == Run(client.respond, Urls(lines), normalize);
    }

    /** The body of the loop of `check_urls` for one normalised URL: probe it, run the three status
        handlers on the response, and turn a `RequestException` into a network-error notification. */
    method CheckUrl(normalizedUrl: string, output: OutputFile, console: Console)
      modifies client, output, console
      ensures output.written == old(output.written) + UrlEffect(client.respond, normalizedUrl).writes
      ensures console.log == old(console.log) + UrlEffect(client.respond, normalizedUrl).events
      ensures client.requested == old(client.requested) + UrlEffect(client.respond, normalizedUrl).requests
    {
      ghost var start := Effect(client.requested, console.log, output.written);
      var reply := client.Get(normalizedUrl);
      ghost var effect := Effect([normalizedUrl], [], []);
      assert Effect(client.requested, console.log, output.written) == Then(start, effect);
      match reply {
        case RequestException =>
          HandleNetworkError(normalizedUrl, console);
          ThenAssoc(start, effect, NetworkErrorEffect(normalizedUrl));
          effect := Then(effect, NetworkErrorEffect(normalizedUrl));
          assert effect == UrlEffect(client.respond, normalizedUrl);
        case Received(response) =>
          var code := response.statusCode;
          HandleSuccessStatus(code, normalizedUrl, output, console);
          ThenAssoc(start, effect, SuccessEffect(code, normalizedUrl));
          effect := Then(effect, SuccessEffect(code, normalizedUrl));
          ghost var redirect := RedirectEffect(code, normalizedUrl, client.respond);
          var raised := HandleRedirectStatus(code, normalizedUrl, output, client, console);
          ThenAssoc(start, effect, redirect.effect);
          effect := Then(effect, redirect.effect);
          ghost var tail := if redirect.raised then NetworkErrorEffect(normalizedUrl) else ErrorEffect(code, normalizedUrl);
          if raised {
            HandleNetworkError(normalizedUrl, console);
          } else {
            HandleErrorStatus(code, normalizedUrl, console);
          }
          ThenAssoc(start, effect, tail);
          effect := Then(effect, tail);
          assert effect == UrlEffect(client.respond, normalizedUrl);
      }
    }
  }
}
