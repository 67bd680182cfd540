/** `HttpStatusHandler`: four handlers, each acting only when its own guard on the status code
    holds. The loop calls the success, redirect and error handlers one after the other on every
    response, so the guards alone decide which of them does something.

    Each handler is a method over the output file, the console and (for redirects) the HTTP
    client, and is proved against a pure function giving the `Effect` it has on them. */
module HttpStatusHandler {
  import opened Wrappers
  import opened Http
  import opened Sinks

  /** Guard of `handle_success_status`. */
  predicate IsSuccessStatus(code: int) {
    200 <= code < 300
  }

  /** Guard of `handle_redirect_status`. */
  predicate IsRedirectStatus(code: int) {
    300 <= code < 308
  }

  /** Guard of `handle_error_status`. */
  predicate IsErrorStatus(code: int) {
    code < 200 || code >= 400
  }

  /** Which handler a status code sets off; `Unhandled` when none does. */
  datatype StatusClass = Success | Redirect | Error | Unhandled

  /** The classification read off the code's position among the boundaries 200, 300, 308 and 400:
      it picks out the one handler whose guard holds, and `Unhandled` exactly on 308..399. */
  function Classify(code: int): (c: StatusClass)
    ensures c == Success <==> IsSuccessStatus(code)
    ensures c == Redirect <==> IsRedirectStatus(code)
    ensures c == Error <==> IsErrorStatus(code)
    ensures c == Unhandled <==> 308 <= code < 400
  {
    if code < 200 then Error
    else if code < 300 then Success
    else if code < 308 then Redirect
    else if code < 400 then Unhandled
    else Error
  }

  /** The three guards are pairwise disjoint, and none of them holds exactly on 308..399. */
  lemma GuardsPartition(code: int)
    ensures !(IsSuccessStatus(code) && IsRedirectStatus(code))
    ensures !(IsSuccessStatus(code) && IsErrorStatus(code))
    ensures !(IsRedirectStatus(code) && IsErrorStatus(code))
    ensures !IsSuccessStatus(code) && !IsRedirectStatus(code) && !IsErrorStatus(code)
            <==> 308 <= code < 400
  {
  }

  /** What a piece of processing does: the URLs it requests, the notifications it emits and the
      chunks it writes to the output file, each in order. */
  datatype Effect = Effect(requests: seq<string>, events: seq<Event>, writes: seq<string>)

  const NoEffect := Effect([], [], [])

  /** `a` followed by `b`. */
  function Then(a: Effect, b: Effect): Effect {
    Effect(a.requests + b.requests, a.events + b.events, a.writes + b.writes)
  }

  lemma ThenAssoc(a: Effect, b: Effect, c: Effect)
    ensures Then(Then(a, b), c) == Then(a, Then(b, c))
  {
    assert (a.requests + b.requests) + c.requests == a.requests + (b.requests + c.requests);
    assert (a.events + b.events) + c.events == a.events + (b.events + c.events);
    assert (a.writes + b.writes) + c.writes == a.writes + (b.writes + c.writes);
  }

  /** The effect of a handler, and whether it ended by raising `RequestException`. */
  datatype Handled = Handled(effect: Effect, raised: bool)

  /** The output line for a URL, if there is one. */
  function Line(target: Option<string>): seq<string> {
    match target
    case Some(t) => [t + "\n"]
    case None => []
  }

  /** Effect of `handle_success_status`. */
  function SuccessEffect(code: int, url: string): Effect {
    if IsSuccessStatus(code) then Effect([], [Succeeded(code, url)], [url + "\n"]) else NoEffect
  }

  /** Effect of `handle_redirect_status`: announce the redirect, GET the URL again, read its
      `Location`; if that is present and non-empty, GET the target and hand its status to the
      success handler with the target as URL. Either GET may raise. */
  function RedirectEffect(code: int, url: string, respond: Oracle): Handled {
    if !IsRedirectStatus(code) then Handled(NoEffect, false)
    else
      var announced := Effect([url], [Redirected(code, url)], []);
      match respond(url)
      case RequestException => Handled(announced, true)
      case Received(again) =>
        if again.location.Some? && again.location.value != "" then
          var target := again.location.value;
          var following := Then(announced, Effect([target], [Following(target)], []));
          match respond(target)
          case RequestException => Handled(following, true)
          case Received(followUp) => Handled(Then(following, SuccessEffect(followUp.statusCode, target)), false)
        else
          Handled(Then(announced, Effect([], [MissingLocation(url)], [])), false)
  }

  /** Effect of `handle_error_status`. */
  function ErrorEffect(code: int, url: string): Effect {
    if IsErrorStatus(code) then Effect([], [Failed(code, url)], []) else NoEffect
  }

  /** Effect of `handle_network_error`. */
  function NetworkErrorEffect(url: string): Effect {
    Effect([], [NetworkFailure(url)], [])
  }

  /** The URL a redirect ends up writing: the `Location` target, provided it is present and
      non-empty and a GET of it answers with a status in [200, 300). */
  function FollowedTarget(respond: Oracle, location: Option<string>): Option<string> {
    if location.Some? && location.value != "" then
      match respond(location.value)
      case Received(followUp) => if IsSuccessStatus(followUp.statusCode) then location else None
      case RequestException => None
    else
      None
  }

  /** The success handler writes `url + "\n"` exactly for a success status, with one notification,
      and otherwise does nothing. */
  lemma SuccessOutcome(code: int, url: string)
    ensures var e := SuccessEffect(code, url);
            e.requests == []
            && (Classify(code) == Success ==> e.writes == [url + "\n"] && e.events == [Succeeded(code, url)])
            && (Classify(code) != Success ==> e == NoEffect)
  {
  }

  /** The redirect handler does nothing outside [300, 308). Inside it, it writes the followed
      target when there is one and nothing otherwise; it raises exactly when one of its GETs does;
      and a missing or empty `Location` is reported without writing anything. */
  lemma RedirectOutcome(code: int, url: string, respond: Oracle)
    ensures var h := RedirectEffect(code, url, respond);
            !IsRedirectStatus(code) ==> h == Handled(NoEffect, false)
    ensures var h := RedirectEffect(code, url, respond);
            IsRedirectStatus(code) ==>
              h.effect.events[0] == Redirected(code, url)
              && h.effect.requests[0] == url
              && h.effect.writes == Line(
                   match respond(url)
                   case Received(again) => FollowedTarget(respond, again.location)
                   case RequestException => None)
    ensures var h := RedirectEffect(code, url, respond);
            IsRedirectStatus(code) ==>
              h.raised == (respond(url).RequestException?
                           || (respond(url).response.location.Some?
                               && respond(url).response.location.value != ""
                               && respond(respond(url).response.location.value).RequestException?))
    ensures var h := RedirectEffect(code, url, respond);
            IsRedirectStatus(code) && respond(url).Received?
            && (respond(url).response.location == None || respond(url).response.location == Some("")) ==>
              h == Handled(Effect([url], [Redirected(code, url), MissingLocation(url)], []), false)
  {
  }

  /** The error handler notifies exactly for a code below 200 or from 400 on, and writes nothing. */
  lemma ErrorOutcome(code: int, url: string)
    ensures var e := ErrorEffect(code, url);
            e.requests == [] && e.writes == []
            && (e.events == [Failed(code, url)] <==> Classify(code) == Error)
            && (e.events == [] <==> Classify(code) != Error)
  {
  }

  /** `handle_success_status`. */
  method HandleSuccessStatus(code: int, url: string, writer: OutputFile, console: Console)
    modifies writer, console
    ensures writer.written == old(writer.written) + SuccessEffect(code, url).writes
    ensures console.log == old(console.log) + SuccessEffect(code, url).events
  {
    if 200 <= code < 300 {
      console.Notify(Succeeded(code, url));
      writer.Write(url + "\n");
    }
  }

  /** `handle_redirect_status`; `raised` reports a `RequestException` escaping from one of its GETs. */
  method HandleRedirectStatus(code: int, url: string, writer: OutputFile, client: HttpClient, console: Console)
    returns (raised: bool)
    modifies writer, client, console
    ensures raised == RedirectEffect(code, url, client.respond).raised
    ensures writer.written == old(writer.written) + RedirectEffect(code, url, client.respond).effect.writes
    ensures console.log == old(console.log) + RedirectEffect(code, url, client.respond).effect.events
    ensures client.requested == old(client.requested) + RedirectEffect(code, url, client.respond).effect.requests
  {
    raised := false;
    if 300 <= code < 308 {
      console.Notify(Redirected(code, url));
      var reply := client.Get(url);
      if reply.RequestException? {
        return true;
      }
      var newUrl := reply.response.location;
      if newUrl.Some? && newUrl.value != "" {
        console.Notify(Following(newUrl.value));
        var followUp := client.Get(newUrl.value);
        if followUp.RequestException? {
          return true;
        }
        HandleSuccessStatus(followUp.response.statusCode, newUrl.value, writer, console);
      } else {
        console.Notify(MissingLocation(url));
      }
    }
  }

  /** `handle_error_status`. */
  method HandleErrorStatus(code: int, url: string, console: Console)
    modifies console
    ensures console.log == old(console.log) + ErrorEffect(code, url).events
  {
    if code < 200 || code >= 400 {
      console.Notify(Failed(code, url));
    }
  }

  /** `handle_network_error`. */
  method HandleNetworkError(url: string, console: Console)
    modifies console
    ensures console.log == old(console.log) + NetworkErrorEffect(url).events
  {
    console.Notify(NetworkFailure(url));
  }
}
