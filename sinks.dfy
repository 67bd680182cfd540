/** Where the core's effects go: the output file, which receives the successful URLs, and the
    console, which receives one notification per step of the status handlers. */
module Sinks {

  /** The notifications the handlers emit, one kind per distinct message. */
  datatype Event =
    | Succeeded(code: int, url: string)
    | Redirected(code: int, url: string)
    | Following(target: string)
    | MissingLocation(url: string)
    | Failed(code: int, url: string)
    | NetworkFailure(url: string)

  /** The console, as the ordered log of the notifications printed on it. */
  class Console {
    var log: seq<Event>

    constructor ()
      ensures log == []
    {
      log := [];
    }

    method Notify(e: Event)
      modifies this
      ensures log == old(log) + [e]
    {
      log := log + [e];
    }
  }

  /** The output file, opened for writing (so empty at first), as the ordered chunks written to it. */
  class OutputFile {
    var written: seq<string>

    constructor ()
      ensures written == []
    {
      written := [];
    }

    method Write(text: string)
      modifies this
      ensures written == old(written) + [text]
    {
      written := written + [text];
    }
  }
}
