/** The HTTP client as the core sees it. A GET either yields a response, of which the core reads
    only the status code and the `Location` header, or raises `RequestException`. The network
    is a deterministic oracle from URL to reply; the client records every URL it requests. */
module Http {
  import opened Wrappers

  datatype Response = Response(statusCode: int, location: Option<string>)

  datatype Reply = Received(response: Response) | RequestException

  /** What the network answers to a GET of each URL. */
  type Oracle = string -> Reply

  class HttpClient {
    const respond: Oracle
    /** The URLs requested so far, in order. */
    var requested: seq<string>

    constructor (respond: Oracle)
      ensures this.respond == respond && requested == []
    {
      this.respond := respond;
      requested := [];
    }

    /** `HttpClient.get`: one GET of `url`. */
    method Get(url: string) returns (reply: Reply)
      modifies this
      ensures reply == respond(url)
      ensures requested == old(requested) + [url]
    {
      reply := respond(url);
      requested := requested + [url];
    }
  }
}
