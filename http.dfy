/**
 * A stand-in for the injected HTTP client: it records every request it is
 * asked to send and answers each URL with a fixed body. Transport, status
 * codes and transport errors are not modelled.
 */
module Http {

  /** One request as the client saw it. */
  datatype Sent = Sent(verb: string, url: string)

  class StubClient {
    /** Every request sent so far, oldest first. */
    var log: seq<Sent>
    /** The body the stub answers for each URL. */
    const serve: string -> string

    constructor (serve: string -> string)
      ensures log == [] && this.serve == serve
    {
      this.serve := serve;
      log := [];
    }

    /** `request($method, $url)->getContent()`: one request logged, its body returned. */
    method Request(verb: string, url: string) returns (content: string)
      modifies this
      ensures log == old(log) + [Sent(verb, url)]
      ensures content == serve(url)
    {
      log := log + [Sent(verb, url)];
      content := serve(url);
    }
  }
}
