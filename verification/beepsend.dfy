/**
 * The request handler the resources hand their calls to. Only its
 * interface is modelled: what it is asked to do, and the result it passes
 * back. Turning a call into a URL, the HTTP exchange and JSON decoding are
 * behind `transport`, an opaque function fixed when the handler is made.
 */
module Beepsend {
  import opened PhpValues
  import opened PhpArrays

  datatype HttpMethod = GET | POST | PUT | DELETE

  /**
   * One `execute($path, $method, $data)` call. `params == None` is a call
   * made without the third argument, which leaves the handler's default.
   */
  datatype Call = Call(path: string, verb: HttpMethod, params: Option<Entries>)

  class Request<R> {
    /** What the connector and the decoder make of a call. */
    const transport: Call -> R

    /** Every call made on this handler, with the result it gave, oldest first. */
    ghost var log: seq<(Call, R)>

    constructor (transport: Call -> R)
      ensures this.transport == transport
      ensures log == []
    {
      this.transport := transport;
      log := [];
    }

    /** Performs one call and returns its decoded result. */
    method Execute(path: string, verb: HttpMethod, params: Option<Entries>) returns (response: R)
      modifies this
      ensures response == transport(Call(path, verb, params))
      ensures log == old(log) + [(Call(path, verb, params), response)]
    {
      response := transport(Call(path, verb, params));
      log := log + [(Call(path, verb, params), response)];
    }
  }
}
