/**
 * The network as the client sees it: `http.NewRequest` (which may reject a method or URL)
 * and `http.Client.Do` (which may fail, or answer with a status line and a body that may
 * fail to read). Both are oracles; the network keeps a log of every request actually sent,
 * so that "no request is sent" can be stated as an unchanged log.
 */
module Http {
  import opened Results

  type Bytes = seq<bv8>

  /** A request handed to the transport: verb, full URL, header map, and the payload if any. */
  datatype Request = Request(verb: string, url: string, headers: map<string, string>, body: Option<Bytes>)

  /** What `client.Do` yields: a transport-level failure, or a response whose body read may fail. */
  datatype Reply =
    | TransportError(error: Error)
    | Response(statusCode: int, status: string, body: Result<Bytes>)

  /**
   * The behaviour of the outside world: which (method, url) pairs `http.NewRequest` refuses,
   * and the reply to the n-th request sent.
   */
  datatype Net = Net(
    newRequestError: (string, string) -> Option<Error>,
    respond: (nat, Request) -> Reply)

  class Network {
    const net: Net
    /** Every request sent so far, in order; its length is the transport-call counter. */
    var sent: seq<Request>

    constructor (net: Net)
      ensures this.net == net && sent == []
    {
      this.net := net;
      sent := [];
    }

    /** Sends one request and returns the reply the network gives to it. */
    method Do(r: Request) returns (reply: Reply)
      modifies this
      ensures sent == old(sent) + [r]
      ensures reply == net.respond(|old(sent)|, r)
    {
      reply := net.respond(|sent|, r);
      sent := sent + [r];
    }
  }
}
