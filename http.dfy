/**
 * The parts of Go's net/http that the SCIM client relies on: method names, headers,
 * a request whose header and raw query are changed in place, the response, and
 * http.Client.Do over a transport the model does not look into.
 */
module Http {
  import opened Wrappers
  import opened Text
  import opened Errors

  const MethodGet := "GET"
  const MethodPost := "POST"
  const MethodPut := "PUT"
  const MethodPatch := "PATCH"

  const StatusOK := 200

  /** url.Values: each key with its values in the order they were added. */
  type Query = map<string, seq<string>>

  /** An http.Header written only through Header.Set, which keeps one value per key. */
  type Header = map<string, string>

  /** The parts of an http.Response the client reads. */
  datatype Response = Response(statusCode: int, status: string, body: Bytes)

  /** A client certificate chain (tls.Certificate); its content is not modelled. */
  datatype Certificate = Certificate(der: Bytes)

  /**
   * A request as it reaches the transport. The raw query is the url.Values before
   * encoding; None means RawQuery was never assigned.
   */
  datatype Outgoing = Outgoing(
    verb: string,
    url: string,
    rawQuery: Option<Query>,
    header: Header,
    body: Option<Bytes>)

  /** An http.Request: made once, then its header and raw query are changed in place. */
  class Request {
    const verb: string
    const url: string
    const body: Option<Bytes>
    var rawQuery: Option<Query>
    var header: Header

    /**
     * http.NewRequestWithContext that did not fail: no header yet, and RawQuery not yet
     * assigned. The URL is kept as one string; any query it holds is not parsed out.
     */
    constructor(verb: string, url: string, body: Option<Bytes>)
      ensures this.verb == verb && this.url == url && this.body == body
      ensures rawQuery == None && header == map[]
    {
      this.verb := verb;
      this.url := url;
      this.body := body;
      rawQuery := None;
      header := map[];
    }

    /** What the transport receives if the request is sent now. */
    function Snapshot(): Outgoing
      reads this
    {
      Outgoing(verb, url, rawQuery, header, body)
    }
  }

  /**
   * The transport: given the client certificates and a request, a response or an error.
   * Connections, timeouts and cancellation are behind this function.
   */
  type RoundTripper = (seq<Certificate>, Outgoing) -> Result<Response, Error>

  /** An http.Client. `sent` records every request handed to the transport. */
  class Client {
    const certificates: seq<Certificate>
    const roundTrip: RoundTripper
    ghost var sent: seq<Outgoing>

    constructor(certificates: seq<Certificate>, roundTrip: RoundTripper)
      ensures this.certificates == certificates && this.roundTrip == roundTrip
      ensures sent == []
    {
      this.certificates := certificates;
      this.roundTrip := roundTrip;
      sent := [];
    }

    /** http.Client.Do: hands the request, as it is now, to the transport. */
    method Do(req: Request) returns (r: Result<Response, Error>)
      modifies this`sent
      ensures sent == old(sent) + [req.Snapshot()]
      ensures r == roundTrip(certificates, req.Snapshot())
    {
      sent := sent + [req.Snapshot()];
      r := roundTrip(certificates, req.Snapshot());
    }
  }
}
