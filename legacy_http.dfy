/**
 * `http.rs`, the earlier copy of the forwarding handler. It routes and builds
 * the outbound request exactly as `proxy.rs` does, and differs in two places:
 * it reads the whole upstream body before answering, so a broken body becomes
 * `PayloadError`, and it keeps the default `ResponseError` status.
 */
module LegacyHttp {
  import opened Results
  import opened Headers
  import opened Messages
  import opened Config
  import opened Proxy

  /** The default `ResponseError::status_code`, which `http.rs` does not override. */
  function DefaultStatusCode(e: ServerError): StatusCode
  {
    InternalServerError
  }

  /** The client's response once the whole upstream body has been read. */
  function BufferedReply(res: UpstreamResponse): Result<Response, ServerError>
  {
    match res.body
    case Broken(_, c) => Err(PayloadError(c))
    case Complete(bytes) => Ok(Response(res.status, Without(res.headers, ConnectionName), Buffered(bytes)))
  }

  /** The handler's result. */
  function LegacyExchange(
    req: Request, services: seq<Service>,
    parseUri: string -> Result<Uri, Chain>,
    upstream: Outbound -> Result<UpstreamResponse, Chain>): Result<Response, ServerError>
  {
    match Prepare(req, services, parseUri)
    case Err(e) => Err(e)
    case Ok(outbound) =>
      match upstream(outbound)
      case Err(c) => Err(SendRequestError(c))
      case Ok(res) => BufferedReply(res)
  }

  /** `forward` of `http.rs`; `sent` is the request handed to the client, if any. */
  method LegacyForward(
    req: Request, services: seq<Service>,
    parseUri: string -> Result<Uri, Chain>,
    upstream: Outbound -> Result<UpstreamResponse, Chain>)
    returns (r: Result<Response, ServerError>, sent: Option<Outbound>)
    ensures sent == Prepare(req, services, parseUri).ToOption()
    ensures r == LegacyExchange(req, services, parseUri, upstream)
  {
    var outbound := BuildOutbound(req, services, parseUri);
    if outbound.Err? {
      return Err(outbound.error), None;
    }
    sent := Some(outbound.value);
    var reply := upstream(outbound.value);
    if reply.Err? {
      return Err(SendRequestError(reply.error)), sent;
    }
    var res := reply.value;
    var headers := CopyHeaders(res.headers);
    match res.body
    case Broken(_, c) =>
      r := Err(PayloadError(c));
    case Complete(bytes) =>
      r := Ok(Response(res.status, headers, Buffered(bytes)));
  }

  /**
   * The two handlers agree on everything but the body: the same failures
   * before and at sending, and the same status and headers; `http.rs` answers
   * with the bytes `proxy.rs` streams, or with `PayloadError` where the stream
   * `proxy.rs` relays breaks.
   */
  lemma LegacyAgreesWithProxy(
    req: Request, services: seq<Service>,
    parseUri: string -> Result<Uri, Chain>,
    upstream: Outbound -> Result<UpstreamResponse, Chain>)
    ensures var current := Exchange(req, services, parseUri, upstream);
      var legacy := LegacyExchange(req, services, parseUri, upstream);
      && (current.Err? ==> legacy == current)
      && (current.Ok? ==> match current.value.body
           case Streamed(Complete(bytes)) =>
             legacy == Ok(current.value.(body := Buffered(bytes)))
           case Streamed(Broken(_, c)) => legacy == Err(PayloadError(c))
           case _ => false)
    ensures forall e :: DefaultStatusCode(e) == Proxy.ErrorStatus(e)
  {
  }
}
