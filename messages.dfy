/**
 * The HTTP values the proxy handles: inbound requests, the outbound request
 * handed to the HTTP client, upstream replies and the responses written back.
 * Bodies are byte sequences; a streamed body is modelled by what the stream
 * delivers, including a stream that breaks part way.
 */
module Messages {
  import opened Results
  import opened Headers

  newtype byte = x: int | 0 <= x < 0x100

  /** Rust's `u16`, the type of every port number. */
  type Port = x: int | 0 <= x < 0x1_0000

  type StatusCode = s: int | 100 <= s <= 999 witness 200

  const StatusOk: StatusCode := 200
  const StatusFound: StatusCode := 302
  const InternalServerError: StatusCode := 500

  /**
   * An error's cause chain as `anyhow::Chain` walks it: the error's own
   * message first, then the message of each `source()`, outermost first.
   */
  type Chain = c: seq<string> | |c| > 0 witness [""]

  /** A peer IP address. An IPv6 address is kept as the text Rust's `Display` gives it. */
  datatype IpAddr = V4(a: byte, b: byte, c: byte, d: byte) | V6(text: string)

  datatype SocketAddr = SocketAddr(ip: IpAddr, port: Port)

  /** A parsed `http::Uri`, kept as the text it was parsed from. */
  datatype Uri = Uri(text: string)

  /** An inbound request: method (`verb`), path-and-query of its URI, header entries, body, and peer address when known. */
  datatype Request = Request(
    verb: string,
    pathAndQuery: Option<string>,
    headers: seq<Header>,
    body: seq<byte>,
    peer: Option<SocketAddr>)

  /**
   * The request handed to the HTTP client: target URI, the method and headers of
   * the inbound head it is built from, the headers the proxy appends itself, and
   * the body.
   */
  datatype Outbound = Outbound(
    uri: Uri,
    verb: string,
    head: seq<Header>,
    extra: seq<Header>,
    body: seq<byte>)

  /** What a body stream delivers: all of it, or a prefix and then the error that broke it. */
  datatype BodyStream = Complete(bytes: seq<byte>) | Broken(received: seq<byte>, error: Chain)

  datatype UpstreamResponse = UpstreamResponse(status: StatusCode, headers: seq<Header>, body: BodyStream)

  /** A response body: text, a stream relayed as it arrives, or bytes read in full beforehand. */
  datatype Body = Text(text: string) | Streamed(stream: BodyStream) | Buffered(bytes: seq<byte>)

  datatype Response = Response(status: StatusCode, headers: seq<Header>, body: Body)

  const PlainTextUtf8 := "text/plain; charset=utf-8"
  const HtmlUtf8 := "text/html; charset=utf-8"
}
