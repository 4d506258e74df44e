/**
 * The forwarding handler of `proxy.rs`: the error taxonomy and its rendering,
 * route lookup by Host header, construction of the outbound request, and the
 * response relayed back to the client.
 */
module Proxy {
  import opened Results
  import opened Text
  import opened Headers
  import opened Messages
  import opened Config
  import Errors

  /** The handler's failures; the first three wrap the error that caused them. */
  datatype ServerError =
    | PayloadError(payload: Chain)
    | SendRequestError(send: Chain)
    | UriConstructionError(invalid: Chain)
    | MissingHost
    | UnknownHost(host: string)

  const UnknownHostPrefix := "got request for unknown host: "

  /** The `Display` text of each variant. */
  function Message(e: ServerError): string
  {
    match e
    case PayloadError(_) => "failed to write HTTP response body"
    case SendRequestError(_) => "failed to send HTTP request to upstream"
    case UriConstructionError(_) => "failed to construct proxy URI"
    case MissingHost => "request missing host header"
    case UnknownHost(host) => UnknownHostPrefix + host
  }

  /** The cause chain from `e`: its own message, then the chain of the error it wraps, if any. */
  function ErrorChain(e: ServerError): Chain
  {
    match e
    case PayloadError(c) => [Message(e)] + c
    case SendRequestError(c) => [Message(e)] + c
    case UriConstructionError(c) => [Message(e)] + c
    case MissingHost => [Message(e)]
    case UnknownHost(_) => [Message(e)]
  }

  /** `status_code`: every variant is an internal server error. */
  function ErrorStatus(e: ServerError): StatusCode
  {
    InternalServerError
  }

  /**
   * The first line of the rendered text tells the variants apart, and for
   * `UnknownHost` it also gives back the host.
   */
  lemma MessageIdentifiesError(e1: ServerError, e2: ServerError)
    requires Message(e1) == Message(e2)
    ensures e1.PayloadError? == e2.PayloadError?
    ensures e1.SendRequestError? == e2.SendRequestError?
    ensures e1.UriConstructionError? == e2.UriConstructionError?
    ensures e1.MissingHost? == e2.MissingHost?
    ensures e1.UnknownHost? ==> e1 == e2
  {
    var m := Message(e1);
    if e1.UnknownHost? || e2.UnknownHost? {
      assert m[0] == 'g';
      assert m[..|UnknownHostPrefix|] == UnknownHostPrefix;
      if e1.UnknownHost? && e2.UnknownHost? {
        assert e1.host == m[|UnknownHostPrefix|..] == e2.host;
      }
    }
  }

  /** `error_response`: every variant renders with status 500 and its cause chain as plain text. */
  method ErrorResponse(e: ServerError) returns (res: Response)
    ensures res.status == InternalServerError
    ensures res.headers == [Header(ContentTypeName, PlainTextUtf8)]
    ensures res.body == Text(JoinLines(ErrorChain(e)))
    ensures StartsWith(res.body.text, Message(e) + "\n")
  {
    res := Errors.Render(ErrorChain(e), ErrorStatus(e));
    Errors.ChainLines(ErrorChain(e));
  }

  // ----- Route lookup -----

  /** A route matches a host when its `host_name` is a plain prefix of the host text. */
  predicate Matches(svc: Service, host: string)
  {
    StartsWith(host, svc.host_name)
  }

  /** Route `i` matches and no earlier route does. */
  predicate IsFirstMatch(services: seq<Service>, host: string, i: int)
  {
    0 <= i < |services| && Matches(services[i], host)
    && forall j :: 0 <= j < i ==> !Matches(services[j], host)
  }

  predicate NoMatch(services: seq<Service>, host: string)
  {
    forall i :: 0 <= i < |services| ==> !Matches(services[i], host)
  }

  /** The upstream address of the first matching route, if there is one. */
  function Resolve(services: seq<Service>, host: string): (r: Option<string>)
    ensures r.None? <==> NoMatch(services, host)
    ensures forall i :: IsFirstMatch(services, host, i) ==> r == Some(services[i].upstream_address)
  {
    if services == [] then None
    else if Matches(services[0], host) then Some(services[0].upstream_address)
    else
      assert forall i :: IsFirstMatch(services, host, i) ==> IsFirstMatch(services[1..], host, i - 1);
      Resolve(services[1..], host)
  }

  /**
   * A route appended at the end changes nothing for hosts an earlier route
   * matches, and serves exactly the unmatched hosts it matches itself.
   */
  lemma ResolveAppend(services: seq<Service>, svc: Service, host: string)
    ensures Resolve(services + [svc], host) ==
      if !NoMatch(services, host) then Resolve(services, host)
      else if Matches(svc, host) then Some(svc.upstream_address)
      else None
  {
    var all := services + [svc];
    if !NoMatch(services, host) {
      var k :| 0 <= k < |services| && Matches(services[k], host);
      var i := FirstMatchAtOrBefore(services, host, k);
      assert IsFirstMatch(all, host, i);
    } else if Matches(svc, host) {
      assert IsFirstMatch(all, host, |services|);
    }
  }

  /** Some route at or before `k` is the first match when route `k` matches. */
  lemma {:induction false} FirstMatchAtOrBefore(services: seq<Service>, host: string, k: int) returns (i: int)
    requires 0 <= k < |services| && Matches(services[k], host)
    ensures i <= k && IsFirstMatch(services, host, i)
    decreases k
  {
    if forall j :: 0 <= j < k ==> !Matches(services[j], host) {
      i := k;
    } else {
      var j :| 0 <= j < k && Matches(services[j], host);
      i := FirstMatchAtOrBefore(services, host, j);
    }
  }

  /**
   * What `find_upstream_addr` computes: no Host header is `MissingHost`; otherwise
   * the first route whose `host_name` prefixes the host, or `UnknownHost` with
   * the host text when none does.
   */
  function Lookup(req: Request, services: seq<Service>): (r: Result<string, ServerError>)
    ensures Get(req.headers, HostName).None? <==> r == Err(MissingHost)
    ensures Get(req.headers, HostName).Some? ==>
      var host := Get(req.headers, HostName).value;
      && (NoMatch(services, host) <==> r == Err(UnknownHost(host)))
      && (forall i :: IsFirstMatch(services, host, i) ==> r == Ok(services[i].upstream_address))
    ensures r.Err? ==> r.error.MissingHost? || r.error.UnknownHost?
  {
    match Get(req.headers, HostName)
    case None => Err(MissingHost)
    case Some(host) =>
      match Resolve(services, host)
      case Some(upstream) => Ok(upstream)
      case None => Err(UnknownHost(host))
  }

  /** `find_upstream_addr`: reads the Host header, then tries the routes in order and returns at the first match. */
  method FindUpstreamAddr(req: Request, services: seq<Service>) returns (r: Result<string, ServerError>)
    ensures r == Lookup(req, services)
  {
    var host := Get(req.headers, HostName);
    if host.None? {
      return Err(MissingHost);
    }
    for i := 0 to |services|
      invariant forall j :: 0 <= j < i ==> !Matches(services[j], host.value)
    {
      if StartsWith(host.value, services[i].host_name) {
        assert IsFirstMatch(services, host.value, i);
        return Ok(services[i].upstream_address);
      }
    }
    return Err(UnknownHost(host.value));
  }

  // ----- Outbound request -----

  /** The upstream address with the request's path-and-query appended, when it has one. */
  function Target(upstream: string, pathAndQuery: Option<string>): (r: string)
    ensures StartsWith(r, upstream)
    ensures r[|upstream|..] == if pathAndQuery.Some? then pathAndQuery.value else ""
  {
    match pathAndQuery
    case Some(pq) => upstream + pq
    case None => upstream
  }

  /** `Display` of an IP address; IPv4 as dotted decimal. */
  function IpText(ip: IpAddr): string
  {
    match ip
    case V4(a, b, c, d) =>
      Decimal(a as nat) + "." + Decimal(b as nat) + "." + Decimal(c as nat) + "." + Decimal(d as nat)
    case V6(text) => text
  }

  /** The one `x-forwarded-for` entry for a known peer: its IP, without the port. */
  function ForwardedFor(peer: SocketAddr): Header
  {
    Header(XForwardedForName, IpText(peer.ip))
  }

  /** Every header entry the outbound request carries. */
  function AllHeaders(o: Outbound): seq<Header>
  {
    o.head + o.extra
  }

  /**
   * The outbound request `forward` builds before anything is sent: lookup
   * failures and an unparsable target stop it; otherwise it targets the parsed
   * URI, keeps the inbound head and body, and appends one `x-forwarded-for`
   * entry exactly when the peer address is known.
   */
  function Prepare(req: Request, services: seq<Service>, parseUri: string -> Result<Uri, Chain>): (r: Result<Outbound, ServerError>)
    ensures Lookup(req, services).Err? ==> r == Err(Lookup(req, services).error)
    ensures Lookup(req, services).Ok? ==>
      var parsed := parseUri(Target(Lookup(req, services).value, req.pathAndQuery));
      && (parsed.Err? ==> r == Err(UriConstructionError(parsed.error)))
      && (parsed.Ok? ==> r.Ok? && r.value.uri == parsed.value)
    ensures r.Ok? ==> r.value.verb == req.verb && r.value.body == req.body && r.value.head == req.headers
    ensures r.Ok? ==> req.headers <= AllHeaders(r.value)
    ensures r.Ok? ==>
      multiset(AllHeaders(r.value)) ==
        multiset(req.headers) + (if req.peer.Some? then multiset{ForwardedFor(req.peer.value)} else multiset{})
  {
    match Lookup(req, services)
    case Err(e) => Err(e)
    case Ok(upstream) =>
      match parseUri(Target(upstream, req.pathAndQuery))
      case Err(invalid) => Err(UriConstructionError(invalid))
      case Ok(uri) =>
        var extra := if req.peer.Some? then [ForwardedFor(req.peer.value)] else [];
        Ok(Outbound(uri, req.verb, req.headers, extra, req.body))
  }

  // ----- Response relay -----

  /** Copies the upstream's header entries in order, skipping every `connection` entry. */
  method CopyHeaders(upstream: seq<Header>) returns (headers: seq<Header>)
    ensures headers == Without(upstream, ConnectionName)
  {
    headers := [];
    for i := 0 to |upstream|
      invariant headers == Without(upstream[..i], ConnectionName)
    {
      WithoutAppend(upstream[..i], [upstream[i]], ConnectionName);
      assert upstream[..i + 1] == upstream[..i] + [upstream[i]];
      if upstream[i].name != ConnectionName {
        headers := headers + [upstream[i]];
      }
    }
    assert upstream[..|upstream|] == upstream;
  }

  /**
   * The client's response: the upstream status, every upstream header entry
   * except `connection` (duplicates kept, none added), and the upstream body
   * streamed through.
   */
  function Relayed(res: UpstreamResponse): (r: Response)
    ensures r.status == res.status
    ensures r.headers == Without(res.headers, ConnectionName)
    ensures forall h :: multiset(r.headers)[h] == if h.name == ConnectionName then 0 else multiset(res.headers)[h]
    ensures r.body == Streamed(res.body)
  {
    WithoutCounts(res.headers, ConnectionName);
    Response(res.status, Without(res.headers, ConnectionName), Streamed(res.body))
  }

  method RelayResponse(res: UpstreamResponse) returns (resp: Response)
    ensures resp == Relayed(res)
  {
    var headers := CopyHeaders(res.headers);
    resp := Response(res.status, headers, Streamed(res.body));
  }

  /** The handler's result: the prepared request's failure, the send failure, or the relayed response. */
  function Exchange(
    req: Request, services: seq<Service>,
    parseUri: string -> Result<Uri, Chain>,
    upstream: Outbound -> Result<UpstreamResponse, Chain>): Result<Response, ServerError>
  {
    match Prepare(req, services, parseUri)
    case Err(e) => Err(e)
    case Ok(outbound) =>
      match upstream(outbound)
      case Err(c) => Err(SendRequestError(c))
      case Ok(res) => Ok(Relayed(res))
  }

  /**
   * The first half of `forward`: looks up the route, appends the path-and-query
   * to the upstream address, parses the result, and appends `x-forwarded-for`
   * for a known peer.
   */
  method BuildOutbound(req: Request, services: seq<Service>, parseUri: string -> Result<Uri, Chain>)
    returns (r: Result<Outbound, ServerError>)
    ensures r == Prepare(req, services, parseUri)
  {
    var found := FindUpstreamAddr(req, services);
    if found.Err? {
      return Err(found.error);
    }
    var target := found.value;
    if req.pathAndQuery.Some? {
      target := target + req.pathAndQuery.value;
    }
    assert target == Target(found.value, req.pathAndQuery);
    var parsed := parseUri(target);
    if parsed.Err? {
      return Err(UriConstructionError(parsed.error));
    }
    var outbound := Outbound(parsed.value, req.verb, req.headers, [], req.body);
    if req.peer.Some? {
      outbound := outbound.(extra := outbound.extra + [ForwardedFor(req.peer.value)]);
      assert outbound.extra == [ForwardedFor(req.peer.value)];
    }
    r := Ok(outbound);
  }

  /**
   * `forward`: `upstream` stands for the HTTP client and the network; `sent`
   * is the request handed to it, if any. Nothing is sent when lookup or URI
   * construction fails.
   */
  method Forward(
    req: Request, services: seq<Service>,
    parseUri: string -> Result<Uri, Chain>,
    upstream: Outbound -> Result<UpstreamResponse, Chain>)
    returns (r: Result<Response, ServerError>, sent: Option<Outbound>)
    ensures sent == Prepare(req, services, parseUri).ToOption()
    ensures r == Exchange(req, services, parseUri, upstream)
  {
    var outbound := BuildOutbound(req, services, parseUri);
    if outbound.Err? {
      return Err(outbound.error), None;
    }
    sent := Some(outbound.value);
    var reply := upstream(outbound.value);
    if reply.Err? {
      return Err(SendRequestError(reply.error)), sent;
    }
    var resp := RelayResponse(reply.value);
    r := Ok(resp);
  }

  // ----- Properties of routing -----

  /** A failure before sending does not depend on the upstream at all: no request reaches it. */
  lemma NoSendOnEarlyFailure(
    req: Request, services: seq<Service>, parseUri: string -> Result<Uri, Chain>,
    upstream1: Outbound -> Result<UpstreamResponse, Chain>,
    upstream2: Outbound -> Result<UpstreamResponse, Chain>)
    requires Prepare(req, services, parseUri).Err?
    ensures Exchange(req, services, parseUri, upstream1) == Exchange(req, services, parseUri, upstream2)
    ensures Exchange(req, services, parseUri, upstream1) == Err(Prepare(req, services, parseUri).error)
  {
  }

  /**
   * Matching is a plain prefix test: not aware of label boundaries, case
   * sensitive, and an empty `host_name` matches every host.
   */
  lemma PrefixMatchingExamples(u: string, host: string)
    ensures Resolve([Service("it_resolves_302", u)], "it_resolves_302.local") == Some(u)
    ensures Resolve([Service("foo", u)], "foobar.example.com") == Some(u)
    ensures Resolve([Service("svc", u)], "SVC.local") == None
    ensures Resolve([Service("", u)], host) == Some(u)
  {
    assert IsFirstMatch([Service("it_resolves_302", u)], "it_resolves_302.local", 0);
    assert IsFirstMatch([Service("foo", u)], "foobar.example.com", 0);
    assert !Matches(Service("svc", u), "SVC.local") by {
      assert "SVC.local"[0] != "svc"[0];
    }
  }

  /** A request for host `a.b` through the route `a -> http://U` targets `http://U` followed by its path-and-query. */
  lemma PrefixRouteTarget(pq: string, parseUri: string -> Result<Uri, Chain>)
    requires parseUri("http://U" + pq).Ok?
    ensures var req := Request("GET", Some(pq), [Header(HostName, "a.b")], [], None);
      var o := Prepare(req, [Service("a", "http://U")], parseUri);
      o.Ok? && o.value.uri == parseUri("http://U" + pq).value
  {
  }

  /**
   * A redirect is relayed, not followed: the upstream's 302 and its
   * `location` reach the client unchanged, and the follow-up request for that
   * location is forwarded like any other.
   */
  lemma RedirectRelayed(u: string, found: seq<byte>)
    ensures
      var services := [Service("it_resolves_302", u)];
      var parse: string -> Result<Uri, Chain> := (t: string) => Ok(Uri(t));
      var upstream: Outbound -> Result<UpstreamResponse, Chain> := (o: Outbound) =>
        if o.uri.text == u + "/" then Ok(UpstreamResponse(StatusFound, [Header(LocationName, "/found")], Complete([])))
        else if o.uri.text == u + "/found" then Ok(UpstreamResponse(StatusOk, [], Complete(found)))
        else Err(["no such mock"]);
      var first := Request("GET", Some("/"), [Header(HostName, "it_resolves_302.local")], [], None);
      var second := first.(pathAndQuery := Some("/found"));
      && Exchange(first, services, parse, upstream)
           == Ok(Response(StatusFound, [Header(LocationName, "/found")], Streamed(Complete([]))))
      && Exchange(second, services, parse, upstream)
           == Ok(Response(StatusOk, [], Streamed(Complete(found))))
  {
    var services := [Service("it_resolves_302", u)];
    var parse: string -> Result<Uri, Chain> := (t: string) => Ok(Uri(t));
    var upstream: Outbound -> Result<UpstreamResponse, Chain> := (o: Outbound) =>
      if o.uri.text == u + "/" then Ok(UpstreamResponse(StatusFound, [Header(LocationName, "/found")], Complete([])))
      else if o.uri.text == u + "/found" then Ok(UpstreamResponse(StatusOk, [], Complete(found)))
      else Err(["no such mock"]);
    var hs := [Header(HostName, "it_resolves_302.local")];
    var first := Request("GET", Some("/"), hs, [], None);
    var second := first.(pathAndQuery := Some("/found"));
    assert IsFirstMatch(services, "it_resolves_302.local", 0);
    assert IsFirstNamed(hs, HostName, 0);
    assert Lookup(first, services) == Ok(u) && Lookup(second, services) == Ok(u);
    assert u + "/" != u + "/found";
    var o1 := Outbound(Uri(u + "/"), "GET", hs, [], []);
    var o2 := Outbound(Uri(u + "/found"), "GET", hs, [], []);
    assert Prepare(first, services, parse) == Ok(o1);
    assert Prepare(second, services, parse) == Ok(o2);
    assert Without([Header(LocationName, "/found")], ConnectionName) == [Header(LocationName, "/found")];
  }
}
