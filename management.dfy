/**
 * The management server's index page, which lists the configured host names
 * and the listen port, and its error type.
 */
module Management {
  import opened Results
  import opened Text
  import opened Headers
  import opened Messages
  import opened Config
  import Proxy
  import Errors

  datatype ManagementError = TemplateError(tera: Chain)

  const TemplateErrorMessage := "Error rendering template"

  /** The cause chain: the variant's message, then the template engine's chain. */
  function ErrorChain(e: ManagementError): Chain
  {
    [TemplateErrorMessage] + e.tera
  }

  /** `status_code`: always an internal server error. */
  function ErrorStatus(e: ManagementError): StatusCode
  {
    InternalServerError
  }

  /** `error_response`: status 500, plain text, one line per error of the chain, outermost first. */
  method ErrorResponse(e: ManagementError) returns (res: Response)
    ensures res.status == InternalServerError
    ensures res.headers == [Header(ContentTypeName, PlainTextUtf8)]
    ensures res.body == Text(JoinLines(ErrorChain(e)))
    ensures StartsWith(res.body.text, TemplateErrorMessage + "\n")
  {
    res := Errors.Render(ErrorChain(e), ErrorStatus(e));
    Errors.ChainLines(ErrorChain(e));
  }

  /** The values the index template is rendered with. */
  datatype IndexContext = IndexContext(services: seq<string>, listen_port: Port)

  /** The host name of every route, one per route, in configuration order. */
  function HostNames(services: seq<Service>): (names: seq<string>)
    ensures |names| == |services|
    ensures forall i :: 0 <= i < |services| ==> names[i] == services[i].host_name
  {
    if services == [] then [] else [services[0].host_name] + HostNames(services[1..])
  }

  /** The template context: the host names in configuration order and the listen port as configured. */
  function Context(c: Config): (ctx: IndexContext)
    ensures ctx.listen_port == c.listen_port
    ensures |ctx.services| == |c.services|
    ensures forall i :: 0 <= i < |c.services| ==> ctx.services[i] == c.services[i].host_name
  {
    IndexContext(HostNames(c.services), c.listen_port)
  }

  /**
   * `index`: the rendered page with status 200 and an HTML content type, or
   * `TemplateError` when rendering fails. `render` stands for the template
   * engine.
   */
  function Index(c: Config, render: IndexContext -> Result<string, Chain>): (r: Result<Response, ManagementError>)
    ensures var ctx := render(Context(c));
      && (ctx.Ok? ==> r == Ok(Response(StatusOk, [Header(ContentTypeName, HtmlUtf8)], Text(ctx.value))))
      && (ctx.Err? ==> r == Err(TemplateError(ctx.error)))
  {
    match render(Context(c))
    case Ok(body) =>
      assert Insert([], ContentTypeName, HtmlUtf8) == [Header(ContentTypeName, HtmlUtf8)];
      Ok(Response(StatusOk, Insert([], ContentTypeName, HtmlUtf8), Text(body)))
    case Err(c) => Err(TemplateError(c))
  }

  /** The response the client of `index` receives: the page, or the error rendered by `error_response`. */
  method Serve(c: Config, render: IndexContext -> Result<string, Chain>) returns (res: Response)
    ensures render(Context(c)).Ok? <==> res.status == StatusOk
    ensures Index(c, render).Ok? ==> res == Index(c, render).value
    ensures render(Context(c)).Ok? ==>
      res == Response(StatusOk, [Header(ContentTypeName, HtmlUtf8)], Text(render(Context(c)).value))
    ensures render(Context(c)).Err? ==>
      && res.status == InternalServerError
      && res.headers == [Header(ContentTypeName, PlainTextUtf8)]
      && res.body == Text(JoinLines(ErrorChain(TemplateError(render(Context(c)).error))))
  {
    var page := Index(c, render);
    match page
    case Ok(r) =>
      res := r;
    case Err(e) =>
      res := ErrorResponse(e);
  }

  /**
   * Every listed host name routes somewhere, though not always to its own
   * route: an earlier route whose `host_name` prefixes it takes it.
   */
  lemma {:induction false} ListedHostResolves(services: seq<Service>, i: int) returns (j: int)
    requires 0 <= i < |services|
    ensures j <= i && Proxy.IsFirstMatch(services, HostNames(services)[i], j)
    ensures Proxy.Resolve(services, HostNames(services)[i]) == Some(services[j].upstream_address)
  {
    j := Proxy.FirstMatchAtOrBefore(services, HostNames(services)[i], i);
  }
}
