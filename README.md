# nanoproxy routing core in Dafny

nanoproxy is a name-based HTTP reverse proxy. It listens on one address and
forwards each request to the upstream service whose `host_name` is a prefix of
the request's Host header. This project models the logic around the HTTP
forwarder and proves properties about it:

- **Route lookup** (`find_upstream_addr`). The routes are tried in
  configuration order, and the first one whose `host_name` is a plain,
  case-sensitive string prefix of the verbatim Host value wins. A request with
  no Host header fails with `MissingHost`. A host that no route matches fails
  with `UnknownHost(host)`.
- **Outbound request** (`forward`). The target is the upstream address
  followed by the request's path-and-query. A target that does not parse fails
  with `UriConstructionError`, and nothing is sent. One `x-forwarded-for`
  entry holding the peer IP is appended when the peer address is known.
- **Response relay.** The client gets the upstream status and every upstream
  header entry except those named `connection`, in order and with duplicates
  kept. The body is streamed through.
- **Errors.** Every `ServerError` and `ManagementError` renders with status
  500 as `text/plain; charset=utf-8`, with one line per error in the cause
  chain, outermost first.
- **Start-up registration.** When management is enabled, `main` appends one
  route for the management server to the end of the routes.
- **Management index.** The index lists the configured host names and the
  listen port.
- **Configuration.** `Config`, `Service`, `Management` and the defaults
  `load` applies.

Modules, one per source file: `Config` (config.rs; it also holds the shared
configuration object), `Errors` (error.rs), `Proxy` (proxy.rs), `LegacyHttp`
(http.rs), `Startup` (main.rs) and `Management` (management.rs). The helper
modules are `Results` (Option and Result), `Text` (prefixes, decimal text and
lines), `Headers` (header lists) and `Messages` (requests, responses, status
codes, cause chains).

Modelling choices:

- **Network calls are parameters.** The HTTP client and the network are a
  parameter `upstream: Outbound -> Result<UpstreamResponse, Chain>`.
  `Uri::parse` is a parameter `parseUri`, and the template engine is a
  parameter `render`. The listener port the OS picks is a parameter of the
  registration step.
- **What was sent is an out-parameter.** `Proxy.Forward` returns `sent`, the
  request handed to the client. It is `None` exactly when lookup or URI
  construction failed.
- **Header lists.** A header map is the sequence of entries its iterator
  yields. Names are in the lower-case form the `http` crate stores, so
  comparing with `"connection"` or `"host"` is exact. The relayed order is
  the order in which the upstream response's header map is iterated.
- **Cause chains.** An error's cause chain is a non-empty list of messages.
  The `#[from]` variants (`PayloadError`, `SendRequestError`,
  `UriConstructionError`, `TemplateError`) carry the chain of the error they
  wrap, which follows their own message.
- **The shared configuration.** `Arc<RwLock<Config>>` is a plain object,
  `Config.SharedConfig`, with no lock.
- **The `management` field.** `Config` has it, as `main.rs` and the tests use
  it. config.rs declares no `Management` type, so the model assumes its two
  keys, `enabled` and `host_name`, have no default. Merging goes into the
  table key by key, so the two keys may come from different files. A
  configuration in which either key is missing fails to load.
- **http.rs is reused, not copied.** The file is not compiled, since `main.rs` declares no `mod http`. It
  duplicates `proxy.rs`'s `ServerError` and `find_upstream_addr`
  (src/http.rs:11-27 and 46-61), so those are modelled once, in `Proxy`.
  `LegacyHttp` models only where its `forward` differs: it reads the whole
  body, so a broken body becomes `PayloadError`.
- **Host matching is case-sensitive.** Host names are case-insensitive
  (section 3.2.2 of RFC 3986), but the code matches them case-sensitively
  (`PrefixMatchingExamples` shows `svc` not routing `SVC.local`). The code
  also hands the inbound head, including any `Connection` entry, to the client
  library unchanged.

## Model

| member | source | states |
|---|---|---|
| `Headers.Get` | src/proxy.rs:62-67 | The Host value is the first entry named `host`; it is absent exactly when no entry has that name |
| `Headers.Insert` | src/error.rs:15-18 | Inserting the content type leaves exactly one entry under that name, holding the new value, and leaves every other entry as it was |
| `Headers.WithoutCount` | src/proxy.rs:112-118 | The filter drops every `connection` entry and keeps every other entry exactly as many times as it occurs (duplicates kept) |
| `Headers.WithoutAppend` | src/proxy.rs:112-118 | Filtering distributes over concatenation, so kept entries stay in their original order |
| `Text.SplitJoinLines` | src/error.rs:20-26 | When no message contains a newline, splitting the body on newlines gives back the messages in order |
| `Config.Load` | src/config.rs:17-34 | For each key, the later file wins, then the earlier file, then the default. The two `management` keys are merged separately. Loading fails exactly when the port is outside u16 (an assumption about the `config` crate, see below) or one of the `management` keys is set by no file |
| `Config.LoadDefaults` | src/config.rs:25-32 | With no file setting them, the defaults are `listen_port` 80, `listen_host` "0.0.0.0", `log` "info" and empty `services` |
| `Config.LoadMissingFile` | src/config.rs:21-23 | Either file may be missing; a missing file loads exactly like a file that sets nothing |
| `Config.LoadManagementMerge` | src/config.rs:20-23 | A later file that sets only `management.enabled` overrides that key and keeps the earlier file's `host_name`; a `management` table that no file completes fails to load |
| `Config.SharedConfig.constructor` | src/main.rs:29 | The shared object holds the loaded configuration |
| `Errors.Render` | src/error.rs:7-27 | The response has the given status and exactly one header, `content-type: text/plain; charset=utf-8`; the body is each message of the chain followed by a newline, outermost first |
| `Errors.ChainLines` | src/error.rs:20-26 | The body starts with the outermost message's line and ends with a newline. With newline-free messages it has one line per error in the chain |
| `Proxy.MessageIdentifiesError` | src/proxy.rs:11-27 | Different variants have different Display texts, and an `UnknownHost` text determines its host |
| `Proxy.ErrorResponse` | src/proxy.rs:29-36 | Every `ServerError` renders with status 500 and plain text whose first line is the variant's message |
| `Proxy.Resolve` | src/proxy.rs:69-75 | Gives the upstream of the first route whose `host_name` prefixes the host. Later matches are ignored. It is `None` exactly when no route matches |
| `Proxy.ResolveAppend` | src/proxy.rs:69-73 | A route appended at the end does not change the result for hosts an earlier route matches. It serves exactly the unmatched hosts it matches itself |
| `Proxy.Lookup` | src/proxy.rs:61-76 | No Host header gives `MissingHost`. No matching route gives `UnknownHost` carrying exactly the host text. Otherwise the result is the first match's upstream address |
| `Proxy.FindUpstreamAddr` | src/proxy.rs:61-76 | The loop with an early return computes `Lookup` |
| `Proxy.Target` | src/proxy.rs:90-92 | The target is the upstream address followed by the path-and-query, or the upstream address alone when there is none |
| `Proxy.Prepare` | src/proxy.rs:84-103 | Lookup failures pass through. An unparsable target is `UriConstructionError`. Otherwise the request keeps the inbound method, head and body, in order. It gains exactly one `x-forwarded-for` entry with the peer IP when the peer is known, and none otherwise |
| `Proxy.BuildOutbound` | src/proxy.rs:84-103 | Appending in place and appending the header compute `Prepare` |
| `Proxy.CopyHeaders` | src/proxy.rs:109-118 | The header loop yields the upstream entries without those named `connection` |
| `Proxy.Relayed` | src/proxy.rs:109-120 | The client response has the upstream status and the upstream headers minus `connection`, duplicates kept. The body is the upstream stream |
| `Proxy.RelayResponse` | src/proxy.rs:109-120 | Building the response computes `Relayed` |
| `Proxy.Forward` | src/proxy.rs:78-121 | Something is sent exactly when preparation succeeds, and it is the prepared request. A send failure is `SendRequestError`; otherwise the result is the relayed response |
| `Proxy.NoSendOnEarlyFailure` | src/proxy.rs:84-94 | When lookup or URI construction fails, the result is that error whatever the upstream would answer |
| `Proxy.PrefixMatchingExamples` | src/proxy.rs:70 | Matching is a plain prefix test. `it_resolves_302` routes `it_resolves_302.local` and `foo` routes `foobar.example.com`. `svc` does not route `SVC.local`, and an empty `host_name` routes every host |
| `Proxy.PrefixRouteTarget` | src/proxy.rs:69-94 | Host `a.b` through route `a -> http://U` targets `http://U` followed by the path-and-query |
| `Proxy.RedirectRelayed` | src/tests/mod.rs:72-107 | A 302 with `location: /found` reaches the client unchanged; the proxy's code does not follow it. The follow-up request for `/found` gets the upstream's 200 and body |
| `LegacyHttp.LegacyForward` | src/http.rs:63-100 | The earlier handler sends exactly when preparation succeeds. It answers with the buffered body, `PayloadError` for a broken body, or `SendRequestError` |
| `LegacyHttp.LegacyAgreesWithProxy` | src/http.rs:29 | The two handlers fail the same way before and at sending, and give the same status and headers. In the model they differ only in buffering the body (body-size limits are not modelled, see below), and both use status 500 |
| `Startup.ManagementUpstream` | src/main.rs:43 | The management upstream is `http://localhost:` followed by the listener port in canonical decimal: non-empty, no leading zero except for port 0, and reading back as the port |
| `Startup.WithManagementRoute` | src/main.rs:31-45 | Disabled: the routes are unchanged. Enabled: exactly one route is appended at the end, with the management host name and the local upstream. Earlier routes and all other fields are unchanged |
| `Startup.RegisterManagementRoute` | src/main.rs:38-45 | Updating the shared configuration in place gives `WithManagementRoute` of the old configuration |
| `Startup.RegistrationRouting` | src/main.rs:41-44 | Every host that resolved before registration resolves the same way after it. The management route serves only hosts no configured route matches |
| `Startup.RegistrationShowsInIndex` | src/management.rs:73-77 | After registration the index lists the management host name last, after the configured ones |
| `Management.ErrorResponse` | src/management.rs:18-38 | `TemplateError` renders with status 500 and plain text whose lines are "Error rendering template" and then the template engine's chain |
| `Management.HostNames` | src/management.rs:73-77 | One host name per route, in configuration order |
| `Management.Context` | src/management.rs:79-81 | The template context has the host names in order and the configured listen port |
| `Management.Index` | src/management.rs:66-89 | Successful rendering gives 200 with `text/html; charset=utf-8` and the page; a render failure becomes `TemplateError` |
| `Management.Serve` | src/management.rs:83-88 | The status is 200 exactly when rendering succeeds, and then the response is `index`'s page with the HTML content type. Otherwise it is 500, plain text, with the `TemplateError` chain as the body |
| `Management.ListedHostResolves` | src/proxy.rs:69-73 | Every listed host name resolves, to its own route or to an earlier route whose `host_name` prefixes it |

## Left out

- The WebSocket bridge (src/proxy/ws.rs): it is actor- and concurrency-based and does not compile as written. The `WebsocketUpstreamHandshake` and `WebsocketClientHandshake` errors it uses are not variants of `ServerError`.
- mDNS advertisement (src/mdns.rs): network I/O.
- Server setup: binding the listeners, running the servers, middleware, logging and tracing. This covers `run` in src/proxy.rs, src/http.rs and src/management.rs, and the listener in src/main.rs:32.
- Locking: `RwLock` read and write locks. The shared configuration is a plain object, so concurrent readers during an update are not modelled.
- Client library internals: how `request_from` copies the inbound head, `no_decompress`, `send_body` and the streaming machinery. The outbound request records the head it was given, and the model makes no claim that hop-by-hop request headers are stripped.
- `Uri::parse`, `String::from_utf8_lossy` and Tera template rendering: `Uri::parse` and the renderer are parameters, and header values are held as already-decoded text.
- `Proxy.IpText`: IPv6 addresses are kept as the text Rust's `Display` gives them; RFC 5952 formatting is not modelled.
- `Proxy.Relayed`: the response streams through as a value. A stream that breaks after the headers were sent is relayed as broken; the connection-level effect is not modelled.
- `Proxy.Relayed`: fields named inside a `Connection` header are not removed. Section 7.6.1 of RFC 9110 asks for this, but the code only drops `connection` itself, and the model follows the code.
- `LegacyHttp.LegacyAgreesWithProxy`: the body of the default `ResponseError` rendering that src/http.rs relies on comes from actix-web internals. Only its status, 500, is modelled.
- `Config.Load`: the `config` crate's file discovery and format parsing are not modelled, nor is any type mismatch other than a port outside u16. Each file is given as the keys it sets, or `None` when it is missing. An out-of-range port is assumed to make loading fail. That depends on the version of the `config` crate: some versions narrow integers to `u16` with an unchecked cast, so `listen_port = 70000` would load as 4464 instead of failing.
- The `Forwarded` header of RFC 7239: the code deliberately does not produce it (src/proxy.rs:96-97), so neither does the model.
- `Proxy.Forward`: the `web::Bytes` extractor rejects request bodies over its size limit (256 KiB by default) before `forward` runs, with status 413. The model forwards a request body of any length.
- `LegacyHttp.LegacyForward`: `res.body().await` (src/http.rs:99) reads the upstream body under the client library's size limit, and a larger complete body becomes `PayloadError`. The model buffers a complete body of any length, so `LegacyHttp.LegacyAgreesWithProxy` does not cover oversize bodies either.
- `Proxy.RedirectRelayed`: the model assumes the HTTP client hands a redirect back without following it. src/proxy.rs:49 builds the client with `Client::new()`, and whether that follows redirects depends on the client library's version and defaults, which are not part of this model.
