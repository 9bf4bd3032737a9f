/**
  The proxy's process-wide state and its request handler: start-up builds the
  fixed header set and the log level once from the configuration; each request
  is rewritten into an outbound request, sent upstream, and the upstream
  outcome is relayed to the client.
 */
module Proxy {
  import opened Ascii
  import opened Credentials
  import opened Forwarding
  import opened Logging

  newtype byte = x: int | 0 <= x < 256

  /** The methods the `/v1{full_path}` route accepts. */
  datatype HttpMethod = GET | POST | PUT | DELETE | PATCH | OPTIONS | HEAD

  /** The resolved settings (`LITELLM_BASE_URL`, `DS_APP_ID`, `DS_KEY`, `LITELLM_API_KEY`, `LOG_LEVEL`). */
  datatype ProxyConfig = ProxyConfig(
    baseUrl: string,
    appId: string,
    dsKey: string,
    apiKey: string,
    logLevelSetting: string)

  /** The upstream base used when `LITELLM_BASE_URL` is not set. */
  const DefaultBaseUrl: string := "https://llm.api.domain.com/v1"

  /** What start-up leaves behind for every request: the settings, `CUSTOM_HEADERS` and `LOG_LEVEL`. */
  datatype ProxyState = ProxyState(config: ProxyConfig, customHeaders: map<string, string>, logLevel: Level) {
    predicate Valid() {
      && customHeaders == CustomHeaders(config.dsKey, config.apiKey)
      && logLevel == ResolveLogLevel(config.logLevelSetting)
    }
  }

  /** A client request as the routing layer hands it over; `fullPath` is what follows `/v1`. */
  datatype InboundRequest = InboundRequest(
    verb: HttpMethod,
    fullPath: string,
    query: map<string, string>,
    headers: seq<Header>,
    body: seq<byte>)

  /** The request the proxy sends upstream. */
  datatype OutboundRequest = OutboundRequest(
    verb: HttpMethod,
    url: string,
    params: map<string, string>,
    headers: map<string, string>,
    body: seq<byte>)

  /**
    What the upstream call yields: a reply, a transport failure
    (`httpx.RequestError`) or any other failure, each failure with an opaque
    description.
   */
  datatype UpstreamOutcome =
    | Reply(status: int, headers: map<string, string>, body: seq<byte>)
    | TransportError(detail: string)
    | UnexpectedError(detail: string)

  datatype Body = Bytes(bytes: seq<byte>) | Text(text: string)

  /** The response written back to the client. */
  datatype Response = Response(status: int, headers: map<string, string>, body: Body)

  const InternalServerError: int := 500
  const TransportErrorPrefix: string := "Error proxying request: "
  const UnexpectedErrorPrefix: string := "An unexpected error occurred: "

  /** Start-up: builds `CUSTOM_HEADERS` and resolves the log level. */
  method Startup(config: ProxyConfig) returns (st: ProxyState)
    ensures st.Valid()
    ensures st.config == config
  {
    var custom := BuildCustomHeaders(config.dsKey, config.apiKey);
    st := ProxyState(config, custom, ResolveLogLevel(config.logLevelSetting));
  }

  /**
    `out` is the rewriting of `req` under `st`: same method and body; the URL
    is the base followed by the path; the parameters are the client's with
    `app_id` forced; the headers are the client's non-excluded ones (last
    occurrence wins) overlaid with the fixed header set, so that the only
    credential headers are the proxy's own.
   */
  ghost predicate RewrittenFrom(st: ProxyState, req: InboundRequest, out: OutboundRequest) {
    var cfg := st.config;
    && out.verb == req.verb
    && out.body == req.body
    // target URL
    && cfg.baseUrl <= out.url
    && out.url[|cfg.baseUrl|..] == req.fullPath
    // query parameters
    && AppIdParam in out.params && out.params[AppIdParam] == cfg.appId
    && (forall k :: k in req.query && k != AppIdParam ==> k in out.params && out.params[k] == req.query[k])
    && out.params.Keys == req.query.Keys + {AppIdParam}
    // headers
    && out.headers == FilterHeaders(req.headers) + st.customHeaders
    && (forall k :: k in st.customHeaders ==> k in out.headers && out.headers[k] == st.customHeaders[k])
    && (forall k :: k in out.headers && k !in st.customHeaders ==> !IsExcluded(k) && IsLastValue(req.headers, k, out.headers[k]))
    && (forall k :: !IsExcluded(k) && Occurs(req.headers, k) ==> k in out.headers)
    && (forall k :: k in out.headers && IsExcluded(k) ==> k in st.customHeaders)
    // credentials
    && (LiteLLMKeyHeader in out.headers <==> cfg.apiKey != "")
    && (AuthorizationHeader in out.headers <==> cfg.dsKey != "")
    && OnlyProxyCredentials(out.headers, cfg.dsKey, cfg.apiKey)
  }

  /** The pure rewriting steps of the handler, before the upstream call. */
  method PrepareOutbound(st: ProxyState, req: InboundRequest) returns (out: OutboundRequest)
    requires st.Valid()
    ensures RewrittenFrom(st, req, out)
  {
    var url := TargetUrl(st.config.baseUrl, req.fullPath);
    var params := RewriteParams(req.query, st.config.appId);
    var headers := ForwardHeaders(req.headers, st.customHeaders);
    FilterHeadersSpec(req.headers);
    ClientCredentialsNeverForwarded(FilterHeaders(req.headers), st.config.dsKey, st.config.apiKey);
    OverlayNeverCollides(FilterHeaders(req.headers), st.config.dsKey, st.config.apiKey);
    CustomHeaderNamesExcluded();
    out := OutboundRequest(req.verb, url, params, headers, req.body);
  }

  /**
    The client's view of an upstream outcome: a reply is passed on with its
    status, headers and body unchanged; either kind of failure becomes a 500
    with no headers and a text body naming the failure.
   */
  function Relay(o: UpstreamOutcome): (r: Response)
    ensures o.Reply? ==> r.status == o.status && r.headers == o.headers && r.body == Bytes(o.body)
    ensures !o.Reply? ==> r.status == InternalServerError && r.headers == map[] && r.body.Text?
    ensures o.TransportError? ==> r.body == Text(TransportErrorPrefix + o.detail)
    ensures o.UnexpectedError? ==> r.body == Text(UnexpectedErrorPrefix + o.detail)
  {
    match o
    case Reply(status, headers, body) => Response(status, headers, Bytes(body))
    case TransportError(detail) => Response(InternalServerError, map[], Text(TransportErrorPrefix + detail))
    case UnexpectedError(detail) => Response(InternalServerError, map[], Text(UnexpectedErrorPrefix + detail))
  }

  /**
    One request end to end. The upstream call is the parameter `send`: its
    outcome depends only on the outbound request.
   */
  method Handle(st: ProxyState, req: InboundRequest, send: OutboundRequest -> UpstreamOutcome)
    returns (out: OutboundRequest, resp: Response)
    requires st.Valid()
    ensures RewrittenFrom(st, req, out)
    ensures send(out).Reply? ==> resp == Response(send(out).status, send(out).headers, Bytes(send(out).body))
    ensures !send(out).Reply? ==> resp.status == InternalServerError && resp.body.Text?
  {
    out := PrepareOutbound(st, req);
    resp := Relay(send(out));
  }

  /**
    A chat-completions call `POST /v1/chat/completions?foo=bar` against a proxy
    configured with app id "abc123" and API key "sk-123": what a caller can
    conclude from the contracts alone.
   */
  method ChatCompletionScenario(send: OutboundRequest -> UpstreamOutcome)
  {
    var cfg := ProxyConfig(DefaultBaseUrl, "abc123", "", "sk-123", DefaultLevelSetting);
    var st := Startup(cfg);
    var req := InboundRequest(POST, "/chat/completions", map["foo" := "bar", AppIdParam := "spoofed"],
                              [("Authorization", "Bearer client-token"), ("Accept", "*/*")], [123, 125]);
    var out, resp := Handle(st, req, send);
    assert out.url == DefaultBaseUrl + "/chat/completions";
    assert out.params == map["foo" := "bar", AppIdParam := "abc123"];
    assert out.body == [123, 125];
    PlainKeyGetsPrefix();
    assert out.headers[LiteLLMKeyHeader] == "Bearer sk-123";
    assert AuthorizationHeader !in out.headers;
    DefaultIsInfo();
    assert st.logLevel == Info;
  }
}
