# proxy_litellm — a Dafny model of the request-rewriting core

`proxy_litellm.py` is a small reverse proxy for a LiteLLM endpoint. At start-up
it builds a fixed set of credential headers (`CUSTOM_HEADERS`) from
`LITELLM_API_KEY` and `DS_KEY`, and resolves the log level from `LOG_LEVEL`.
For every request under `/v1` it:

- builds the target URL as `LITELLM_BASE_URL` followed by the captured path;
- copies the query parameters and forces `app_id` to `DS_APP_ID`;
- copies the client headers, minus a fixed set of twelve excluded names
  (compared after lower-casing), into a fresh dictionary;
- overlays `CUSTOM_HEADERS` on that dictionary;
- sends the request upstream and relays the reply unchanged. A transport
  failure or any other failure becomes a 500 with a text body.

The model follows that structure, one module per part:

| file | module | what it models |
|---|---|---|
| `ascii.dfy` | `Ascii` | `str.lower()` / `str.upper()` restricted to ASCII letters |
| `credentials.dfy` | `Credentials` | the bearer-prefix rule and the `CUSTOM_HEADERS` builder |
| `forwarding.dfy` | `Forwarding` | target URL, `app_id` rewrite, and the header filter loop with its overlay |
| `logging.dfy` | `Logging` | the `LOG_LEVEL` table lookup with its INFO fallback |
| `proxy.dfy` | `Proxy` | start-up state, the rewriting of a whole request, and the response/error mapping |

Imperative parts of the source are Dafny methods:

- the conditional insertions that build `CUSTOM_HEADERS` (`BuildCustomHeaders`);
- the dictionary copy-then-set for `params` (`RewriteParams`);
- the `for` loop that fills `forward_headers`, followed by `.update` (`ForwardHeaders`).

Each method is proved against a specification. `ForwardHeaders` has the loop
invariant `fwd == FilterHeaders(incoming[..i])`. `FilterHeadersSpec` then
gives the filter its meaning, in terms of the inbound pairs alone:

- a name is kept exactly when it is not excluded and some pair carries it;
- a kept name has the value of its last occurrence.

The expression-only parts (bearer normalisation, URL concatenation, level
lookup, response mapping) are functions.

Modelling conventions:

- Configuration values are plain inputs (`ProxyConfig`); the process-wide
  globals left by start-up are the value `ProxyState`. `ProxyState.Valid()`
  ties the stored headers and level to the configuration.
- Inbound headers are a sequence of (name, value) pairs. Forwarded headers,
  query parameters and upstream reply headers are maps.
- The upstream HTTP call is the function parameter `send` of `Proxy.Handle`.
  It yields a reply, a transport error (`httpx.RequestError`) or an
  unexpected error, each error with an opaque description.
- Letter case: Python's `lower()`/`upper()` are modelled on ASCII letters
  only. Every other character is mapped to itself.

## Model

| member | source | states |
|---|---|---|
| `Credentials.NormalizeBearer` | proxy_litellm.py:65-69 | the value always starts with "bearer " in some letter case; it is either the key itself or "Bearer " + key; it is the key itself exactly when the key's lower-case form already starts with "bearer " |
| `Credentials.NormalizeBearerIdempotent` | proxy_litellm.py:66-69 | normalising an already normalised value returns it unchanged |
| `Credentials.NoDoubleBearer` | proxy_litellm.py:66-69 | the normalised value starts with "bearer bearer " (any case) only if the key already did, so the rule never doubles the prefix |
| `Credentials.CustomHeaders` | proxy_litellm.py:62-73 | `X-LiteLLM-Key` is present iff the API key is non-empty, carrying the normalised key; `Authorization` is present iff the DS key is non-empty, carrying it verbatim; no other name is present |
| `Credentials.BuildCustomHeaders` | proxy_litellm.py:62-73 | the conditional insertions into an empty dictionary yield exactly `CustomHeaders`, with each header present iff its key is non-empty |
| `Credentials.PlainKeyGetsPrefix` | proxy_litellm.py:65-67 | API key "sk-123" alone yields exactly one header, `X-LiteLLM-Key: Bearer sk-123` |
| `Credentials.PrefixedKeyKept` | proxy_litellm.py:65-69 | API key "Bearer sk-123" alone yields exactly `X-LiteLLM-Key: Bearer sk-123` (no double prefix) |
| `Forwarding.TargetUrl` | proxy_litellm.py:129 | the base URL is a prefix of the target URL, and what follows it is exactly the captured path |
| `Forwarding.RewriteParams` | proxy_litellm.py:132-133 | `app_id` maps to the configured id whether or not the client sent one; every other client parameter keeps its value; the keys are the client's plus `app_id` |
| `Forwarding.FilterHeadersSpec` | proxy_litellm.py:157-159 | a name is stored iff it is not excluded (after lower-casing) and some client pair carries it; its stored value is the value of its last occurrence |
| `Forwarding.ForwardHeaders` | proxy_litellm.py:139-163 | the loop yields the filtered client headers overlaid with the fixed set; every overlay name maps to its overlay value; every other name is a non-excluded client header with its last value; every non-excluded client name is present; an excluded name appears only as an overlay name |
| `Forwarding.CustomHeaderNamesExcluded` | proxy_litellm.py:143-156 | both names the proxy sets, `X-LiteLLM-Key` and `Authorization`, are themselves in the exclusion set once lower-cased |
| `Forwarding.OverlayNeverCollides` | proxy_litellm.py:143-163 | no name of the fixed header set is the name of a non-excluded client header, so the overlay replaces no client header |
| `Forwarding.ClientCredentialsNeverForwarded` | proxy_litellm.py:143-163 | after overlaying the fixed header set on any dictionary of non-excluded client headers, any name that lower-cases to `authorization` is exactly `Authorization`, present only for a non-empty DS key and carrying it; any name that lower-cases to `x-litellm-key` is exactly `X-LiteLLM-Key`, present only for a non-empty API key and carrying the normalised key |
| `Logging.LevelTableByName` | proxy_litellm.py:79-85 | the table has five entries, each level stored under its own name |
| `Logging.ResolveLogLevel` | proxy_litellm.py:78-86 | when the upper-cased setting is a table name, the result is the level of that name; otherwise it is INFO |
| `Logging.ResolveByName` | proxy_litellm.py:78-86 | any setting whose upper-case form is a level's name selects that level |
| `Logging.ResolveIgnoresCase` | proxy_litellm.py:78 | lower-casing the setting first does not change the resolved level |
| `Logging.DefaultIsInfo` | proxy_litellm.py:78 | the default setting "INFO" resolves to INFO |
| `Proxy.Startup` | proxy_litellm.py:62-86 | start-up leaves the configuration, the fixed header set derived from it, and the resolved level |
| `Proxy.PrepareOutbound` | proxy_litellm.py:126-163 | the outbound request keeps the client's method and body, has URL base + path, has the client's parameters with `app_id` forced, and has the filtered-and-overlaid headers; the only credential headers are the proxy's own, each present iff its key is non-empty |
| `Proxy.Relay` | proxy_litellm.py:187-198 | a reply is relayed with status, headers and body unchanged; a transport error or an unexpected error becomes status 500 with no headers and a text body made of the failure's fixed prefix and its description |
| `Proxy.Handle` | proxy_litellm.py:111-198 | one request end to end: the outbound request satisfies everything `PrepareOutbound` states; the client gets the upstream reply verbatim, or a 500 with a text body when the call fails |

## Left out

- FastAPI routing and the `/` root handler (proxy_litellm.py:99-111): framework plumbing. The root handler returns a constant. The model starts from the already captured `full_path`.
- `load_dotenv` and `os.getenv` (proxy_litellm.py:51, 56-59, 77-78): environment I/O. The resolved values are the fields of `ProxyConfig`. Two defaults are kept as constants, `DefaultBaseUrl` and `DefaultLevelSetting`. `LOG_FILE` is not modelled.
- Logging setup and every `logger.*` call, including the body decoding for the debug log (proxy_litellm.py:88-96, 117-125, 135-136, 165, 170-172, 181-185, 194, 197): output sinks that do not affect the result.
- The `httpx.AsyncClient` request, its 30-second timeout and `await request.body()` (proxy_litellm.py:122, 168-180): network I/O and async scheduling. The call is the oracle `send`; a timeout is one of its `TransportError` outcomes. The body is a byte sequence in the request.
- Exception `repr` text in the 500 bodies (proxy_litellm.py:195, 198): foreign formatting. The model keeps the fixed prefix and an opaque description string. It does not model the UTF-8 encoding of that text, or the `content-length` header the framework adds to every response.
- Full Unicode case mapping: `lower()`/`upper()` map only ASCII letters here. Python maps many more characters, and some map to several characters.
- Header order: Python dictionaries keep insertion order, and httpx sends headers in that order. The model keeps forwarded headers as a map, so it says which names and values are sent, not their order.
- The framework's own header and query handling: Starlette yields header names in lower case, and `dict(request.query_params)` keeps the last value of a repeated parameter. httpx lower-cases reply header names and joins repeated ones. The model takes inbound pairs as given and inbound parameters and reply headers as maps already.
- Failures before the `try` block, such as a failing body read, are handled by the framework, not by the handler.
