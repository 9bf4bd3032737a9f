/**
  The per-request rewriting steps of the proxy handler: the target URL, the
  query parameters with `app_id` forced, and the outbound headers (client
  headers minus the exclusion set, overlaid with the fixed header set).
 */
module Forwarding {
  import opened Ascii
  import opened Credentials

  /** One inbound header as the request object yields it: (name, value). */
  type Header = (string, string)

  /** Lower-cased names of client headers that are never forwarded. */
  const ExcludedHeaderNames: set<string> := {
    "host",
    "content-length",
    "connection",
    "keep-alive",
    "proxy-authenticate",
    "proxy-authorization",
    "te",
    "trailers",
    "transfer-encoding",
    "upgrade",
    "authorization",
    "x-litellm-key"
  }

  /** `key.lower() in excluded_header_keys`. */
  predicate IsExcluded(name: string) {
    Lower(name) in ExcludedHeaderNames
  }

  const AppIdParam: string := "app_id"

  // ---------------------------------------------------------------------
  // Target URL
  // ---------------------------------------------------------------------

  /** The upstream URL: the configured base followed by the captured path. */
  function TargetUrl(baseUrl: string, fullPath: string): (url: string)
    ensures |url| == |baseUrl| + |fullPath|
    ensures baseUrl <= url
    ensures url[|baseUrl|..] == fullPath
  {
    baseUrl + fullPath
  }

  // ---------------------------------------------------------------------
  // Query parameters
  // ---------------------------------------------------------------------

  /**
    Copies the inbound parameters and sets `app_id` to the configured value,
    inserting it or overwriting a client-supplied one.
   */
  method RewriteParams(query: map<string, string>, appId: string) returns (params: map<string, string>)
    ensures AppIdParam in params && params[AppIdParam] == appId
    ensures forall k :: k in query && k != AppIdParam ==> k in params && params[k] == query[k]
    ensures params.Keys == query.Keys + {AppIdParam}
  {
    params := query;
    params := params[AppIdParam := appId];
  }

  // ---------------------------------------------------------------------
  // Headers
  // ---------------------------------------------------------------------

  /** Some inbound pair carries exactly the name `k`. */
  ghost predicate Occurs(hs: seq<Header>, k: string) {
    exists i :: 0 <= i < |hs| && hs[i].0 == k
  }

  /** `v` is the value of the last inbound pair named exactly `k`. */
  ghost predicate IsLastValue(hs: seq<Header>, k: string, v: string) {
    exists i :: 0 <= i < |hs| && hs[i] == (k, v) && forall j :: i < j < |hs| ==> hs[j].0 != k
  }

  /**
    The dictionary the filtering loop builds from the inbound pairs: pairs are
    stored in order, skipping excluded names, so a later pair overwrites an
    earlier one with the same name.
   */
  function FilterHeaders(hs: seq<Header>): map<string, string>
    decreases |hs|
  {
    if hs == [] then map[]
    else
      var m := FilterHeaders(hs[..|hs| - 1]);
      var h := hs[|hs| - 1];
      if IsExcluded(h.0) then m else m[h.0 := h.1]
  }

  lemma OccursSnoc(init: seq<Header>, h: Header, k: string)
    ensures Occurs(init + [h], k) <==> Occurs(init, k) || k == h.0
  {
    var hs := init + [h];
    if Occurs(init, k) {
      var i :| 0 <= i < |init| && init[i].0 == k;
      assert hs[i] == init[i];
    }
    if k == h.0 {
      assert hs[|init|] == h;
    }
    if Occurs(hs, k) {
      var i :| 0 <= i < |hs| && hs[i].0 == k;
      if i < |init| { assert init[i] == hs[i]; }
    }
  }

  lemma LastValueSnoc(init: seq<Header>, h: Header, k: string, v: string)
    ensures k == h.0 ==> (IsLastValue(init + [h], k, v) <==> v == h.1)
    ensures k != h.0 ==> (IsLastValue(init + [h], k, v) <==> IsLastValue(init, k, v))
  {
    var hs := init + [h];
    var n := |init|;
    assert hs[n] == h;
    if k == h.0 {
      if IsLastValue(hs, k, v) {
        var i :| 0 <= i < |hs| && hs[i] == (k, v) && forall j :: i < j < |hs| ==> hs[j].0 != k;
        assert i == n;
      }
      if v == h.1 {
        assert hs[n] == (k, v);
      }
    } else {
      if IsLastValue(hs, k, v) {
        var i :| 0 <= i < |hs| && hs[i] == (k, v) && forall j :: i < j < |hs| ==> hs[j].0 != k;
        assert i < n;
        assert init[i] == hs[i];
        assert forall j :: i < j < n ==> init[j] == hs[j];
      }
      if IsLastValue(init, k, v) {
        var i :| 0 <= i < n && init[i] == (k, v) && forall j :: i < j < n ==> init[j].0 != k;
        assert hs[i] == init[i];
        assert forall j :: i < j < |hs| ==> hs[j].0 != k by {
          forall j | i < j < |hs| ensures hs[j].0 != k {
            if j < n { assert hs[j] == init[j]; }
          }
        }
      }
    }
  }

  /**
    Meaning of the filter: a name is kept exactly when it is not excluded and
    some client pair carries it, and it keeps the value of its last occurrence.
   */
  lemma {:induction false} FilterHeadersSpec(hs: seq<Header>)
    ensures forall k :: k in FilterHeaders(hs) <==> !IsExcluded(k) && Occurs(hs, k)
    ensures forall k, v :: k in FilterHeaders(hs) ==> (IsLastValue(hs, k, v) <==> v == FilterHeaders(hs)[k])
    decreases |hs|
  {
    if hs != [] {
      var init, h := hs[..|hs| - 1], hs[|hs| - 1];
      assert hs == init + [h];
      FilterHeadersSpec(init);
      forall k ensures Occurs(hs, k) <==> Occurs(init, k) || k == h.0 {
        OccursSnoc(init, h, k);
      }
      forall k, v ensures (k == h.0 ==> (IsLastValue(hs, k, v) <==> v == h.1))
                       && (k != h.0 ==> (IsLastValue(hs, k, v) <==> IsLastValue(init, k, v))) {
        LastValueSnoc(init, h, k, v);
      }
    }
  }

  /**
    Builds `forward_headers`: walks the client pairs, keeps the non-excluded
    ones in a fresh dictionary, then overlays the fixed header set.
   */
  method ForwardHeaders(incoming: seq<Header>, custom: map<string, string>) returns (fwd: map<string, string>)
    ensures fwd == FilterHeaders(incoming) + custom
    ensures forall k :: k in custom ==> k in fwd && fwd[k] == custom[k]
    ensures forall k :: k in fwd && k !in custom ==> !IsExcluded(k) && IsLastValue(incoming, k, fwd[k])
    ensures forall k :: !IsExcluded(k) && Occurs(incoming, k) ==> k in fwd
    ensures forall k :: k in fwd && IsExcluded(k) ==> k in custom && fwd[k] == custom[k]
  {
    fwd := map[];
    for i := 0 to |incoming|
      invariant fwd == FilterHeaders(incoming[..i])
    {
      var (key, value) := incoming[i];
      if !IsExcluded(key) {
        fwd := fwd[key := value];
      }
      assert incoming[..i + 1][..i] == incoming[..i];
    }
    assert incoming[..|incoming|] == incoming;
    fwd := fwd + custom;
    FilterHeadersSpec(incoming);
  }

  lemma CustomHeaderNamesExcluded()
    ensures Lower(LiteLLMKeyHeader) == "x-litellm-key"
    ensures Lower(AuthorizationHeader) == "authorization"
    ensures IsExcluded(LiteLLMKeyHeader) && IsExcluded(AuthorizationHeader)
  {
  }

  /**
    The only credential headers in `fwd` are the proxy's own: a name that
    lower-cases to `authorization` is exactly `Authorization` carrying the DS
    key, and a name that lower-cases to `x-litellm-key` is exactly
    `X-LiteLLM-Key` carrying the normalised API key.
   */
  ghost predicate OnlyProxyCredentials(fwd: map<string, string>, dsKey: string, apiKey: string) {
    && (forall k :: k in fwd && Lower(k) == "authorization" ==>
          k == AuthorizationHeader && dsKey != "" && fwd[k] == dsKey)
    && (forall k :: k in fwd && Lower(k) == "x-litellm-key" ==>
          k == LiteLLMKeyHeader && apiKey != "" && fwd[k] == NormalizeBearer(apiKey))
  }

  /**
    The fixed header set never shares a name with a dictionary of
    non-excluded client headers, so overlaying it replaces no client header.
   */
  lemma OverlayNeverCollides(filtered: map<string, string>, dsKey: string, apiKey: string)
    requires forall k :: k in filtered ==> !IsExcluded(k)
    ensures filtered.Keys !! CustomHeaders(dsKey, apiKey).Keys
  {
    CustomHeaderNamesExcluded();
  }

  /**
    Overlaying the fixed header set on any dictionary of non-excluded client
    headers: the only credential headers in the result are the proxy's own.
   */
  lemma ClientCredentialsNeverForwarded(filtered: map<string, string>, dsKey: string, apiKey: string)
    requires forall k :: k in filtered ==> !IsExcluded(k)
    ensures OnlyProxyCredentials(filtered + CustomHeaders(dsKey, apiKey), dsKey, apiKey)
  {
    CustomHeaderNamesExcluded();
  }
}
