/**
  The fixed outbound header set (`CUSTOM_HEADERS`), built once at start-up
  from the two credential settings `LITELLM_API_KEY` and `DS_KEY`.
 */
module Credentials {
  import opened Ascii

  const LiteLLMKeyHeader: string := "X-LiteLLM-Key"
  const AuthorizationHeader: string := "Authorization"

  /** The prefix added to an API key that does not already carry one. */
  const BearerPrefix: string := "Bearer "

  /** `key.lower().startswith("bearer ")`. */
  predicate HasBearerPrefix(key: string) {
    "bearer " <= Lower(key)
  }

  lemma LowerBearerPrefix()
    ensures Lower(BearerPrefix) == "bearer "
  {
  }

  /**
    The value sent as `X-LiteLLM-Key`: the key itself when it already starts
    with "bearer " in any letter case, otherwise "Bearer " followed by the key.
   */
  function NormalizeBearer(key: string): (r: string)
    ensures HasBearerPrefix(r)
    ensures r == key || r == BearerPrefix + key
    ensures r == key <==> HasBearerPrefix(key)
  {
    if HasBearerPrefix(key) then key
    else
      LowerAppend(BearerPrefix, key);
      LowerBearerPrefix();
      BearerPrefix + key
  }

  /** Normalising an already normalised value changes nothing. */
  lemma NormalizeBearerIdempotent(key: string)
    ensures NormalizeBearer(NormalizeBearer(key)) == NormalizeBearer(key)
  {
  }

  /**
    Normalisation never introduces a doubled prefix: the result starts with
    "bearer bearer " (in any letter case) only if the key already did.
   */
  lemma NoDoubleBearer(key: string)
    ensures "bearer bearer " <= Lower(NormalizeBearer(key)) ==> "bearer bearer " <= Lower(key)
  {
    if !HasBearerPrefix(key) {
      LowerAppend(BearerPrefix, key);
      LowerBearerPrefix();
      assert "bearer bearer " == "bearer " + "bearer ";
      PrefixAfterCommonHead("bearer ", "bearer ", Lower(key));
    }
  }

  lemma PrefixAfterCommonHead(h: string, p: string, s: string)
    ensures h + p <= h + s ==> p <= s
  {
    if h + p <= h + s {
      assert forall i :: 0 <= i < |p| ==> p[i] == (h + p)[|h| + i] == (h + s)[|h| + i] == s[i];
    }
  }

  /**
    The header set the source's start-up code produces: `X-LiteLLM-Key` exactly
    when the API key is non-empty, `Authorization` (verbatim) exactly when the
    DS key is non-empty, and nothing else.
   */
  function CustomHeaders(dsKey: string, apiKey: string): (h: map<string, string>)
    ensures LiteLLMKeyHeader in h <==> apiKey != ""
    ensures LiteLLMKeyHeader in h ==> h[LiteLLMKeyHeader] == NormalizeBearer(apiKey)
    ensures AuthorizationHeader in h <==> dsKey != ""
    ensures AuthorizationHeader in h ==> h[AuthorizationHeader] == dsKey
    ensures forall k :: k in h ==> k == LiteLLMKeyHeader || k == AuthorizationHeader
  {
    (if apiKey != "" then map[LiteLLMKeyHeader := NormalizeBearer(apiKey)] else map[])
    + (if dsKey != "" then map[AuthorizationHeader := dsKey] else map[])
  }

  /**
    The start-up code itself: conditional insertion into an initially empty
    dictionary.
   */
  method BuildCustomHeaders(dsKey: string, apiKey: string) returns (h: map<string, string>)
    ensures h == CustomHeaders(dsKey, apiKey)
    ensures LiteLLMKeyHeader in h <==> apiKey != ""
    ensures AuthorizationHeader in h <==> dsKey != ""
  {
    h := map[];
    if apiKey != "" {
      if !HasBearerPrefix(apiKey) {
        h := h[LiteLLMKeyHeader := BearerPrefix + apiKey];
      } else {
        h := h[LiteLLMKeyHeader := apiKey];
      }
    }
    if dsKey != "" {
      h := h[AuthorizationHeader := dsKey];
    }
  }

  /** A plain key gets the prefix: "sk-123" is sent as "Bearer sk-123". */
  lemma PlainKeyGetsPrefix()
    ensures CustomHeaders("", "sk-123") == map[LiteLLMKeyHeader := "Bearer sk-123"]
  {
    assert !HasBearerPrefix("sk-123");
    assert BearerPrefix + "sk-123" == "Bearer sk-123";
  }

  /** A key that already has the prefix is kept: "Bearer sk-123" stays as it is. */
  lemma PrefixedKeyKept()
    ensures CustomHeaders("", "Bearer sk-123") == map[LiteLLMKeyHeader := "Bearer sk-123"]
  {
  }
}
