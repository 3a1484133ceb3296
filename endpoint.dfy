/** The inference endpoint the form starts with (`defaultUrl` in App.jsx). */
module EndpointConfig {
  import opened JsonValues

  /** The relative path used when no inference URL is configured. */
  const FallbackPath: string := "/api/predict"

  /** `REACT_APP_INFERENCE_URL || '/api/predict'`: the build-time variable is
      either unset (`None`) or a string, and an empty string is falsy. */
  function DefaultEndpoint(configured: Option<string>): (url: string)
    ensures configured.Some? && configured.value != "" ==> url == configured.value
    ensures configured.None? || configured.value == "" ==> url == FallbackPath
    ensures url != ""
  {
    if configured.Some? && configured.value != "" then configured.value else FallbackPath
  }

  /** Configuring the resolved URL resolves to that same URL again: the
      fallback is itself a usable configuration, never rewritten. */
  lemma DefaultEndpointIdempotent(configured: Option<string>)
    ensures DefaultEndpoint(Some(DefaultEndpoint(configured))) == DefaultEndpoint(configured)
  {
  }
}
