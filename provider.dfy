/** The provider factory: validate endpoint and API key, then build the service. */
module Provider {
  import opened Wrappers
  import opened Types
  import opened Errors
  import opened OramaService

  const MissingConfigMessage: string := "Endpoint and API Key are required"

  /** A configuration string that passes a JavaScript truthiness test: present and non-empty. */
  predicate Truthy(s: Option<string>) {
    s.Some? && s.value != ""
  }

  /**
   * `createOramaProvider`: fails with one fixed message when the endpoint or the API key is
   * missing or empty, before any service or client exists; otherwise the service keeps the
   * configuration unchanged and its client gets the endpoint and the key.
   */
  function CreateOramaProvider(config: ProviderConfig): (r: Result<Service, Thrown>)
    ensures r.Failure? <==> config.endpoint.None? || config.endpoint == Some("") || config.apiKey.None? || config.apiKey == Some("")
    ensures r.Failure? ==> r.error == ErrorObject(MissingConfigMessage)
    ensures r.Success? ==> r.value.config == config
    ensures r.Success? ==> r.value.client == ClientParams(config.endpoint, config.apiKey)
  {
    if !Truthy(config.endpoint) || !Truthy(config.apiKey) then Failure(ErrorObject(MissingConfigMessage))
    else Success(NewService(config))
  }

  /** `oramaProvider`, exported as another name for the same factory. */
  const OramaProvider: ProviderConfig -> Result<Service, Thrown> := CreateOramaProvider

  lemma OramaProviderIsCreateOramaProvider(config: ProviderConfig)
    ensures OramaProvider(config) == CreateOramaProvider(config)
  {
  }
}
