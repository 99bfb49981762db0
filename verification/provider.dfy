/** The provider: how Configure settles the API endpoint and token from the
    provider block and the environment, and which resources it registers. */
module Provider {
  import opened Framework

  const OriginVariable: string := "REPLICATED_API_ORIGIN"
  const TokenVariable: string := "REPLICATED_API_TOKEN"
  const DefaultOrigin: string := "https://api.replicated.com/vendor"

  /** The provider block; an unset attribute reads as "". */
  datatype ProviderConfig = ProviderConfig(endpoint: string, apiToken: string)

  /** The vendor API client handed to data sources and resources. */
  datatype VendorClient = VendorClient(apiOrigin: string, apiToken: string)

  /** What Configure leaves in its response. */
  datatype ConfigureResponse = ConfigureResponse(
    diagnostics: seq<Diagnostic>,
    dataSourceData: Option<VendorClient>,
    resourceData: Option<VendorClient>)

  const MissingToken: Diagnostic := Diagnostic(
    "Missing API Token Configuration",
    "While configuring the provider, the API token was not found in "
    + "the REPLICATED_API_TOKEN environment variable or provider "
    + "configuration block api_token attribute.")

  /** `os.Getenv`: an unset variable reads as "". */
  function Getenv(env: map<string, string>, name: string): string {
    if name in env then env[name] else ""
  }

  /** Configure. The endpoint is the configured one if non-empty, else the
      origin variable, else the default; the token is the configured one if
      non-empty, else the token variable. An empty token is reported and
      nothing is handed out; otherwise the same client goes to data sources
      and resources. */
  method Configure(config: ProviderConfig, env: map<string, string>) returns (resp: ConfigureResponse)
    ensures resp.diagnostics == [] <==> config.apiToken != "" || Getenv(env, TokenVariable) != ""
    ensures resp.diagnostics != [] ==>
              resp.diagnostics == [MissingToken] && resp.dataSourceData.None? && resp.resourceData.None?
    ensures resp.diagnostics == [] ==> resp.resourceData.Some? && resp.dataSourceData == resp.resourceData
    ensures resp.resourceData.Some? ==>
              var client := resp.resourceData.value;
              && client.apiOrigin != ""
              && (config.endpoint != "" ==> client.apiOrigin == config.endpoint)
              && (config.endpoint == "" && Getenv(env, OriginVariable) != "" ==>
                    client.apiOrigin == Getenv(env, OriginVariable))
              && (config.endpoint == "" && Getenv(env, OriginVariable) == "" ==>
                    client.apiOrigin == DefaultOrigin)
              && client.apiToken != ""
              && (config.apiToken != "" ==> client.apiToken == config.apiToken)
              && (config.apiToken == "" ==> client.apiToken == Getenv(env, TokenVariable))
  {
    var apiOrigin := Getenv(env, OriginVariable);
    var apiToken := Getenv(env, TokenVariable);
    resp := ConfigureResponse([], None, None);

    if config.endpoint != "" {
      apiOrigin := config.endpoint;
    }
    if config.apiToken != "" {
      apiToken := config.apiToken;
    }
    if apiOrigin == "" {
      apiOrigin := DefaultOrigin;
    }
    if apiToken == "" {
      resp := resp.(diagnostics := resp.diagnostics + [MissingToken]);
    }
    if resp.diagnostics != [] {
      return;
    }

    var client := VendorClient(apiOrigin, apiToken);
    resp := resp.(dataSourceData := Some(client));
    resp := resp.(resourceData := Some(client));
  }

  /** The resource types a provider can offer. */
  datatype ResourceKind = ClusterResourceKind | CustomerResourceKind

  /** The resources the provider registers: the cluster resource only; the
      customer resource exists but is not registered. */
  function Resources(): (kinds: seq<ResourceKind>)
    ensures ClusterResourceKind in kinds && CustomerResourceKind !in kinds
  {
    [ClusterResourceKind]
  }
}
