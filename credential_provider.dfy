/** Chooses the token credential for an authentication flow. The credentials
    are descriptors: which Azure.Identity credential is built and with which
    arguments. */
module CredentialProvider {
  import opened Wrappers
  import opened Strings
  import opened Enums
  import opened Options

  /** The two Azure authority hosts, `AzureAuthorityHosts.AzurePublicCloud`
      and `AzureAuthorityHosts.AzureGovernment`. Their URIs belong to
      Azure.Identity. */
  datatype AuthorityHost = AzurePublicCloud | AzureGovernment

  /** The redirect URI of the interactive browser flow. */
  const LocalhostRedirectUri := "http://localhost"

  /** The credential descriptors. Each carries the arguments of its
      constructor and the authority host of its options object. */
  datatype TokenCredential =
    | ClientSecretCredential(tenantId: string, clientId: string, clientSecret: string, authorityHost: AuthorityHost)
    | DeviceCodeCredential(tenantId: string, clientId: string, authorityHost: AuthorityHost)
    | InteractiveBrowserCredential(tenantId: string, clientId: string, authorityHost: AuthorityHost, redirectUri: string)

  /** The flow a credential descriptor serves. */
  function FlowOf(credential: TokenCredential): AuthenticationFlow {
    match credential
    case ClientSecretCredential(_, _, _, _) => ClientCredential
    case DeviceCodeCredential(_, _, _) => DeviceCode
    case InteractiveBrowserCredential(_, _, _, _) => InteractiveBrowser
  }

  /** The authority host of a national cloud: the public cloud for the
      global service, the government host for both US government clouds.
      The match covers every cloud. */
  function GetAuthorityHosts(nationalCloud: NationalCloud): (r: AuthorityHost)
    ensures r == AzurePublicCloud <==> nationalCloud == Global
    ensures r == AzureGovernment <==> nationalCloud in {USGov, USGovDoD}
  {
    match nationalCloud
    case Global => AzurePublicCloud
    case USGov => AzureGovernment
    case USGovDoD => AzureGovernment
  }

  function GetClientSecretCredential(tenantId: string, clientId: string, clientSecret: string,
                                     nationalCloud: NationalCloud): TokenCredential
  {
    var authorityHost := GetAuthorityHosts(nationalCloud);
    ClientSecretCredential(tenantId, clientId, clientSecret, authorityHost)
  }

  /** The console callback that prints the device code message is left out. */
  function GetDeviceCodeCredential(tenantId: string, clientId: string, nationalCloud: NationalCloud): TokenCredential
  {
    var authorityHost := GetAuthorityHosts(nationalCloud);
    DeviceCodeCredential(tenantId, clientId, authorityHost)
  }

  function GetInteractiveBrowserCredential(tenantId: string, clientId: string, nationalCloud: NationalCloud): TokenCredential
  {
    var authorityHost := GetAuthorityHosts(nationalCloud);
    InteractiveBrowserCredential(tenantId, clientId, authorityHost, LocalhostRedirectUri)
  }

  /** The credential for a flow: of the flow's kind, carrying the options'
      tenant and client IDs unchanged (and, for the client-credential flow
      only, the client secret), and the cloud's authority host whatever the
      flow. The match covers every flow. */
  function GetTokenCredential(authenticationFlow: AuthenticationFlow, credentialOptions: CredentialOptions,
                              nationalCloud: NationalCloud): (r: TokenCredential)
    reads credentialOptions
    ensures FlowOf(r) == authenticationFlow
    ensures r.tenantId == credentialOptions.TenantId && r.clientId == credentialOptions.ClientId
    ensures r.ClientSecretCredential? ==> r.clientSecret == credentialOptions.ClientSecret
    ensures r.InteractiveBrowserCredential? ==> r.redirectUri == LocalhostRedirectUri
    ensures r.authorityHost == GetAuthorityHosts(nationalCloud)
  {
    match authenticationFlow
    case ClientCredential =>
      GetClientSecretCredential(credentialOptions.TenantId, credentialOptions.ClientId, credentialOptions.ClientSecret, nationalCloud)
    case DeviceCode =>
      GetDeviceCodeCredential(credentialOptions.TenantId, credentialOptions.ClientId, nationalCloud)
    case InteractiveBrowser =>
      GetInteractiveBrowserCredential(credentialOptions.TenantId, credentialOptions.ClientId, nationalCloud)
  }

  /** The authority host does not depend on the flow. */
  lemma AuthorityIndependentOfFlow(f1: AuthenticationFlow, f2: AuthenticationFlow,
                                   credentialOptions: CredentialOptions, nationalCloud: NationalCloud)
    ensures GetTokenCredential(f1, credentialOptions, nationalCloud).authorityHost
         == GetTokenCredential(f2, credentialOptions, nationalCloud).authorityHost
  {
  }

  /** Different flows give different credentials. */
  lemma FlowsGiveDistinctCredentials(f1: AuthenticationFlow, f2: AuthenticationFlow,
                                     credentialOptions: CredentialOptions, nationalCloud: NationalCloud)
    requires f1 != f2
    ensures GetTokenCredential(f1, credentialOptions, nationalCloud) != GetTokenCredential(f2, credentialOptions, nationalCloud)
  {
  }

  /** Options that passed validation give a credential with a non-blank
      client ID, and a non-blank secret when the credential uses one. */
  lemma ValidatedOptionsGiveCompleteCredential(authenticationFlow: AuthenticationFlow,
                                               credentialOptions: CredentialOptions, nationalCloud: NationalCloud)
    requires HasRequiredValues(credentialOptions.Profile(), authenticationFlow)
    ensures var r := GetTokenCredential(authenticationFlow, credentialOptions, nationalCloud);
      && !IsBlank(r.clientId)
      && (r.ClientSecretCredential? ==> !IsBlank(r.clientSecret))
  {
  }

  /** The client-credential flow on the global cloud with tenant "t", client
      "c" and secret "s" yields exactly a client-secret credential with these
      three and the public-cloud authority: no redirect URI, no callback. */
  lemma ClientCredentialExample(credentialOptions: CredentialOptions)
    requires credentialOptions.Profile() == CredentialProfile("c", "s", "t")
    ensures GetTokenCredential(ClientCredential, credentialOptions, Global)
         == ClientSecretCredential("t", "c", "s", AzurePublicCloud)
  {
  }

  /** The whole path from the command line: a non-blank client ID given on
      the command line reaches the credential, whatever the file holds and
      whatever the flow. */
  lemma CommandLineClientIdReachesCredential(tenantId: Option<string>, clientId: Option<string>, clientSecret: Option<string>,
                                             configFile: ConfigFile, tenantIdIsDefault: bool,
                                             authenticationFlow: AuthenticationFlow, credentialOptions: CredentialOptions,
                                             nationalCloud: NationalCloud)
    requires !IsNullOrWhiteSpace(clientId)
    requires Resolve(tenantId, clientId, clientSecret, configFile, tenantIdIsDefault) == Success(credentialOptions.Profile())
    ensures GetTokenCredential(authenticationFlow, credentialOptions, nationalCloud).clientId == clientId.value
  {
  }
}
