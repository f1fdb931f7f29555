/** The Microsoft Graph service root endpoint for each national cloud and
    API version. */
module BaseUrl {
  import opened Enums
  import opened Strings

  const Scheme := "https://"

  /** The Graph host name of each national cloud. */
  function HostName(cloud: NationalCloud): string {
    match cloud
    case Global => "graph.microsoft.com"
    case USGov => "graph.microsoft.us"
    case USGovDoD => "dod-graph.microsoft.us"
  }

  /** The part of every URL of a national cloud that precedes the API
      version: scheme and host. */
  function ServiceRoot(cloud: NationalCloud): string {
    Scheme + HostName(cloud)
  }

  /** The path segment naming an API version. */
  function VersionSegment(apiVersion: ApiVersion): string {
    match apiVersion
    case V1 => "/v1.0"
    case Beta => "/beta"
  }

  /** The table of the six service root URLs. It is total: the match covers
      every pair, so the source's out-of-range arm has no counterpart. The
      result is the cloud's root followed by the version's segment. */
  function GetBaseUrl(nationalCloud: NationalCloud, apiVersion: ApiVersion): (r: string)
  {
    match (nationalCloud, apiVersion)
    case (Global, V1) => "https://graph.microsoft.com/v1.0"
    case (Global, Beta) => "https://graph.microsoft.com/beta"
    case (USGov, V1) => "https://graph.microsoft.us/v1.0"
    case (USGov, Beta) => "https://graph.microsoft.us/beta"
    case (USGovDoD, V1) => "https://dod-graph.microsoft.us/v1.0"
    case (USGovDoD, Beta) => "https://dod-graph.microsoft.us/beta"
  }

  /** Every URL of the table is the cloud's root followed by the version's
      segment. */
  lemma BaseUrlIsRootAndSegment(cloud: NationalCloud, apiVersion: ApiVersion)
    ensures GetBaseUrl(cloud, apiVersion) == ServiceRoot(cloud) + VersionSegment(apiVersion)
  {
    match cloud
    case Global => GlobalBaseUrl(apiVersion);
    case USGov => USGovBaseUrl(apiVersion);
    case USGovDoD => USGovDoDBaseUrl(apiVersion);
  }

  // One lemma per cloud: string equalities are cheap to check for a fixed
  // cloud and expensive when the cloud is left open.

  lemma GlobalBaseUrl(apiVersion: ApiVersion)
    ensures GetBaseUrl(Global, apiVersion) == ServiceRoot(Global) + VersionSegment(apiVersion)
  {
  }

  lemma USGovBaseUrl(apiVersion: ApiVersion)
    ensures GetBaseUrl(USGov, apiVersion) == ServiceRoot(USGov) + VersionSegment(apiVersion)
  {
  }

  lemma USGovDoDBaseUrl(apiVersion: ApiVersion)
    ensures GetBaseUrl(USGovDoD, apiVersion) == ServiceRoot(USGovDoD) + VersionSegment(apiVersion)
  {
  }

  /** Every URL uses https; V1 URLs end in `/v1.0` and Beta URLs in `/beta`. */
  lemma BaseUrlShape(cloud: NationalCloud, apiVersion: ApiVersion)
    ensures StartsWith(GetBaseUrl(cloud, apiVersion), Scheme)
    ensures apiVersion == V1 ==> EndsWith(GetBaseUrl(cloud, apiVersion), "/v1.0")
    ensures apiVersion == Beta ==> EndsWith(GetBaseUrl(cloud, apiVersion), "/beta")
  {
    BaseUrlIsRootAndSegment(cloud, apiVersion);
  }

  /** For one cloud, the V1 and Beta URLs share the host prefix and differ
      only in the version suffix. */
  lemma VersionsShareServiceRoot(cloud: NationalCloud)
    ensures var root := ServiceRoot(cloud);
      && GetBaseUrl(cloud, V1) == root + "/v1.0"
      && GetBaseUrl(cloud, Beta) == root + "/beta"
  {
    BaseUrlIsRootAndSegment(cloud, V1);
    BaseUrlIsRootAndSegment(cloud, Beta);
  }

  /** Distinct (cloud, version) pairs give distinct URLs. */
  lemma GetBaseUrlInjective(c1: NationalCloud, v1: ApiVersion, c2: NationalCloud, v2: ApiVersion)
    requires GetBaseUrl(c1, v1) == GetBaseUrl(c2, v2)
    ensures c1 == c2 && v1 == v2
  {
  }
}
