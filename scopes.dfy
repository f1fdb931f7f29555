/** The permission scopes requested for each national cloud. */
module Scopes {
  import opened Enums
  import opened Strings
  import opened BaseUrl

  const DefaultSuffix := "/.default"

  /** The scope list of a national cloud (a one-element array in the source,
      never mutated, hence a sequence). The match covers every cloud, so the
      source's out-of-range arm has no counterpart. */
  function GetScopes(nationalCloud: NationalCloud): (r: seq<string>)
    ensures |r| == 1
  {
    match nationalCloud
    case Global => ["https://graph.microsoft.com/.default"]
    case USGov => ["https://graph.microsoft.us/.default"]
    case USGovDoD => ["https://dod-graph.microsoft.us/.default"]
  }

  /** The one scope of a cloud is its service root, the scheme and host that
      every base URL of the cloud starts with, followed by `/.default`. */
  lemma ScopeIsRootAndDefault(cloud: NationalCloud)
    ensures GetScopes(cloud) == [ServiceRoot(cloud) + DefaultSuffix]
  {
    match cloud
    case Global => GlobalScope();
    case USGov => USGovScope();
    case USGovDoD => USGovDoDScope();
  }

  // One lemma per cloud, as for the base URLs.

  lemma GlobalScope()
    ensures GetScopes(Global) == [ServiceRoot(Global) + DefaultSuffix]
  {
    assert ServiceRoot(Global) == "https://graph.microsoft.com";
    assert ServiceRoot(Global) + DefaultSuffix == "https://graph.microsoft.com/.default";
  }

  lemma USGovScope()
    ensures GetScopes(USGov) == [ServiceRoot(USGov) + DefaultSuffix]
  {
    assert ServiceRoot(USGov) == "https://graph.microsoft.us";
    assert ServiceRoot(USGov) + DefaultSuffix == "https://graph.microsoft.us/.default";
  }

  lemma USGovDoDScope()
    ensures GetScopes(USGovDoD) == [ServiceRoot(USGovDoD) + DefaultSuffix]
  {
    assert ServiceRoot(USGovDoD) == "https://dod-graph.microsoft.us";
    assert ServiceRoot(USGovDoD) + DefaultSuffix == "https://dod-graph.microsoft.us/.default";
  }

  /** Every scope uses https and ends in `/.default`. */
  lemma ScopeShape(cloud: NationalCloud)
    ensures StartsWith(GetScopes(cloud)[0], Scheme)
    ensures EndsWith(GetScopes(cloud)[0], DefaultSuffix)
  {
    ScopeIsRootAndDefault(cloud);
  }

  /** The scope is the base URL of the same cloud, for either API version,
      with its version segment replaced by `/.default`. */
  lemma ScopeMatchesBaseUrl(cloud: NationalCloud, apiVersion: ApiVersion)
    ensures var url := GetBaseUrl(cloud, apiVersion);
      && |VersionSegment(apiVersion)| <= |url|
      && GetScopes(cloud)[0] == url[..|url| - |VersionSegment(apiVersion)|] + DefaultSuffix
  {
    BaseUrlIsRootAndSegment(cloud, apiVersion);
    ScopeIsRootAndDefault(cloud);
    var root := ServiceRoot(cloud);
    assert (root + VersionSegment(apiVersion))[..|root|] == root;
  }

  /** Distinct clouds ask for distinct scopes. */
  lemma GetScopesInjective(c1: NationalCloud, c2: NationalCloud)
    requires GetScopes(c1) == GetScopes(c2)
    ensures c1 == c2
  {
  }
}
