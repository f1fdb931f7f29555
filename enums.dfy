/** The three closed enumerations that select the behaviour of the core:
    how to authenticate, which national cloud to talk to, and which
    Microsoft Graph API version to call. */
module Enums {

  /** Supported authentication flows. */
  datatype AuthenticationFlow =
    | ClientCredential    // app-only authentication with a client secret
    | DeviceCode          // user authentication with the device code flow
    | InteractiveBrowser  // user authentication through the default browser

  /** Supported national clouds. */
  datatype NationalCloud =
    | Global    // the global Microsoft Graph service
    | USGov     // Microsoft Graph for US Government L4
    | USGovDoD  // Microsoft Graph for US Government L5 (DOD)

  /** Microsoft Graph API versions. */
  datatype ApiVersion = V1 | Beta
}
