# Credential resolution and endpoint selection for the Microsoft Graph notebook extension

This project models, in Dafny, the core of the `#!microsoftgraph` magic command of the
.NET Interactive Microsoft Graph extension. The core takes the values given on the command
line, an optional JSON configuration file, an authentication flow, a national cloud and an
API version. From these it produces three things: a token-credential descriptor, the Graph
service root URL and the scopes to request.

- `enums.dfy`: the closed enumerations `AuthenticationFlow`, `NationalCloud` and `ApiVersion`.
- `wrappers.dfy`: `Option` stands for a C# `string?`. `Result` stands for a call that either returns or throws.
- `strings.dfy`: `String.IsNullOrEmpty` and `String.IsNullOrWhiteSpace` as predicates.
  `Char.IsWhiteSpace` is written out by code point (U+0009..U+000D, U+0085 and the Unicode
  categories Zs, Zl and Zp).
- `base_url.dfy`: the table of six service root URLs. Each entry is proved to be the
  cloud's root (`https://` plus the host) followed by the version segment.
- `scopes.dfy`: the one `.default` scope of each cloud. It is proved to be the same root as
  the cloud's base URLs.
- `credential_options.dfy`: the mutable `CredentialOptions` class. It has the fields
  `ClientId`, `ClientSecret` and `TenantId`.
  - `GetCredentialOptions` is a static method. It builds the object and overwrites its
    fields one by one, as the source does.
  - `ValidateOptionsForFlow` collects its errors in a local list and then fails with one
    aggregate error.
  - Both are proved against value-level specifications: `Resolve` for the merge, and
    `MissingValues` / `HasRequiredValues` for validation.
- `credential_options_properties.dfy`: the precedence rules and the validation guarantees,
  stated as lemmas about those specifications.
- `credential_provider.dfy`: the authority host of each cloud and the credential descriptor
  of each flow (`ClientSecretCredential`, `DeviceCodeCredential`,
  `InteractiveBrowserCredential`). The three private builders are plain functions.
  `GetTokenCredential`'s contract states what each builder produces.

Three points where the model follows the code closely:

- The tenant guard is `IsNullOrEmpty`, not a blank test. A tenant of spaces typed
  explicitly therefore wins over the file (`WhiteSpaceTenantWins`).
- Validation returns nothing. It either returns normally or throws one aggregate error
  carrying every individual error in order. This is modelled as `Outcome`.
- `GetTokenCredential` does not check that validation succeeded, and the model has no such
  precondition. `ValidatedOptionsGiveCompleteCredential` states what validation buys.

## Model

| member | source | states |
|---|---|---|
| `BaseUrl.GetBaseUrl` | src/BaseUrl.cs:20-33 | The six (cloud, version) literals of the source's tuple switch. The match is exhaustive, so no pair fails. Its properties are the lemmas below. |
| `BaseUrl.BaseUrlIsRootAndSegment` | src/BaseUrl.cs:20-33 | For every cloud and version, the URL is the cloud's service root followed by `/v1.0` or `/beta`. The table is total over the pairs. |
| `BaseUrl.BaseUrlShape` | src/BaseUrl.cs:23-28 | Every URL starts with `https://`. V1 URLs end in `/v1.0` and Beta URLs end in `/beta`. |
| `BaseUrl.VersionsShareServiceRoot` | src/BaseUrl.cs:23-28 | For one cloud, the V1 and Beta URLs share the same root and differ only in the version suffix. |
| `BaseUrl.GetBaseUrlInjective` | src/BaseUrl.cs:23-28 | Distinct (cloud, version) pairs give distinct URLs. |
| `Scopes.GetScopes` | src/Scopes.cs:17-26 | Every cloud gets a scope list of exactly one element. The function is total over the clouds. |
| `Scopes.ScopeIsRootAndDefault` | src/Scopes.cs:20-22 | The list is the cloud's service root followed by `/.default`. |
| `Scopes.ScopeShape` | src/Scopes.cs:20-22 | Every scope starts with `https://` and ends in `/.default`. |
| `Scopes.ScopeMatchesBaseUrl` | src/Scopes.cs:20-22 | For either version, the scope is the cloud's base URL with the version segment replaced by `/.default`. |
| `Scopes.GetScopesInjective` | src/Scopes.cs:20-22 | Distinct clouds ask for distinct scopes. |
| `Strings.IsWhiteSpaceChar` | src/CredentialOptions.cs:60 | `Char.IsWhiteSpace`, which `IsNullOrWhiteSpace` applies to each character: U+0009..U+000D, U+0085 and the code points of Unicode categories Zs, Zl and Zp. |
| `Strings.IsNullOrEmpty` | src/CredentialOptions.cs:64 | `String.IsNullOrEmpty`: the string is null or has no characters. |
| `Strings.IsNullOrWhiteSpace` | src/CredentialOptions.cs:60-61 | `String.IsNullOrWhiteSpace`: the string is null or every character is white space. |
| `Strings.EmptyIsBlank` | src/CredentialOptions.cs:64 | Every null-or-empty string is also null-or-white-space. |
| `Strings.SpacesAreBlankButNotEmpty` | src/CredentialOptions.cs:64 | The converse fails: `" "` is blank but not empty. The two guards used by the source therefore differ. |
| `Options.CredentialOptions.constructor` | src/CredentialOptions.cs:23-33 | A new options object has all three values empty. |
| `Options.CredentialOptions.FromDocument` | src/CredentialOptions.cs:51-55 | The object deserialized from a document holds the document's three values. |
| `Options.PreferCommandLine` | src/CredentialOptions.cs:60-61 | The client-ID and client-secret rule: the command-line value unless it is null or white space, else the loaded value. |
| `Options.ResolveTenant` | src/CredentialOptions.cs:63-76 | The tenant rule: a non-empty command-line tenant that is not the parser's default wins; otherwise a non-blank loaded tenant; otherwise the command-line value with null read as `""`. |
| `Options.Resolve` | src/CredentialOptions.cs:47-79 | The merge as a value: it fails exactly when the configuration file cannot be loaded. Otherwise it applies the two rules above to the file's values, or to the defaults when there is no file or the document is null. |
| `Options.CredentialOptions.GetCredentialOptions` | src/CredentialOptions.cs:47-79 | Fails exactly when the configuration file cannot be loaded. Otherwise it returns a fresh object whose values are `Resolve` of the inputs. |
| `Options.Failing` | src/CredentialOptions.cs:88-105 | A check is in the result if and only if it is among the checks and fails. The result is no longer than the checks, and it starts with the first check when that one fails. |
| `Options.FailingAppend` | src/CredentialOptions.cs:88-105 | Order and multiplicity are kept: the failing checks of `a + b` are those of `a` followed by those of `b`. |
| `Options.FailingSingle` | src/CredentialOptions.cs:91-105 | A single check yields itself when it fails and nothing otherwise. |
| `Options.MissingValuesInOrder` | src/CredentialOptions.cs:88-105 | The errors are the client-ID error if the ID is blank, then the client-secret error if the flow is `ClientCredential` and the secret is blank. |
| `Options.CredentialOptions.ValidateOptionsForFlow` | src/CredentialOptions.cs:86-111 | Passes if and only if the flow's required values are present. Otherwise it fails with the aggregate message and every missing-value error, in order. It has no `modifies` clause, so it changes none of the options. |
| `OptionsProperties.UnreadableConfigFileFails` | src/CredentialOptions.cs:51-55 | A configuration file that cannot be loaded makes the merge fail, and no options are produced. |
| `OptionsProperties.ClientIdPrecedence` | src/CredentialOptions.cs:57-60 | A non-blank command-line client ID wins over any file. A blank one keeps the file's value, or `""` when there is no file. |
| `OptionsProperties.ClientSecretPrecedence` | src/CredentialOptions.cs:57-61 | The client secret follows the same precedence as the client ID. |
| `OptionsProperties.DefaultTenantIsFallback` | src/CredentialOptions.cs:64-71 | A tenant that is null, empty or the parser's default gives way to a non-blank tenant from the file. Otherwise the command-line value is used, with null read as `""`. |
| `OptionsProperties.ExplicitTenantWins` | src/CredentialOptions.cs:72-76 | A non-empty, non-default tenant wins outright over the file. |
| `OptionsProperties.WhiteSpaceTenantWins` | src/CredentialOptions.cs:60-76 | An explicit tenant of one space replaces the file's tenant. The same space given as the client ID is ignored. |
| `OptionsProperties.TenantPrecedenceExamples` | src/CredentialOptions.cs:63-76 | The default `"common"` does not override the file's `"contoso"`. An explicit `"fabrikam"` does. |
| `OptionsProperties.ClientIdPrecedenceExamples` | src/CredentialOptions.cs:59-60 | `"cli-id"` beats the file's `"file-id"`. A null or empty command-line value keeps `"file-id"`. |
| `OptionsProperties.NoMissingValuesIffValid` | src/CredentialOptions.cs:88-110 | Validation reports nothing if and only if the flow's required values are present. |
| `OptionsProperties.ClientIdRequiredForEveryFlow` | src/CredentialOptions.cs:90-96 | The client-ID error is reported, for every flow, exactly when the client ID is blank. |
| `OptionsProperties.ClientSecretRequiredOnlyForClientCredential` | src/CredentialOptions.cs:98-105 | The client-secret error is reported exactly when the flow is `ClientCredential` and the secret is blank. |
| `OptionsProperties.ClientIdErrorFirst` | src/CredentialOptions.cs:88-105 | A reported client-ID error is the first error. |
| `OptionsProperties.MessagesDistinct` | src/CredentialOptions.cs:93-104 | The two error messages differ. |
| `OptionsProperties.ErrorsAreDistinct` | src/CredentialOptions.cs:88-105 | No error is reported twice. |
| `OptionsProperties.ValidationExamples` | src/CredentialOptions.cs:88-110 | `ClientCredential` with both values empty yields exactly two errors. `DeviceCode` with an empty client ID yields exactly one. |
| `CredentialProvider.GetAuthorityHosts` | src/CredentialProvider.cs:42-51 | Global maps to the public-cloud host. USGov and USGovDoD both map to the government host. The function is total over the clouds. |
| `CredentialProvider.GetClientSecretCredential` | src/CredentialProvider.cs:53-62 | A client-secret credential with the given tenant, client and secret and the cloud's authority host. |
| `CredentialProvider.GetDeviceCodeCredential` | src/CredentialProvider.cs:64-79 | A device-code credential with the given tenant and client and the cloud's authority host. It has no secret, and the console callback is left out. |
| `CredentialProvider.GetInteractiveBrowserCredential` | src/CredentialProvider.cs:81-91 | A browser credential with the given tenant and client, the cloud's authority host and the redirect URI `http://localhost`. |
| `CredentialProvider.GetTokenCredential` | src/CredentialProvider.cs:23-91 | The credential's kind matches the flow. It carries the options' tenant and client IDs unchanged, and the secret only for `ClientCredential`. Its authority host is the cloud's. The browser flow's redirect URI is `http://localhost`. The function is total over the flows. |
| `CredentialProvider.AuthorityIndependentOfFlow` | src/CredentialProvider.cs:53-91 | The authority host is the same whatever the flow. |
| `CredentialProvider.FlowsGiveDistinctCredentials` | src/CredentialProvider.cs:26-30 | Different flows give different credentials. |
| `CredentialProvider.ValidatedOptionsGiveCompleteCredential` | src/CredentialProvider.cs:26-30 | Options that pass validation for a flow give a credential with a non-blank client ID, and a non-blank secret where one is carried. |
| `CredentialProvider.ClientCredentialExample` | src/CredentialProvider.cs:53-62 | Tenant `t`, client `c` and secret `s` on the global cloud give exactly a client-secret credential with these values and the public-cloud host. |
| `CredentialProvider.CommandLineClientIdReachesCredential` | src/CredentialOptions.cs:60 | A non-blank command-line client ID ends up in the credential, whatever the file holds and whatever the flow. |

## Left out

- The kernel extension (`src/MicrosoftGraphKernelExtension.cs`) is left out as host plumbing: command registration, option wiring, `SetValueAsync`, `Display` and the deferred `using` submission. Its call to `GetTokenCredential` passes five arguments, which no longer matches the method, so no behaviour is taken from it.
- No operation assembles the (credential, base URL, scopes) triple. The source has that assembly only in the extension above.
- The command-line binder (`src/CredentialOptionsBinder.cs`) is left out. `tenantIdIsDefault` is a plain input.
- Opening and deserializing the configuration file are inputs, not modelled operations. `ConfigFile` gives the outcome: no file, a file that cannot be loaded (missing, unreadable or malformed), or a document, where `None` stands for the JSON literal `null`. The stream the source opens is never disposed, and this is not modelled.
- A JSON property whose value is `null` deserializes to a null string in the source. The model's deserialized values are strings, so that case is not represented. For client ID and secret it differs from `""` only in the value kept. Both fail validation, and the tenant rule treats them alike.
- The Azure.Identity credential objects, token acquisition, the network and the browser are left out. Credentials are descriptors, and the two authority hosts are opaque constants.
- The device-code console callback is left out, because it only prints the code message.
- The Graph client construction and the setting of its base URL are left out as calls into the SDK.
- The out-of-range arms of the four switches have no counterpart. A C# enum variable can hold an undefined value, which reaches those arms. The model's closed datatypes cannot represent one.
- Calling the merge twice on the same inputs gives the same options. In the model this holds by construction, because `Resolve` is a function. No separate statement is made.
