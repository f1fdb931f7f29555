/** What the merge and the validation of credential options promise. */
module OptionsProperties {
  import opened Wrappers
  import opened Strings
  import opened Enums
  import opened Options

  // ---------------------------------------------------------------------
  // Merge

  /** A configuration file that cannot be loaded makes the merge fail: no
      partial options are produced. */
  lemma UnreadableConfigFileFails(tenantId: Option<string>, clientId: Option<string>, clientSecret: Option<string>,
                                  tenantIdIsDefault: bool)
    ensures Resolve(tenantId, clientId, clientSecret, UnreadableConfigFile, tenantIdIsDefault) == Failure(ConfigFileError)
  {
  }

  /** A non-blank command-line client ID becomes the client ID whatever the
      file holds; a blank one keeps the file's value, or the empty string
      when there is no file or the document is null. */
  lemma ClientIdPrecedence(tenantId: Option<string>, clientId: Option<string>, clientSecret: Option<string>,
                           configFile: ConfigFile, tenantIdIsDefault: bool)
    requires !configFile.UnreadableConfigFile?
    ensures var r := Resolve(tenantId, clientId, clientSecret, configFile, tenantIdIsDefault);
      && r.Success?
      && (!IsNullOrWhiteSpace(clientId) ==> r.value.clientId == clientId.value)
      && (IsNullOrWhiteSpace(clientId) ==> r.value.clientId == ConfigValues(configFile).clientId)
      && (IsNullOrWhiteSpace(clientId) && !configFile.ConfigFileRead? ==> r.value.clientId == "")
  {
  }

  /** The client secret follows the same precedence as the client ID. */
  lemma ClientSecretPrecedence(tenantId: Option<string>, clientId: Option<string>, clientSecret: Option<string>,
                               configFile: ConfigFile, tenantIdIsDefault: bool)
    requires !configFile.UnreadableConfigFile?
    ensures var r := Resolve(tenantId, clientId, clientSecret, configFile, tenantIdIsDefault);
      && r.Success?
      && (!IsNullOrWhiteSpace(clientSecret) ==> r.value.clientSecret == clientSecret.value)
      && (IsNullOrWhiteSpace(clientSecret) ==> r.value.clientSecret == ConfigValues(configFile).clientSecret)
      && (IsNullOrWhiteSpace(clientSecret) && !configFile.ConfigFileRead? ==> r.value.clientSecret == "")
  {
  }

  /** A tenant ID that is null, empty or the parser's default is only a
      fallback: a non-blank tenant from the file is kept, and otherwise the
      command-line value is used, null read as the empty string. */
  lemma DefaultTenantIsFallback(tenantId: Option<string>, clientId: Option<string>, clientSecret: Option<string>,
                                configFile: ConfigFile, tenantIdIsDefault: bool)
    requires !configFile.UnreadableConfigFile?
    requires IsNullOrEmpty(tenantId) || tenantIdIsDefault
    ensures var r := Resolve(tenantId, clientId, clientSecret, configFile, tenantIdIsDefault);
      var fromFile := ConfigValues(configFile).tenantId;
      && r.Success?
      && r.value.tenantId == if IsBlank(fromFile) then OrEmpty(tenantId) else fromFile
  {
  }

  /** A tenant ID that is not empty and not the parser's default wins
      outright, even over a non-blank tenant in the file. */
  lemma ExplicitTenantWins(tenantId: Option<string>, clientId: Option<string>, clientSecret: Option<string>,
                           configFile: ConfigFile, tenantIdIsDefault: bool)
    requires !configFile.UnreadableConfigFile?
    requires !IsNullOrEmpty(tenantId) && !tenantIdIsDefault
    ensures var r := Resolve(tenantId, clientId, clientSecret, configFile, tenantIdIsDefault);
      r.Success? && r.value.tenantId == tenantId.value
  {
  }

  /** The tenant guard tests for empty, not for white space: an explicit
      tenant of one space replaces the file's tenant, while the same space
      given as the client ID is ignored. */
  lemma WhiteSpaceTenantWins(document: CredentialProfile)
    ensures var r := Resolve(Some(" "), Some(" "), None, ConfigFileRead(Some(document)), false);
      && r.Success?
      && r.value.tenantId == " "
      && r.value.clientId == document.clientId
  {
  }

  /** The parser's default tenant "common" does not override the file's
      tenant "contoso"; an explicit "fabrikam" does. */
  lemma TenantPrecedenceExamples(clientId: Option<string>, clientSecret: Option<string>)
    ensures var file := ConfigFileRead(Some(CredentialProfile("", "", "contoso")));
      && Resolve(Some("common"), clientId, clientSecret, file, true).value.tenantId == "contoso"
      && Resolve(Some("fabrikam"), clientId, clientSecret, file, false).value.tenantId == "fabrikam"
  {
    NonWhiteSpaceCharIsNotBlank("contoso", 0);
  }

  /** The command-line client ID "cli-id" beats the file's "file-id"; with no
      command-line value the file's value is used. */
  lemma ClientIdPrecedenceExamples(tenantId: Option<string>, clientSecret: Option<string>, tenantIdIsDefault: bool)
    ensures var file := ConfigFileRead(Some(CredentialProfile("file-id", "", "")));
      && Resolve(tenantId, Some("cli-id"), clientSecret, file, tenantIdIsDefault).value.clientId == "cli-id"
      && Resolve(tenantId, None, clientSecret, file, tenantIdIsDefault).value.clientId == "file-id"
      && Resolve(tenantId, Some(""), clientSecret, file, tenantIdIsDefault).value.clientId == "file-id"
  {
    NonWhiteSpaceCharIsNotBlank("cli-id", 0);
  }

  // ---------------------------------------------------------------------
  // Validation

  /** Validation finds nothing missing exactly when the flow's required
      values are present. */
  lemma NoMissingValuesIffValid(p: CredentialProfile, authenticationFlow: AuthenticationFlow)
    ensures MissingValues(p, authenticationFlow) == [] <==> HasRequiredValues(p, authenticationFlow)
  {
    MissingValuesInOrder(p, authenticationFlow);
  }

  /** A blank client ID is reported for every flow, and only a blank one. */
  lemma ClientIdRequiredForEveryFlow(p: CredentialProfile, authenticationFlow: AuthenticationFlow)
    ensures MissingClientId in MissingValues(p, authenticationFlow) <==> IsBlank(p.clientId)
  {
  }

  /** A blank client secret is reported for the client-credential flow and
      for no other. */
  lemma ClientSecretRequiredOnlyForClientCredential(p: CredentialProfile, authenticationFlow: AuthenticationFlow)
    ensures MissingClientSecret in MissingValues(p, authenticationFlow)
        <==> authenticationFlow == ClientCredential && IsBlank(p.clientSecret)
  {
  }

  /** When the client ID is reported, it is reported first. */
  lemma ClientIdErrorFirst(p: CredentialProfile, authenticationFlow: AuthenticationFlow)
    requires IsBlank(p.clientId)
    ensures |MissingValues(p, authenticationFlow)| > 0 && MissingValues(p, authenticationFlow)[0] == MissingClientId
  {
  }

  /** The two errors carry different messages. */
  lemma MessagesDistinct()
    ensures MissingClientId.Message() != MissingClientSecret.Message()
  {
    assert |ClientIdMessage| < |ClientSecretMessage|;
  }

  /** Validation reports each missing value once. */
  lemma ErrorsAreDistinct(p: CredentialProfile, authenticationFlow: AuthenticationFlow)
    ensures var errors := MissingValues(p, authenticationFlow);
      forall i, j :: 0 <= i < j < |errors| ==> errors[i] != errors[j]
  {
    MissingValuesInOrder(p, authenticationFlow);
  }

  /** The client-credential flow with both values blank yields exactly two
      errors; the device-code flow with a blank client ID yields exactly one,
      whatever the secret. */
  lemma ValidationExamples(secret: string)
    ensures MissingValues(CredentialProfile("", "", "common"), ClientCredential) == [MissingClientId, MissingClientSecret]
    ensures MissingValues(CredentialProfile("", secret, "common"), DeviceCode) == [MissingClientId]
  {
    MissingValuesInOrder(CredentialProfile("", "", "common"), ClientCredential);
    MissingValuesInOrder(CredentialProfile("", secret, "common"), DeviceCode);
  }
}
