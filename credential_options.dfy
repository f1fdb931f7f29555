/** App-registration options: merging the magic command's parameters with an
    optional configuration file, and checking that the values an
    authentication flow needs are present. */
module Options {
  import opened Wrappers
  import opened Strings
  import opened Enums

  /** The three values of a `CredentialOptions` object, as a value. */
  datatype CredentialProfile = CredentialProfile(clientId: string, clientSecret: string, tenantId: string)

  /** The property initialisers of `CredentialOptions`: every value is empty. */
  const Defaults := CredentialProfile("", "", "")

  /** The `--config-file` argument after the file was opened and deserialized. */
  datatype ConfigFile =
    | NoConfigFile
      // the file is missing or unreadable, or its content is not JSON of the expected shape
    | UnreadableConfigFile
      // the deserialized document; `None` when the document is the JSON literal `null`
    | ConfigFileRead(document: Option<CredentialProfile>)

  /** What `GetCredentialOptions` throws when the configuration file cannot be loaded. */
  datatype ConfigFileError = ConfigFileError

  const ClientIdMessage :=
    "A client ID must be provided in the --client-id parameter or inside the JSON file provided with the --config-file parameter."
  const ClientSecretMessage :=
    "A client secret must be provided in the --client-secret parameter or inside the JSON file provided with the --config-file parameter."

  /** A required value that validation found missing; one per `ArgumentException`. */
  datatype MissingValue = MissingClientId | MissingClientSecret {
    function Message(): string {
      match this
      case MissingClientId => ClientIdMessage
      case MissingClientSecret => ClientSecretMessage
    }
  }

  const AggregateMessage := "One or more required values are missing."

  /** The `AggregateException` validation throws: its message and, in order,
      every individual error. */
  datatype AggregateError = AggregateError(message: string, innerErrors: seq<MissingValue>)

  /** Validation either returns normally or throws its aggregate error. */
  datatype Outcome = Pass | Fail(error: AggregateError)

  // ---------------------------------------------------------------------
  // Specification of the merge

  /** The values the configuration file contributes, or the defaults when
      there is no file or the document is `null`. */
  function ConfigValues(configFile: ConfigFile): CredentialProfile
    requires !configFile.UnreadableConfigFile?
  {
    if configFile.ConfigFileRead? && configFile.document.Some? then configFile.document.value else Defaults
  }

  /** The rule for the client ID and the client secret: a command-line value
      that is neither null nor white space takes precedence. */
  function PreferCommandLine(commandLine: Option<string>, fromFile: string): string {
    if IsNullOrWhiteSpace(commandLine) then fromFile else commandLine.value
  }

  /** A tenant ID the user typed: present, not empty, and not the parser's
      implicit default. White space alone counts as typed. */
  predicate IsExplicitTenant(tenantId: Option<string>, tenantIdIsDefault: bool) {
    !IsNullOrEmpty(tenantId) && !tenantIdIsDefault
  }

  /** The rule for the tenant ID: an explicit tenant wins; otherwise a
      non-blank tenant from the file; otherwise the command-line value, with
      null read as the empty string. */
  function ResolveTenant(tenantId: Option<string>, tenantIdIsDefault: bool, fromFile: string): string {
    if IsExplicitTenant(tenantId, tenantIdIsDefault) then tenantId.value
    else if !IsBlank(fromFile) then fromFile
    else OrEmpty(tenantId)
  }

  /** The options `GetCredentialOptions` returns, as a value, or the error it
      throws. */
  function Resolve(tenantId: Option<string>, clientId: Option<string>, clientSecret: Option<string>,
                   configFile: ConfigFile, tenantIdIsDefault: bool): (r: Result<CredentialProfile, ConfigFileError>)
    ensures r.Failure? <==> configFile.UnreadableConfigFile?
  {
    if configFile.UnreadableConfigFile? then Failure(ConfigFileError)
    else
      var file := ConfigValues(configFile);
      Success(CredentialProfile(
        PreferCommandLine(clientId, file.clientId),
        PreferCommandLine(clientSecret, file.clientSecret),
        ResolveTenant(tenantId, tenantIdIsDefault, file.tenantId)))
  }

  // ---------------------------------------------------------------------
  // Specification of the validation

  /** The checks made for a flow, in the order they are made. */
  function Checks(authenticationFlow: AuthenticationFlow): seq<MissingValue> {
    [MissingClientId] + if authenticationFlow == ClientCredential then [MissingClientSecret] else []
  }

  /** The profile lacks the value that `check` asks for. */
  predicate Fails(p: CredentialProfile, check: MissingValue) {
    match check
    case MissingClientId => IsBlank(p.clientId)
    case MissingClientSecret => IsBlank(p.clientSecret)
  }

  /** The checks among `checks` that fail, in their order. */
  function Failing(p: CredentialProfile, checks: seq<MissingValue>): (r: seq<MissingValue>)
    ensures forall m :: m in r <==> m in checks && Fails(p, m)
    ensures |r| <= |checks|
    ensures |checks| > 0 && Fails(p, checks[0]) ==> |r| > 0 && r[0] == checks[0]
  {
    if checks == [] then []
    else (if Fails(p, checks[0]) then [checks[0]] else []) + Failing(p, checks[1..])
  }

  /** Filtering keeps order and multiplicity: the failing checks of `a + b`
      are those of `a` followed by those of `b`. */
  lemma {:induction false} FailingAppend(p: CredentialProfile, a: seq<MissingValue>, b: seq<MissingValue>)
    ensures Failing(p, a + b) == Failing(p, a) + Failing(p, b)
  {
    if a == [] {
      assert a + b == b;
    } else {
      assert (a + b)[0] == a[0];
      assert (a + b)[1..] == a[1..] + b;
      FailingAppend(p, a[1..], b);
    }
  }

  /** A single check is kept exactly when it fails. */
  lemma FailingSingle(p: CredentialProfile, check: MissingValue)
    ensures Failing(p, [check]) == if Fails(p, check) then [check] else []
  {
    assert [check][1..] == [];
  }

  /** Every error validation reports for `p` and the flow, in order. */
  function MissingValues(p: CredentialProfile, authenticationFlow: AuthenticationFlow): seq<MissingValue> {
    Failing(p, Checks(authenticationFlow))
  }

  /** The errors for a flow are the client-ID error when the client ID is
      blank, followed by the client-secret error when the flow is the
      client-credential flow and the secret is blank. */
  lemma MissingValuesInOrder(p: CredentialProfile, authenticationFlow: AuthenticationFlow)
    ensures MissingValues(p, authenticationFlow)
         == (if IsBlank(p.clientId) then [MissingClientId] else [])
          + (if authenticationFlow == ClientCredential && IsBlank(p.clientSecret) then [MissingClientSecret] else [])
  {
    var checks := Checks(authenticationFlow);
    assert checks[0] == MissingClientId;
    if authenticationFlow == ClientCredential {
      assert checks[1..] == [MissingClientSecret];
      assert Failing(p, checks[1..])
          == (if IsBlank(p.clientSecret) then [MissingClientSecret] else []) + Failing(p, []);
    } else {
      assert checks[1..] == [];
    }
  }

  /** The requirement itself: a client ID for every flow, and a client secret
      as well for the client-credential flow. */
  predicate HasRequiredValues(p: CredentialProfile, authenticationFlow: AuthenticationFlow) {
    && !IsBlank(p.clientId)
    && (authenticationFlow == ClientCredential ==> !IsBlank(p.clientSecret))
  }

  // ---------------------------------------------------------------------
  // The mutable options object

  class CredentialOptions {
    var ClientId: string
    var ClientSecret: string
    var TenantId: string

    function Profile(): CredentialProfile
      reads this
    {
      CredentialProfile(ClientId, ClientSecret, TenantId)
    }

    /** `new CredentialOptions()`. */
    constructor ()
      ensures Profile() == Defaults
    {
      ClientId, ClientSecret, TenantId := "", "", "";
    }

    /** The object the JSON deserializer builds from a document. */
    constructor FromDocument(document: CredentialProfile)
      ensures Profile() == document
    {
      ClientId, ClientSecret, TenantId := document.clientId, document.clientSecret, document.tenantId;
    }

    /** Loads the configuration file, if any, and overwrites its values with
        the explicit parameters: the client ID and secret when they are not
        blank, the tenant ID under the tenant rule. */
    static method GetCredentialOptions(tenantId: Option<string>, clientId: Option<string>, clientSecret: Option<string>,
                                       configFile: ConfigFile, tenantIdIsDefault: bool)
      returns (r: Result<CredentialOptions, ConfigFileError>)
      ensures r.Failure? <==> configFile.UnreadableConfigFile?
      ensures r.Success? ==> fresh(r.value)
      ensures r.Success? ==> Resolve(tenantId, clientId, clientSecret, configFile, tenantIdIsDefault) == Success(r.value.Profile())
    {
      if configFile.UnreadableConfigFile? {
        return Failure(ConfigFileError);
      }
      var loaded: CredentialOptions? := null;
      if configFile.ConfigFileRead? && configFile.document.Some? {
        loaded := new CredentialOptions.FromDocument(configFile.document.value);
      }
      var options: CredentialOptions;
      if loaded == null {
        options := new CredentialOptions();
      } else {
        options := loaded;
      }
      assert options.Profile() == ConfigValues(configFile);

      // client ID and secret: a non-blank command-line value replaces the loaded one
      options.ClientId := if IsNullOrWhiteSpace(clientId) then options.ClientId else clientId.value;
      options.ClientSecret := if IsNullOrWhiteSpace(clientSecret) then options.ClientSecret else clientSecret.value;

      // tenant ID: the command-line value replaces the loaded one only when it was typed
      if IsNullOrEmpty(tenantId) || tenantIdIsDefault {
        var tenant := OrEmpty(tenantId);
        // fallback: keep a non-blank loaded tenant
        options.TenantId := if IsBlank(options.TenantId) then tenant else options.TenantId;
      } else {
        options.TenantId := tenantId.value;
      }
      return Success(options);
    }

    /** Collects every missing value the flow requires, the client ID first,
        and fails if and only if there is at least one. It reads the options
        and changes nothing. */
    method ValidateOptionsForFlow(authenticationFlow: AuthenticationFlow) returns (r: Outcome)
      ensures r.Pass? <==> HasRequiredValues(Profile(), authenticationFlow)
      ensures r.Fail? ==> r.error == AggregateError(AggregateMessage, MissingValues(Profile(), authenticationFlow))
    {
      var exceptions: seq<MissingValue> := [];

      // checked for every flow
      if IsBlank(ClientId) {
        exceptions := exceptions + [MissingClientId];
      }

      // checked for the client-credential flow only
      if authenticationFlow == ClientCredential && IsBlank(ClientSecret) {
        exceptions := exceptions + [MissingClientSecret];
      }

      MissingValuesInOrder(Profile(), authenticationFlow);
      if |exceptions| > 0 {
        return Fail(AggregateError(AggregateMessage, exceptions));
      }
      return Pass;
    }
  }
}
