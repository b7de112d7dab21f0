/** What the PayPalConfig constructor guarantees about the object it builds
    and about the error it raises, stated over the resolution function
    `Settings.Resolve` that `PayPalConfig.Create` is proved to follow. */
module SettingsProperties {
  import opened PyValues
  import opened Settings

  /** The environment and the authentication mode were accepted, and the mode
      has an entry in the endpoint table: the first three steps pass. */
  predicate PassesEndpointLookup(kwargs: map<string, Value>) {
    && ResolveEnvironment(kwargs).Success?
    && ResolveAuthMode(kwargs).Success?
    && ResolveAuthMode(kwargs).value != "CERTIFICATE"
  }

  /** The CA-cert directive names a path that does not exist. */
  predicate CaCertsRejected(kwargs: map<string, Value>, pathExists: string -> bool) {
    Truthy(Get(kwargs, CA_CERTS_KEY)) && kwargs[CA_CERTS_KEY].Str? && !pathExists(kwargs[CA_CERTS_KEY].s)
  }

  // ---- Messages ----

  /** The auth-mode error lists the four modes in table order: its choices
      are `", ".join` of the valid modes. */
  lemma AuthModeMessageListsChoices()
    ensures AUTH_MODE_CHOICES == Join(VALID_AUTH_MODES, ", ")
    ensures UNSUPPORTED_AUTH_MODE_MESSAGE == "Not a supported auth mode. Use one of: " + Join(VALID_AUTH_MODES, ", ")
  {
    JoinFour("3TOKEN", "CERTIFICATE", "ACCESS_TOKEN", "3TOKEN_SUBJECT", ", ");
  }

  /** The PayPalConfigError messages cannot be confused with one another, and a
      missing-field message determines the field. */
  lemma MessagesDistinct(f: string, g: string)
    ensures MissingMessage(f) != INVALID_ENVIRONMENT_MESSAGE
    ensures MissingMessage(f) != UNSUPPORTED_AUTH_MODE_MESSAGE
    ensures MissingMessage(f) != INVALID_CA_CERTS_MESSAGE
    ensures INVALID_ENVIRONMENT_MESSAGE != UNSUPPORTED_AUTH_MODE_MESSAGE
    ensures INVALID_CA_CERTS_MESSAGE != UNSUPPORTED_AUTH_MODE_MESSAGE
    ensures INVALID_ENVIRONMENT_MESSAGE != INVALID_CA_CERTS_MESSAGE
    ensures MissingMessage(f) == MissingMessage(g) ==> f == g
  {
    var prefix := "Missing in PayPalConfig: ";
    assert MissingMessage(f)[0] == 'M';
    assert UNSUPPORTED_AUTH_MODE_MESSAGE[0] == 'N';
    if MissingMessage(f) == MissingMessage(g) {
      assert f == MissingMessage(f)[|prefix|..|MissingMessage(f)| - 1];
      assert g == MissingMessage(g)[|prefix|..|MissingMessage(g)| - 1];
    }
  }

  // ---- Helpers about the credential check ----

  /** The first missing field depends only on which fields are keys. */
  lemma {:induction false} FirstMissingAgrees(fields: seq<string>, a: map<string, Value>, b: map<string, Value>)
    requires forall f :: f in fields ==> (f in a <==> f in b)
    ensures FirstMissing(fields, a) == FirstMissing(fields, b)
  {
    if fields != [] {
      FirstMissingAgrees(fields[1..], a, b);
    }
  }

  /** No step reads a key other than the four directives and the resolved
      mode's required fields, so changing any other key changes nothing. */
  lemma ChangeOfOtherKeyIgnored(kwargs: map<string, Value>, other: map<string, Value>,
                                pathExists: string -> bool)
    requires ResolveEnvironment(kwargs) == ResolveEnvironment(other)
    requires ResolveAuthMode(kwargs) == ResolveAuthMode(other)
    requires Get(kwargs, CA_CERTS_KEY) == Get(other, CA_CERTS_KEY)
    requires ResolveTimeout(kwargs) == ResolveTimeout(other)
    requires ResolveAuthMode(kwargs).Success? ==>
      var fields := RequiredFields(ResolveAuthMode(kwargs).value);
      forall f :: f in fields ==> (f in kwargs <==> f in other) && (f in kwargs ==> kwargs[f] == other[f])
    ensures Resolve(kwargs, pathExists) == Resolve(other, pathExists)
  {
    assert ResolveCaCerts(kwargs, pathExists) == ResolveCaCerts(other, pathExists);
    if ResolveAuthMode(kwargs).Success? {
      var fields := RequiredFields(ResolveAuthMode(kwargs).value);
      FirstMissingAgrees(fields, kwargs, other);
      if FirstMissing(fields, kwargs).None? {
        var mine := map f | f in fields && f in kwargs :: kwargs[f];
        var theirs := map f | f in fields && f in other :: other[f];
        assert mine.Keys == theirs.Keys;
        assert forall k | k in mine :: mine[k] == theirs[k];
        assert mine == theirs;
      }
      assert CopyRequired(fields, kwargs) == CopyRequired(fields, other);
    }
  }

  /** No required field of any mode names a directive or another attribute of
      the class, so copying the credentials (by `setattr`) cannot overwrite one. */
  lemma FieldsAreNotOtherAttributes(mode: string)
    ensures forall f :: f in RequiredFields(mode) ==> f !in NON_CREDENTIAL_ATTRIBUTES
    ensures ENVIRONMENT_KEY in NON_CREDENTIAL_ATTRIBUTES && AUTH_MODE_KEY in NON_CREDENTIAL_ATTRIBUTES
    ensures CA_CERTS_KEY in NON_CREDENTIAL_ATTRIBUTES && TIMEOUT_KEY in NON_CREDENTIAL_ATTRIBUTES
  {
  }

  // ---- Environment ----

  /** An absent or falsy API_ENVIRONMENT gives SANDBOX; otherwise the resolved
      environment is the directive upper-cased, and it is always a valid one. */
  lemma ResolvedEnvironment(kwargs: map<string, Value>, pathExists: string -> bool)
    requires Resolve(kwargs, pathExists).Success?
    ensures Resolve(kwargs, pathExists).value.environment in VALID_ENVIRONMENTS
    ensures !Truthy(Get(kwargs, ENVIRONMENT_KEY)) ==> Resolve(kwargs, pathExists).value.environment == "SANDBOX"
    ensures Truthy(Get(kwargs, ENVIRONMENT_KEY)) ==>
      kwargs[ENVIRONMENT_KEY].Str? && Resolve(kwargs, pathExists).value.environment == Upper(kwargs[ENVIRONMENT_KEY].s)
  {
  }

  /** The constructor fails with "Invalid API_ENVIRONMENT" exactly when the
      directive is a truthy string whose upper-casing is not a valid environment;
      nothing later can prevent or imitate that error. */
  lemma InvalidEnvironmentReported(kwargs: map<string, Value>, pathExists: string -> bool)
    ensures Resolve(kwargs, pathExists) == Failure(ConfigError(INVALID_ENVIRONMENT_MESSAGE)) <==>
      Truthy(Get(kwargs, ENVIRONMENT_KEY)) && kwargs[ENVIRONMENT_KEY].Str? &&
      Upper(kwargs[ENVIRONMENT_KEY].s) !in VALID_ENVIRONMENTS
  {
    MessagesDistinct("", "");
    if ResolveEnvironment(kwargs).Success? && ResolveAuthMode(kwargs).Success? {
      var fields := RequiredFields(ResolveAuthMode(kwargs).value);
      match FirstMissing(fields, kwargs)
      case Some(i) => MessagesDistinct(fields[i], "");
      case None =>
    }
  }

  /** A truthy API_ENVIRONMENT that is not a string raises AttributeError from
      `.upper()`, and that is the only way this error arises. */
  lemma EnvironmentAttributeFailure(kwargs: map<string, Value>, pathExists: string -> bool)
    ensures Resolve(kwargs, pathExists) == Failure(AttributeFailure(ENVIRONMENT_KEY)) <==>
      Truthy(Get(kwargs, ENVIRONMENT_KEY)) && !kwargs[ENVIRONMENT_KEY].Str?
  {
  }

  /** Two spellings with the same upper-casing resolve identically. */
  lemma EnvironmentCaseInsensitive(kwargs: map<string, Value>, pathExists: string -> bool, s: string, t: string)
    requires Upper(s) == Upper(t)
    ensures Resolve(kwargs[ENVIRONMENT_KEY := Str(s)], pathExists) ==
            Resolve(kwargs[ENVIRONMENT_KEY := Str(t)], pathExists)
  {
    UpperKeepsTruthiness(s);
    UpperKeepsTruthiness(t);
    var a, b := kwargs[ENVIRONMENT_KEY := Str(s)], kwargs[ENVIRONMENT_KEY := Str(t)];
    FieldsAreNotOtherAttributes(if ResolveAuthMode(a).Success? then ResolveAuthMode(a).value else "");
    ChangeOfOtherKeyIgnored(a, b, pathExists);
  }

  /** "sandbox" resolves exactly as "SANDBOX" does. */
  lemma LowercaseSandboxIsSandbox(kwargs: map<string, Value>, pathExists: string -> bool)
    ensures Resolve(kwargs[ENVIRONMENT_KEY := Str("sandbox")], pathExists) ==
            Resolve(kwargs[ENVIRONMENT_KEY := Str("SANDBOX")], pathExists)
  {
    assert Upper("sandbox") == Upper("SANDBOX");
    EnvironmentCaseInsensitive(kwargs, pathExists, "sandbox", "SANDBOX");
  }

  // ---- Authentication mode ----

  /** An absent or falsy API_AUTHENTICATION_MODE gives 3TOKEN; otherwise the
      resolved mode is the directive upper-cased, and it is one of the four. */
  lemma ResolvedAuthMode(kwargs: map<string, Value>, pathExists: string -> bool)
    requires Resolve(kwargs, pathExists).Success?
    ensures Resolve(kwargs, pathExists).value.authenticationMode in VALID_AUTH_MODES
    ensures !Truthy(Get(kwargs, AUTH_MODE_KEY)) ==> Resolve(kwargs, pathExists).value.authenticationMode == "3TOKEN"
    ensures Truthy(Get(kwargs, AUTH_MODE_KEY)) ==>
      kwargs[AUTH_MODE_KEY].Str? && Resolve(kwargs, pathExists).value.authenticationMode == Upper(kwargs[AUTH_MODE_KEY].s)
  {
  }

  /** Once the environment is accepted, the constructor fails with the message
      listing the modes exactly when the directive is a truthy string whose
      upper-casing is not one of them. */
  lemma UnsupportedAuthModeReported(kwargs: map<string, Value>, pathExists: string -> bool)
    ensures Resolve(kwargs, pathExists) == Failure(ConfigError(UNSUPPORTED_AUTH_MODE_MESSAGE)) <==>
      ResolveEnvironment(kwargs).Success? &&
      Truthy(Get(kwargs, AUTH_MODE_KEY)) && kwargs[AUTH_MODE_KEY].Str? &&
      Upper(kwargs[AUTH_MODE_KEY].s) !in VALID_AUTH_MODES
  {
    MessagesDistinct("", "");
    if ResolveEnvironment(kwargs).Success? && ResolveAuthMode(kwargs).Success? {
      var fields := RequiredFields(ResolveAuthMode(kwargs).value);
      match FirstMissing(fields, kwargs)
      case Some(i) => MessagesDistinct(fields[i], "");
      case None =>
    }
  }

  /** Once the environment is accepted, a truthy API_AUTHENTICATION_MODE that
      is not a string raises AttributeError, and only then. */
  lemma AuthModeAttributeFailure(kwargs: map<string, Value>, pathExists: string -> bool)
    ensures Resolve(kwargs, pathExists) == Failure(AttributeFailure(AUTH_MODE_KEY)) <==>
      ResolveEnvironment(kwargs).Success? &&
      Truthy(Get(kwargs, AUTH_MODE_KEY)) && !kwargs[AUTH_MODE_KEY].Str?
  {
  }

  /** Two spellings of the mode with the same upper-casing resolve identically. */
  lemma AuthModeCaseInsensitive(kwargs: map<string, Value>, pathExists: string -> bool, s: string, t: string)
    requires Upper(s) == Upper(t)
    ensures Resolve(kwargs[AUTH_MODE_KEY := Str(s)], pathExists) ==
            Resolve(kwargs[AUTH_MODE_KEY := Str(t)], pathExists)
  {
    UpperKeepsTruthiness(s);
    UpperKeepsTruthiness(t);
    var a, b := kwargs[AUTH_MODE_KEY := Str(s)], kwargs[AUTH_MODE_KEY := Str(t)];
    FieldsAreNotOtherAttributes(if ResolveAuthMode(a).Success? then ResolveAuthMode(a).value else "");
    ChangeOfOtherKeyIgnored(a, b, pathExists);
  }

  /** An unknown mode such as "FOO" is rejected with the message naming the choices. */
  lemma UnknownAuthModeNamesChoices(kwargs: map<string, Value>, pathExists: string -> bool)
    requires ResolveEnvironment(kwargs).Success?
    ensures Resolve(kwargs[AUTH_MODE_KEY := Str("FOO")], pathExists) == Failure(ConfigError(
      "Not a supported auth mode. Use one of: " + Join(VALID_AUTH_MODES, ", ")))
  {
    AuthModeMessageListsChoices();
    var a := kwargs[AUTH_MODE_KEY := Str("FOO")];
    assert Get(a, ENVIRONMENT_KEY) == Get(kwargs, ENVIRONMENT_KEY);
    assert Upper("FOO") == "FOO";
  }

  // ---- Endpoints ----

  /** On success the endpoint is the table entry for (mode, environment) and the
      redirect base the entry for the environment; since the three implemented
      modes share one row, both depend on the environment alone. */
  lemma EndpointConsistency(kwargs: map<string, Value>, pathExists: string -> bool)
    ensures var r := Resolve(kwargs, pathExists);
      r.Success? ==>
        && r.value.authenticationMode in API_ENDPOINTS
        && r.value.environment in API_ENDPOINTS[r.value.authenticationMode]
        && r.value.environment in PAYPAL_URL_BASE
        && r.value.endpoint == Str(API_ENDPOINTS[r.value.authenticationMode][r.value.environment])
        && r.value.urlBase == Str(PAYPAL_URL_BASE[r.value.environment])
    ensures var r := Resolve(kwargs, pathExists);
      r.Success? ==>
        && r.value.endpoint == Str(if r.value.environment == "SANDBOX" then SANDBOX_ENDPOINT else PRODUCTION_ENDPOINT)
        && r.value.urlBase == Str(if r.value.environment == "SANDBOX" then "https://www.sandbox.paypal.com/webscr"
                                  else "https://www.paypal.com/webscr")
  {
  }

  /** CERTIFICATE passes validation but has no endpoint entry: the lookup fails
      with a KeyError, and that is the only way a lookup can fail. */
  lemma CertificateModeFailsLookup(kwargs: map<string, Value>, pathExists: string -> bool)
    ensures var r := Resolve(kwargs, pathExists);
      (r.Failure? && r.error.LookupFailure?) <==>
        ResolveEnvironment(kwargs).Success? && ResolveAuthMode(kwargs) == Success("CERTIFICATE")
    ensures var r := Resolve(kwargs, pathExists);
      r.Failure? && r.error.LookupFailure? ==> r.error == LookupFailure("CERTIFICATE")
  {
  }

  // ---- CA certs ----

  /** An absent or falsy API_CA_CERTS keeps True; a truthy value is stored as
      given, and a stored string names an existing path. */
  lemma CaCertStored(kwargs: map<string, Value>, pathExists: string -> bool)
    ensures var r := Resolve(kwargs, pathExists);
      r.Success? && !Truthy(Get(kwargs, CA_CERTS_KEY)) ==> r.value.caCerts == Bool(true)
    ensures var r := Resolve(kwargs, pathExists);
      r.Success? && Truthy(Get(kwargs, CA_CERTS_KEY)) ==> r.value.caCerts == kwargs[CA_CERTS_KEY]
    ensures var r := Resolve(kwargs, pathExists);
      r.Success? && r.value.caCerts.Str? ==> pathExists(r.value.caCerts.s)
  {
  }

  /** Only a string CA-cert directive consults the filesystem: otherwise the
      result does not depend on `os.path.exists` at all. */
  lemma CaCertsUncheckedUnlessString(kwargs: map<string, Value>, pathExists: string -> bool,
                                     otherExists: string -> bool)
    requires !(Truthy(Get(kwargs, CA_CERTS_KEY)) && kwargs[CA_CERTS_KEY].Str?)
    ensures Resolve(kwargs, pathExists) == Resolve(kwargs, otherExists)
  {
  }

  /** Once the endpoint lookup has passed, the constructor fails with
      "Invalid API_CA_CERTS" exactly when a string directive names no existing path. */
  lemma CaCertRejected(kwargs: map<string, Value>, pathExists: string -> bool)
    ensures Resolve(kwargs, pathExists) == Failure(ConfigError(INVALID_CA_CERTS_MESSAGE)) <==>
      PassesEndpointLookup(kwargs) && CaCertsRejected(kwargs, pathExists)
  {
    MessagesDistinct("", "");
    var r := Resolve(kwargs, pathExists);
    if r == Failure(ConfigError(INVALID_CA_CERTS_MESSAGE)) && PassesEndpointLookup(kwargs) {
      var mode := ResolveAuthMode(kwargs).value;
      match FirstMissing(RequiredFields(mode), kwargs)
      case Some(i) => MessagesDistinct(RequiredFields(mode)[i], "");
      case None =>
    }
  }

  // ---- Credentials ----

  /** On success every required field of the resolved mode was a key of kwargs
      (its value may be None) and is stored verbatim. */
  lemma CredentialEnforcement(kwargs: map<string, Value>, pathExists: string -> bool)
    ensures var r := Resolve(kwargs, pathExists);
      r.Success? ==>
        forall f :: f in RequiredFields(r.value.authenticationMode) ==>
          f in kwargs && f in r.value.credentials && r.value.credentials[f] == kwargs[f]
  {
  }

  /** On success every class-default credential attribute is still present,
      and every credential attribute that the resolved mode does not require is
      a class default, still None. */
  lemma OtherCredentialsDefault(kwargs: map<string, Value>, pathExists: string -> bool)
    ensures var r := Resolve(kwargs, pathExists);
      r.Success? ==> CREDENTIAL_DEFAULTS.Keys <= r.value.credentials.Keys
    ensures var r := Resolve(kwargs, pathExists);
      r.Success? ==>
        forall k :: k in r.value.credentials && k !in RequiredFields(r.value.authenticationMode) ==>
          k in CREDENTIAL_DEFAULTS && r.value.credentials[k] == NoneV
  {
  }

  /** Once the CA-cert step has passed, the constructor fails naming the
      first required field, in tuple order, that is not a key. */
  lemma MissingCredentialReported(kwargs: map<string, Value>, pathExists: string -> bool, i: nat)
    requires PassesEndpointLookup(kwargs)
    requires !CaCertsRejected(kwargs, pathExists)
    requires var fields := RequiredFields(ResolveAuthMode(kwargs).value);
      i < |fields| && fields[i] !in kwargs && forall j :: 0 <= j < i ==> fields[j] in kwargs
    ensures Resolve(kwargs, pathExists) ==
      Failure(ConfigError(MissingMessage(RequiredFields(ResolveAuthMode(kwargs).value)[i])))
  {
  }

  /** A missing-field error for `f` arises only when the CA-cert step passed
      and `f` is the first required field of the mode that is not a key. */
  lemma MissingCredentialOnlyIfFirstMissing(kwargs: map<string, Value>, pathExists: string -> bool, f: string)
    requires Resolve(kwargs, pathExists) == Failure(ConfigError(MissingMessage(f)))
    ensures PassesEndpointLookup(kwargs)
    ensures !CaCertsRejected(kwargs, pathExists)
    ensures var fields := RequiredFields(ResolveAuthMode(kwargs).value);
      exists i :: 0 <= i < |fields| && fields[i] == f && f !in kwargs &&
                  forall j :: 0 <= j < i ==> fields[j] in kwargs
  {
    MessagesDistinct(f, f);
    var fields := RequiredFields(ResolveAuthMode(kwargs).value);
    match FirstMissing(fields, kwargs)
    case Some(i) =>
      MessagesDistinct(f, fields[i]);
      assert fields[i] == f;
    case None =>
  }

  /** Keys the resolved mode does not require are not copied: SUBJECT is
      ignored in 3TOKEN mode, and UNIPAY_SUBJECT always stays None. */
  lemma UnrequiredKeyIgnored(kwargs: map<string, Value>, pathExists: string -> bool, key: string, v: Value)
    requires key != ENVIRONMENT_KEY && key != AUTH_MODE_KEY && key != CA_CERTS_KEY && key != TIMEOUT_KEY
    requires ResolveAuthMode(kwargs).Success? ==> key !in RequiredFields(ResolveAuthMode(kwargs).value)
    ensures Resolve(kwargs[key := v], pathExists) == Resolve(kwargs, pathExists)
  {
    var other := kwargs[key := v];
    assert Get(other, ENVIRONMENT_KEY) == Get(kwargs, ENVIRONMENT_KEY);
    assert Get(other, AUTH_MODE_KEY) == Get(kwargs, AUTH_MODE_KEY);
    ChangeOfOtherKeyIgnored(other, kwargs, pathExists);
  }

  /** In 3TOKEN mode a SUBJECT directive is not copied. */
  lemma SubjectIgnoredInThreeTokenMode(kwargs: map<string, Value>, pathExists: string -> bool)
    requires Resolve(kwargs, pathExists).Success?
    requires Resolve(kwargs, pathExists).value.authenticationMode == "3TOKEN"
    ensures "SUBJECT" !in Resolve(kwargs, pathExists).value.credentials
    ensures Resolve(kwargs, pathExists).value.credentials["UNIPAY_SUBJECT"] == NoneV
  {
    OtherCredentialsDefault(kwargs, pathExists);
    assert "SUBJECT" !in THREE_TOKEN_FIELDS && "SUBJECT" !in CREDENTIAL_DEFAULTS;
    assert "UNIPAY_SUBJECT" !in THREE_TOKEN_FIELDS;
  }

  /** 3TOKEN mode with a username and password but no signature fails naming
      API_SIGNATURE. */
  lemma MissingSignatureNamed(user: Value, password: Value, pathExists: string -> bool)
    ensures Resolve(map["API_USERNAME" := user, "API_PASSWORD" := password], pathExists) ==
            Failure(ConfigError("Missing in PayPalConfig: API_SIGNATURE "))
  {
    var kwargs := map["API_USERNAME" := user, "API_PASSWORD" := password];
    assert ResolveEnvironment(kwargs) == Success("SANDBOX");
    assert ResolveAuthMode(kwargs) == Success("3TOKEN");
    assert RequiredFields("3TOKEN") == THREE_TOKEN_FIELDS;
    assert THREE_TOKEN_FIELDS[0] in kwargs && THREE_TOKEN_FIELDS[1] in kwargs;
    assert THREE_TOKEN_FIELDS[2] == "API_SIGNATURE" && "API_SIGNATURE" !in kwargs;
    MissingCredentialReported(kwargs, pathExists, 2);
    assert MissingMessage("API_SIGNATURE") == "Missing in PayPalConfig: API_SIGNATURE ";
  }

  /** ACCESS_TOKEN mode (spelled in any case) with all five fields succeeds,
      and the five are stored unmodified. */
  lemma AccessTokenCredentialsRetrievable(kwargs: map<string, Value>, pathExists: string -> bool)
    requires ResolveEnvironment(kwargs).Success?
    requires AUTH_MODE_KEY in kwargs && kwargs[AUTH_MODE_KEY].Str?
    requires Upper(kwargs[AUTH_MODE_KEY].s) == "ACCESS_TOKEN"
    requires !CaCertsRejected(kwargs, pathExists)
    requires forall f :: f in ACCESS_TOKEN_FIELDS ==> f in kwargs
    ensures Resolve(kwargs, pathExists).Success?
    ensures Resolve(kwargs, pathExists).value.authenticationMode == "ACCESS_TOKEN"
    ensures forall f :: f in ACCESS_TOKEN_FIELDS ==> Resolve(kwargs, pathExists).value.credentials[f] == kwargs[f]
  {
    assert ResolveAuthMode(kwargs) == Success("ACCESS_TOKEN") by {
      UpperKeepsTruthiness(kwargs[AUTH_MODE_KEY].s);
    }
    assert FirstMissing(ACCESS_TOKEN_FIELDS, kwargs).None?;
    CredentialEnforcement(kwargs, pathExists);
  }

  // ---- Timeout ----

  /** HTTP_TIMEOUT, whenever the key is present, is stored as given (even when
      falsy); without it the timeout stays 15.0. */
  lemma TimeoutHandling(kwargs: map<string, Value>, pathExists: string -> bool)
    ensures var r := Resolve(kwargs, pathExists);
      r.Success? ==> r.value.httpTimeout == if TIMEOUT_KEY in kwargs then kwargs[TIMEOUT_KEY] else Float(15.0)
  {
  }

  // ---- All or nothing ----

  /** Construction succeeds only when every step passes: the environment and
      mode are accepted and have endpoints, the CA-cert path (if any) exists,
      and every required field of the mode is a key. */
  lemma SuccessNeedsEveryStep(kwargs: map<string, Value>, pathExists: string -> bool)
    requires Resolve(kwargs, pathExists).Success?
    ensures PassesEndpointLookup(kwargs)
    ensures !CaCertsRejected(kwargs, pathExists)
    ensures forall f :: f in RequiredFields(ResolveAuthMode(kwargs).value) ==> f in kwargs
  {
  }

  /** Conversely, when every step passes, construction succeeds. */
  lemma EveryStepGivesSuccess(kwargs: map<string, Value>, pathExists: string -> bool)
    requires PassesEndpointLookup(kwargs)
    requires !CaCertsRejected(kwargs, pathExists)
    requires forall f :: f in RequiredFields(ResolveAuthMode(kwargs).value) ==> f in kwargs
    ensures Resolve(kwargs, pathExists).Success?
  {
  }

  /** Two objects built from the same directives have the same attributes. */
  method CreateTwice(kwargs: map<string, Value>, pathExists: string -> bool)
    returns (first: Result<PayPalConfig>, second: Result<PayPalConfig>)
    ensures first.Success? <==> second.Success?
    ensures first.Failure? ==> first.error == second.error
    ensures first.Success? ==> first.value.Snapshot() == second.value.Snapshot()
  {
    first := PayPalConfig.Create(kwargs, pathExists);
    second := PayPalConfig.Create(kwargs, pathExists);
  }
}
