/** The configuration object of the PayPal API client: its class-level tables
    and defaults, and the constructor that validates the keyword directives and
    resolves the endpoint, redirect base, CA-cert policy, credentials and timeout. */
module Settings {
  import opened PyValues

  // ---- Directive names read by the constructor ----

  const ENVIRONMENT_KEY := "API_ENVIRONMENT"
  const AUTH_MODE_KEY := "API_AUTHENTICATION_MODE"
  const CA_CERTS_KEY := "API_CA_CERTS"
  const TIMEOUT_KEY := "HTTP_TIMEOUT"

  // ---- Class-level tables ----

  /** The accepted values of API_ENVIRONMENT, in declaration order. */
  const VALID_ENVIRONMENTS: seq<string> := ["SANDBOX", "PRODUCTION"]

  /** The accepted values of API_AUTHENTICATION_MODE, in declaration order. */
  const VALID_AUTH_MODES: seq<string> := ["3TOKEN", "CERTIFICATE", "ACCESS_TOKEN", "3TOKEN_SUBJECT"]

  const SANDBOX_ENDPOINT := "https://api-3t.sandbox.paypal.com/nvp"
  const PRODUCTION_ENDPOINT := "https://api-3t.paypal.com/nvp"

  /** API servers keyed by authentication mode, then by environment.
      CERTIFICATE has no entry. */
  const API_ENDPOINTS: map<string, map<string, string>> := map[
    "3TOKEN" := map["SANDBOX" := SANDBOX_ENDPOINT, "PRODUCTION" := PRODUCTION_ENDPOINT],
    "ACCESS_TOKEN" := map["SANDBOX" := SANDBOX_ENDPOINT, "PRODUCTION" := PRODUCTION_ENDPOINT],
    "3TOKEN_SUBJECT" := map["SANDBOX" := SANDBOX_ENDPOINT, "PRODUCTION" := PRODUCTION_ENDPOINT]
  ]

  /** Redirect bases, keyed by environment alone. */
  const PAYPAL_URL_BASE: map<string, string> := map[
    "SANDBOX" := "https://www.sandbox.paypal.com/webscr",
    "PRODUCTION" := "https://www.paypal.com/webscr"
  ]

  // ---- Class-level constants and defaults ----

  const API_VERSION := "98.0"
  const ACK_SUCCESS := "SUCCESS"
  const ACK_SUCCESS_WITH_WARNING := "SUCCESSWITHWARNING"

  const DEFAULT_ENVIRONMENT := "SANDBOX"
  const DEFAULT_AUTH_MODE := "3TOKEN"
  const DEFAULT_CA_CERTS := Bool(true)
  const DEFAULT_HTTP_TIMEOUT := Float(15.0)

  /** The names of the class's attributes that are not credentials: the
      directives the constructor reads, the two endpoint attributes, the
      protocol constants and the three tables. */
  const NON_CREDENTIAL_ATTRIBUTES: seq<string> := [
    "API_ENVIRONMENT", "API_AUTHENTICATION_MODE", "API_ENDPOINT", "PAYPAL_URL_BASE",
    "API_CA_CERTS", "HTTP_TIMEOUT", "API_VERSION", "ACK_SUCCESS", "ACK_SUCCESS_WITH_WARNING",
    "_valid_", "_API_ENDPOINTS", "_PAYPAL_URL_BASE"
  ]

  /** The credential attributes that have a class-level default (None). */
  const CREDENTIAL_DEFAULTS: map<string, Value> := map[
    "API_USERNAME" := NoneV,
    "API_PASSWORD" := NoneV,
    "API_SIGNATURE" := NoneV,
    "UNIPAY_SUBJECT" := NoneV
  ]

  // ---- Required credential fields, per authentication mode ----

  const THREE_TOKEN_FIELDS: seq<string> := ["API_USERNAME", "API_PASSWORD", "API_SIGNATURE"]
  const ACCESS_TOKEN_FIELDS: seq<string> :=
    ["API_USERNAME", "API_PASSWORD", "ACCESS_TOKEN", "TOKEN_SECRET", "APPLICATION_ID"]
  const THREE_TOKEN_SUBJECT_FIELDS: seq<string> :=
    ["API_USERNAME", "API_PASSWORD", "API_SIGNATURE", "SUBJECT"]

  /** The fields the constructor insists on for `mode`; CERTIFICATE has none. */
  function RequiredFields(mode: string): seq<string> {
    if mode == "3TOKEN" then THREE_TOKEN_FIELDS
    else if mode == "ACCESS_TOKEN" then ACCESS_TOKEN_FIELDS
    else if mode == "3TOKEN_SUBJECT" then THREE_TOKEN_SUBJECT_FIELDS
    else []
  }

  // ---- Errors ----

  /** What the constructor can raise. */
  datatype Error =
      /** PayPalConfigError with its message. */
    | ConfigError(message: string)
      /** KeyError from a table lookup, carrying the missing key. */
    | LookupFailure(key: string)
      /** AttributeError from `.upper()` on a truthy value that is not a string. */
    | AttributeFailure(key: string)

  const INVALID_ENVIRONMENT_MESSAGE := "Invalid API_ENVIRONMENT"
  /** The valid modes joined by ", " (proved equal to `Join(VALID_AUTH_MODES, ", ")`). */
  const AUTH_MODE_CHOICES := "3TOKEN" + ", " + "CERTIFICATE" + ", " + "ACCESS_TOKEN" + ", " + "3TOKEN_SUBJECT"
  const UNSUPPORTED_AUTH_MODE_MESSAGE := "Not a supported auth mode. Use one of: " + AUTH_MODE_CHOICES
  const INVALID_CA_CERTS_MESSAGE := "Invalid API_CA_CERTS"

  /** The message raised for the required field `field` when it is missing
      (note the trailing space). */
  function MissingMessage(field: string): string {
    "Missing in PayPalConfig: " + field + " "
  }

  datatype Option<T> = None | Some(value: T)

  datatype Result<T> = Success(value: T) | Failure(error: Error) {
    predicate IsFailure() { Failure? }
    function PropagateFailure<U>(): Result<U> requires Failure? { Failure(error) }
    function Extract(): T requires Success? { value }
  }

  /** Outcome of a step that only changes state: it passes or raises. */
  datatype Outcome = Pass | Fail(error: Error)

  // ---- The resolved configuration ----

  /** The attributes of a PayPalConfig object that the constructor sets. */
  datatype Config = Config(
    environment: string,
    authenticationMode: string,
    endpoint: Value,
    urlBase: Value,
    caCerts: Value,
    credentials: map<string, Value>,
    httpTimeout: Value)

  /** The attributes as the class defines them, before the constructor runs. */
  const CLASS_DEFAULTS := Config(
    DEFAULT_ENVIRONMENT, DEFAULT_AUTH_MODE, NoneV, NoneV,
    DEFAULT_CA_CERTS, CREDENTIAL_DEFAULTS, DEFAULT_HTTP_TIMEOUT)

  // ---- The constructor, step by step, as functions ----

  /** The shared treatment of API_ENVIRONMENT and API_AUTHENTICATION_MODE: an
      absent or falsy directive leaves `default`; otherwise it is upper-cased and
      must be one of `valid`. */
  function ResolveChoice(kwargs: map<string, Value>, key: string, valid: seq<string>,
                         default: string, error: Error): Result<string>
  {
    var v := Get(kwargs, key);
    if !Truthy(v) then Success(default)
    else if !v.Str? then Failure(AttributeFailure(key))
    else if Upper(v.s) in valid then Success(Upper(v.s))
    else Failure(error)
  }

  function ResolveEnvironment(kwargs: map<string, Value>): Result<string> {
    ResolveChoice(kwargs, ENVIRONMENT_KEY, VALID_ENVIRONMENTS, DEFAULT_ENVIRONMENT,
                  ConfigError(INVALID_ENVIRONMENT_MESSAGE))
  }

  function ResolveAuthMode(kwargs: map<string, Value>): Result<string> {
    ResolveChoice(kwargs, AUTH_MODE_KEY, VALID_AUTH_MODES, DEFAULT_AUTH_MODE,
                  ConfigError(UNSUPPORTED_AUTH_MODE_MESSAGE))
  }

  /** `_API_ENDPOINTS[mode][env]` as Python evaluates it: a missing key raises KeyError. */
  function TableEndpoint(mode: string, env: string): Result<string> {
    if mode !in API_ENDPOINTS then Failure(LookupFailure(mode))
    else if env !in API_ENDPOINTS[mode] then Failure(LookupFailure(env))
    else Success(API_ENDPOINTS[mode][env])
  }

  /** `_PAYPAL_URL_BASE[env]` as Python evaluates it. */
  function TableUrlBase(env: string): Result<string> {
    if env !in PAYPAL_URL_BASE then Failure(LookupFailure(env)) else Success(PAYPAL_URL_BASE[env])
  }

  /** The endpoint lookup written out row by row: the three implemented modes
      share one row, and any other mode or environment is a missing key. */
  function LookupEndpoint(mode: string, env: string): Result<string> {
    if !(mode == "3TOKEN" || mode == "ACCESS_TOKEN" || mode == "3TOKEN_SUBJECT") then Failure(LookupFailure(mode))
    else if env == "SANDBOX" then Success(SANDBOX_ENDPOINT)
    else if env == "PRODUCTION" then Success(PRODUCTION_ENDPOINT)
    else Failure(LookupFailure(env))
  }

  /** The redirect-base lookup written out entry by entry. */
  function LookupUrlBase(env: string): Result<string> {
    if env == "SANDBOX" then Success("https://www.sandbox.paypal.com/webscr")
    else if env == "PRODUCTION" then Success("https://www.paypal.com/webscr")
    else Failure(LookupFailure(env))
  }

  /** The lookups by cases agree with the tables on every key. */
  lemma LookupsMatchTables(mode: string, env: string)
    ensures LookupEndpoint(mode, env) == TableEndpoint(mode, env)
    ensures LookupUrlBase(env) == TableUrlBase(env)
  {
  }

  /** The CA-cert policy: a truthy directive replaces the default, and a string
      must name an existing path. */
  function ResolveCaCerts(kwargs: map<string, Value>, pathExists: string -> bool): Result<Value> {
    var v := Get(kwargs, CA_CERTS_KEY);
    if !Truthy(v) then Success(DEFAULT_CA_CERTS)
    else if v.Str? && !pathExists(v.s) then Failure(ConfigError(INVALID_CA_CERTS_MESSAGE))
    else Success(v)
  }

  /** The index of the first field of `fields` that is not a key of `kwargs`. */
  function FirstMissing(fields: seq<string>, kwargs: map<string, Value>): (r: Option<nat>)
    ensures r.Some? ==> r.value < |fields| && fields[r.value] !in kwargs
    ensures r.Some? ==> forall j :: 0 <= j < r.value ==> fields[j] in kwargs
    ensures r.None? ==> forall j :: 0 <= j < |fields| ==> fields[j] in kwargs
  {
    if fields == [] then None
    else if fields[0] !in kwargs then Some(0)
    else match FirstMissing(fields[1..], kwargs)
      case None => None
      case Some(i) => Some(i + 1)
  }

  /** The credential attributes copied from `kwargs` for `fields`, or the error
      naming the first field that is missing. */
  function CopyRequired(fields: seq<string>, kwargs: map<string, Value>): Result<map<string, Value>> {
    match FirstMissing(fields, kwargs)
    case Some(i) => Failure(ConfigError(MissingMessage(fields[i])))
    case None => Success(map f | f in fields && f in kwargs :: kwargs[f])
  }

  /** HTTP_TIMEOUT, whenever the key is present, replaces the default. */
  function ResolveTimeout(kwargs: map<string, Value>): Value {
    if TIMEOUT_KEY in kwargs then kwargs[TIMEOUT_KEY] else DEFAULT_HTTP_TIMEOUT
  }

  /** `PayPalConfig(**kwargs)`: the attributes of the constructed object, or the
      error raised first. `pathExists` stands for `os.path.exists`. */
  function Resolve(kwargs: map<string, Value>, pathExists: string -> bool): Result<Config> {
    var env :- ResolveEnvironment(kwargs);
    var mode :- ResolveAuthMode(kwargs);
    ResolveRest(env, mode, kwargs, pathExists)
  }

  /** The steps after validation, for the accepted environment `env` and mode
      `mode`: endpoints, CA certs, credentials and timeout. */
  function ResolveRest(env: string, mode: string, kwargs: map<string, Value>,
                       pathExists: string -> bool): Result<Config>
  {
    var endpoint :- LookupEndpoint(mode, env);
    var urlBase :- LookupUrlBase(env);
    var caCerts :- ResolveCaCerts(kwargs, pathExists);
    var credentials :- CopyRequired(RequiredFields(mode), kwargs);
    Success(Config(env, mode, Str(endpoint), Str(urlBase), caCerts,
                   CREDENTIAL_DEFAULTS + credentials, ResolveTimeout(kwargs)))
  }

  // ---- The object ----

  class PayPalConfig {
    var apiEnvironment: string
    var apiAuthenticationMode: string
    var apiEndpoint: Value
    var paypalUrlBase: Value
    var apiCaCerts: Value
    /** Credential attributes: the class defaults, overlaid by those the constructor copies. */
    var credentials: map<string, Value>
    var httpTimeout: Value

    /** The object's attributes as a value. */
    function Snapshot(): Config
      reads this
    {
      Config(apiEnvironment, apiAuthenticationMode, apiEndpoint, paypalUrlBase,
             apiCaCerts, credentials, httpTimeout)
    }

    /** A new object, carrying only the class-level defaults. */
    constructor ()
      ensures Snapshot() == CLASS_DEFAULTS
    {
      apiEnvironment := DEFAULT_ENVIRONMENT;
      apiAuthenticationMode := DEFAULT_AUTH_MODE;
      apiEndpoint := NoneV;
      paypalUrlBase := NoneV;
      apiCaCerts := DEFAULT_CA_CERTS;
      credentials := CREDENTIAL_DEFAULTS;
      httpTimeout := DEFAULT_HTTP_TIMEOUT;
    }

    /** One `for arg in (...)` block: copy each field in order, raising on
        the first one that is not a key of `kwargs`. */
    method SetRequired(fields: seq<string>, kwargs: map<string, Value>) returns (outcome: Outcome)
      modifies this`credentials
      ensures outcome.Fail? <==> CopyRequired(fields, kwargs).Failure?
      ensures outcome.Fail? ==> outcome.error == CopyRequired(fields, kwargs).error
      ensures outcome.Pass? ==> credentials == old(credentials) + CopyRequired(fields, kwargs).value
    {
      for i := 0 to |fields|
        invariant forall j :: 0 <= j < i ==> fields[j] in kwargs
        invariant credentials == old(credentials) + map f | f in fields[..i] && f in kwargs :: kwargs[f]
      {
        var arg := fields[i];
        if arg !in kwargs {
          return Fail(ConfigError(MissingMessage(arg)));
        }
        assert fields[..i + 1] == fields[..i] + [arg];
        credentials := credentials[arg := kwargs[arg]];
      }
      assert fields[..|fields|] == fields;
      return Pass;
    }

    /** Lines 93-99: an absent or falsy API_ENVIRONMENT keeps the default; otherwise
        its upper-cased value must be a valid environment. */
    method SetEnvironment(kwargs: map<string, Value>) returns (outcome: Outcome)
      requires apiEnvironment == DEFAULT_ENVIRONMENT
      modifies this`apiEnvironment
      ensures outcome.Fail? <==> ResolveEnvironment(kwargs).Failure?
      ensures outcome.Fail? ==> outcome.error == ResolveEnvironment(kwargs).error
      ensures outcome.Pass? ==> apiEnvironment == ResolveEnvironment(kwargs).value
    {
      var env := Get(kwargs, ENVIRONMENT_KEY);
      if Truthy(env) {
        if !env.Str? {
          return Fail(AttributeFailure(ENVIRONMENT_KEY));
        }
        var upper := Upper(env.s);
        if upper !in VALID_ENVIRONMENTS {
          return Fail(ConfigError(INVALID_ENVIRONMENT_MESSAGE));
        }
        apiEnvironment := upper;
      }
      return Pass;
    }

    /** Lines 101-110: the same treatment for API_AUTHENTICATION_MODE. */
    method SetAuthMode(kwargs: map<string, Value>) returns (outcome: Outcome)
      requires apiAuthenticationMode == DEFAULT_AUTH_MODE
      modifies this`apiAuthenticationMode
      ensures outcome.Fail? <==> ResolveAuthMode(kwargs).Failure?
      ensures outcome.Fail? ==> outcome.error == ResolveAuthMode(kwargs).error
      ensures outcome.Pass? ==> apiAuthenticationMode == ResolveAuthMode(kwargs).value
    {
      var mode := Get(kwargs, AUTH_MODE_KEY);
      if Truthy(mode) {
        if !mode.Str? {
          return Fail(AttributeFailure(AUTH_MODE_KEY));
        }
        var upper := Upper(mode.s);
        if upper !in VALID_AUTH_MODES {
          return Fail(ConfigError(UNSUPPORTED_AUTH_MODE_MESSAGE));
        }
        apiAuthenticationMode := upper;
      }
      return Pass;
    }

    /** Lines 113-114: the endpoint from the (mode, environment) table and the
        redirect base from the environment table. */
    method SetEndpoints() returns (outcome: Outcome)
      modifies this`apiEndpoint, this`paypalUrlBase
      ensures outcome.Fail? <==>
        LookupEndpoint(apiAuthenticationMode, apiEnvironment).Failure? || LookupUrlBase(apiEnvironment).Failure?
      ensures outcome.Fail? && LookupEndpoint(apiAuthenticationMode, apiEnvironment).Failure? ==>
        outcome.error == LookupEndpoint(apiAuthenticationMode, apiEnvironment).error
      ensures outcome.Fail? && LookupEndpoint(apiAuthenticationMode, apiEnvironment).Success? ==>
        outcome.error == LookupUrlBase(apiEnvironment).error
      ensures outcome.Pass? ==>
        apiEndpoint == Str(LookupEndpoint(apiAuthenticationMode, apiEnvironment).value) &&
        paypalUrlBase == Str(LookupUrlBase(apiEnvironment).value)
    {
      LookupsMatchTables(apiAuthenticationMode, apiEnvironment);
      if apiAuthenticationMode !in API_ENDPOINTS {
        return Fail(LookupFailure(apiAuthenticationMode));
      }
      var byEnvironment := API_ENDPOINTS[apiAuthenticationMode];
      if apiEnvironment !in byEnvironment {
        return Fail(LookupFailure(apiEnvironment));
      }
      apiEndpoint := Str(byEnvironment[apiEnvironment]);
      if apiEnvironment !in PAYPAL_URL_BASE {
        return Fail(LookupFailure(apiEnvironment));
      }
      paypalUrlBase := Str(PAYPAL_URL_BASE[apiEnvironment]);
      return Pass;
    }

    /** Lines 118-123: a truthy API_CA_CERTS replaces the default; a string must
        name an existing path. */
    method SetCaCerts(kwargs: map<string, Value>, pathExists: string -> bool) returns (outcome: Outcome)
      requires apiCaCerts == DEFAULT_CA_CERTS
      modifies this`apiCaCerts
      ensures outcome.Fail? <==> ResolveCaCerts(kwargs, pathExists).Failure?
      ensures outcome.Fail? ==> outcome.error == ResolveCaCerts(kwargs, pathExists).error
      ensures outcome.Pass? ==> apiCaCerts == ResolveCaCerts(kwargs, pathExists).value
    {
      var caCerts := Get(kwargs, CA_CERTS_KEY);
      if Truthy(caCerts) {
        apiCaCerts := caCerts;
        if caCerts.Str? && !pathExists(caCerts.s) {
          return Fail(ConfigError(INVALID_CA_CERTS_MESSAGE));
        }
      }
      return Pass;
    }

    /** Lines 126-142: the three per-mode blocks of required fields. */
    method SetCredentials(kwargs: map<string, Value>) returns (outcome: Outcome)
      modifies this`credentials
      ensures outcome.Fail? <==> CopyRequired(RequiredFields(apiAuthenticationMode), kwargs).Failure?
      ensures outcome.Fail? ==> outcome.error == CopyRequired(RequiredFields(apiAuthenticationMode), kwargs).error
      ensures outcome.Pass? ==>
        credentials == old(credentials) + CopyRequired(RequiredFields(apiAuthenticationMode), kwargs).value
    {
      outcome := Pass;
      if apiAuthenticationMode == "3TOKEN" {
        outcome := SetRequired(THREE_TOKEN_FIELDS, kwargs);
        if outcome.Fail? { return; }
      }
      if apiAuthenticationMode == "ACCESS_TOKEN" {
        outcome := SetRequired(ACCESS_TOKEN_FIELDS, kwargs);
        if outcome.Fail? { return; }
      }
      if apiAuthenticationMode == "3TOKEN_SUBJECT" {
        outcome := SetRequired(THREE_TOKEN_SUBJECT_FIELDS, kwargs);
        if outcome.Fail? { return; }
      }
      if RequiredFields(apiAuthenticationMode) == [] {
        assert CopyRequired([], kwargs).value == map[];
        assert credentials == old(credentials) + map[];
      }
    }

    /** Lines 113-146: everything after the environment and the mode are
        validated, on an object whose other attributes still have their defaults. */
    method SetRest(kwargs: map<string, Value>, pathExists: string -> bool) returns (outcome: Outcome)
      requires apiCaCerts == DEFAULT_CA_CERTS
      requires credentials == CREDENTIAL_DEFAULTS
      requires httpTimeout == DEFAULT_HTTP_TIMEOUT
      modifies this`apiEndpoint, this`paypalUrlBase, this`apiCaCerts, this`credentials, this`httpTimeout
      ensures outcome.Fail? <==> ResolveRest(apiEnvironment, apiAuthenticationMode, kwargs, pathExists).Failure?
      ensures outcome.Fail? ==>
        outcome.error == ResolveRest(apiEnvironment, apiAuthenticationMode, kwargs, pathExists).error
      ensures outcome.Pass? ==>
        Snapshot() == ResolveRest(apiEnvironment, apiAuthenticationMode, kwargs, pathExists).value
    {
      outcome := SetEndpoints();
      if outcome.Fail? { return; }
      outcome := SetCaCerts(kwargs, pathExists);
      if outcome.Fail? { return; }
      outcome := SetCredentials(kwargs);
      if outcome.Fail? { return; }
      if TIMEOUT_KEY in kwargs {
        httpTimeout := kwargs[TIMEOUT_KEY];
      }
      assert httpTimeout == ResolveTimeout(kwargs);
    }

    /** `__init__`, run on a new object: the six steps in source order. */
    method Init(kwargs: map<string, Value>, pathExists: string -> bool) returns (outcome: Outcome)
      requires Snapshot() == CLASS_DEFAULTS
      modifies this
      ensures outcome.Fail? <==> Resolve(kwargs, pathExists).Failure?
      ensures outcome.Fail? ==> outcome.error == Resolve(kwargs, pathExists).error
      ensures outcome.Pass? ==> Snapshot() == Resolve(kwargs, pathExists).value
    {
      outcome := SetEnvironment(kwargs);
      if outcome.Fail? { return; }
      outcome := SetAuthMode(kwargs);
      if outcome.Fail? { return; }
      outcome := SetRest(kwargs, pathExists);
    }

    /** `PayPalConfig(**kwargs)`: allocate, then run `__init__`; a raised error
        yields no object. */
    static method Create(kwargs: map<string, Value>, pathExists: string -> bool)
      returns (r: Result<PayPalConfig>)
      ensures r.Success? <==> Resolve(kwargs, pathExists).Success?
      ensures r.Failure? ==> r.error == Resolve(kwargs, pathExists).error
      ensures r.Success? ==> fresh(r.value) && r.value.Snapshot() == Resolve(kwargs, pathExists).value
    {
      var config := new PayPalConfig();
      var outcome := config.Init(kwargs, pathExists);
      if outcome.Fail? {
        return Failure(outcome.error);
      }
      return Success(config);
    }
  }
}
