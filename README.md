# PayPal client configuration, in Dafny

This project models `PayPalConfig` from the `paypal-python` client library.
`PayPalConfig(**kwargs)` turns a set of keyword directives into the configuration
object that the rest of the client reads. It works through six steps in order and
stops at the first failure:

1. `API_ENVIRONMENT` is upper-cased and checked against `SANDBOX`, `PRODUCTION`.
2. `API_AUTHENTICATION_MODE` is upper-cased and checked against `3TOKEN`,
   `CERTIFICATE`, `ACCESS_TOKEN`, `3TOKEN_SUBJECT`.
3. The API endpoint is looked up by (mode, environment), and the redirect base by environment.
4. `API_CA_CERTS` is checked; a string must name an existing path.
5. The required credential fields of the mode are copied, and the first one missing raises.
6. `HTTP_TIMEOUT` is copied if present.

Files:

- `python_values.dfy` (module `PyValues`): the Python values a directive can hold
  (`Str`, `Bool`, `Int`, `Float`, `NoneV`). Also Python truthiness, `dict.get`,
  ASCII `str.upper` and `str.join`.
- `settings.dfy` (module `Settings`): the class-level tables and constants,
  the error kinds and the resolution steps as functions. `Resolve` chains those
  steps and is the reference definition of `PayPalConfig(**kwargs)`. `ResolveRest`
  is its part after the environment and mode are validated. The endpoint tables
  are kept as maps, with the dict lookups `TableEndpoint` and `TableUrlBase`; `Resolve`
  uses the same lookups written out row by row, proved equal to them. The module
  also holds the class `PayPalConfig`:
  - its constructor sets the class-level defaults;
  - `Init` is `__init__`, built from one method per step (`SetRest` groups
    the steps after validation), with the source's
    `for arg in (...)` loops in `SetRequired`;
  - `Create` is the call `PayPalConfig(**kwargs)`.

  Each method is proved to follow a step function: `SetEnvironment` follows
  `ResolveEnvironment`, `SetAuthMode` follows `ResolveAuthMode`, `SetEndpoints`
  follows `LookupEndpoint` and `LookupUrlBase`, `SetCaCerts` follows `ResolveCaCerts`,
  `SetRequired` follows `CopyRequired`, `SetCredentials` follows
  `CopyRequired(RequiredFields(mode), ...)`, `SetRest` follows `ResolveRest`, and
  `Init` and `Create` follow `Resolve`. So the object `Create` returns has exactly
  the attributes `Resolve` computes, and `Create` fails with exactly the error
  `Resolve` gives.
- `settings_properties.dfy` (module `SettingsProperties`): what the constructor
  promises, proved about `Resolve`.

Raised exceptions are an `Error` value:

- `ConfigError(message)` stands for `PayPalConfigError` and carries the source's
  exact message text.
- `LookupFailure(key)` stands for the `KeyError` from a table lookup. This happens
  to `CERTIFICATE`, which passes validation but has no row in `_API_ENDPOINTS`.
- `AttributeFailure(key)` stands for the `AttributeError` from calling `.upper()`
  on a truthy value that is not a string.

`os.path.exists` becomes the parameter `pathExists: string -> bool`.

The class-level constants `API_VERSION` (`98.0`), `ACK_SUCCESS` and
`ACK_SUCCESS_WITH_WARNING` are Dafny `const`s, so no operation can change them.
`FieldsAreNotOtherAttributes` shows that no required field has the name of a
directive, of `API_ENDPOINT` or `PAYPAL_URL_BASE`, of one of those constants or of
one of the tables `_valid_`, `_API_ENDPOINTS` and `_PAYPAL_URL_BASE`.
The credential copy therefore cannot overwrite any other attribute, and the model
keeps the credentials in a map of their own.

Behaviours of the code that the model keeps as written:

- Required credentials are checked for presence only (settings.py:128, 134, 140). A
  `None` value is accepted and stored.
- A truthy CA-cert value that is not a string (`5`, `True`) is stored unchecked
  (settings.py:118-121).
- A directive that is present but falsy (`''`, `False`, `0`, `None`) gets the default,
  just as an absent one does (settings.py:93, 101, 118). `HTTP_TIMEOUT` is the exception:
  it is copied whenever the key is present (settings.py:144-146).
- CERTIFICATE is an accepted mode but has no row in `_API_ENDPOINTS`, so the lookup at
  settings.py:113 raises `KeyError` before any credential is checked.
- The error messages are the code's own, including the trailing space in
  `Missing in PayPalConfig: <field> ` (settings.py:129).

## Model

| member | source | states |
|---|---|---|
| `Settings.FirstMissing` | paypal/settings.py:127-129 | The result is the index of a field that is not a key of kwargs, and every earlier field is a key. No result means every field is a key. |
| `Settings.PayPalConfig.constructor` | paypal/settings.py:53-81 | A new object has the class-level defaults: SANDBOX, 3TOKEN, no endpoint or redirect base, CA certs `True`, credentials `None`, timeout 15.0. |
| `Settings.PayPalConfig.SetEnvironment` | paypal/settings.py:93-99 | It fails exactly when the environment step fails, with the same error. Otherwise the stored environment is the resolved one. Only that field changes. |
| `Settings.PayPalConfig.SetAuthMode` | paypal/settings.py:101-110 | It fails exactly when the mode step fails, with the same error. Otherwise the stored mode is the resolved one. Only that field changes. |
| `Settings.PayPalConfig.SetEndpoints` | paypal/settings.py:113-114 | It fails exactly when either lookup misses. The `KeyError` is the endpoint table's when that lookup misses, and the redirect table's otherwise. On success it stores the `_API_ENDPOINTS[mode][env]` and `_PAYPAL_URL_BASE[env]` entries. |
| `Settings.PayPalConfig.SetCaCerts` | paypal/settings.py:118-123 | It fails exactly on a truthy string naming no existing path. Otherwise it stores the truthy value, or keeps `True`. |
| `Settings.PayPalConfig.SetRequired` | paypal/settings.py:127-130 | The loop raises, naming the first missing field in tuple order, exactly when some field is missing. Otherwise it overlays the credential attributes with every field's kwargs value. |
| `Settings.PayPalConfig.SetCredentials` | paypal/settings.py:125-142 | The three per-mode blocks together enforce the resolved mode's required fields. Any other mode changes nothing. |
| `Settings.LookupsMatchTables` | paypal/settings.py:30-51 | The row-by-row endpoint and redirect-base lookups that `Resolve` uses give, for every key, what indexing `_API_ENDPOINTS` and `_PAYPAL_URL_BASE` gives, `KeyError`s included. |
| `Settings.PayPalConfig.SetRest` | paypal/settings.py:113-146 | After validation, it fails exactly when the remaining steps fail, with the same error. On success the object's attributes equal `ResolveRest`'s configuration. |
| `Settings.PayPalConfig.Init` | paypal/settings.py:83-146 | `__init__` on a new object fails exactly when `Resolve` fails, with the same error. On success the object's attributes equal `Resolve`'s configuration. |
| `Settings.PayPalConfig.Create` | paypal/settings.py:83-146 | `PayPalConfig(**kwargs)` returns a fresh object exactly when `Resolve` succeeds, and that object carries `Resolve`'s configuration. Otherwise it returns `Resolve`'s error. |
| `PyValues.UpperKeepsTruthiness` | paypal/settings.py:93-94 | Upper-casing a string does not change whether it is truthy. |
| `PyValues.JoinCons` | paypal/settings.py:105 | `sep.join` of a head and a non-empty tail is the head, the separator, then the tail joined. |
| `PyValues.JoinFour` | paypal/settings.py:105 | `sep.join` of four parts puts the separator between each pair. |
| `SettingsProperties.AuthModeMessageListsChoices` | paypal/settings.py:104-108 | The choices in the auth-mode error are `", ".join` of the four valid modes, in table order. |
| `SettingsProperties.MessagesDistinct` | paypal/settings.py:96-141 | The four kinds of `PayPalConfigError` message are pairwise different. A missing-field message determines its field. |
| `SettingsProperties.FirstMissingAgrees` | paypal/settings.py:127-142 | Which required field is reported missing depends only on which fields are keys. |
| `SettingsProperties.ChangeOfOtherKeyIgnored` | paypal/settings.py:93-146 | Two kwargs that agree on the four directives and on the resolved mode's required fields construct identically. |
| `SettingsProperties.FieldsAreNotOtherAttributes` | paypal/settings.py:127-139 | No required field of any mode names a directive, `API_ENDPOINT`, `PAYPAL_URL_BASE`, `API_VERSION`, `ACK_SUCCESS`, `ACK_SUCCESS_WITH_WARNING` or one of the tables `_valid_`, `_API_ENDPOINTS`, `_PAYPAL_URL_BASE`, so copying credentials cannot overwrite another attribute. |
| `SettingsProperties.ResolvedEnvironment` | paypal/settings.py:93-99 | A successful environment is always valid. It is SANDBOX when the directive is absent or falsy, and otherwise the directive upper-cased. |
| `SettingsProperties.InvalidEnvironmentReported` | paypal/settings.py:93-97 | Construction fails with "Invalid API_ENVIRONMENT" exactly when the directive is a truthy string that upper-cases outside the list. |
| `SettingsProperties.EnvironmentAttributeFailure` | paypal/settings.py:93-94 | Construction fails with the `AttributeError` of `.upper()` on API_ENVIRONMENT exactly when that directive is truthy and not a string. |
| `SettingsProperties.EnvironmentCaseInsensitive` | paypal/settings.py:94 | Two environment strings with the same upper-casing give identical results. |
| `SettingsProperties.LowercaseSandboxIsSandbox` | paypal/settings.py:94-96 | `"sandbox"` resolves exactly as `"SANDBOX"` does. |
| `SettingsProperties.ResolvedAuthMode` | paypal/settings.py:101-110 | A successful mode is always one of the four. It is 3TOKEN when the directive is absent or falsy, and otherwise the directive upper-cased. |
| `SettingsProperties.UnsupportedAuthModeReported` | paypal/settings.py:101-108 | Construction fails with the choices message exactly when the environment was accepted and the mode directive is a truthy string that upper-cases outside the list. |
| `SettingsProperties.AuthModeAttributeFailure` | paypal/settings.py:101-102 | Construction fails with the `AttributeError` of `.upper()` on API_AUTHENTICATION_MODE exactly when the environment was accepted and the mode directive is truthy and not a string. |
| `SettingsProperties.AuthModeCaseInsensitive` | paypal/settings.py:102 | Two mode strings with the same upper-casing give identical results. |
| `SettingsProperties.UnknownAuthModeNamesChoices` | paypal/settings.py:104-108 | Once the environment is accepted, mode `"FOO"` fails with the message naming all four choices. |
| `SettingsProperties.EndpointConsistency` | paypal/settings.py:113-114 | On success the endpoint is `_API_ENDPOINTS[mode][env]` and the redirect base is `_PAYPAL_URL_BASE[env]`. Both depend on the environment alone. |
| `SettingsProperties.CertificateModeFailsLookup` | paypal/settings.py:113 | A lookup error happens exactly when the environment is accepted and the mode resolves to CERTIFICATE. Its key is always `CERTIFICATE`. |
| `SettingsProperties.CaCertStored` | paypal/settings.py:118-123 | On success the CA-cert policy is `True` when the directive is absent or falsy, and otherwise the directive as given. A stored string names an existing path. |
| `SettingsProperties.CaCertsUncheckedUnlessString` | paypal/settings.py:118-121 | When the CA-cert directive is absent, falsy or not a string, the result is the same whatever `os.path.exists` answers: such a value is stored without a filesystem check. |
| `SettingsProperties.CaCertRejected` | paypal/settings.py:118-123 | Construction fails with "Invalid API_CA_CERTS" exactly when the first three steps pass and a truthy string names no existing path. |
| `SettingsProperties.CredentialEnforcement` | paypal/settings.py:126-142 | On success every required field of the mode is a key of kwargs and is stored verbatim, `None` included. |
| `SettingsProperties.OtherCredentialsDefault` | paypal/settings.py:60-75 | On success every class-default credential attribute is still present. Every credential attribute the mode does not require is a class default and still `None`. |
| `SettingsProperties.MissingCredentialReported` | paypal/settings.py:126-142 | Once the CA-cert step has passed, construction fails with "Missing in PayPalConfig: f " where f is the first required field, in tuple order, that is not a key. |
| `SettingsProperties.MissingCredentialOnlyIfFirstMissing` | paypal/settings.py:126-142 | A missing-field error for f arises only when the CA-cert step passed and f is that first missing required field. |
| `SettingsProperties.UnrequiredKeyIgnored` | paypal/settings.py:125-146 | Setting any key that is neither a directive nor a required field of the resolved mode leaves the result unchanged. |
| `SettingsProperties.SubjectIgnoredInThreeTokenMode` | paypal/settings.py:126-130 | In 3TOKEN mode, `SUBJECT` is not copied and `UNIPAY_SUBJECT` stays `None`. |
| `SettingsProperties.MissingSignatureNamed` | paypal/settings.py:126-130 | Default mode with a username and password but no signature fails naming `API_SIGNATURE`. |
| `SettingsProperties.AccessTokenCredentialsRetrievable` | paypal/settings.py:132-136 | A mode string in any spelling that upper-cases to `ACCESS_TOKEN`, with all five fields, succeeds as ACCESS_TOKEN and stores the five unmodified. This assumes an accepted environment and no bad CA path. |
| `SettingsProperties.TimeoutHandling` | paypal/settings.py:144-146 | On success the timeout is the `HTTP_TIMEOUT` value whenever the key is present, even a falsy one. Otherwise it is 15.0. |
| `SettingsProperties.SuccessNeedsEveryStep` | paypal/settings.py:93-146 | Construction succeeds only when the first three steps pass, the CA-cert path (if any) exists and every required field is a key. |
| `SettingsProperties.EveryStepGivesSuccess` | paypal/settings.py:93-146 | When all of those conditions hold, construction succeeds. |
| `SettingsProperties.CreateTwice` | paypal/settings.py:83-146 | Two constructions from the same kwargs both succeed or both fail with the same error. On success they give field-for-field equal objects. |

The order of errors is stated by the "exactly when" clauses above. The environment
errors (the message and the `AttributeError`) do not depend on anything later. The
mode errors require an accepted environment. The lookup error requires both to be accepted. The CA-cert error
requires a successful lookup. The missing-field error requires a passed CA-cert step.

## Left out

- Logging of the kwargs with `logger.debug` and `pformat` (lines 148-150). It only produces output.
- `os.path.exists` is not modelled. It is filesystem I/O, so the existence test is the parameter `pathExists`.
- `str.upper` is modelled on ASCII letters only. Python's Unicode upper-casing also maps, for example, `ſ` (U+017F) to `S`. The model therefore rejects a few non-ASCII spellings that Python accepts.
- `basestring` is modelled as "is a `Str` value". Python 2's `str` and `unicode`, and directive values that are lists, dicts or other objects, are not modelled.
- `HTTP_TIMEOUT` and the 15.0 default are held as an opaque `Value`. A `Float` holds a mathematical real, not an IEEE double; the value is only copied.
- `KeyError` and `AttributeError` are modelled by their kind and the key involved, not by Python's message text.
- Settings.PayPalConfig.Create: does not model the `TypeError` Python raises at the call when kwargs holds a key named `self`, which collides with the parameter of `__init__` (line 83). The model treats `self` as any other key, so `UnrequiredKeyIgnored` and `ChangeOfOtherKeyIgnored` describe Python only for kwargs without that key.
- Settings.PayPalConfig.Init: does not state the partly updated object after a raise. In Python a raising constructor yields no object, and `Create` returns none.
- Changing attributes after construction, which the constructor's doc comment allows (lines 86-87), is not modelled. It is not validated and lies outside the constructor.
- The class-level tables and defaults (settings.py:24-81) are Python class attributes that could be changed at run time. Here they are constants, and `SetEnvironment`, `SetAuthMode` and `SetCaCerts` require their field to hold the default.
