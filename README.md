# modules-apiclient in Dafny

This is a Dafny model of the HTTP client library `@gemeentenijmegen/apiclient`.
The library has two clients:

- **`ConfigurableApiClient`** holds an environment-variable prefix, optional default request options and an ordered list of authenticators.
  - `init()` initialises the authenticators one after another and stops at the first that throws.
  - `requestData(request)` builds one fresh axios client and lets every authenticator configure it (`configureClient`).
  - It then folds every authenticator's `configureRequest` over the default options merged with the per-call options.
  - Finally it sends the request and reduces every transport error to one generic message.
- **`ApiClient`** is the older mutual-TLS client. It holds a private key, a client certificate and a CA bundle.
  - It resolves the missing ones lazily from the secret store and the parameter store.
  - It sends POST or GET calls through a TLS agent built from them.
  - It classifies transport errors into a "too slow" and a "failed" message.

There are three authenticators:

- **`MtlsAuthenticator`** attaches a TLS agent to every request configuration it is given.
- **`ApiKeyAuthenticator`** writes an API key under a configured header in every request configuration it is given.
- **`Aws4SignatureAuthenticator`** registers a request-signing interceptor on the client.

`AwsUtility` is their guarded access to the two stores.

## How the model is built

Each authenticator is proved in two layers:

- **Value layer.** The fields of each authenticator class form a value (`MtlsFields`, `ApiKeyFields`, `Aws4Fields`, `ApiClientFields`). Each operation is a function on that value, and its `ensures` clauses carry the properties.
- **Object layer.** The classes keep the fields as mutable `var`s. Their `Init`, `GetPrivateKey`, `SetupAgent` and `ConfigureClient` methods update them step by step, as the TypeScript does. Each method is proved equal to its function: the new fields and the thrown error are what the function computes from the old fields.

How TypeScript concepts are represented:

- **Optional strings.** `string | undefined` is `Option<string>`. JavaScript truthiness of such a value is `Filled`: defined and not `""`.
- **Outside world.** It is a `Context` holding three maps: the process environment (`process.env`), the secret store (secret id to secret string) and the parameter store (name to value).
- **Thrown error.** It is a `Failure`. `Failure.Message` gives the exact text of the `Error`.
- **Request configuration.** It is a map from property name to a `ConfigValue`, and object spread is map union.
- **axios instance.** An `HttpClient` object whose only state is its list of request interceptors.
- **Network.** A function that the caller passes in. It maps what is sent to a response body or an error shape (`TransportError`).

There are no traits, so the authenticator interface (`ApiClientAuthenticator`) is modelled differently:

- `Authenticator` is a datatype tagged by class that wraps a reference to one of the three objects.
- `AuthState` is the value view of such an object.
- The client's three loops are proved against folds over the `AuthState` list: `InitAll`, `ClientSetup` and `AuthenticatedRequest`.

Three behaviours of the code are easy to misread; the model keeps them as written:

- **Options merge.** `{...defaultRequestConfig, ...request}` is a shallow spread. So per-call `headers` replace the default `headers` object wholesale; they are not merged key by key (`MergeReplacesHeaders`).
- **What gets sent.** `configureRequest` runs the fold only so that its throws take effect, and then returns the caller's `request` (src/confiruable-api-client.ts:58). So the transport receives the un-authenticated request. The folded value is still exposed as `AuthenticatedRequest`, with its properties proved.
- **Errors outside the `try`.** An error thrown by `createClient` or `configureRequest` happens before the `try` block. It reaches the caller unchanged rather than as the generic message.

## Model

| member | source | states |
|---|---|---|
| AwsUtility.GetSecretValue | src/aws-utility.ts:10-21 | Outcome by case: an absent or empty id gives "no secret arn provided" before any lookup; a stored non-empty secret is returned; a missing or empty secret gives "No secret value found for arn" with the id. A success is never empty. |
| AwsUtility.GetParameterValue | src/aws-utility.ts:30-38 | Fails exactly when the name is absent or empty ("no parameter name provided"). Otherwise it returns the stored value, which is undefined exactly when the name is not in the store. |
| MtlsAuth.InitFields | src/mlts-authenticator.ts:32-53 | The two parameter names are always taken from the environment under the prefix. Without both names and without both certificate and CA it throws before any lookup. A supplied key, certificate or CA is kept. After a successful `init` an unset key is the secret stored under the id that `prefix_PRIVATE_KEY_ARN` names; a failed key fetch throws its error unchanged, with only the names updated. It succeeds exactly when a source is given and the key is supplied or fetchable. Certificate and CA change only when both names are set, and then an unset one becomes the parameter stored under its name. |
| MtlsAuth.ConfigureRequestFields | src/mlts-authenticator.ts:60-75 | Throws "Not initialized!" exactly when certificate, CA or key is unset. Otherwise it adds or replaces only `httpsAgent`, with the agent built from certificate, key and CA, and keeps every other property. |
| MtlsAuth.SuppliedKeyNeedsNoSecret | src/mlts-authenticator.ts:44-47 | With a key supplied, the secret store has no influence on `init`. |
| MtlsAuth.GuardPrecedesLookups | src/mlts-authenticator.ts:37-42 | When the certificate-source guard fails, neither store influences `init`, and it throws the missing-sources error. |
| MtlsAuth.InitIdempotent | src/mlts-authenticator.ts:32-53 | A second `init` after a successful one changes nothing and succeeds. |
| MtlsAuth.InitThenReady | src/mlts-authenticator.ts:49-53 | After a successful `init`, `configureRequest` goes through exactly when certificate and CA ended up set. |
| MtlsAuth.MtlsAuthenticator.constructor | src/mlts-authenticator.ts:21-26 | Stores certificate, key and CA as given; both parameter names start unset. |
| MtlsAuth.MtlsAuthenticator.Init | src/mlts-authenticator.ts:32-53 | The new fields and the thrown error are `InitFields` of the old fields; fields assigned before a throw keep their new values. |
| MtlsAuth.MtlsAuthenticator.ConfigureRequest | src/mlts-authenticator.ts:60-75 | Refused exactly when certificate, CA or key is unset; otherwise the given configuration with `httpsAgent` set to the agent built from the current certificate, key and CA. |
| MtlsAuth.MtlsAuthenticator.ConfigureClient | src/mlts-authenticator.ts:55-57 | Returns the client it was given. |
| ApiKeyAuth.InitFields | src/api-key-authenticator.ts:23-36 | A supplied key or header name is kept. An unset key becomes the fetched secret; a failed key fetch throws its error with the fields unchanged. A failed header-name fetch throws its error with only the key updated. An unset header name becomes the fetched parameter, which may be undefined. It succeeds exactly when each of key and header name is supplied or fetchable. |
| ApiKeyAuth.ConfigureRequestFields | src/api-key-authenticator.ts:42-54 | Throws "not configured properly" exactly when header name or key is unset. Otherwise `headers` is a header object equal to the old headers plus `headerName: apiKey`, and every other property and header is kept. |
| ApiKeyAuth.ConfigureRequestIdempotent | src/api-key-authenticator.ts:42-54 | Configuring a request twice gives the same request as configuring it once. |
| ApiKeyAuth.SuppliedValuesNeedNoStore | src/api-key-authenticator.ts:26-34 | With key and header name supplied, `init` consults nothing and succeeds with the fields unchanged. |
| ApiKeyAuth.KeyFailureSkipsHeaderFetch | src/api-key-authenticator.ts:26-34 | When the key fetch throws, the parameter store has no influence on `init`. |
| ApiKeyAuth.MissingHeaderParameterMeansNotConfigured | src/api-key-authenticator.ts:31-45 | `init` can succeed while the header parameter is absent from the store, and every later request is then refused as not configured. |
| ApiKeyAuth.InitIdempotent | src/api-key-authenticator.ts:23-36 | A second `init` after a successful one changes nothing and succeeds. |
| ApiKeyAuth.ApiKeyAuthenticator.constructor | src/api-key-authenticator.ts:17-21 | Stores key and header name as given. |
| ApiKeyAuth.ApiKeyAuthenticator.Init | src/api-key-authenticator.ts:23-36 | The new fields and the thrown error are `InitFields` of the old fields. |
| ApiKeyAuth.ApiKeyAuthenticator.ConfigureRequest | src/api-key-authenticator.ts:42-54 | Refused exactly when header name or key is unset; otherwise the given configuration with only `headers` added or replaced, holding the old header entries plus the current key under the current header name; every other property keeps its value. |
| ApiKeyAuth.ApiKeyAuthenticator.ConfigureClient | src/api-key-authenticator.ts:38-40 | Returns the client it was given. |
| Aws4Auth.OrDefault | src/aws-sign-authenticator.ts:24-25 | `??`: only an undefined value is replaced by the default; an empty string is kept. |
| Aws4Auth.InitFields | src/aws-sign-authenticator.ts:28-41 | Region and service are never touched, and supplied credentials are kept. An unset credential becomes the secret fetched by the id in `prefix_ACCESS_KEY_ID` or `prefix_SECRET_KEY`. A failed access-key-id fetch throws its error with the fields unchanged; a failed secret-key fetch throws its error with only the access key id updated. It succeeds exactly when each credential is supplied or fetchable. |
| Aws4Auth.ConfigureClientFields | src/aws-sign-authenticator.ts:43-60 | Throws "AWS4 signature authenticator is not initialized." exactly when a credential is unset. Otherwise it keeps the existing interceptors and appends exactly one signing interceptor built from region, service and both credentials. |
| Aws4Auth.SuppliedCredentialsNeedNoStore | src/aws-sign-authenticator.ts:31-39 | With both credentials supplied, `init` consults nothing and succeeds with the fields unchanged. |
| Aws4Auth.InitIdempotent | src/aws-sign-authenticator.ts:28-41 | A second `init` after a successful one changes nothing and succeeds. |
| Aws4Auth.Aws4SignatureAuthenticator.constructor | src/aws-sign-authenticator.ts:20-26 | Stores the credentials. Region and service default to "eu-west-1" and "execute-api" only when undefined. |
| Aws4Auth.Aws4SignatureAuthenticator.Init | src/aws-sign-authenticator.ts:28-41 | The new fields and the thrown error are `InitFields` of the old fields. |
| Aws4Auth.Aws4SignatureAuthenticator.ConfigureClient | src/aws-sign-authenticator.ts:43-60 | On success the same client is returned, with its interceptor list as `ConfigureClientFields` computes it. On a throw the client's interceptors are unchanged. |
| Aws4Auth.Aws4SignatureAuthenticator.ConfigureRequest | src/aws-sign-authenticator.ts:62-64 | Returns the configuration it was given, unchanged. |
| Common.HttpClient.constructor | src/confiruable-api-client.ts:38 | `new Axios()`: a client with no request interceptors. |
| ConfigurableClient.AuthState.Init | src/confiruable-api-client.ts:8 | `init` of any variant keeps the variant, and after an `init` that did not throw, that variant's `configureClient` goes through. |
| ConfigurableClient.AuthState.ConfigureRequest | src/confiruable-api-client.ts:10 | Per variant, `configureRequest` goes through exactly when that variant's credentials are set, and never removes a property. |
| ConfigurableClient.AuthState.ConfigureClient | src/confiruable-api-client.ts:9 | Per variant, `configureClient` goes through exactly when the variant is ready (only the signing variant can refuse), and a refusal is the signing authenticator's "not initialized" error. |
| ConfigurableClient.Authenticator.ConfigureRequest | src/confiruable-api-client.ts:10 | Dispatching to the object's class computes the value-level `configureRequest` of its current state. |
| ConfigurableClient.InitAuthenticator | src/confiruable-api-client.ts:8 | Dispatching `init` to the object's class changes its state as the value-level `Init` says. |
| ConfigurableClient.ConfigureClientWith | src/confiruable-api-client.ts:9 | Dispatching `configureClient` to the object's class updates the client's interceptors as the value-level `ConfigureClient` says, or throws its error. |
| ConfigurableClient.InitAll | src/confiruable-api-client.ts:28-32 | The fold of `init` over the list keeps one state per authenticator; what it computes is stated by `InitAllStopsAtFirstFailure` and `InitAllAfterSteps`. |
| ConfigurableClient.InitAllStopsAtFirstFailure | src/confiruable-api-client.ts:28-32 | Either every authenticator was initialised without a throw, or there is a first one, `k`, that threw. In that case all before it were initialised, its error is the result, it holds its partial state, and none after it was touched. |
| ConfigurableClient.InitAllAfterSteps | src/confiruable-api-client.ts:28-32 | Conversely, the fold is rebuilt from individual successful `init` calls followed by all-done or one throw. |
| ConfigurableClient.ClientSetup | src/confiruable-api-client.ts:37-43 | A configured client keeps every interceptor it had before. |
| ConfigurableClient.ClientSetupRegistersInOrder | src/confiruable-api-client.ts:37-43 | Client setup goes through exactly when every authenticator is ready. The client then carries one signing interceptor per signing authenticator, in list order, after the ones it had. A failed setup throws the signing authenticator's "not initialized" error, not the generic message. |
| ConfigurableClient.Merge | src/confiruable-api-client.ts:51-54 | The merged options have every per-call property with its per-call value, plus the default properties the call does not set. |
| ConfigurableClient.MergeReplacesHeaders | src/confiruable-api-client.ts:51-54 | The merge is shallow: a per-call `headers` object hides the default one entirely. |
| ConfigurableClient.AuthenticatedRequest | src/confiruable-api-client.ts:55-57 | The folded configuration keeps every property of the merged options. |
| ConfigurableClient.AuthenticatedRequestFailsAtFirstUnready | src/confiruable-api-client.ts:55-57 | The fold goes through exactly when every authenticator is ready. Otherwise its error is that of the first authenticator that is not ready. |
| ConfigurableClient.UnwrittenHeaderKept | src/confiruable-api-client.ts:55-57 | A header that no authenticator writes keeps its value through the fold. |
| ConfigurableClient.LastHeaderWriterWins | src/confiruable-api-client.ts:55-57 | On a header collision, the value of the last authenticator that writes that header wins. |
| ConfigurableClient.Delivered | src/confiruable-api-client.ts:70-97 | A response body is returned unchanged. Any transport error, whatever its shape, becomes "Het ophalen van gegevens is misgegaan.". |
| ConfigurableClient.ConfigurableApiClient.constructor | src/confiruable-api-client.ts:19-23 | Stores prefix, default options and authenticators as given. |
| ConfigurableClient.ConfigurableApiClient.Init | src/confiruable-api-client.ts:28-32 | The authenticators' new states and the thrown error are `InitAll` of their old states. |
| ConfigurableClient.ConfigurableApiClient.CreateClient | src/confiruable-api-client.ts:37-43 | Returns a fresh client whose interceptors are `ClientSetup` of the authenticators' states from an empty list, or that fold's error. |
| ConfigurableClient.ConfigurableApiClient.ConfigureRequest | src/confiruable-api-client.ts:50-59 | Throws what `AuthenticatedRequest` over the merged options throws; otherwise it returns the caller's request unchanged. |
| ConfigurableClient.ConfigurableApiClient.RequestData | src/confiruable-api-client.ts:65-98 | An error from client setup comes first, then an error from request configuration, both unchanged. Otherwise the transport is called with the configured interceptors and the caller's request, and its outcome goes through `Delivered`. |
| LegacyClient.GetPrivateKeyFields | src/index.ts:87-98 | A held key is returned with no lookup. A missing id gives "no secret arn provided". A fetched key is stored even when it then throws "No secret value found". It succeeds exactly when a key is held or a non-empty secret is stored under the id. Only the key field changes. |
| LegacyClient.InitFields | src/index.ts:70-80 | Throws before any lookup unless both names or both certificate and CA are set. A failed `getPrivateKey` throws its error and leaves the fields as it left them. It succeeds exactly when a source is given and `getPrivateKey` succeeds, and then the key is the one `getPrivateKey` returned. Supplied certificate and CA are kept. The missing ones are fetched by name only when both names are set. A throw leaves certificate and CA as they were. |
| LegacyClient.SetupAgentFields | src/index.ts:171-183 | `init` runs only when certificate or CA is missing. An error of `init` is passed on unchanged. If certificate or CA is still missing afterwards it throws "Error setting cert or CA". With certificate and CA supplied, the fields and the outcome are those of `getPrivateKey`, whose error is passed on unchanged. A success builds the agent from the certificate, key and CA the client now holds, all non-empty. |
| LegacyClient.HandleErrors | src/index.ts:146-169 | "Too slow" exactly for an axios error without a response whose code is `ECONNABORTED`. Every other error, including one with a response and that code, is the generic failure. |
| LegacyClient.CallConfig | src/index.ts:116-120 | The call options are exactly `httpsAgent`, `headers` and `timeout`, holding the agent, the caller's headers and the given timeout. |
| LegacyClient.Exchange | src/index.ts:112-144 | Agent setup comes first and its error is passed on without calling the transport. Otherwise one call carrying the agent, the headers and the current timeout is sent; the response body is returned unchanged, and a transport error goes through `HandleErrors`. |
| LegacyClient.PrivateKeyCached | src/index.ts:88-97 | Once a key was obtained, `getPrivateKey` consults no store again and returns the same key. |
| LegacyClient.InitIdempotent | src/index.ts:70-80 | A second `init` after a successful one changes nothing and succeeds. |
| LegacyClient.SetupAgentStable | src/index.ts:171-183 | After an agent was set up, the next setup builds the same agent from the held fields, whatever the environment and stores now hold. |
| LegacyClient.SuppliedCertificatesNeedNoParameters | src/index.ts:172-178 | With certificate and CA supplied, setting up the agent depends on neither the parameter store nor the parameter names, and changes only the key. |
| LegacyClient.NoCallWithoutAgent | src/index.ts:113 | When agent setup fails, the outcome does not depend on the transport. |
| LegacyClient.TransportFailuresAreClassified | src/index.ts:123-126 | Once the transport was reached, the only possible errors are the two fetch messages. |
| LegacyClient.ApiClient.constructor | src/index.ts:35-50 | Stores certificate, key and CA as given, and reads `MTLS_CLIENT_CERT_NAME` and `MTLS_ROOT_CA_NAME` from the environment once. The timeout starts at 2000. |
| LegacyClient.ApiClient.SetTimeout | src/index.ts:62-64 | Replaces the timeout and no other field. |
| LegacyClient.ApiClient.GetPrivateKey | src/index.ts:87-98 | The new fields and the result are `GetPrivateKeyFields` of the old fields; the timeout is unchanged. |
| LegacyClient.ApiClient.Init | src/index.ts:70-80 | The new fields and the thrown error are `InitFields` of the old fields; the timeout is unchanged. |
| LegacyClient.ApiClient.SetupAgent | src/index.ts:171-183 | The new fields and the result are `SetupAgentFields` of the old fields. |
| LegacyClient.ApiClient.PostData | src/index.ts:112-127 | The new fields and the result are `Exchange` of a POST with the body, using the client's transport and timeout. |
| LegacyClient.ApiClient.GetData | src/index.ts:129-144 | The new fields and the result are `Exchange` of a GET, using the client's transport and timeout. |
| LegacyClient.ApiClient.RequestData | src/index.ts:108-110 | Behaves exactly as `PostData`. |

## Left out

- `ApiClient.fromParameterStore` (src/index.ts:16-27) fetches its three values concurrently with `Promise.all`. It also passes them to the constructor as `(cert, ca, key)`, which swaps key and CA against the constructor's `(cert, key, ca)`. It is not modelled.
- async/await and suspension: every call is sequential. A rejected promise is a `Failure` result, and nothing runs concurrently.
- `console.time`, `console.timeEnd`, `console.log` and `console.error` are observability only and are not modelled.
- The AWS SDK clients are stores given as maps.
  - A secret missing from the store is modelled as no secret string. The SDK's own exception for it is not modelled.
  - A parameter missing from the store is modelled as an undefined value, not as `ParameterNotFound`.
- `@gemeentenijmegen/utils` (`AWS.getSecret` and `AWS.getParameter`, used by `ApiClient`) is not part of this model. Its two functions are plain map lookups that yield undefined for a missing entry.
- The network and axios itself are a function the caller supplies, from what is sent to a response body or an error shape.
  - `ConfigurableApiClient` passes that function the client's interceptor list and the request.
  - `ApiClient` holds one such function from construction, standing for the given or default axios instance (`initAxios`, src/index.ts:52-60).
  - HTTP status handling and response parsing are not modelled.
- `https.Agent` and `aws4Interceptor` are plain records of their options. There is no TLS and no request signing.
- The shape of `headers` passed to `ApiClient` is not modelled; it is any `ConfigValue`, sent as given. In a request configuration, a `headers` property that is not an object counts as no header entries.
- LegacyClient.ApiClient.SetTimeout: the timeout is a JavaScript `number`, modelled as an unbounded integer; the value is only stored and forwarded, so fractions and overflow play no part.
- Request and response bodies are opaque strings (`Payload`); generic typing of `requestData<T>` is not modelled.
- ConfigurableClient.ConfigurableApiClient.Init: requires the authenticator objects to be pairwise distinct. The source also accepts the same object twice in the list; that aliasing is not modelled.
- ConfigurableClient.InitAll: its own contract states only that every authenticator keeps a state. Its meaning is stated by `InitAllStopsAtFirstFailure` and `InitAllAfterSteps`.
- The `ApiClientAuthenticator` abstract class is not a trait here. The three authenticator classes are reached through the tagged `Authenticator` datatype, so a fourth user-defined authenticator is not modelled.
