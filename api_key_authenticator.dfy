/**
 * The static API-key authenticator (src/api-key-authenticator.ts): it resolves a key
 * from the secret store and a header name from the parameter store once, and writes
 * the key under that header in every request configuration it is given.
 */
module ApiKeyAuth {
  import opened Wrappers
  import opened Common
  import opened AwsUtility

  const API_KEY_SUFFIX := "_API_KEY"
  const API_KEY_HEADER_SUFFIX := "_API_KEY_HEADER"

  /** The fields of an `ApiKeyAuthenticator`, as a value. */
  datatype ApiKeyFields = ApiKeyFields(apiKey: Option<string>, headerName: Option<string>)

  /** The key as `init` fetches it: by the secret id held in the environment. */
  function FetchedKey(prefix: string, ctx: Context): Result<string, Failure> {
    GetSecretValue(ctx.secrets, Lookup(ctx.env, prefix + API_KEY_SUFFIX))
  }

  /** The header name as `init` fetches it: by the parameter name held in the environment. */
  function FetchedHeaderName(prefix: string, ctx: Context): Result<Option<string>, Failure> {
    GetParameterValue(ctx.parameters, Lookup(ctx.env, prefix + API_KEY_HEADER_SUFFIX))
  }

  /**
   * What `init(prefix)` does to the fields: fetch the key if it is unset, then the
   * header name if it is unset; the first throw stops it.
   */
  function InitFields(s: ApiKeyFields, prefix: string, ctx: Context): (o: InitOutcome<ApiKeyFields>)
    ensures Filled(s.apiKey) ==> o.state.apiKey == s.apiKey
    ensures Filled(s.headerName) ==> o.state.headerName == s.headerName
    ensures !Filled(s.apiKey) && FetchedKey(prefix, ctx).Failure? ==>
              o == InitOutcome(s, Some(FetchedKey(prefix, ctx).error))
    ensures !Filled(s.apiKey) && FetchedKey(prefix, ctx).Success? ==>
              o.state.apiKey == Some(FetchedKey(prefix, ctx).value)
    ensures o.failure.None? <==>
              (Filled(s.apiKey) || FetchedKey(prefix, ctx).Success?) &&
              (Filled(s.headerName) || FetchedHeaderName(prefix, ctx).Success?)
    ensures !Filled(s.headerName) && o.failure.None? ==>
              o.state.headerName == FetchedHeaderName(prefix, ctx).value
    ensures o.failure.None? ==> Filled(o.state.apiKey)
    ensures (Filled(s.apiKey) || FetchedKey(prefix, ctx).Success?) &&
            !Filled(s.headerName) && FetchedHeaderName(prefix, ctx).Failure? ==>
              o == InitOutcome(s.(apiKey := o.state.apiKey), Some(FetchedHeaderName(prefix, ctx).error))
  {
    var key := if Filled(s.apiKey) then Success(s.apiKey.value) else FetchedKey(prefix, ctx);
    if key.Failure? then
      InitOutcome(s, Some(key.error))
    else
      var keyed := s.(apiKey := Some(key.value));
      var name := if Filled(s.headerName) then Success(s.headerName) else FetchedHeaderName(prefix, ctx);
      if name.Failure? then InitOutcome(keyed, Some(name.error))
      else InitOutcome(keyed.(headerName := name.value), None)
  }

  /** `configureRequest`: requires both fields, then sets `headers[headerName] = apiKey`. */
  function ConfigureRequestFields(s: ApiKeyFields, config: RequestConfig): (r: Result<RequestConfig, Failure>)
    ensures r.Failure? <==> !Filled(s.headerName) || !Filled(s.apiKey)
    ensures r.Failure? ==> r.error == ApiKeyNotConfigured
    ensures r.Success? ==> r.value.Keys == config.Keys + {HEADERS}
    ensures r.Success? ==> forall k :: k in config && k != HEADERS ==> r.value[k] == config[k]
    ensures r.Success? ==> r.value[HEADERS].HeaderMap?
    ensures r.Success? ==>
              var h := HeadersOf(r.value);
              && h.Keys == HeadersOf(config).Keys + {s.headerName.value}
              && h[s.headerName.value] == s.apiKey.value
              && forall k :: k in HeadersOf(config) && k != s.headerName.value ==> h[k] == HeadersOf(config)[k]
  {
    if !Filled(s.headerName) || !Filled(s.apiKey) then
      Failure(ApiKeyNotConfigured)
    else
      Success(config[HEADERS := HeaderMap(HeadersOf(config)[s.headerName.value := s.apiKey.value])])
  }

  /** Configuring a request twice is the same as configuring it once. */
  lemma ConfigureRequestIdempotent(s: ApiKeyFields, config: RequestConfig)
    requires ConfigureRequestFields(s, config).Success?
    ensures ConfigureRequestFields(s, ConfigureRequestFields(s, config).value) == ConfigureRequestFields(s, config)
  {
    var once := ConfigureRequestFields(s, config).value;
    var twice := ConfigureRequestFields(s, once).value;
    assert HeadersOf(twice) == HeadersOf(once);
    assert twice == once;
  }

  /** A supplied key is never looked up, and a supplied header name never either. */
  lemma SuppliedValuesNeedNoStore(s: ApiKeyFields, prefix: string, ctx: Context, other: Context)
    requires Filled(s.apiKey) && Filled(s.headerName)
    ensures InitFields(s, prefix, ctx) == InitFields(s, prefix, other)
    ensures InitFields(s, prefix, ctx) == InitOutcome(s, None)
  {
  }

  /** When the key fetch throws, the parameter store is never consulted. */
  lemma KeyFailureSkipsHeaderFetch(s: ApiKeyFields, prefix: string, ctx: Context, otherParameters: map<string, string>)
    requires !Filled(s.apiKey) && FetchedKey(prefix, ctx).Failure?
    ensures InitFields(s, prefix, ctx) == InitFields(s, prefix, ctx.(parameters := otherParameters))
  {
  }

  /** `init` can succeed with the header name still unset (the parameter is absent from the
      store), after which every request is refused as not configured. */
  lemma MissingHeaderParameterMeansNotConfigured(s: ApiKeyFields, prefix: string, ctx: Context, config: RequestConfig)
    requires !Filled(s.headerName)
    requires InitFields(s, prefix, ctx).failure.None?
    requires Lookup(ctx.env, prefix + API_KEY_HEADER_SUFFIX).Some?
    requires Lookup(ctx.env, prefix + API_KEY_HEADER_SUFFIX).value !in ctx.parameters
    ensures ConfigureRequestFields(InitFields(s, prefix, ctx).state, config) == Failure(ApiKeyNotConfigured)
  {
  }

  /** Running `init` again after it succeeded changes nothing and succeeds again. */
  lemma InitIdempotent(s: ApiKeyFields, prefix: string, ctx: Context)
    requires InitFields(s, prefix, ctx).failure.None?
    ensures InitFields(InitFields(s, prefix, ctx).state, prefix, ctx) == InitFields(s, prefix, ctx)
  {
  }

  /** An API-key authenticator object. */
  class ApiKeyAuthenticator {
    var apiKey: Option<string>
    var headerName: Option<string>

    function Fields(): ApiKeyFields
      reads this
    {
      ApiKeyFields(apiKey, headerName)
    }

    constructor (apiKey: Option<string>, headerName: Option<string>)
      ensures Fields() == ApiKeyFields(apiKey, headerName)
    {
      this.apiKey := apiKey;
      this.headerName := headerName;
    }

    /** `init(prefix)`: the key is assigned before the header-name fetch may throw. */
    method Init(prefix: string, ctx: Context) returns (failure: Option<Failure>)
      modifies this
      ensures InitOutcome(Fields(), failure) == InitFields(old(Fields()), prefix, ctx)
    {
      if !Filled(apiKey) {
        var key := GetSecretValue(ctx.secrets, Lookup(ctx.env, prefix + API_KEY_SUFFIX));
        if key.Failure? {
          return Some(key.error);
        }
        apiKey := Some(key.value);
      }
      if !Filled(headerName) {
        var name := GetParameterValue(ctx.parameters, Lookup(ctx.env, prefix + API_KEY_HEADER_SUFFIX));
        if name.Failure? {
          return Some(name.error);
        }
        headerName := name.value;
      }
      failure := None;
    }

    /** `configureClient` is the identity. */
    method ConfigureClient(client: HttpClient) returns (r: HttpClient)
      ensures r == client
    {
      r := client;
    }

    /** `configureRequest` on the current fields: refused until key and header name are
        set, then the key is written under that header. */
    function ConfigureRequest(config: RequestConfig): (r: Result<RequestConfig, Failure>)
      reads this
      ensures r.Failure? <==> !Filled(headerName) || !Filled(apiKey)
      ensures r.Success? ==> r.value == config[HEADERS := HeaderMap(HeadersOf(config)[headerName.value := apiKey.value])]
    {
      ConfigureRequestFields(Fields(), config)
    }
  }
}
